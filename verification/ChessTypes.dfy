/** Values of the chess engine: positions, pieces and the grid as a value. */
module ChessTypes {
  import opened Wrappers

  datatype Position = Position(row: int, col: int)

  /** A cell of an 8x8 board. */
  predicate WithinEight(p: Position) {
    0 <= p.row < 8 && 0 <= p.col < 8
  }

  datatype PieceColor = White | Black

  datatype PieceKind = King | Queen | Rook | Bishop | Knight | Pawn

  datatype PieceState = Idle | Moving | Airborne | Captured

  function Opponent(c: PieceColor): PieceColor {
    if c == White then Black else White
  }

  /** The fields of one piece at one moment. */
  datatype Piece = Piece(
    id: int,
    color: PieceColor,
    kind: PieceKind,
    state: PieceState,
    cooldownStartedAtMs: int,
    cooldownUntilMs: int,
    totalCooldownMs: int,
    hasMoved: bool)
  {
    predicate IsOnCooldown(now: int) {
      state == Idle && now < cooldownUntilMs
    }

    function RemainingCooldownMs(now: int): int {
      if IsOnCooldown(now) then cooldownUntilMs - now else 0
    }

    function WithCooldown(now: int, durationMs: int): Piece {
      var d := if durationMs < 0 then 0 else durationMs;
      this.(cooldownStartedAtMs := now, totalCooldownMs := d, cooldownUntilMs := now + d)
    }
  }

  function FreshPiece(id: int, color: PieceColor, kind: PieceKind): Piece {
    Piece(id, color, kind, Idle, 0, 0, 0, false)
  }

  /** A shared pointer to a piece: its place in the roster of all pieces ever created. */
  type PieceRef = nat

  /** The grid: which piece, if any, each cell stores. */
  datatype Grid = Grid(height: nat, width: nat, cells: map<Position, PieceRef>) {
    predicate IsInside(p: Position) {
      0 <= p.row < height && 0 <= p.col < width
    }

    function Get(p: Position): Option<PieceRef> {
      if IsInside(p) && p in cells then Some(cells[p]) else None
    }

    predicate IsEmpty(p: Position) {
      Get(p).None?
    }

    function Remove(p: Position): Grid {
      if IsInside(p) then this.(cells := cells - {p}) else this
    }

    function Set(p: Position, r: PieceRef): Grid {
      if IsInside(p) then this.(cells := cells[p := r]) else this
    }

    /** The first cell, row by row, at or after (row, col) that stores r. */
    function CellFrom(r: PieceRef, row: nat, col: nat): (c: Option<Position>)
      ensures c.Some? ==> Get(c.value) == Some(r)
      ensures c.None? ==> forall q: Position ::
                (q.row > row || (q.row == row && q.col >= col)) && IsInside(q) ==> Get(q) != Some(r)
      decreases height - row, width - col
    {
      if row >= height then None
      else if col >= width then CellFrom(r, row + 1, 0)
      else if Get(Position(row, col)) == Some(r) then Some(Position(row, col))
      else CellFrom(r, row, col + 1)
    }

    /** The first cell that stores r, in the order the grid is scanned. */
    function CellOf(r: PieceRef): (c: Option<Position>)
      ensures c.Some? ==> Get(c.value) == Some(r)
      ensures c.None? ==> forall q: Position :: Get(q) != Some(r)
    {
      CellFrom(r, 0, 0)
    }

    function RemovePiece(r: PieceRef): Grid {
      match CellOf(r)
      case Some(c) => Remove(c)
      case None => this
    }
  }

  function Sign(v: int): int {
    if v > 0 then 1 else if v < 0 then -1 else 0
  }

  function Abs(v: int): nat {
    if v < 0 then -v else v
  }

  function Max(a: int, b: int): int {
    if a < b then b else a
  }

  /** The number of king steps between two cells. */
  function Distance(a: Position, b: Position): nat {
    Max(Abs(b.row - a.row), Abs(b.col - a.col))
  }

  /** step * k for a step of -1, 0 or 1. */
  function Scaled(step: int, k: int): int {
    if step > 0 then k else if step < 0 then -k else 0
  }

  /** The cell k unit steps from p in the direction (rowStep, colStep). */
  function Along(p: Position, rowStep: int, colStep: int, k: int): Position {
    Position(p.row + Scaled(rowStep, k), p.col + Scaled(colStep, k))
  }

  /** Two cells on one row, column or diagonal. */
  predicate Straight(a: Position, b: Position) {
    a.row == b.row || a.col == b.col || Abs(b.row - a.row) == Abs(b.col - a.col)
  }
}
