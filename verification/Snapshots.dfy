/** The snapshot of the engine that is sent to clients. */
module Snapshots {
  import opened Wrappers
  import opened ChessTypes
  import opened Arbiter
  import Engine
  import J = Json
  import P = Protocol

  function StateToString(s: PieceState): string {
    match s
    case Idle => "idle"
    case Moving => "moving"
    case Airborne => "airborne"
    case Captured => "captured"
  }

  function ColorToString(c: PieceColor): string {
    if c == White then "w" else "b"
  }

  function KindToString(k: PieceKind): string {
    [Engine.KindChar(k)]
  }

  function Token(p: Piece): string {
    ColorToString(p.color) + KindToString(p.kind)
  }

  /** A moving piece is shown on the current cell of its motion, any other piece on its board cell. */
  function VisiblePositionOf(motions: seq<Motion>, p: PieceRef, cell: Position): Position {
    match MotionOf(motions, p)
    case Some(m) => m.currentCell
    case None => cell
  }

  function PieceView(s: Engine.State, p: PieceRef, cell: Position): P.PieceSnapshot {
    P.PieceSnapshot(s.Of(p).id, Token(s.Of(p)), VisiblePositionOf(s.motions, p, cell), StateToString(s.Of(p).state),
                    s.Of(p).hasMoved, s.Of(p).RemainingCooldownMs(s.now), s.Of(p).totalCooldownMs)
  }

  function MotionView(s: Engine.State, m: Motion): P.MotionSnapshot {
    P.MotionSnapshot(s.Of(m.piece).id, m.source, m.destination, m.currentCell, m.rowStep, m.colStep, m.directMove,
                     m.stepDurationMs, m.nextStepTimeMs, m.order)
  }

  function JumpView(s: Engine.State, j: Jump): P.JumpSnapshot {
    P.JumpSnapshot(s.Of(j.piece).id, j.cell, j.finishTimeMs)
  }

  function HistoryView(e: Engine.HistoryEntry): P.MoveHistorySnapshot {
    P.MoveHistorySnapshot(e.completedAtMs, ColorToString(e.color), KindToString(e.pieceKind), e.source, e.destination,
                          e.wasCapture, e.wasPromotion, e.wasJump, e.notation)
  }

  function MotionViews(s: Engine.State, ms: seq<Motion>): (r: seq<P.MotionSnapshot>)
    ensures |r| == |ms| && forall i :: 0 <= i < |ms| ==> r[i] == MotionView(s, ms[i])
  {
    if ms == [] then [] else [MotionView(s, ms[0])] + MotionViews(s, ms[1..])
  }

  function JumpViews(s: Engine.State, js: seq<Jump>): (r: seq<P.JumpSnapshot>)
    ensures |r| == |js| && forall i :: 0 <= i < |js| ==> r[i] == JumpView(s, js[i])
  {
    if js == [] then [] else [JumpView(s, js[0])] + JumpViews(s, js[1..])
  }

  function HistoryViews(es: seq<Engine.HistoryEntry>): (r: seq<P.MoveHistorySnapshot>)
    ensures |r| == |es| && forall i :: 0 <= i < |es| ==> r[i] == HistoryView(es[i])
  {
    if es == [] then [] else [HistoryView(es[0])] + HistoryViews(es[1..])
  }

  /** The piece a cell contributes: none if it is empty, its piece is captured, or a piece with that number was added before. */
  function Shown(s: Engine.State, cell: Position, added: set<int>): Option<PieceRef> {
    match s.grid.Get(cell)
    case None => None
    case Some(p) => if s.Of(p).state == Captured || s.Of(p).id in added then None else Some(p)
  }

  /** The pieces found from a cell on, row by row. */
  function PiecesFrom(s: Engine.State, row: nat, col: nat, added: set<int>): seq<P.PieceSnapshot>
    decreases s.grid.height - row, s.grid.width - col
  {
    if row >= s.grid.height then []
    else if col >= s.grid.width then PiecesFrom(s, row + 1, 0, added)
    else
      match Shown(s, Position(row, col), added)
      case None => PiecesFrom(s, row, col + 1, added)
      case Some(p) =>
        [PieceView(s, p, Position(row, col))] + PiecesFrom(s, row, col + 1, added + {s.Of(p).id})
  }

  /** The names and readiness that the server puts on top of what the engine shows. */
  datatype Players = Players(whiteUsername: string, blackUsername: string, ready: bool, startsAtEpochMs: int)

  function Build(s: Engine.State, players: Players): P.GameStateSnapshot {
    P.GameStateSnapshot(
      s.now, s.gameOver, s.whiteScore, s.blackScore,
      players.whiteUsername, players.blackUsername, players.ready, players.startsAtEpochMs,
      PiecesFrom(s, 0, 0, {}), MotionViews(s, s.motions), JumpViews(s, s.jumps),
      HistoryViews(s.whiteHistory), HistoryViews(s.blackHistory))
  }

  // ----- what the pieces of a snapshot show

  ghost predicate DistinctIds(s: Engine.State) {
    forall p, q :: 0 <= p < |s.pieces| && 0 <= q < |s.pieces| && s.pieces[p].id == s.pieces[q].id ==> p == q
  }

  predicate AtOrAfter(c: Position, row: nat, col: nat) {
    c.row > row || (c.row == row && c.col >= col)
  }

  /** Every view comes from a cell that stores a live piece. */
  lemma {:induction false} ViewsComeFromCells(s: Engine.State, row: nat, col: nat, added: set<int>, v: P.PieceSnapshot)
    requires v in PiecesFrom(s, row, col, added)
    ensures exists c :: AtOrAfter(c, row, col) && s.grid.Get(c).Some? && s.Of(s.grid.Get(c).value).state != Captured
                        && v == PieceView(s, s.grid.Get(c).value, c) && v.id !in added
    decreases s.grid.height - row, s.grid.width - col
  {
    if col >= s.grid.width {
      ViewsComeFromCells(s, row + 1, 0, added, v);
    } else {
      match Shown(s, Position(row, col), added)
      case None => ViewsComeFromCells(s, row, col + 1, added, v);
      case Some(p) =>
        if v != PieceView(s, p, Position(row, col)) {
          ViewsComeFromCells(s, row, col + 1, added + {s.Of(p).id}, v);
        } else {
          assert AtOrAfter(Position(row, col), row, col);
        }
    }
  }

  /** Every live piece stored on a cell still to be scanned is shown, unless its number is taken. */
  lemma {:induction false} CellsAreViewed(s: Engine.State, row: nat, col: nat, added: set<int>, c: Position)
    requires AtOrAfter(c, row, col) && s.grid.Get(c).Some? && s.Of(s.grid.Get(c).value).state != Captured
    requires s.Of(s.grid.Get(c).value).id !in added
    ensures exists v :: v in PiecesFrom(s, row, col, added) && v.id == s.Of(s.grid.Get(c).value).id
    decreases s.grid.height - row, s.grid.width - col
  {
    if col >= s.grid.width {
      CellsAreViewed(s, row + 1, 0, added, c);
    } else {
      match Shown(s, Position(row, col), added)
      case None => CellsAreViewed(s, row, col + 1, added, c);
      case Some(p) =>
        var first := PieceView(s, p, Position(row, col));
        var rest := PiecesFrom(s, row, col + 1, added + {s.Of(p).id});
        assert PiecesFrom(s, row, col, added) == [first] + rest;
        if s.Of(p).id == s.Of(s.grid.Get(c).value).id {
          assert first in PiecesFrom(s, row, col, added);
        } else {
          CellsAreViewed(s, row, col + 1, added + {s.Of(p).id}, c);
          var v :| v in rest && v.id == s.Of(s.grid.Get(c).value).id;
          assert v in PiecesFrom(s, row, col, added);
        }
    }
  }

  ghost predicate DistinctViews(vs: seq<P.PieceSnapshot>) {
    forall i, j :: 0 <= i < j < |vs| ==> vs[i].id != vs[j].id
  }

  /** No number is shown twice. */
  lemma {:induction false} ViewsAreDistinct(s: Engine.State, row: nat, col: nat, added: set<int>)
    ensures DistinctViews(PiecesFrom(s, row, col, added))
    decreases s.grid.height - row, s.grid.width - col
  {
    if row < s.grid.height {
      if col >= s.grid.width {
        ViewsAreDistinct(s, row + 1, 0, added);
      } else {
        match Shown(s, Position(row, col), added)
        case None => ViewsAreDistinct(s, row, col + 1, added);
        case Some(p) =>
          var more := added + {s.Of(p).id};
          ViewsAreDistinct(s, row, col + 1, more);
          forall v | v in PiecesFrom(s, row, col + 1, more) ensures v.id != s.Of(p).id {
            ViewsComeFromCells(s, row, col + 1, more, v);
          }
      }
    }
  }
}
