/** The movement rules as they run on a board: walking a path cell by cell, trying every attacker. */
module PieceRules {
  import opened Wrappers
  import opened ChessTypes
  import R = Rules
  import Board
  import Roster

  lemma FirstCell(source: Position, destination: Position)
    ensures var r, c := Sign(destination.row - source.row), Sign(destination.col - source.col);
            && Along(source, r, c, 1) == Position(source.row + r, source.col + c)
            && (source != destination ==> Distance(source, destination) >= 1)
            && (source == destination ==> Position(source.row + r, source.col + c) == source)
  {
  }

  /** Before the destination is met it is further away, and one step leads to the next cell of the line. */
  lemma NextCell(source: Position, destination: Position, k: nat)
    requires Straight(source, destination) && source != destination && k <= Distance(source, destination)
    requires Along(source, Sign(destination.row - source.row), Sign(destination.col - source.col), k) != destination
    ensures k < Distance(source, destination)
    ensures var r, c := Sign(destination.row - source.row), Sign(destination.col - source.col);
            && Along(source, r, c, k + 1).row == Along(source, r, c, k).row + r
            && Along(source, r, c, k + 1).col == Along(source, r, c, k).col + c
  {
    R.StraightLineReaches(source, destination, Distance(source, destination));
  }

  lemma LastCell(source: Position, destination: Position, k: nat)
    requires Straight(source, destination) && 1 <= k
    requires Along(source, Sign(destination.row - source.row), Sign(destination.col - source.col), k) == destination
    ensures source != destination ==> k == Distance(source, destination)
    ensures source == destination ==> Distance(source, destination) == 0
  {
  }

  /** Walks from the source, one step at a time, until the destination is met; callers ask only about straight lines, since off them it never is. */
  method IsPathClear(board: Board.Board, source: Position, destination: Position) returns (clear: bool)
    requires board.Valid() && Straight(source, destination)
    ensures clear == R.PathClear(board.View(), source, destination)
  {
    var rowStep := 0;
    var colStep := 0;
    if destination.row > source.row {
      rowStep := 1;
    } else if destination.row < source.row {
      rowStep := -1;
    }
    if destination.col > source.col {
      colStep := 1;
    } else if destination.col < source.col {
      colStep := -1;
    }
    var currentRow := source.row + rowStep;
    var currentCol := source.col + colStep;
    assert rowStep == Sign(destination.row - source.row) && colStep == Sign(destination.col - source.col);
    hide Along, Distance, Straight, Sign;
    ghost var k := 1;
    FirstCell(source, destination);
    while currentRow != destination.row || currentCol != destination.col
      invariant source != destination ==> 1 <= k <= Distance(source, destination)
      invariant source == destination ==> Position(currentRow, currentCol) == source
      invariant Position(currentRow, currentCol) == Along(source, rowStep, colStep, k)
      invariant forall i :: 1 <= i < k ==> board.View().IsEmpty(Along(source, rowStep, colStep, i))
      decreases Distance(source, destination) - k
    {
      var current := Position(currentRow, currentCol);
      NextCell(source, destination, k);
      if !board.IsEmpty(current) {
        return false;
      }
      currentRow := currentRow + rowStep;
      currentCol := currentCol + colStep;
      k := k + 1;
    }
    LastCell(source, destination, k);
    return true;
  }

  method CanMoveLikeRook(board: Board.Board, source: Position, destination: Position) returns (ok: bool)
    requires board.Valid()
    ensures ok == R.CanMoveLikeRook(board.View(), source, destination)
  {
    if source == destination || (source.row != destination.row && source.col != destination.col) {
      return false;
    }
    ok := IsPathClear(board, source, destination);
  }

  method CanMoveLikeBishop(board: Board.Board, source: Position, destination: Position) returns (ok: bool)
    requires board.Valid()
    ensures ok == R.CanMoveLikeBishop(board.View(), source, destination)
  {
    if source == destination || Abs(destination.row - source.row) != Abs(destination.col - source.col) {
      return false;
    }
    ok := IsPathClear(board, source, destination);
  }

  method CanMoveLikeQueen(board: Board.Board, source: Position, destination: Position) returns (ok: bool)
    requires board.Valid()
    ensures ok == R.CanMoveLikeQueen(board.View(), source, destination)
  {
    ok := CanMoveLikeRook(board, source, destination);
    if !ok {
      ok := CanMoveLikeBishop(board, source, destination);
    }
  }

  method CanMoveLikePawn(board: Board.Board, roster: Roster.Roster, source: Position, destination: Position, color: PieceColor)
    returns (ok: bool)
    requires board.Valid()
    ensures ok == R.CanMoveLikePawn(board.View(), roster.View(), source, destination, color)
  {
    var direction := R.PawnDirection(color);
    var startRow := if color == White then board.height - 2 else 1;
    var rowDiff := destination.row - source.row;
    var colDiff := destination.col - source.col;
    if rowDiff == direction && colDiff == 0 {
      return board.IsEmpty(destination);
    }
    if source.row == startRow && rowDiff == 2 * direction && colDiff == 0 {
      return board.IsEmpty(Position(source.row + direction, source.col)) && board.IsEmpty(destination);
    }
    if rowDiff == direction && Abs(colDiff) == 1 {
      var target := board.GetPieceAt(destination);
      return target.Some? && roster.Get(target.value).color != color;
    }
    return false;
  }

  method IsLegalByPieceKind(board: Board.Board, roster: Roster.Roster, source: Position, destination: Position) returns (ok: bool)
    requires board.Valid()
    ensures ok == R.IsLegalByPieceKind(board.View(), roster.View(), source, destination)
  {
    var r := board.GetPieceAt(source);
    if r.None? {
      return false;
    }
    var piece := roster.Get(r.value);
    match piece.kind {
      case Rook => ok := CanMoveLikeRook(board, source, destination);
      case Bishop => ok := CanMoveLikeBishop(board, source, destination);
      case Queen => ok := CanMoveLikeQueen(board, source, destination);
      case Knight => ok := R.CanMoveLikeKnight(source, destination);
      case King => ok := R.CanMoveLikeKing(source, destination);
      case Pawn => ok := CanMoveLikePawn(board, roster, source, destination, piece.color);
    }
  }

  method ValidateMove(board: Board.Board, roster: Roster.Roster, source: Position, destination: Position) returns (reason: R.Reason)
    requires board.Valid()
    ensures reason == R.ValidateMove(board.View(), roster.View(), source, destination)
  {
    if !board.IsInside(source) || !board.IsInside(destination) {
      return R.OutsideBoard;
    }
    var from := board.GetPieceAt(source);
    if from.None? {
      return R.EmptySource;
    }
    var to := board.GetPieceAt(destination);
    if to.Some? && roster.Get(to.value).color == roster.Get(from.value).color {
      return R.FriendlyDestination;
    }
    var legal := IsLegalByPieceKind(board, roster, source, destination);
    return if legal then R.OK else R.IllegalPieceMove;
  }

  method AttacksFrom(board: Board.Board, roster: Roster.Roster, source: Position, cell: Position, side: PieceColor)
    returns (attacks: bool)
    requires board.Valid()
    ensures attacks == R.Attacks(board.View(), roster.View(), source, cell, side)
  {
    var r := board.GetPieceAt(source);
    if r.None? || roster.Get(r.value).color != side || roster.Get(r.value).state == Captured {
      return false;
    }
    match roster.Get(r.value).kind {
      case Pawn => attacks := cell.row - source.row == R.PawnDirection(side) && Abs(cell.col - source.col) == 1;
      case King => attacks := R.CanMoveLikeKing(source, cell);
      case Knight => attacks := R.CanMoveLikeKnight(source, cell);
      case Rook => attacks := CanMoveLikeRook(board, source, cell);
      case Bishop => attacks := CanMoveLikeBishop(board, source, cell);
      case Queen => attacks := CanMoveLikeQueen(board, source, cell);
    }
  }

  /** Tries every cell of the board, row by row, for an attacker. */
  lemma AttackersAreStored(g: Grid, pieces: seq<Piece>, cell: Position, side: PieceColor)
    ensures forall p: Position :: R.Attacks(g, pieces, p, cell, side) ==> g.IsInside(p) && p in g.cells
  {
  }

  method IsSquareAttacked(board: Board.Board, roster: Roster.Roster, cell: Position, side: PieceColor) returns (attacked: bool)
    requires board.Valid()
    ensures attacked == R.IsSquareAttacked(board.View(), roster.View(), cell, side)
  {
    hide R.Attacks;
    AttackersAreStored(board.View(), roster.View(), cell, side);
    for row := 0 to board.height
      invariant forall p: Position :: 0 <= p.row < row ==> !R.Attacks(board.View(), roster.View(), p, cell, side)
    {
      for col := 0 to board.width
        invariant forall p: Position :: 0 <= p.row < row ==> !R.Attacks(board.View(), roster.View(), p, cell, side)
        invariant forall p: Position :: p.row == row && 0 <= p.col < col ==> !R.Attacks(board.View(), roster.View(), p, cell, side)
      {
        var source := Position(row, col);
        var attacks := AttacksFrom(board, roster, source, cell, side);
        if attacks {
          return true;
        }
      }
    }
    return false;
  }
}
