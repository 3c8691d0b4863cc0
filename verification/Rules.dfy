/** Piece movement rules and move validation. */
module Rules {
  import opened Wrappers
  import opened ChessTypes

  datatype Reason =
    | OK
    | OutsideBoard
    | EmptySource
    | FriendlyDestination
    | IllegalPieceMove
    | GameOver
    | MotionInProgress
    | CannotJump
    | JumpStarted

  function PieceAt(pieces: seq<Piece>, r: PieceRef): Piece {
    if r < |pieces| then pieces[r] else FreshPiece(0, White, Pawn).(state := Captured)
  }

  predicate LineClear(g: Grid, source: Position, rowStep: int, colStep: int, length: int) {
    forall k :: 1 <= k < length ==> g.IsEmpty(Along(source, rowStep, colStep, k))
  }

  /** Every cell strictly between the two cells of a straight line is empty. */
  predicate PathClear(g: Grid, source: Position, destination: Position) {
    LineClear(g, source, Sign(destination.row - source.row), Sign(destination.col - source.col), Distance(source, destination))
  }

  predicate CanMoveLikeRook(g: Grid, source: Position, destination: Position) {
    && source != destination
    && (source.row == destination.row || source.col == destination.col)
    && PathClear(g, source, destination)
  }

  predicate CanMoveLikeBishop(g: Grid, source: Position, destination: Position) {
    && source != destination
    && Abs(destination.row - source.row) == Abs(destination.col - source.col)
    && PathClear(g, source, destination)
  }

  predicate CanMoveLikeQueen(g: Grid, source: Position, destination: Position) {
    CanMoveLikeRook(g, source, destination) || CanMoveLikeBishop(g, source, destination)
  }

  predicate CanMoveLikeKnight(source: Position, destination: Position) {
    var rowDiff := Abs(destination.row - source.row);
    var colDiff := Abs(destination.col - source.col);
    (rowDiff == 2 && colDiff == 1) || (rowDiff == 1 && colDiff == 2)
  }

  predicate CanMoveLikeKing(source: Position, destination: Position) {
    && source != destination
    && Abs(destination.row - source.row) <= 1
    && Abs(destination.col - source.col) <= 1
  }

  function PawnDirection(color: PieceColor): int {
    if color == White then -1 else 1
  }

  predicate CanMoveLikePawn(g: Grid, pieces: seq<Piece>, source: Position, destination: Position, color: PieceColor) {
    var direction := PawnDirection(color);
    var startRow := if color == White then g.height - 2 else 1;
    var rowDiff := destination.row - source.row;
    var colDiff := destination.col - source.col;
    if rowDiff == direction && colDiff == 0 then
      g.IsEmpty(destination)
    else if source.row == startRow && rowDiff == 2 * direction && colDiff == 0 then
      g.IsEmpty(Position(source.row + direction, source.col)) && g.IsEmpty(destination)
    else if rowDiff == direction && Abs(colDiff) == 1 then
      var target := g.Get(destination);
      target.Some? && PieceAt(pieces, target.value).color != color
    else
      false
  }

  predicate IsLegalByPieceKind(g: Grid, pieces: seq<Piece>, source: Position, destination: Position) {
    var r := g.Get(source);
    r.Some? &&
    var piece := PieceAt(pieces, r.value);
    match piece.kind
    case Rook => CanMoveLikeRook(g, source, destination)
    case Bishop => CanMoveLikeBishop(g, source, destination)
    case Queen => CanMoveLikeQueen(g, source, destination)
    case Knight => CanMoveLikeKnight(source, destination)
    case King => CanMoveLikeKing(source, destination)
    case Pawn => CanMoveLikePawn(g, pieces, source, destination, piece.color)
  }

  function ValidateMove(g: Grid, pieces: seq<Piece>, source: Position, destination: Position): Reason {
    if !g.IsInside(source) || !g.IsInside(destination) then OutsideBoard
    else
      var from := g.Get(source);
      if from.None? then EmptySource
      else
        var to := g.Get(destination);
        if to.Some? && PieceAt(pieces, to.value).color == PieceAt(pieces, from.value).color then FriendlyDestination
        else if !IsLegalByPieceKind(g, pieces, source, destination) then IllegalPieceMove
        else OK
  }

  /** Does the piece stored at source, of colour by, attack cell? */
  predicate Attacks(g: Grid, pieces: seq<Piece>, source: Position, cell: Position, side: PieceColor) {
    var r := g.Get(source);
    r.Some? &&
    var attacker := PieceAt(pieces, r.value);
    && attacker.color == side
    && attacker.state != Captured
    && match attacker.kind
       case Pawn => cell.row - source.row == PawnDirection(side) && Abs(cell.col - source.col) == 1
       case King => CanMoveLikeKing(source, cell)
       case Knight => CanMoveLikeKnight(source, cell)
       case Rook => CanMoveLikeRook(g, source, cell)
       case Bishop => CanMoveLikeBishop(g, source, cell)
       case Queen => CanMoveLikeQueen(g, source, cell)
  }

  predicate IsSquareAttacked(g: Grid, pieces: seq<Piece>, cell: Position, side: PieceColor) {
    exists source :: source in g.cells && Attacks(g, pieces, source, cell, side)
  }

  /** A legal slide of anything but a knight runs along a row, a column or a diagonal. */
  lemma LegalMovesAreStraight(g: Grid, pieces: seq<Piece>, source: Position, destination: Position)
    requires ValidateMove(g, pieces, source, destination) == OK
    requires PieceAt(pieces, g.Get(source).value).kind != Knight
    ensures Straight(source, destination) && source != destination
  {
  }

  /** The straight line from a to b reaches b after Distance(a, b) steps, and stays between them on the way. */
  lemma StraightLineReaches(a: Position, b: Position, k: int)
    requires Straight(a, b)
    requires 0 <= k <= Distance(a, b)
    ensures var r, c := Sign(b.row - a.row), Sign(b.col - a.col);
            && Along(a, r, c, Distance(a, b)) == b
            && Distance(a, Along(a, r, c, k)) == k
            && Distance(Along(a, r, c, k), b) == Distance(a, b) - k
            && (a.row <= Along(a, r, c, k).row <= b.row || b.row <= Along(a, r, c, k).row <= a.row)
            && (a.col <= Along(a, r, c, k).col <= b.col || b.col <= Along(a, r, c, k).col <= a.col)
  {
  }

  ghost predicate NoCapturedOnBoard(g: Grid, pieces: seq<Piece>) {
    forall p :: p in g.cells ==> PieceAt(pieces, g.cells[p]).state != Captured
  }

  /** Paths to a cell do not depend on what that cell holds. */
  lemma PathClearIgnoresEndpoint(g: Grid, source: Position, cell: Position, bait: PieceRef)
    requires Straight(source, cell) && g.IsInside(cell)
    ensures PathClear(g.Set(cell, bait), source, cell) <==> PathClear(g, source, cell)
  {
    var h := g.Set(cell, bait);
    var r, c := Sign(cell.row - source.row), Sign(cell.col - source.col);
    forall k | 1 <= k < Distance(source, cell)
      ensures h.IsEmpty(Along(source, r, c, k)) <==> g.IsEmpty(Along(source, r, c, k))
    {
      StraightLineReaches(source, cell, k);
      assert Along(source, r, c, k) != cell;
    }
  }

  /** One attacker: the attack test and the rule engine, asked about a cell that holds an enemy, agree. */
  lemma AttackIsACapturingMove(g: Grid, pieces: seq<Piece>, source: Position, cell: Position, side: PieceColor, bait: PieceRef)
    requires g.IsInside(cell) && source != cell && NoCapturedOnBoard(g, pieces)
    requires PieceAt(pieces, bait).color == Opponent(side)
    ensures Attacks(g, pieces, source, cell, side) <==> ValidateMove(g.Set(cell, bait), pieces, source, cell) == OK
  {
    var h := g.Set(cell, bait);
    assert h.Get(source) == g.Get(source) && h.Get(cell) == Some(bait);
    if Straight(source, cell) {
      PathClearIgnoresEndpoint(g, source, cell, bait);
    }
  }

  /** A cell is attacked by a colour exactly when some move onto it would be accepted if an enemy of that colour stood there. */
  lemma AttackTestAgreesWithRuleEngine(g: Grid, pieces: seq<Piece>, cell: Position, side: PieceColor, bait: PieceRef)
    requires g.IsInside(cell) && NoCapturedOnBoard(g, pieces)
    requires PieceAt(pieces, bait).color == Opponent(side)
    ensures IsSquareAttacked(g, pieces, cell, side) <==>
            exists source :: ValidateMove(g.Set(cell, bait), pieces, source, cell) == OK
  {
    var h := g.Set(cell, bait);
    if IsSquareAttacked(g, pieces, cell, side) {
      var source :| source in g.cells && Attacks(g, pieces, source, cell, side);
      AttackIsACapturingMove(g, pieces, source, cell, side, bait);
      assert ValidateMove(h, pieces, source, cell) == OK;
    }
    if source :| ValidateMove(h, pieces, source, cell) == OK {
      assert h.Get(cell) == Some(bait);
      AttackIsACapturingMove(g, pieces, source, cell, side, bait);
      assert source in g.cells;
    }
  }
}
