/** Which requests the engine accepts, and why it refuses the others. */
module EngineRequests {
  import opened Wrappers
  import opened ChessTypes
  import opened Rules
  import opened RuleShapes
  import opened Arbiter
  import opened Engine
  import opened EngineFacts

  predicate Inside(g: Grid, c: Position) {
    0 <= c.row < g.height && 0 <= c.col < g.width
  }

  /** The piece is under way, in the air, captured, or cooling down. */
  predicate Busy(x: Piece, now: int) {
    x.state == Moving || x.state == Airborne || x.state == Captured || now < x.cooldownUntilMs
  }

  predicate TwoColumnsAsKing(s: State, source: Position, destination: Position) {
    && Holds(s.grid, source) && s.Of(s.grid.cells[source]).kind == King && destination.row == source.row
    && (destination.col == source.col + 2 || destination.col == source.col - 2)
  }

  /** The answer to a move request in the order in which it is decided; whatever is refused changes nothing. */
  lemma WhyAMoveIsRefused(cfg: Config, s: State, source: Position, destination: Position)
    ensures var (t, result) := RequestMove(cfg, s, source, destination);
            var onBoard := Inside(s.grid, source) && Inside(s.grid, destination);
            && (result.reason == GameOver <==> s.gameOver)
            && (result.reason == OutsideBoard <==> !s.gameOver && !onBoard)
            && (result.reason == EmptySource <==> !s.gameOver && onBoard && source !in s.grid.cells)
            && (result.isAccepted <==> result.reason == OK)
            && (!result.isAccepted ==> t == s)
            && (!s.gameOver && onBoard && source in s.grid.cells ==>
                  var x := s.Of(s.grid.cells[source]);
                  && (result.reason == MotionInProgress <==> Busy(x, s.now))
                  && (TwoColumnsAsKing(s, source, destination) && !Busy(x, s.now) ==>
                        result.reason == (if CanCastle(s, source, destination).Some? then OK else IllegalPieceMove))
                  && (!TwoColumnsAsKing(s, source, destination) && !Busy(x, s.now) ==>
                        result.reason == ValidateMove(s.grid, s.pieces, source, destination)))
  {
    hide CanCastle, StartCastle, StartSlide, Shape;
    WhichMovesAreValid(s.grid, s.pieces, source, destination);
    hide ValidateMove;
  }

  /** The same for a jump. */
  lemma WhyAJumpIsRefused(cfg: Config, s: State, cell: Position)
    ensures var (t, result) := RequestJump(cfg, s, cell);
            && (result.reason == GameOver <==> s.gameOver)
            && (result.reason == OutsideBoard <==> !s.gameOver && !Inside(s.grid, cell))
            && (result.reason == EmptySource <==> !s.gameOver && Inside(s.grid, cell) && cell !in s.grid.cells)
            && (result.isAccepted <==> result.reason == JumpStarted)
            && (!result.isAccepted ==> t == s)
            && (!s.gameOver && Inside(s.grid, cell) && cell in s.grid.cells ==>
                  && (result.reason == CannotJump <==> Busy(s.Of(s.grid.cells[cell]), s.now))
                  && (result.isAccepted <==> !Busy(s.Of(s.grid.cells[cell]), s.now)))
  {
  }

  /** The game is on, the cells are on the board, and the piece on the source is not idle or has not cooled down. */
  predicate MustWait(s: State, source: Position, destination: Position) {
    && !s.gameOver && Inside(s.grid, source) && Inside(s.grid, destination) && source in s.grid.cells
    && (s.Of(s.grid.cells[source]).state != Idle || s.now < s.Of(s.grid.cells[source]).cooldownUntilMs)
  }

  /** Just such pieces are told to wait, and whatever is refused changes nothing. */
  lemma WhoHasToWait(cfg: Config, s: State, source: Position, destination: Position)
    ensures RequestMove(cfg, s, source, destination).1.reason == MotionInProgress <==> MustWait(s, source, destination)
    ensures RequestJump(cfg, s, source).1.reason == CannotJump <==> MustWait(s, source, source)
    ensures !RequestMove(cfg, s, source, destination).1.isAccepted ==> RequestMove(cfg, s, source, destination).0 == s
    ensures !RequestJump(cfg, s, source).1.isAccepted ==> RequestJump(cfg, s, source).0 == s
  {
    WhyAMoveIsRefused(cfg, s, source, destination);
    WhyAJumpIsRefused(cfg, s, source);
    hide RequestMove, RequestJump, ValidateMove, CanCastle;
  }

  /** An accepted jump lifts the piece where it stands, until its configured jump time, at least a millisecond, is over. */
  lemma AnAcceptedJumpStartsNow(cfg: Config, s: State, cell: Position)
    requires RequestJump(cfg, s, cell).1.isAccepted && s.grid.Get(cell).Some? && s.grid.Get(cell).value < |s.pieces|
    ensures var t, p := RequestJump(cfg, s, cell).0, s.grid.Get(cell).value;
            var ms := cfg.jump(s.Of(p).color, s.Of(p).kind).jumpDurationMs;
            && t.jumps == s.jumps + [Jump(p, cell, s.now + if ms <= 0 then 1 else ms)]
            && t.Of(p) == s.Of(p).(state := Airborne) && OnlyChanged(s, t, p)
            && t.grid == s.grid && t.motions == s.motions && t.castles == s.castles && t.now == s.now
  {
  }

  // ----- castling

  /** The cells a king castling to the given column stands on, crosses and reaches. */
  function KingsWay(row: int, column: int): seq<Position> {
    if column == 6 then [Position(row, 4), Position(row, 5), Position(row, 6)]
    else [Position(row, 4), Position(row, 3), Position(row, 2)]
  }

  ghost predicate NobodyBearsOn(s: State, way: seq<Position>, side: PieceColor) {
    forall e, cell :: cell in way ==> !BearsOn(s.grid, s.pieces, e, cell, side)
  }

  /**
   * An accepted castle: on an 8x8 board, a king and a rook of one colour that have never moved, at rest and rested, on column 4
   * and in a corner of their home row with nothing between them, and no live enemy bearing on any cell of the king's way.
   */
  ghost predicate MayCastle(s: State, source: Position, destination: Position, c: Castle) {
    && s.grid.height == 8 && s.grid.width == 8
    && (destination.col == 6 || destination.col == 2)
    && source.col == 4 && destination.row == source.row
    && var corner := Position(source.row, if destination.col == 6 then 7 else 0);
       && Holds(s.grid, source) && Holds(s.grid, corner)
       && var king, rook := s.Of(s.grid.cells[source]), s.Of(s.grid.cells[corner]);
          && king.kind == King && rook.kind == Rook && rook.color == king.color && !king.hasMoved && !rook.hasMoved
          && source.row == (if king.color == White then 7 else 0)
          && !Busy(rook, s.now)
          && NothingBetween(s.grid, source, corner)
          && NobodyBearsOn(s, KingsWay(source.row, destination.col), if king.color == White then Black else White)
          && c == Castle(s.grid.cells[source], s.grid.cells[corner], source, destination, corner,
                         Position(source.row, if destination.col == 6 then 5 else 3))
  }

  lemma ClearRankMeansNothingBetween(g: Grid, row: int, direction: int)
    requires direction == 1 || direction == -1
    ensures RankClear(g, row, 4, direction) <==> NothingBetween(g, Position(row, 4), Position(row, if direction == 1 then 7 else 0))
  {
    var a, b := Position(row, 4), Position(row, if direction == 1 then 7 else 0);
    ClearMeansNothingBetween(g, a, b);
    assert Sign(b.row - a.row) == 0 && Sign(b.col - a.col) == direction && Distance(a, b) == if direction > 0 then 3 else 4;
  }

  lemma KingsWayIsSafe(s: State, row: int, column: int, side: PieceColor)
    requires column == 6 || column == 2
    ensures var way := KingsWay(row, column);
            NobodyBearsOn(s, way, side) <==>
            && !IsSquareAttacked(s.grid, s.pieces, way[0], side) && !IsSquareAttacked(s.grid, s.pieces, way[1], side)
            && !IsSquareAttacked(s.grid, s.pieces, way[2], side)
  {
    hide IsSquareAttacked, BearsOn;
    var way := KingsWay(row, column);
    WhichSquaresAreAttacked(s.grid, s.pieces, way[0], side);
    WhichSquaresAreAttacked(s.grid, s.pieces, way[1], side);
    WhichSquaresAreAttacked(s.grid, s.pieces, way[2], side);
  }

  /** When a king that asks to go two columns may castle, and how. */
  lemma WhenCastlingIsAllowed(s: State, source: Position, destination: Position, c: Castle)
    requires TwoColumnsAsKing(s, source, destination)
    ensures CanCastle(s, source, destination) == Some(c) <==> MayCastle(s, source, destination, c)
  {
    hide IsSquareAttacked, BearsOn, RankClear, NothingBetween;
    if source.col == 4 {
      ClearRankMeansNothingBetween(s.grid, source.row, if destination.col > 4 then 1 else -1);
      KingsWayIsSafe(s, source.row, destination.col, Opponent(s.Of(s.grid.cells[source]).color));
    }
  }

  /** Both castlers set out at once and take the time of two of the king's cells, at least a millisecond. */
  lemma AnAcceptedCastleStartsNow(cfg: Config, s: State, source: Position, destination: Position, c: Castle)
    requires CanCastle(s, source, destination) == Some(c) && TwoColumnsAsKing(s, source, destination)
    requires RequestMove(cfg, s, source, destination).1.isAccepted && c.king < |s.pieces| && c.rook < |s.pieces| && c.king != c.rook
    ensures var t, n := RequestMove(cfg, s, source, destination).0, |s.motions|;
            var ms := 2 * cfg.move(s.Of(c.king).color, King).moveTimePerCellMs;
            var arrival := s.now + if ms < 1 then 1 else ms;
            && |t.motions| == n + 2 && t.motions[..n] == s.motions && t.castles == s.castles + [c] && t.grid == s.grid
            && t.motions[n].piece == c.king && t.motions[n].source == c.kingSource && t.motions[n].destination == c.kingDestination
            && t.motions[n + 1].piece == c.rook && t.motions[n + 1].source == c.rookSource && t.motions[n + 1].destination == c.rookDestination
            && t.motions[n].directMove && t.motions[n].nextStepTimeMs == arrival
            && t.motions[n + 1].directMove && t.motions[n + 1].nextStepTimeMs == arrival
            && t.Of(c.king) == s.Of(c.king).(state := Moving, hasMoved := true)
            && t.Of(c.rook) == s.Of(c.rook).(state := Moving, hasMoved := true)
            && forall q: PieceRef :: q != c.king && q != c.rook ==> t.Of(q) == s.Of(q)
  {
    hide CanCastle, StartMotion;
    var t := RequestMove(cfg, s, source, destination).0;
    assert t == StartCastle(cfg, s, c);
    var dur := Max(1, cfg.move(s.Of(c.king).color, s.Of(c.king).kind).moveTimePerCellMs * 2);
    CastlingKingIsAKing(s, source, destination, c);
    StartMotionFacts(s, c.king, c.kingSource, c.kingDestination, dur, true);
    var s1 := StartMotion(s, c.king, c.kingSource, c.kingDestination, dur, true);
    StartMotionFacts(s1, c.rook, c.rookSource, c.rookDestination, dur, true);
  }

  lemma CastlingKingIsAKing(s: State, source: Position, destination: Position, c: Castle)
    requires CanCastle(s, source, destination) == Some(c)
    ensures s.Of(c.king).kind == King
  {
  }
}
