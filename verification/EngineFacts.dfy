/** What each transformer of the engine state changes and what it leaves alone. */
module EngineFacts {
  import opened Wrappers
  import opened ChessTypes
  import opened Rules
  import opened Arbiter
  import opened Engine

  /** The two states differ at most in pieces, grid, motions, histories and tally. */
  ghost predicate SameElsewhere(s: State, t: State) {
    && t.now == s.now && t.jumps == s.jumps && t.nextOrder == s.nextOrder && |t.pieces| == |s.pieces|
    && t.grid.height == s.grid.height && t.grid.width == s.grid.width
  }

  ghost predicate OnlyChanged(s: State, t: State, p: PieceRef) {
    && |t.pieces| == |s.pieces|
    && forall q: PieceRef :: q != p ==> t.Of(q) == s.Of(q)
  }

  /** An entry was added to the history of its colour. */
  ghost predicate Recorded(s: State, t: State, entry: HistoryEntry) {
    && t.whiteHistory == s.whiteHistory + (if entry.color == White then [entry] else [])
    && t.blackHistory == s.blackHistory + (if entry.color == Black then [entry] else [])
  }

  function StopEntry(s: State, p: PieceRef, source: Position, cell: Position, time: int, wasCapture: bool): HistoryEntry {
    var piece := s.Of(p);
    var promoted := Promotes(s.grid, piece, cell);
    HistoryEntry(time, piece.color, piece.kind, source, cell, wasCapture, promoted, false,
                 MoveNotation(s.grid.height, piece.kind, source, cell, wasCapture, promoted))
  }

  lemma StopFacts(s: State, p: PieceRef, source: Position, cell: Position, time: int, wasCapture: bool)
    requires p < |s.pieces|
    ensures var t := StopAt(s, p, source, cell, time, wasCapture);
            && SameElsewhere(s, t) && OnlyChanged(s, t, p)
            && t.motions == Without(s.motions, p)
            && t.grid == Commit(s.grid, p, source, cell)
            && t.castles == s.castles && t.tally == s.tally && t.gameOver == s.gameOver
            && t.whiteScore == s.whiteScore && t.blackScore == s.blackScore
            && Recorded(s, t, StopEntry(s, p, source, cell, time, wasCapture))
            && t.Of(p) == s.Of(p).(kind := if Promotes(s.grid, s.Of(p), cell) then Queen else s.Of(p).kind, state := Idle,
                                   cooldownStartedAtMs := time, totalCooldownMs := Distance(source, cell) * 1000,
                                   cooldownUntilMs := time + Distance(source, cell) * 1000)
  {
  }

  lemma CaptureFacts(s: State, p: PieceRef, attacker: PieceColor)
    requires p < |s.pieces|
    ensures var t := Capture(s, p, attacker);
            && SameElsewhere(s, t) && OnlyChanged(s, t, p)
            && t.motions == Without(s.motions, p)
            && t.grid == s.grid.RemovePiece(p)
            && t.castles == s.castles && t.gameOver == s.gameOver
            && t.whiteHistory == s.whiteHistory && t.blackHistory == s.blackHistory
            && t.whiteScore == s.whiteScore + (if attacker == White then PieceValue(s.Of(p).kind) else 0)
            && t.blackScore == s.blackScore + (if attacker == Black then PieceValue(s.Of(p).kind) else 0)
            && t.Of(p) == s.Of(p).(state := Captured)
            && t.tally == s.tally.(capturedMoving := s.tally.capturedMoving + if s.Of(p).state == Moving then 1 else 0)
  {
  }

  function CastleEntry(s: State, c: Castle, time: int): HistoryEntry {
    HistoryEntry(time, s.Of(c.king).color, King, c.kingSource, c.kingDestination, false, false, false,
                 if c.kingDestination.col > c.kingSource.col then "O-O" else "O-O-O")
  }

  lemma CastleFacts(s: State, i: nat, time: int)
    requires i < |s.castles|
    requires s.castles[i].king < |s.pieces| && s.castles[i].rook < |s.pieces| && s.castles[i].king != s.castles[i].rook
    ensures var c, t := s.castles[i], CompleteCastle(s, i, time);
            && SameElsewhere(s, t)
            && t.motions == Without(Without(s.motions, c.king), c.rook)
            && (forall q: PieceRef :: q != c.king && q != c.rook ==> t.Of(q) == s.Of(q))
            && t.Of(c.king) == s.Of(c.king).(state := Idle).WithCooldown(time, 2000)
            && t.Of(c.rook) == s.Of(c.rook).(state := Idle).WithCooldown(time, 2000)
            && t.grid == CastledGrid(s.grid, c)
            && t.castles == s.castles[..i] + s.castles[i + 1..]
            && t.tally == s.tally && t.gameOver == s.gameOver && t.whiteScore == s.whiteScore && t.blackScore == s.blackScore
            && Recorded(s, t, CastleEntry(s, c, time))
  {
  }

  lemma StartMotionFacts(s: State, p: PieceRef, source: Position, destination: Position, dur: int, direct: bool)
    requires p < |s.pieces|
    ensures var t := StartMotion(s, p, source, destination, dur, direct);
            && OnlyChanged(s, t, p)
            && t.Of(p) == s.Of(p).(state := Moving, hasMoved := true)
            && t == s.(pieces := t.pieces, nextOrder := s.nextOrder + 1,
                       motions := s.motions + [NewMotion(p, s.Of(p).kind, source, destination, dur, direct, s.now, s.nextOrder)])
  {
  }
}
