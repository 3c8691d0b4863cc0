/** Runs without castling: scores, history and the end of the game account for every accepted action. */
module EngineLedger {
  import opened Wrappers
  import opened ChessTypes
  import opened Rules
  import opened Arbiter
  import opened Engine
  import opened EngineFacts
  import opened EngineTime
  import opened EngineBatch
  import opened EngineInvariants
  import opened EngineOccupancy

  // ----- sums

  function Sum(ps: seq<Piece>, f: Piece -> int): int {
    if ps == [] then 0 else Sum(ps[..|ps| - 1], f) + f(ps[|ps| - 1])
  }

  lemma {:induction false} SumOfUpdate(ps: seq<Piece>, i: nat, x: Piece, f: Piece -> int)
    requires i < |ps|
    ensures Sum(ps[i := x], f) == Sum(ps, f) - f(ps[i]) + f(x)
  {
    var n := |ps| - 1;
    if i == n {
      assert ps[i := x][..n] == ps[..n];
    } else {
      SumOfUpdate(ps[..n], i, x, f);
      assert ps[i := x][..n] == ps[..n][i := x];
    }
  }

  function Worth(x: Piece): int {
    PieceValue(x.kind)
  }

  function LostWhite(x: Piece): int {
    if x.state == Captured && x.color == White then PieceValue(x.kind) else 0
  }

  function LostBlack(x: Piece): int {
    if x.state == Captured && x.color == Black then PieceValue(x.kind) else 0
  }

  function Count(h: seq<HistoryEntry>, f: HistoryEntry -> bool): nat {
    if h == [] then 0 else Count(h[..|h| - 1], f) + if f(h[|h| - 1]) then 1 else 0
  }

  lemma CountOfAppend(h: seq<HistoryEntry>, e: HistoryEntry, f: HistoryEntry -> bool)
    ensures Count(h + [e], f) == Count(h, f) + if f(e) then 1 else 0
  {
    assert (h + [e])[..|h|] == h;
  }

  predicate IsMove(e: HistoryEntry) {
    !e.wasJump
  }

  predicate IsJump(e: HistoryEntry) {
    e.wasJump
  }

  predicate IsPromotion(e: HistoryEntry) {
    e.wasPromotion
  }

  function CountBoth(s: State, f: HistoryEntry -> bool): nat {
    Count(s.whiteHistory, f) + Count(s.blackHistory, f)
  }

  lemma RecordedCounts(s: State, t: State, e: HistoryEntry, f: HistoryEntry -> bool)
    requires Recorded(s, t, e)
    ensures CountBoth(t, f) == CountBoth(s, f) + if f(e) then 1 else 0
  {
    CountOfAppend(s.whiteHistory, e, f);
    CountOfAppend(s.blackHistory, e, f);
    assert s.whiteHistory + [] == s.whiteHistory && s.blackHistory + [] == s.blackHistory;
  }

  lemma OnlyChangedSums(s: State, t: State, p: PieceRef, f: Piece -> int)
    requires OnlyChanged(s, t, p) && p < |s.pieces|
    ensures Sum(t.pieces, f) == Sum(s.pieces, f) - f(s.Of(p)) + f(t.Of(p))
  {
    assert forall q :: 0 <= q < |s.pieces| ==> s.Of(q) == s.pieces[q] && t.Of(q) == t.pieces[q];
    assert t.pieces == s.pieces[p := t.Of(p)];
    SumOfUpdate(s.pieces, p, t.Of(p), f);
  }

  // ----- the books

  /** Each side's score is the worth of the enemy pieces it has captured. */
  ghost predicate ScoresSound(s: State) {
    s.whiteScore == Sum(s.pieces, LostBlack) && s.blackScore == Sum(s.pieces, LostWhite)
  }

  /** The worth of all pieces, captured or not, grows by a queen less a pawn at each promotion. */
  ghost predicate WorthSound(s: State, initialWorth: int) {
    Sum(s.pieces, Worth) == initialWorth + 8 * CountBoth(s, IsPromotion)
  }

  /** Accepted actions are recorded, under way, or ended by capture. */
  ghost predicate TallySound(s: State, ls: seq<Landing>) {
    && s.tally.acceptedMoves == CountBoth(s, IsMove) + |s.motions| + s.tally.capturedMoving
    && s.tally.acceptedJumps == CountBoth(s, IsJump) + |s.jumps| + |ls|
  }

  /** Jumping pieces, and those about to land, are on the grid where they took off. */
  ghost predicate JumpsPlaced(s: State, ls: seq<Landing>) {
    && (forall j :: j in s.jumps ==> s.grid.Get(j.cell) == Some(j.piece))
    && (forall l :: l in ls ==> s.grid.Get(l.cell) == Some(l.piece))
  }

  ghost predicate KingLost(s: State, c: PieceColor) {
    exists p :: 0 <= p < |s.pieces| && s.pieces[p].kind == King && s.pieces[p].color == c && s.pieces[p].state == Captured
  }

  /** The game is over exactly when a king is lost; the end is announced once, for the side that took it. */
  ghost predicate KingsSound(s: State) {
    && (s.gameOver <==> KingLost(s, White) || KingLost(s, Black))
    && |s.tally.gamesEnded| == (if s.gameOver then 1 else 0)
    && (s.gameOver ==> KingLost(s, Opponent(s.tally.gamesEnded[0])))
  }

  ghost predicate KingSteps(s: State) {
    forall m :: m in s.motions && s.Of(m.piece).kind == King ==> Distance(m.source, m.destination) == 1
  }

  ghost predicate Books(s: State, ls: seq<Landing>, initialWorth: int) {
    && ScoresSound(s)
    && WorthSound(s, initialWorth)
    && TallySound(s, ls)
    && JumpsPlaced(s, ls)
    && KingsSound(s)
    && KingSteps(s)
  }

  // ----- stopping

  lemma StopKeepsSums(s: State, m: Motion, cell: Position, time: int, wasCapture: bool, w: int)
    requires Clockwork(s) && m in s.motions && ScoresSound(s) && WorthSound(s, w)
    ensures ScoresSound(StopAt(s, m.piece, m.source, cell, time, wasCapture))
    ensures WorthSound(StopAt(s, m.piece, m.source, cell, time, wasCapture), w)
  {
    hide StopAt, MoveNotation, Commit;
    var t := StopAt(s, m.piece, m.source, cell, time, wasCapture);
    StopFacts(s, m.piece, m.source, cell, time, wasCapture);
    OnlyChangedSums(s, t, m.piece, LostWhite);
    OnlyChangedSums(s, t, m.piece, LostBlack);
    OnlyChangedSums(s, t, m.piece, Worth);
    RecordedCounts(s, t, StopEntry(s, m.piece, m.source, cell, time, wasCapture), IsPromotion);
  }

  lemma StopKeepsTally(s: State, ls: seq<Landing>, m: Motion, cell: Position, time: int, wasCapture: bool)
    requires Clockwork(s) && m in s.motions && TallySound(s, ls)
    ensures TallySound(StopAt(s, m.piece, m.source, cell, time, wasCapture), ls)
  {
    var t := StopAt(s, m.piece, m.source, cell, time, wasCapture);
    StopFacts(s, m.piece, m.source, cell, time, wasCapture);
    WithoutDropsOne(s.motions, m);
    RecordedCounts(s, t, StopEntry(s, m.piece, m.source, cell, time, wasCapture), IsMove);
    RecordedCounts(s, t, StopEntry(s, m.piece, m.source, cell, time, wasCapture), IsJump);
  }

  lemma StopKeepsJumpsPlaced(s: State, ls: seq<Landing>, m: Motion, cell: Position, time: int, wasCapture: bool)
    requires Clockwork(s) && JumpsSound(s, ls) && JumpsPlaced(s, ls) && m in s.motions && s.grid.IsInside(cell) && Vacant(s, cell, m.piece)
    ensures JumpsPlaced(StopAt(s, m.piece, m.source, cell, time, wasCapture), ls)
  {
    hide StopAt;
    StopFacts(s, m.piece, m.source, cell, time, wasCapture);
  }

  lemma StopLosesNoKing(s: State, m: Motion, cell: Position, time: int, wasCapture: bool, c: PieceColor)
    requires Clockwork(s) && m in s.motions
    ensures KingLost(StopAt(s, m.piece, m.source, cell, time, wasCapture), c) <==> KingLost(s, c)
  {
    var t := StopAt(s, m.piece, m.source, cell, time, wasCapture);
    StopFacts(s, m.piece, m.source, cell, time, wasCapture);
    forall q | 0 <= q < |s.pieces| && q != m.piece ensures t.pieces[q] == s.pieces[q] {
      assert t.Of(q) == s.Of(q);
    }
    assert t.Of(m.piece) == t.pieces[m.piece];
  }

  lemma StopKeepsKings(s: State, m: Motion, cell: Position, time: int, wasCapture: bool)
    requires Clockwork(s) && m in s.motions && KingsSound(s) && KingSteps(s)
    ensures KingsSound(StopAt(s, m.piece, m.source, cell, time, wasCapture)) && KingSteps(StopAt(s, m.piece, m.source, cell, time, wasCapture))
  {
    StopFacts(s, m.piece, m.source, cell, time, wasCapture);
    StopLosesNoKing(s, m, cell, time, wasCapture, White);
    StopLosesNoKing(s, m, cell, time, wasCapture, Black);
  }

  lemma StopKeepsBooks(s: State, ls: seq<Landing>, w: int, m: Motion, cell: Position, time: int, wasCapture: bool)
    requires Sound(s, ls) && Books(s, ls, w) && m in s.motions && s.grid.IsInside(cell) && Vacant(s, cell, m.piece)
    ensures Books(StopAt(s, m.piece, m.source, cell, time, wasCapture), ls, w)
  {
    StopKeepsSums(s, m, cell, time, wasCapture, w);
    StopKeepsTally(s, ls, m, cell, time, wasCapture);
    StopKeepsJumpsPlaced(s, ls, m, cell, time, wasCapture);
    StopKeepsKings(s, m, cell, time, wasCapture);
  }

  // ----- gliding

  lemma GlideKeepsBooks(s: State, ls: seq<Landing>, w: int, m: Motion, cell: Position)
    requires Clockwork(s) && Books(s, ls, w) && m in s.motions
    ensures Books(Glide(s, m.piece, cell), ls, w)
  {
    hide Sum, Count, Advanced;
    AdvancedMembers(s.motions, m, cell);
    SameKings(s, Glide(s, m.piece, cell));
  }

  lemma SameKings(s: State, t: State)
    requires KingsSound(s) && t.pieces == s.pieces && t.gameOver == s.gameOver && t.tally == s.tally
    ensures KingsSound(t)
  {
    assert forall c :: KingLost(t, c) <==> KingLost(s, c);
  }

  // ----- capturing

  lemma CaptureKeepsSums(s: State, p: PieceRef, w: int)
    requires p < |s.pieces| && s.Of(p).state != Captured && ScoresSound(s) && WorthSound(s, w)
    ensures ScoresSound(Capture(s, p, Opponent(s.Of(p).color))) && WorthSound(Capture(s, p, Opponent(s.Of(p).color)), w)
  {
    var attacker := Opponent(s.Of(p).color);
    var t := Capture(s, p, attacker);
    CaptureFacts(s, p, attacker);
    OnlyChangedSums(s, t, p, LostWhite);
    OnlyChangedSums(s, t, p, LostBlack);
    OnlyChangedSums(s, t, p, Worth);
  }

  lemma CaptureKeepsTally(s: State, ls: seq<Landing>, p: PieceRef, attacker: PieceColor)
    requires Clockwork(s) && PiecesSound(s) && p < |s.pieces| && TallySound(s, ls)
    ensures TallySound(Capture(s, p, attacker), ls)
  {
    CaptureFacts(s, p, attacker);
    if s.Of(p).state == Moving {
      WithoutDropsOne(s.motions, MotionOf(s.motions, p).value);
    } else {
      assert forall m :: m in s.motions ==> m.piece != p;
      WithoutAbsent(s.motions, p);
    }
  }

  lemma CaptureKeepsJumpsPlaced(s: State, ls: seq<Landing>, p: PieceRef, attacker: PieceColor)
    requires GridSound(s) && JumpsSound(s, ls) && JumpsPlaced(s, ls) && p < |s.pieces| && s.Of(p).state != Airborne
    ensures JumpsPlaced(Capture(s, p, attacker), ls)
  {
    CaptureFacts(s, p, attacker);
    CaptureKeepsGrid(s, p, attacker);
    forall c, q | s.grid.Get(c) == Some(q) && q != p ensures Capture(s, p, attacker).grid.Get(c) == Some(q) {
    }
  }

  lemma CaptureLosesKing(s: State, p: PieceRef, attacker: PieceColor, c: PieceColor)
    requires p < |s.pieces|
    ensures KingLost(Capture(s, p, attacker), c) <==> KingLost(s, c) || (s.Of(p).kind == King && s.Of(p).color == c)
  {
    var t := Capture(s, p, attacker);
    CaptureFacts(s, p, attacker);
    forall q | 0 <= q < |s.pieces| && q != p ensures t.pieces[q] == s.pieces[q] {
      assert t.Of(q) == s.Of(q);
    }
    assert t.Of(p) == t.pieces[p] && s.Of(p) == s.pieces[p];
  }

  /** What holds between a capture and the possible end of the game. */
  ghost predicate KingsPending(s: State, u: State, victim: PieceKind, color: PieceColor) {
    && u.gameOver == s.gameOver && u.tally.gamesEnded == s.tally.gamesEnded
    && forall c :: KingLost(u, c) <==> KingLost(s, c) || (victim == King && color == c)
  }

  lemma EndKeepsKings(s: State, u: State, victim: PieceKind, color: PieceColor)
    requires KingsSound(s) && KingsPending(s, u, victim, color)
    ensures KingsSound(EndIfKing(u, victim, Opponent(color)))
  {
    var t := EndIfKing(u, victim, Opponent(color));
    assert forall c :: KingLost(t, c) <==> KingLost(u, c);
  }

  lemma EndKeepsOtherBooks(u: State, ls: seq<Landing>, w: int, victim: PieceKind, winner: PieceColor)
    requires ScoresSound(u) && WorthSound(u, w) && TallySound(u, ls) && JumpsPlaced(u, ls) && KingSteps(u)
    ensures var t := EndIfKing(u, victim, winner);
            ScoresSound(t) && WorthSound(t, w) && TallySound(t, ls) && JumpsPlaced(t, ls) && KingSteps(t)
  {
  }

  lemma CaptureKeepsBooks(s: State, ls: seq<Landing>, w: int, p: PieceRef)
    requires Sound(s, ls) && Books(s, ls, w) && p < |s.pieces| && s.Of(p).state != Airborne && s.Of(p).state != Captured
    ensures var u := Capture(s, p, Opponent(s.Of(p).color));
            && ScoresSound(u) && WorthSound(u, w) && TallySound(u, ls) && JumpsPlaced(u, ls) && KingSteps(u)
            && KingsPending(s, u, s.Of(p).kind, s.Of(p).color)
  {
    var attacker := Opponent(s.Of(p).color);
    CaptureFacts(s, p, attacker);
    CaptureKeepsSums(s, p, w);
    CaptureKeepsTally(s, ls, p, attacker);
    CaptureKeepsJumpsPlaced(s, ls, p, attacker);
    forall c ensures KingLost(Capture(s, p, attacker), c) <==> KingLost(s, c) || (s.Of(p).kind == King && s.Of(p).color == c) {
      CaptureLosesKing(s, p, attacker, c);
    }
  }

  lemma ShotDownKeepsBooks(s: State, ls: seq<Landing>, w: int, p: PieceRef)
    requires Sound(s, ls) && Books(s, ls, w) && p < |s.pieces| && s.Of(p).state == Moving
    ensures Books(ShotDown(s, p, Opponent(s.Of(p).color)), ls, w)
  {
    var u := Capture(s, p, Opponent(s.Of(p).color));
    CaptureKeepsBooks(s, ls, w, p);
    EndKeepsKings(s, u, s.Of(p).kind, s.Of(p).color);
    EndKeepsOtherBooks(u, ls, w, s.Of(p).kind, Opponent(s.Of(p).color));
  }

  /** The books after the victim is off the board and before the attacker stops. */
  ghost predicate TakenBooks(s: State, taken: State, ls: seq<Landing>, w: int, m: Motion, t: PieceRef) {
    && Clockwork(taken) && m in taken.motions && JumpsSound(taken, ls)
    && taken.grid.IsInside(m.NextCell()) && Vacant(taken, m.NextCell(), m.piece)
    && ScoresSound(taken) && WorthSound(taken, w) && TallySound(taken, ls) && JumpsPlaced(taken, ls) && KingSteps(taken)
    && KingsPending(s, taken, s.Of(t).kind, s.Of(t).color)
  }

  lemma TakingKeepsBooks(s: State, ls: seq<Landing>, w: int, m: Motion, t: PieceRef)
    requires Sound(s, ls) && Occupied(s) && Books(s, ls, w) && m in s.motions
    requires s.grid.IsInside(m.NextCell()) && FindAt(s, m.NextCell(), m.piece) == Some(t)
    requires s.Of(t).color != s.Of(m.piece).color && s.Of(t).state != Airborne
    ensures TakenBooks(s, Capture(s, t, s.Of(m.piece).color), ls, w, m, t)
    ensures s.Of(m.piece).color == Opponent(s.Of(t).color)
  {
    hide Capture, Clockwork, Routes, GridSound, PiecesSound, JumpsSound, CastlesSound, HistoriesSound, FindAt, Occupied, Books;
    var color := s.Of(m.piece).color;
    FoundPieceIsOther(s, m.NextCell(), m.piece);
    FoundIsLive(s, ls, m.NextCell(), m.piece);
    CaptureKeepsBooks(s, ls, w, t);
    CaptureKeepsSound(s, ls, t, color);
    CaptureVacates(s, m.NextCell(), m.piece, color);
    CaptureSparesOthers(s, m, t, color);
  }

  lemma FoundIsLive(s: State, ls: seq<Landing>, cell: Position, p: PieceRef)
    requires Sound(s, ls) && s.grid.IsInside(cell) && FindAt(s, cell, p).Some?
    ensures s.Of(FindAt(s, cell, p).value).state != Captured
  {
    FoundPieceIsThere(s, cell, p);
  }

  lemma StoppingKeepsTakenBooks(s: State, taken: State, ls: seq<Landing>, w: int, m: Motion, t: PieceRef)
    requires TakenBooks(s, taken, ls, w, m, t)
    ensures var u := StopAt(taken, m.piece, m.source, m.NextCell(), m.nextStepTimeMs, true);
            && ScoresSound(u) && WorthSound(u, w) && TallySound(u, ls) && JumpsPlaced(u, ls) && KingSteps(u)
            && KingsPending(s, u, s.Of(t).kind, s.Of(t).color)
  {
    hide StopAt, ScoresSound, WorthSound, TallySound, JumpsPlaced, KingSteps, JumpsSound, Vacant, KingLost;
    var cell, time := m.NextCell(), m.nextStepTimeMs;
    var u := StopAt(taken, m.piece, m.source, cell, time, true);
    StopFacts(taken, m.piece, m.source, cell, time, true);
    StopKeepsSums(taken, m, cell, time, true, w);
    StopKeepsTally(taken, ls, m, cell, time, true);
    StopKeepsJumpsPlaced(taken, ls, m, cell, time, true);
    StopKeepsKingSteps(taken, m, cell, time, true);
    forall c ensures KingLost(u, c) <==> KingLost(taken, c) {
      StopLosesNoKing(taken, m, cell, time, true, c);
    }
  }

  lemma TakesKeepsBooks(s: State, ls: seq<Landing>, w: int, m: Motion, t: PieceRef)
    requires Sound(s, ls) && Occupied(s) && Books(s, ls, w) && m in s.motions
    requires s.grid.IsInside(m.NextCell()) && FindAt(s, m.NextCell(), m.piece) == Some(t)
    requires s.Of(t).color != s.Of(m.piece).color && s.Of(t).state != Airborne
    ensures Books(Takes(s, m, EventOf(m), t), ls, w)
  {
    hide StopAt, Capture, Takes, Sound, Occupied, FindAt, EndIfKing, TakenBooks, KingsPending, ScoresSound, WorthSound, TallySound, JumpsPlaced,
         KingSteps;
    var color := s.Of(m.piece).color;
    var taken := Capture(s, t, color);
    var u := StopAt(taken, m.piece, m.source, m.NextCell(), m.nextStepTimeMs, true);
    TakingIsCapturingThenStopping(s, m, EventOf(m), t);
    TakingKeepsBooks(s, ls, w, m, t);
    StoppingKeepsTakenBooks(s, taken, ls, w, m, t);
    EndKeepsKings(s, u, s.Of(t).kind, s.Of(t).color);
    EndKeepsOtherBooks(u, ls, w, s.Of(t).kind, color);
  }

  lemma StopKeepsKingSteps(s: State, m: Motion, cell: Position, time: int, wasCapture: bool)
    requires Clockwork(s) && m in s.motions && KingSteps(s)
    ensures KingSteps(StopAt(s, m.piece, m.source, cell, time, wasCapture))
  {
    StopFacts(s, m.piece, m.source, cell, time, wasCapture);
  }

  // ----- one step event

  /** A state of a run without castling. */
  ghost predicate Orderly(s: State, ls: seq<Landing>, w: int) {
    Sound(s, ls) && s.tally.acceptedCastles == 0 && Occupied(s) && Books(s, ls, w)
  }

  lemma OrderlyHasNoCastles(s: State, ls: seq<Landing>, w: int)
    requires Orderly(s, ls, w)
    ensures s.castles == []
    ensures forall m :: m in s.motions && m.directMove ==> s.Of(m.piece).kind == Knight
  {
    assert |s.castles| == 0;
  }

  lemma ResolveKeepsBooks(s: State, ls: seq<Landing>, w: int, m: Motion)
    requires Sound(s, ls) && Occupied(s) && Books(s, ls, w) && m in s.motions
    ensures Books(ResolveStep(s, m, EventOf(m)), ls, w)
  {
    var e := EventOf(m);
    NextCellIsOnCourse(s.grid, m);
    OwnCellIsVacant(s, m);
    match FindAt(s, e.to, e.piece)
    case None =>
      NothingFoundMeansVacant(s, e.to, e.piece);
      if e.reachedDestination {
        EnteringTheDestinationStops(s, m, e);
        StopKeepsBooks(s, ls, w, m, e.to, e.eventTimeMs, false);
      } else {
        GlideKeepsBooks(s, ls, w, m, e.to);
      }
    case Some(t) =>
      FoundPieceIsOther(s, e.to, e.piece);
      if s.Of(t).color == s.Of(e.piece).color {
        StopKeepsBooks(s, ls, w, m, e.from, e.eventTimeMs, false);
      } else if s.Of(t).state == Airborne {
        ShotDownKeepsBooks(s, ls, w, m.piece);
      } else {
        TakesKeepsBooks(s, ls, w, m, t);
      }
  }

  ghost predicate SameAcceptances(s: State, t: State) {
    && t.tally.acceptedCastles == s.tally.acceptedCastles
    && t.tally.acceptedMoves == s.tally.acceptedMoves
    && t.tally.acceptedJumps == s.tally.acceptedJumps
  }

  lemma StopAcceptsNothing(s: State, p: PieceRef, source: Position, cell: Position, time: int, wasCapture: bool)
    requires p < |s.pieces|
    ensures SameAcceptances(s, StopAt(s, p, source, cell, time, wasCapture))
  {
    StopFacts(s, p, source, cell, time, wasCapture);
  }

  lemma ShotDownAcceptsNothing(s: State, p: PieceRef, hunter: PieceColor)
    requires p < |s.pieces|
    ensures SameAcceptances(s, ShotDown(s, p, hunter))
  {
    CaptureFacts(s, p, hunter);
  }

  lemma TakesAcceptsNothing(s: State, m: Motion, e: StepEvent, t: PieceRef)
    requires e.piece < |s.pieces| && t < |s.pieces|
    ensures SameAcceptances(s, Takes(s, m, e, t))
  {
    CaptureFacts(s, t, s.Of(e.piece).color);
    var entered := Glide(Capture(s, t, s.Of(e.piece).color), e.piece, e.to);
    StopAcceptsNothing(entered, e.piece, m.source, e.to, e.eventTimeMs, true);
  }

  lemma EnteredAcceptsNothing(s: State, m: Motion, e: StepEvent)
    requires e.piece < |s.pieces|
    ensures SameAcceptances(s, Entered(s, m, e))
  {
    StopAcceptsNothing(Glide(s, e.piece, e.to), e.piece, m.source, e.to, e.eventTimeMs, false);
  }

  lemma ResolveAcceptsNothing(s: State, m: Motion, e: StepEvent)
    requires Clockwork(s) && GridSound(s) && e.piece < |s.pieces|
    ensures SameAcceptances(s, ResolveStep(s, m, e))
  {
    if !s.grid.IsInside(e.to) {
      StopAcceptsNothing(s, e.piece, m.source, e.from, e.eventTimeMs, false);
    } else {
      match FindAt(s, e.to, e.piece)
      case None => EnteredAcceptsNothing(s, m, e);
      case Some(t) =>
        FoundPieceIsOther(s, e.to, e.piece);
        StopAcceptsNothing(s, e.piece, m.source, e.from, e.eventTimeMs, false);
        ShotDownAcceptsNothing(s, e.piece, s.Of(t).color);
        TakesAcceptsNothing(s, m, e, t);
    }
  }

  lemma CastleAcceptsNothing(s: State, i: nat, time: int)
    requires CastlesSound(s) && i < |s.castles|
    ensures SameAcceptances(s, CompleteCastle(s, i, time))
  {
    CastlePieces(s, i);
    CastleFacts(s, i, time);
  }

  /** Only requests are accepted; the passage of time accepts nothing. */
  lemma StepAcceptsNothing(s: State, e: StepEvent)
    requires Clockwork(s) && GridSound(s) && CastlesSound(s)
    ensures SameAcceptances(s, ProcessStep(s, e))
  {
    if s.Of(e.piece).state == Moving {
      match CastleWith(s.castles, e.piece)
      case Some(i) => CastleAcceptsNothing(s, i, e.eventTimeMs);
      case None =>
        match MotionOf(s.motions, e.piece)
        case None =>
        case Some(m) => ResolveAcceptsNothing(s, m, e);
    }
  }

  lemma StepKeepsOrderly(s: State, ls: seq<Landing>, w: int, e: StepEvent)
    requires Orderly(s, ls, w) && e.eventTimeMs <= s.now
    requires forall m :: m in s.motions && m.piece == e.piece ==> e == EventOf(m)
    ensures Orderly(ProcessStep(s, e), ls, w)
  {
    StepKeepsSound(s, ls, e);
    OrderlyHasNoCastles(s, ls, w);
    if s.Of(e.piece).state == Moving {
      var m := MotionOf(s.motions, e.piece).value;
      ResolveKeepsOccupied(s, ls, m);
      ResolveKeepsBooks(s, ls, w, m);
      StepAcceptsNothing(s, e);
    }
  }

  // ----- landing

  lemma LandingKeepsSums(cfg: Config, s: State, l: Landing, w: int)
    requires l.piece < |s.pieces| && s.Of(l.piece).state == Airborne && s.grid.Get(l.cell) == Some(l.piece)
    requires ScoresSound(s) && WorthSound(s, w) && KingsSound(s)
    ensures var t := ProcessLanding(cfg, s, l);
            ScoresSound(t) && WorthSound(t, w) && KingsSound(t)
  {
    hide ProcessLanding;
    var t := ProcessLanding(cfg, s, l);
    LandingFacts(cfg, s, l);
    OnlyChangedSums(s, t, l.piece, LostWhite);
    OnlyChangedSums(s, t, l.piece, LostBlack);
    OnlyChangedSums(s, t, l.piece, Worth);
    RecordedCounts(s, t, LandingEntry(s, l), IsPromotion);
    forall q | 0 <= q < |s.pieces| && q != l.piece ensures t.pieces[q] == s.pieces[q] {
      assert t.Of(q) == s.Of(q);
    }
    assert t.Of(l.piece) == t.pieces[l.piece] && s.Of(l.piece) == s.pieces[l.piece];
    assert forall c :: KingLost(t, c) <==> KingLost(s, c);
  }

  lemma LandingKeepsTally(cfg: Config, s: State, l: Landing, ls: seq<Landing>)
    requires l.piece < |s.pieces| && s.Of(l.piece).state == Airborne && s.grid.Get(l.cell) == Some(l.piece)
    requires TallySound(s, [l] + ls)
    ensures TallySound(ProcessLanding(cfg, s, l), ls)
  {
    hide ProcessLanding;
    var t := ProcessLanding(cfg, s, l);
    LandingFacts(cfg, s, l);
    RecordedCounts(s, t, LandingEntry(s, l), IsMove);
    RecordedCounts(s, t, LandingEntry(s, l), IsJump);
  }

  lemma LandingKeepsPlaces(cfg: Config, s: State, l: Landing, ls: seq<Landing>)
    requires l.piece < |s.pieces| && s.Of(l.piece).state == Airborne && s.grid.Get(l.cell) == Some(l.piece)
    requires JumpsPlaced(s, [l] + ls) && KingSteps(s)
    ensures JumpsPlaced(ProcessLanding(cfg, s, l), ls) && KingSteps(ProcessLanding(cfg, s, l))
  {
    hide ProcessLanding;
    LandingFacts(cfg, s, l);
    assert forall k :: k in ls ==> k in [l] + ls;
  }

  /** The first landing in a list is that of a jumping piece still on its cell. */
  lemma LandingIsReady(s: State, l: Landing, ls: seq<Landing>)
    requires JumpsSound(s, [l] + ls) && JumpsPlaced(s, [l] + ls) && GridSound(s)
    ensures l.piece < |s.pieces| && s.Of(l.piece).state == Airborne && s.grid.Get(l.cell) == Some(l.piece)
  {
    assert l in [l] + ls;
  }

  /** In runs without castling every landing takes place: the piece is still on its cell. */
  lemma LandingKeepsOrderly(cfg: Config, s: State, l: Landing, ls: seq<Landing>, w: int)
    requires Orderly(s, [l] + ls, w)
    ensures Orderly(ProcessLanding(cfg, s, l), ls, w)
    ensures ProcessLanding(cfg, s, l).Of(l.piece).state == Idle && ProcessLanding(cfg, s, l).grid.Get(l.cell) == Some(l.piece)
  {
    assert JumpsSound(s, [l] + ls) && GridSound(s);
    hide ProcessLanding, Sound, JumpsSound, GridSound, JumpsPlaced, TallySound, ScoresSound, WorthSound, KingsSound, KingSteps,
         Occupied, OnlyChanged;
    LandingIsReady(s, l, ls);
    LandingKeepsSound(cfg, s, l, ls);
    LandingKeepsOccupied(cfg, s, l);
    LandingFacts(cfg, s, l);
    LandingKeepsSums(cfg, s, l, w);
    LandingKeepsTally(cfg, s, l, ls);
    LandingKeepsPlaces(cfg, s, l, ls);
  }

  // ----- time

  lemma BatchKeepsOrderly(s: State, w: int)
    requires Orderly(s, [], w)
    ensures Orderly(AfterBatch(s), LandingBatch(s), w)
  {
    BatchKeepsSound(s);
    StillMovingIsAll(s.motions, s.pieces);
    LandingsAreTheFinishedJumps(s.jumps, s.now);
    SameBooks(s, AfterBatch(s), w);
    var t, ls := AfterBatch(s), LandingBatch(s);
    assert JumpsPlaced(t, ls) by {
      forall l | l in ls ensures t.grid.Get(l.cell) == Some(l.piece) {
        var j :| j in s.jumps && s.now >= j.finishTimeMs && l == LandingOf(j);
      }
    }
  }

  lemma SameBooks(s: State, t: State, w: int)
    requires Occupied(s) && ScoresSound(s) && WorthSound(s, w) && KingsSound(s) && KingSteps(s)
    requires t == s.(now := t.now, jumps := t.jumps)
    ensures Occupied(t) && ScoresSound(t) && WorthSound(t, w) && KingsSound(t) && KingSteps(t)
  {
    assert forall c :: KingLost(t, c) <==> KingLost(s, c);
    assert forall p :: Resting(t, p) <==> Resting(s, p);
  }

  lemma TimeKeepsOrderly(s: State, ms: nat, w: int)
    requires Orderly(s, [], w)
    ensures Orderly(Later(s, ms), [], w)
  {
    TimeKeepsSound(s, ms);
    SameBooks(s, Later(s, ms), w);
  }

  lemma {:induction false} StepsKeepOrderly(s: State, ls: seq<Landing>, w: int, es: seq<StepEvent>)
    requires Orderly(s, ls, w) && InStep(s, es)
    ensures Orderly(ProcessSteps(s, es), ls, w)
    decreases es
  {
    if es != [] {
      assert es[0] in es;
      StepKeepsOrderly(s, ls, w, es[0]);
      StepKeepsInStep(s, es);
      StepsKeepOrderly(ProcessStep(s, es[0]), ls, w, es[1..]);
    }
  }

  lemma {:induction false} LandingsKeepOrderly(cfg: Config, s: State, ls: seq<Landing>, w: int)
    requires Orderly(s, ls, w)
    ensures Orderly(ProcessLandings(cfg, s, ls), [], w)
    decreases ls
  {
    if ls != [] {
      assert ls == [ls[0]] + ls[1..];
      LandingKeepsOrderly(cfg, s, ls[0], ls[1..], w);
      LandingsKeepOrderly(cfg, ProcessLanding(cfg, s, ls[0]), ls[1..], w);
    }
  }

  lemma {:induction false} SettleKeepsOrderly(cfg: Config, s: State, w: int)
    requires Orderly(s, [], w)
    ensures Orderly(Settle(cfg, s), [], w)
    decreases Load(s)
  {
    BatchKeepsOrderly(s, w);
    if !Quiet(s) {
      RoundProgresses(cfg, s);
      BatchIsInStep(s);
      StepsKeepOrderly(AfterBatch(s), LandingBatch(s), w, StepBatch(s));
      LandingsKeepOrderly(cfg, ProcessSteps(AfterBatch(s), StepBatch(s)), LandingBatch(s), w);
      SettleKeepsOrderly(cfg, Round(cfg, s), w);
    }
  }

  lemma WaitKeepsOrderly(cfg: Config, s: State, ms: int, w: int)
    requires Orderly(s, [], w)
    ensures Orderly(Wait(cfg, s, ms), [], w)
  {
    if ms >= 0 {
      TimeKeepsOrderly(s, ms, w);
      SettleKeepsOrderly(cfg, Later(s, ms), w);
    }
  }

  // ----- requests

  lemma StateChangeKeepsSums(s: State, t: State, p: PieceRef, w: int)
    requires OnlyChanged(s, t, p) && p < |s.pieces|
    requires t.Of(p).kind == s.Of(p).kind && t.Of(p).color == s.Of(p).color && s.Of(p).state != Captured && t.Of(p).state != Captured
    requires t.whiteHistory == s.whiteHistory && t.blackHistory == s.blackHistory && t.gameOver == s.gameOver
    requires t.whiteScore == s.whiteScore && t.blackScore == s.blackScore && t.tally.gamesEnded == s.tally.gamesEnded
    requires ScoresSound(s) && WorthSound(s, w) && KingsSound(s)
    ensures ScoresSound(t) && WorthSound(t, w) && KingsSound(t)
  {
    OnlyChangedSums(s, t, p, LostWhite);
    OnlyChangedSums(s, t, p, LostBlack);
    OnlyChangedSums(s, t, p, Worth);
    forall q | 0 <= q < |s.pieces| && q != p ensures t.pieces[q] == s.pieces[q] {
      assert t.Of(q) == s.Of(q);
    }
    assert t.Of(p) == t.pieces[p] && s.Of(p) == s.pieces[p];
    assert forall c :: KingLost(t, c) <==> KingLost(s, c);
  }

  lemma SlideKeepsTally(cfg: Config, s: State, p: PieceRef, source: Position, destination: Position)
    requires TallySound(s, []) && JumpsPlaced(s, []) && p < |s.pieces|
    ensures TallySound(StartSlide(cfg, s, p, source, destination), []) && JumpsPlaced(StartSlide(cfg, s, p, source, destination), [])
  {
    StartMotionFacts(s, p, source, destination, cfg.move(s.Of(p).color, s.Of(p).kind).moveTimePerCellMs, false);
    hide StartMotion;
  }

  lemma SlideChangesState(cfg: Config, s: State, p: PieceRef, source: Position, destination: Position)
    requires p < |s.pieces|
    ensures var t := StartSlide(cfg, s, p, source, destination);
            && OnlyChanged(s, t, p) && t.Of(p) == s.Of(p).(state := Moving, hasMoved := true)
            && t.whiteScore == s.whiteScore && t.blackScore == s.blackScore && t.gameOver == s.gameOver
            && t.whiteHistory == s.whiteHistory && t.blackHistory == s.blackHistory
            && t.tally.gamesEnded == s.tally.gamesEnded && t.tally.acceptedCastles == s.tally.acceptedCastles
  {
    StartMotionFacts(s, p, source, destination, cfg.move(s.Of(p).color, s.Of(p).kind).moveTimePerCellMs, false);
  }

  lemma SlideKeepsOrderly(cfg: Config, s: State, p: PieceRef, source: Position, destination: Position, w: int)
    requires Orderly(s, [], w) && s.grid.Get(source) == Some(p) && s.Of(p).state == Idle
    requires ValidateMove(s.grid, s.pieces, source, destination) == OK
    ensures Orderly(StartSlide(cfg, s, p, source, destination), [], w)
  {
    hide Sound, Occupied, Clockwork, Routes, GridSound, PiecesSound, JumpsSound, CastlesSound, HistoriesSound, StartSlide, ValidateMove,
         TallySound, JumpsPlaced;
    SoundMeans(s, []);
    SlideKeepsSound(cfg, s, p, source, destination);
    SlideKeepsOccupied(cfg, s, p, source, destination);
    SlideChangesState(cfg, s, p, source, destination);
    StateChangeKeepsSums(s, StartSlide(cfg, s, p, source, destination), p, w);
    SlideKeepsKingSteps(cfg, s, p, source, destination);
    SlideKeepsTally(cfg, s, p, source, destination);
  }

  lemma SlideKeepsKingSteps(cfg: Config, s: State, p: PieceRef, source: Position, destination: Position)
    requires KingSteps(s) && s.grid.Get(source) == Some(p) && p < |s.pieces|
    requires ValidateMove(s.grid, s.pieces, source, destination) == OK
    ensures KingSteps(StartSlide(cfg, s, p, source, destination))
  {
    StartMotionFacts(s, p, source, destination, cfg.move(s.Of(p).color, s.Of(p).kind).moveTimePerCellMs, false);
    var t := StartSlide(cfg, s, p, source, destination);
    assert forall q: PieceRef :: t.Of(q).kind == s.Of(q).kind;
  }

  lemma JumpKeepsOrderly(cfg: Config, s: State, p: PieceRef, cell: Position, w: int)
    requires Orderly(s, [], w) && s.grid.Get(cell) == Some(p) && s.Of(p).state == Idle
    requires Sound(StartJump(cfg, s, p, cell), [])
    ensures Orderly(StartJump(cfg, s, p, cell), [], w)
  {
    JumpKeepsOccupied(cfg, s, p, cell);
    StartJumpFacts(cfg, s, p, cell);
    var t := StartJump(cfg, s, p, cell);
    StateChangeKeepsSums(s, t, p, w);
    assert forall q: PieceRef :: t.Of(q).kind == s.Of(q).kind;
    forall j | j in t.jumps ensures t.grid.Get(j.cell) == Some(j.piece) {
      var i :| 0 <= i < |t.jumps| && t.jumps[i] == j;
      if i < |s.jumps| {
        assert j == t.jumps[..|s.jumps|][i];
        assert j in s.jumps;
      }
    }
  }
}
