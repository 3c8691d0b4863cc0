/** The passage of time: the wait loop terminates and leaves nothing due, on every run, castling included. */
module EngineTime {
  import opened Wrappers
  import opened ChessTypes
  import opened Rules
  import opened Arbiter
  import opened Engine
  import opened EngineFacts

  /** Every motion belongs to a moving piece of its own and makes progress. */
  ghost predicate Clockwork(s: State) {
    && DistinctMotions(s.motions)
    && forall m :: m in s.motions ==>
                     m.piece < |s.pieces| && s.pieces[m.piece].state == Moving && m.stepDurationMs >= 1 && m.order < s.nextOrder
  }

  /** How late a motion is, in milliseconds, counting the motion itself. */
  function Lateness(m: Motion, now: int): nat {
    if now >= m.nextStepTimeMs then now - m.nextStepTimeMs + 2 else 1
  }

  function TotalLateness(ms: seq<Motion>, now: int): nat {
    if ms == [] then 0 else Lateness(ms[0], now) + TotalLateness(ms[1..], now)
  }

  /** The work left before nothing is due. */
  function Load(s: State): nat {
    TotalLateness(s.motions, s.now) + |s.jumps|
  }

  lemma {:induction false} WithoutIsLessLate(ms: seq<Motion>, p: PieceRef, now: int)
    ensures TotalLateness(Without(ms, p), now) <= TotalLateness(ms, now)
    ensures (exists m :: m in ms && m.piece == p) ==> TotalLateness(Without(ms, p), now) < TotalLateness(ms, now)
  {
    if ms != [] {
      WithoutIsLessLate(ms[1..], p, now);
      assert forall m :: m in ms <==> m == ms[0] || m in ms[1..];
    }
  }

  lemma {:induction false} AdvancedIsLessLate(ms: seq<Motion>, p: PieceRef, cell: Position, now: int)
    requires forall m :: m in ms ==> m.stepDurationMs >= 1
    ensures TotalLateness(Advanced(ms, p, cell), now) <= TotalLateness(ms, now)
  {
    if ms != [] {
      assert ms[0] in ms;
      if ms[0].piece != p {
        AdvancedIsLessLate(ms[1..], p, cell, now);
      }
    }
  }

  lemma {:induction false} AdvancedDueIsLessLate(ms: seq<Motion>, m: Motion, cell: Position, now: int)
    requires DistinctMotions(ms) && m in ms && m.stepDurationMs >= 1 && now >= m.nextStepTimeMs
    ensures TotalLateness(Advanced(ms, m.piece, cell), now) < TotalLateness(ms, now)
  {
    if ms[0].piece == m.piece {
      assert ms[0] == m;
    } else {
      AdvancedDueIsLessLate(ms[1..], m, cell, now);
    }
  }

  // ----- one step

  /**
   * s2 comes from s by work on piece p: the motion of p may have advanced or ended,
   * another motion may have ended with its piece, and nothing has begun to move.
   */
  ghost predicate Worked(s: State, s2: State, p: PieceRef) {
    && s2.now == s.now && s2.jumps == s.jumps && s2.nextOrder == s.nextOrder && |s2.pieces| == |s.pieces|
    && Clockwork(s2)
    && Load(s2) <= Load(s)
    && (forall q: PieceRef :: s2.Of(q).state == Moving ==> s.Of(q).state == Moving)
    && (forall n :: n in s2.motions ==> n in s.motions || IsAdvance(s, p, n))
    && (forall m :: m in s.motions && m.piece != p ==> m in s2.motions || s2.Of(m.piece).state != Moving)
  }

  ghost predicate IsAdvance(s: State, p: PieceRef, n: Motion) {
    var m := MotionOf(s.motions, p);
    n.piece == p && m.Some? && n == m.value.AdvancedTo(n.currentCell)
  }

  lemma StopWorks(s0: State, s: State, p: PieceRef, source: Position, cell: Position, time: int, wasCapture: bool)
    requires Clockwork(s) && Worked(s0, s, p) && p < |s.pieces|
    ensures Worked(s0, StopAt(s, p, source, cell, time, wasCapture), p)
    ensures (exists m :: m in s.motions && m.piece == p) ==> Load(StopAt(s, p, source, cell, time, wasCapture)) < Load(s)
  {
    WithoutKeepsDistinct(s.motions, p);
    WithoutIsLessLate(s.motions, p, s.now);
    StopFacts(s, p, source, cell, time, wasCapture);
  }

  lemma GlideWorks(s0: State, s: State, m: Motion, cell: Position)
    requires Clockwork(s0) && Worked(s0, s, m.piece) && m in s0.motions && m in s.motions
    ensures Worked(s0, Glide(s, m.piece, cell), m.piece)
    ensures s.now >= m.nextStepTimeMs ==> Load(Glide(s, m.piece, cell)) < Load(s)
  {
    hide TotalLateness, Advanced, Lateness;
    AdvancedMembers(s.motions, m, cell);
    AdvancedIsLessLate(s.motions, m.piece, cell, s.now);
    if s.now >= m.nextStepTimeMs {
      AdvancedDueIsLessLate(s.motions, m, cell, s.now);
    }
    SameMotion(s0.motions, m, MotionOf(s0.motions, m.piece).value);
  }

  lemma CaptureWorks(s: State, p: PieceRef, victim: PieceRef, attacker: PieceColor)
    requires Clockwork(s)
    ensures Worked(s, Capture(s, victim, attacker), p)
    ensures (exists m :: m in s.motions && m.piece == victim) ==> Load(Capture(s, victim, attacker)) < Load(s)
  {
    hide TotalLateness, Without, Capture, DistinctMotions;
    CaptureMotionFacts(s, victim, attacker);
    assert forall m :: m in s.motions && m.piece != victim ==> Capture(s, victim, attacker).Of(m.piece) == s.Of(m.piece);
    WithoutKeepsDistinct(s.motions, victim);
    WithoutIsLessLate(s.motions, victim, s.now);
  }

  lemma CaptureMotionFacts(s: State, victim: PieceRef, attacker: PieceColor)
    ensures var t := Capture(s, victim, attacker);
            && t.motions == Without(s.motions, victim)
            && t.now == s.now && t.jumps == s.jumps && t.nextOrder == s.nextOrder && |t.pieces| == |s.pieces|
            && t.Of(victim).state != Moving
            && forall q: PieceRef :: q != victim ==> t.Of(q) == s.Of(q)
  {
  }

  lemma CastleWorks(s: State, i: nat, time: int, p: PieceRef)
    requires Clockwork(s) && i < |s.castles| && (p == s.castles[i].king || p == s.castles[i].rook)
    ensures Worked(s, CompleteCastle(s, i, time), p)
    ensures (exists m :: m in s.motions && m.piece == p) ==> Load(CompleteCastle(s, i, time)) < Load(s)
  {
    hide TotalLateness, Without, CastledGrid, DistinctMotions;
    var c := s.castles[i];
    var half := Without(s.motions, c.king);
    WithoutKeepsDistinct(s.motions, c.king);
    WithoutKeepsDistinct(half, c.rook);
    WithoutIsLessLate(s.motions, c.king, s.now);
    WithoutIsLessLate(half, c.rook, s.now);
    CastleMotionFacts(s, i, time);
    assert (exists m :: m in s.motions && m.piece == c.rook && m.piece != c.king) ==> (exists m :: m in half && m.piece == c.rook);
  }

  lemma CastleMotionFacts(s: State, i: nat, time: int)
    requires i < |s.castles|
    ensures var c, t := s.castles[i], CompleteCastle(s, i, time);
            && t.motions == Without(Without(s.motions, c.king), c.rook)
            && t.now == s.now && t.jumps == s.jumps && t.nextOrder == s.nextOrder && |t.pieces| == |s.pieces|
            && (forall q: PieceRef :: t.Of(q).state == Moving ==> q != c.king && q != c.rook && s.Of(q).state == Moving)
            && (forall q: PieceRef :: q != c.king && q != c.rook ==> t.Of(q) == s.Of(q))
  {
  }

  lemma ReflexiveWork(s: State, p: PieceRef)
    requires Clockwork(s)
    ensures Worked(s, s, p)
  {
  }

  lemma BlockedWorks(s: State, m: Motion, e: StepEvent)
    requires Clockwork(s) && m in s.motions && m.piece == e.piece
    ensures Worked(s, Blocked(s, m, e), e.piece) && Load(Blocked(s, m, e)) < Load(s)
  {
    ReflexiveWork(s, e.piece);
    StopWorks(s, s, e.piece, m.source, e.from, e.eventTimeMs, false);
  }

  lemma EnteredWorks(s: State, m: Motion, e: StepEvent)
    requires Clockwork(s) && m in s.motions && m.piece == e.piece
    ensures Worked(s, Entered(s, m, e), e.piece)
    ensures s.now >= m.nextStepTimeMs ==> Load(Entered(s, m, e)) < Load(s)
  {
    ReflexiveWork(s, e.piece);
    GlideWorks(s, s, m, e.to);
    var moved := Glide(s, e.piece, e.to);
    StopWorks(s, moved, e.piece, m.source, e.to, e.eventTimeMs, false);
    assert exists n :: n in moved.motions && n.piece == e.piece;
  }

  lemma ShotDownWorks(s: State, m: Motion, p: PieceRef, hunter: PieceColor)
    requires Clockwork(s) && m in s.motions && m.piece == p
    ensures Worked(s, ShotDown(s, p, hunter), p) && Load(ShotDown(s, p, hunter)) < Load(s)
  {
    CaptureWorks(s, p, p, hunter);
  }

  lemma EndWorks(s0: State, s: State, p: PieceRef, victim: PieceKind, winner: PieceColor)
    requires Worked(s0, s, p)
    ensures Worked(s0, EndIfKing(s, victim, winner), p) && Load(EndIfKing(s, victim, winner)) == Load(s)
  {
  }

  lemma EnemyEnteredWorks(s: State, m: Motion, cell: Position, t: PieceRef, color: PieceColor)
    requires Clockwork(s) && m in s.motions && t != m.piece
    ensures var entered := Glide(Capture(s, t, color), m.piece, cell);
            && Worked(s, entered, m.piece)
            && m.AdvancedTo(cell) in entered.motions
  {
    var taken := Capture(s, t, color);
    CaptureWorks(s, m.piece, t, color);
    GlideWorks(s, taken, m, cell);
    AdvancedMembers(taken.motions, m, cell);
  }

  lemma TakesWorks(s: State, m: Motion, e: StepEvent, t: PieceRef)
    requires Clockwork(s) && m in s.motions && m.piece == e.piece && t != e.piece
    ensures Worked(s, Takes(s, m, e, t), e.piece) && Load(Takes(s, m, e, t)) < Load(s)
  {
    var color := s.Of(e.piece).color;
    EnemyEnteredWorks(s, m, e.to, t, color);
    var entered := Glide(Capture(s, t, color), e.piece, e.to);
    assert exists n :: n in entered.motions && n.piece == e.piece;
    StopWorks(s, entered, e.piece, m.source, e.to, e.eventTimeMs, true);
    EndWorks(s, StopAt(entered, e.piece, m.source, e.to, e.eventTimeMs, true), e.piece, s.Of(t).kind, color);
  }

  lemma ResolveWorks(s: State, m: Motion, e: StepEvent)
    requires Clockwork(s) && m in s.motions && m.piece == e.piece
    ensures Worked(s, ResolveStep(s, m, e), e.piece)
    ensures s.now >= m.nextStepTimeMs ==> Load(ResolveStep(s, m, e)) < Load(s)
  {
    hide Worked, Blocked, ShotDown, Takes, Entered;
    if !s.grid.IsInside(e.to) {
      BlockedWorks(s, m, e);
    } else {
      match FindAt(s, e.to, e.piece)
      case None => EnteredWorks(s, m, e);
      case Some(t) =>
        BlockedWorks(s, m, e);
        ShotDownWorks(s, m, e.piece, s.Of(t).color);
        TakesWorks(s, m, e, t);
    }
  }

  /** One step event: the clockwork stays sound, other motions are kept unless their piece stopped moving, the load never grows. */
  lemma StepWorks(s: State, e: StepEvent)
    requires Clockwork(s)
    ensures Worked(s, ProcessStep(s, e), e.piece)
  {
    ReflexiveWork(s, e.piece);
    if s.Of(e.piece).state == Moving {
      if CastleWith(s.castles, e.piece).Some? {
        CastleWorks(s, CastleWith(s.castles, e.piece).value, e.eventTimeMs, e.piece);
      } else if MotionOf(s.motions, e.piece).Some? {
        ResolveWorks(s, MotionOf(s.motions, e.piece).value, e);
      }
    }
  }

  /** A due step of a live motion makes the load smaller. */
  lemma DueStepProgresses(s: State, m: Motion)
    requires Clockwork(s) && m in s.motions && s.now >= m.nextStepTimeMs
    ensures Load(ProcessStep(s, EventOf(m))) < Load(s)
  {
    var e := EventOf(m);
    if CastleWith(s.castles, e.piece).Some? {
      CastleWorks(s, CastleWith(s.castles, e.piece).value, e.eventTimeMs, e.piece);
    } else {
      SameMotion(s.motions, m, MotionOf(s.motions, e.piece).value);
      ResolveWorks(s, m, e);
    }
  }

  // ----- one round

  lemma {:induction false} StepsWork(s: State, es: seq<StepEvent>)
    requires Clockwork(s)
    ensures var t := ProcessSteps(s, es);
            Clockwork(t) && Load(t) <= Load(s) && t.now == s.now && t.jumps == s.jumps && |t.pieces| == |s.pieces|
    decreases es
  {
    if es != [] {
      StepWorks(s, es[0]);
      StepsWork(ProcessStep(s, es[0]), es[1..]);
    }
  }

  lemma LandingWorks(cfg: Config, s: State, l: Landing)
    requires Clockwork(s)
    ensures var t := ProcessLanding(cfg, s, l);
            Clockwork(t) && t.motions == s.motions && t.jumps == s.jumps && t.now == s.now && |t.pieces| == |s.pieces|
  {
  }

  lemma {:induction false} LandingsWork(cfg: Config, s: State, ls: seq<Landing>)
    requires Clockwork(s)
    ensures var t := ProcessLandings(cfg, s, ls);
            Clockwork(t) && t.motions == s.motions && t.jumps == s.jumps && t.now == s.now && |t.pieces| == |s.pieces|
    decreases ls
  {
    if ls != [] {
      LandingWorks(cfg, s, ls[0]);
      LandingsWork(cfg, ProcessLanding(cfg, s, ls[0]), ls[1..]);
    }
  }

  lemma BatchCameFromMotions(s: State, e: StepEvent)
    requires e in StepBatch(s)
    ensures exists m :: m in s.motions && s.now >= m.nextStepTimeMs && e == EventOf(m)
  {
    assert e in multiset(StepBatch(s));
    assert e in DueSteps(s.motions, s.pieces, s.now);
  }

  /** Every round of the wait loop makes the load smaller. */
  lemma RoundProgresses(cfg: Config, s: State)
    requires Clockwork(s) && !Quiet(s)
    ensures Clockwork(Round(cfg, s)) && Load(Round(cfg, s)) < Load(s)
    ensures Round(cfg, s).now == s.now && |Round(cfg, s).pieces| == |s.pieces|
  {
    var s0 := AfterBatch(s);
    StillMovingIsAll(s.motions, s.pieces);
    LandingsAreTheFinishedJumps(s.jumps, s.now);
    var es := StepBatch(s);
    if es == [] {
    } else {
      var e := es[0];
      BatchCameFromMotions(s, e);
      var m :| m in s.motions && s.now >= m.nextStepTimeMs && e == EventOf(m);
      DueStepProgresses(s0, m);
      StepWorks(s0, e);
      StepsWork(ProcessStep(s0, e), es[1..]);
    }
    StepsWork(s0, es);
    LandingsWork(cfg, ProcessSteps(s0, es), LandingBatch(s));
  }

  /** Rounds until nothing is due. */
  function Settle(cfg: Config, s: State): (t: State)
    requires Clockwork(s)
    ensures Clockwork(t) && t.now == s.now && |t.pieces| == |s.pieces|
    decreases Load(s)
  {
    if Quiet(s) then
      StillMovingIsAll(s.motions, s.pieces);
      AfterBatch(s)
    else
      RoundProgresses(cfg, s);
      Settle(cfg, Round(cfg, s))
  }

  function Later(s: State, ms: int): State {
    s.(now := s.now + ms)
  }

  function Wait(cfg: Config, s: State, ms: int): State
    requires Clockwork(s)
  {
    if ms < 0 then s else Settle(cfg, Later(s, ms))
  }

  ghost predicate NothingDue(s: State) {
    && (forall m :: m in s.motions ==> s.now < m.nextStepTimeMs)
    && (forall j :: j in s.jumps ==> s.now < j.finishTimeMs)
  }

  /** After a wait no motion and no jump is due. */
  lemma WaitLeavesNothingDue(cfg: Config, s: State, ms: int)
    requires Clockwork(s) && ms >= 0
    ensures var t := Wait(cfg, s, ms);
            t.now == s.now + ms && Clockwork(t) && NothingDue(t)
  {
    SettledIsQuiet(cfg, Later(s, ms));
  }

  lemma {:induction false} SettledIsQuiet(cfg: Config, s: State)
    requires Clockwork(s)
    ensures NothingDue(Settle(cfg, s))
    decreases Load(s)
  {
    if Quiet(s) {
      forall m | m in s.motions ensures s.now < m.nextStepTimeMs {
        assert EventOf(m) in multiset(StepBatch(s)) <==> EventOf(m) in DueSteps(s.motions, s.pieces, s.now);
      }
    } else {
      RoundProgresses(cfg, s);
      SettledIsQuiet(cfg, Round(cfg, s));
    }
  }
}
