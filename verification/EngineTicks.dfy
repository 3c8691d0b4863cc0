/** How finely waiting time is cut into ticks makes no difference. */
module EngineTicks {
  import opened Wrappers
  import opened ChessTypes
  import opened Rules
  import opened Arbiter
  import opened Engine
  import opened EngineFacts
  import opened EngineTime
  import opened EngineBatch
  import opened EngineInvariants

  // ----- the order of events does not depend on ticks

  /** m is the earliest motion with a step due at or before the deadline. */
  ghost predicate FirstDue(s: State, deadline: int, m: Motion) {
    && m in s.motions && m.nextStepTimeMs <= deadline
    && forall n :: n in s.motions && n != m ==> Precedes(EventOf(m), EventOf(n))
  }

  /** e is the step of the earliest due motion. */
  ghost predicate IsNext(s: State, deadline: int, e: StepEvent) {
    var m := MotionOf(s.motions, e.piece);
    m.Some? && e == EventOf(m.value) && FirstDue(s, deadline, m.value)
  }

  /** The states and steps of a stretch of time in which events are taken one at a time, earliest first. */
  datatype Chronicle = Chronicle(states: seq<State>, steps: seq<StepEvent>) {
    ghost predicate Links(deadline: int, i: nat)
      requires |states| == |steps| + 1 && i < |steps|
    {
      IsNext(states[i], deadline, steps[i]) && states[i + 1] == ProcessStep(states[i], steps[i])
    }

    /** The chronicle starts in s and goes on until no motion is due at the deadline. */
    ghost predicate Plays(s: State, deadline: int) {
      && |states| == |steps| + 1
      && states[0] == s
      && (forall i :: 0 <= i < |steps| ==> Links(deadline, i))
      && NoneDue(states[|steps|], deadline)
    }

    ghost function End(): State
      requires |states| > 0
    {
      states[|states| - 1]
    }

    function Tail(): Chronicle
      requires |states| > 0 && |steps| > 0
    {
      Chronicle(states[1..], steps[1..])
    }
  }

  ghost predicate NoneDue(s: State, deadline: int) {
    forall m :: m in s.motions ==> deadline < m.nextStepTimeMs
  }

  lemma TailPlays(c: Chronicle, s: State, deadline: int)
    requires c.Plays(s, deadline) && c.steps != []
    ensures IsNext(s, deadline, c.steps[0])
    ensures c.Tail().Plays(ProcessStep(s, c.steps[0]), deadline) && c.Tail().End() == c.End()
  {
    assert c.Links(deadline, 0);
    forall i | 0 <= i < |c.Tail().steps| ensures c.Tail().Links(deadline, i) {
      assert c.Links(deadline, i + 1);
    }
  }

  lemma Prepended(s: State, deadline: int, e: StepEvent, rest: Chronicle) returns (c: Chronicle)
    requires IsNext(s, deadline, e) && rest.Plays(ProcessStep(s, e), deadline)
    ensures c.Plays(s, deadline) && c.End() == rest.End()
  {
    hide ProcessStep, IsNext;
    c := Chronicle([s] + rest.states, [e] + rest.steps);
    forall i | 0 <= i < |c.steps| ensures c.Links(deadline, i) {
      if i > 0 {
        assert rest.Links(deadline, i - 1);
      }
    }
  }

  lemma NextIsUnique(s: State, deadline: int, e: StepEvent, f: StepEvent)
    requires IsNext(s, deadline, e) && IsNext(s, deadline, f)
    ensures e == f
  {
    assert FirstDue(s, deadline, MotionOf(s.motions, e.piece).value);
    assert FirstDue(s, deadline, MotionOf(s.motions, f.piece).value);
  }

  lemma NextIsDue(s: State, deadline: int, e: StepEvent)
    requires IsNext(s, deadline, e)
    ensures !NoneDue(s, deadline)
  {
  }

  /** Whatever happens up to a deadline happens in just one way. */
  lemma {:induction false} ChronicleIsUnique(c: Chronicle, d: Chronicle, s: State, deadline: int)
    requires c.Plays(s, deadline) && d.Plays(s, deadline)
    ensures c.End() == d.End() && c.steps == d.steps
    decreases |c.steps|
  {
    if c.steps != [] && d.steps != [] {
      TailPlays(c, s, deadline);
      TailPlays(d, s, deadline);
      NextIsUnique(s, deadline, c.steps[0], d.steps[0]);
      ChronicleIsUnique(c.Tail(), d.Tail(), ProcessStep(s, c.steps[0]), deadline);
      assert c.steps == [c.steps[0]] + c.Tail().steps && d.steps == [d.steps[0]] + d.Tail().steps;
    } else if c.steps != [] {
      TailPlays(c, s, deadline);
      NextIsDue(s, deadline, c.steps[0]);
    } else if d.steps != [] {
      TailPlays(d, s, deadline);
      NextIsDue(s, deadline, d.steps[0]);
    }
  }

  lemma LaterDeadline(s: State, early: int, late: int, e: StepEvent)
    requires early <= late && IsNext(s, early, e)
    ensures IsNext(s, late, e)
  {
    assert FirstDue(s, early, MotionOf(s.motions, e.piece).value);
  }

  /** What happens up to an early deadline and what happens from there up to a late one make what happens up to the late one. */
  lemma {:induction false} ChroniclesJoin(c: Chronicle, d: Chronicle, s: State, early: int, late: int) returns (j: Chronicle)
    requires early <= late && c.Plays(s, early) && d.Plays(c.End(), late)
    ensures j.Plays(s, late) && j.End() == d.End()
    decreases |c.steps|
  {
    if c.steps == [] {
      j := d;
    } else {
      TailPlays(c, s, early);
      LaterDeadline(s, early, late, c.steps[0]);
      var rest := ChroniclesJoin(c.Tail(), d, ProcessStep(s, c.steps[0]), early, late);
      j := Prepended(s, late, c.steps[0], rest);
    }
  }

  // ----- steps do not read the clock

  lemma StopIgnoresNow(s: State, p: PieceRef, source: Position, cell: Position, time: int, wasCapture: bool, ms: int)
    ensures StopAt(Later(s, ms), p, source, cell, time, wasCapture) == Later(StopAt(s, p, source, cell, time, wasCapture), ms)
  {
  }

  lemma CaptureIgnoresNow(s: State, p: PieceRef, attacker: PieceColor, ms: int)
    ensures Capture(Later(s, ms), p, attacker) == Later(Capture(s, p, attacker), ms)
  {
  }

  lemma EndIgnoresNow(s: State, victim: PieceKind, winner: PieceColor, ms: int)
    ensures EndIfKing(Later(s, ms), victim, winner) == Later(EndIfKing(s, victim, winner), ms)
  {
  }

  lemma SeatedIgnoresNow(s: State, p: PieceRef, time: int, ms: int)
    ensures Seated(Later(s, ms), p, time) == Later(Seated(s, p, time), ms)
  {
  }

  lemma CastleIgnoresNow(s: State, i: nat, time: int, ms: int)
    requires i < |s.castles|
    ensures CompleteCastle(Later(s, ms), i, time) == Later(CompleteCastle(s, i, time), ms)
  {
    hide Seated, CastledGrid, Without;
    SeatedIgnoresNow(s, s.castles[i].king, time, ms);
    SeatedIgnoresNow(Seated(s, s.castles[i].king, time), s.castles[i].rook, time, ms);
  }

  lemma EnteredIgnoresNow(s: State, m: Motion, e: StepEvent, ms: int)
    ensures Entered(Later(s, ms), m, e) == Later(Entered(s, m, e), ms)
  {
    StopIgnoresNow(Glide(s, e.piece, e.to), e.piece, m.source, e.to, e.eventTimeMs, false, ms);
  }

  lemma ShotDownIgnoresNow(s: State, p: PieceRef, hunter: PieceColor, ms: int)
    ensures ShotDown(Later(s, ms), p, hunter) == Later(ShotDown(s, p, hunter), ms)
  {
    CaptureIgnoresNow(s, p, hunter, ms);
    EndIgnoresNow(Capture(s, p, hunter), s.Of(p).kind, hunter, ms);
  }

  lemma GlideIgnoresNow(s: State, p: PieceRef, cell: Position, ms: int)
    ensures Glide(Later(s, ms), p, cell) == Later(Glide(s, p, cell), ms)
  {
  }

  lemma EnemyEnteredIgnoresNow(s: State, p: PieceRef, cell: Position, t: PieceRef, color: PieceColor, ms: int)
    ensures Glide(Capture(Later(s, ms), t, color), p, cell) == Later(Glide(Capture(s, t, color), p, cell), ms)
  {
    CaptureIgnoresNow(s, t, color, ms);
    GlideIgnoresNow(Capture(s, t, color), p, cell, ms);
  }

  lemma TakesIgnoresNow(s: State, m: Motion, e: StepEvent, t: PieceRef, ms: int)
    ensures Takes(Later(s, ms), m, e, t) == Later(Takes(s, m, e, t), ms)
  {
    var color := s.Of(e.piece).color;
    EnemyEnteredIgnoresNow(s, e.piece, e.to, t, color, ms);
    var entered := Glide(Capture(s, t, color), e.piece, e.to);
    StopIgnoresNow(entered, e.piece, m.source, e.to, e.eventTimeMs, true, ms);
    var stopped := StopAt(entered, e.piece, m.source, e.to, e.eventTimeMs, true);
    EndIgnoresNow(stopped, s.Of(t).kind, color, ms);
    assert Takes(s, m, e, t) == EndIfKing(stopped, s.Of(t).kind, color);
    assert Later(s, ms).Of(e.piece) == s.Of(e.piece) && Later(s, ms).Of(t) == s.Of(t);
  }

  lemma FindIgnoresNow(s: State, cell: Position, p: PieceRef, ms: int)
    ensures FindAt(Later(s, ms), cell, p) == FindAt(s, cell, p)
  {
  }

  lemma ResolveIgnoresNow(s: State, m: Motion, e: StepEvent, ms: int)
    ensures ResolveStep(Later(s, ms), m, e) == Later(ResolveStep(s, m, e), ms)
  {
    FindIgnoresNow(s, e.to, e.piece, ms);
    if !s.grid.IsInside(e.to) {
      StopIgnoresNow(s, e.piece, m.source, e.from, e.eventTimeMs, false, ms);
    } else {
      match FindAt(s, e.to, e.piece)
      case None => EnteredIgnoresNow(s, m, e, ms);
      case Some(t) =>
        if s.Of(t).color == s.Of(e.piece).color {
          StopIgnoresNow(s, e.piece, m.source, e.from, e.eventTimeMs, false, ms);
        } else if s.Of(t).state == Airborne {
          ShotDownIgnoresNow(s, e.piece, s.Of(t).color, ms);
        } else {
          TakesIgnoresNow(s, m, e, t, ms);
        }
    }
  }

  lemma StepIgnoresNow(s: State, e: StepEvent, ms: int)
    ensures ProcessStep(Later(s, ms), e) == Later(ProcessStep(s, e), ms)
  {
    match CastleWith(s.castles, e.piece)
    case Some(i) => CastleIgnoresNow(s, i, e.eventTimeMs, ms);
    case None =>
      match MotionOf(s.motions, e.piece)
      case None =>
      case Some(m) => ResolveIgnoresNow(s, m, e, ms);
  }

  lemma NextIgnoresNow(s: State, deadline: int, e: StepEvent, ms: int)
    ensures IsNext(Later(s, ms), deadline, e) <==> IsNext(s, deadline, e)
  {
    var m := MotionOf(s.motions, e.piece);
    if m.Some? {
      assert FirstDue(Later(s, ms), deadline, m.value) <==> FirstDue(s, deadline, m.value);
    }
  }

  lemma {:induction false} ChronicleIgnoresNow(c: Chronicle, s: State, deadline: int, ms: int) returns (d: Chronicle)
    requires c.Plays(Later(s, ms), deadline)
    ensures d.Plays(s, deadline) && c.End() == Later(d.End(), ms)
    decreases |c.steps|
  {
    if c.steps == [] {
      d := Chronicle([s], []);
    } else {
      var e := c.steps[0];
      TailPlays(c, Later(s, ms), deadline);
      NextIgnoresNow(s, deadline, e, ms);
      StepIgnoresNow(s, e, ms);
      var rest := ChronicleIgnoresNow(c.Tail(), ProcessStep(s, e), deadline, ms);
      d := Prepended(s, deadline, e, rest);
    }
  }

  // ----- a short tick plays the chronicle

  lemma StopConsumes(s: State, m: Motion, cell: Position, time: int, wasCapture: bool)
    requires Clockwork(s) && m.piece < |s.pieces|
    ensures m !in StopAt(s, m.piece, m.source, cell, time, wasCapture).motions
  {
    StopFacts(s, m.piece, m.source, cell, time, wasCapture);
  }

  lemma GlideConsumes(s: State, m: Motion, cell: Position)
    requires Clockwork(s) && m in s.motions
    ensures m !in Glide(s, m.piece, cell).motions
  {
    AdvancedMembers(s.motions, m, cell);
  }

  lemma ResolveConsumes(s: State, ls: seq<Landing>, m: Motion)
    requires Sound(s, ls) && m in s.motions
    ensures m !in ResolveStep(s, m, EventOf(m)).motions
  {
    var e := EventOf(m);
    NextCellIsOnCourse(s.grid, m);
    match FindAt(s, e.to, e.piece)
    case None =>
      if e.reachedDestination {
        EnteringTheDestinationStops(s, m, e);
        StopConsumes(s, m, e.to, e.eventTimeMs, false);
      } else {
        GlideConsumes(s, m, e.to);
      }
    case Some(t) =>
      if s.Of(t).color == s.Of(e.piece).color {
        StopConsumes(s, m, e.from, e.eventTimeMs, false);
      } else if s.Of(t).state == Airborne {
        CaptureFacts(s, e.piece, s.Of(t).color);
      } else {
        TakesConsumes(s, ls, m, t);
      }
  }

  lemma TakesConsumes(s: State, ls: seq<Landing>, m: Motion, t: PieceRef)
    requires Sound(s, ls) && m in s.motions
    ensures m !in Takes(s, m, EventOf(m), t).motions
  {
    var e, color := EventOf(m), s.Of(m.piece).color;
    TakingIsCapturingThenStopping(s, m, e, t);
    CaptureWorks(s, m.piece, t, color);
    StopConsumes(Capture(s, t, color), m, e.to, e.eventTimeMs, true);
  }

  /** A step event uses up the motion it came from: the motion ends or moves on to its next step. */
  lemma StepConsumes(s: State, ls: seq<Landing>, m: Motion)
    requires Sound(s, ls) && m in s.motions
    ensures m !in ProcessStep(s, EventOf(m)).motions
  {
    match CastleWith(s.castles, m.piece)
    case Some(i) =>
      CastlePieces(s, i);
      CastleFacts(s, i, m.nextStepTimeMs);
    case None =>
      SameMotion(s.motions, m, MotionOf(s.motions, m.piece).value);
      ResolveConsumes(s, ls, m);
  }

  /** es holds the next step of every due motion, and no motion can step twice before the deadline s.now. */
  ghost predicate CompleteBatch(s: State, es: seq<StepEvent>) {
    && InStep(s, es)
    && (forall m :: m in s.motions && m.nextStepTimeMs <= s.now ==> EventOf(m) in es)
    && (forall m :: m in s.motions ==> s.now < m.nextStepTimeMs + m.stepDurationMs)
  }

  lemma BatchSteps(s: State, ls: seq<Landing>, es: seq<StepEvent>)
    requires Sound(s, ls) && CompleteBatch(s, es) && es != []
    ensures Sound(ProcessStep(s, es[0]), ls) && CompleteBatch(ProcessStep(s, es[0]), es[1..])
  {
    var e := es[0];
    assert e in es;
    StepKeepsSound(s, ls, e);
    StepKeepsInStep(s, es);
    StepWorks(s, e);
    var t := ProcessStep(s, e);
    forall n | n in t.motions
      ensures t.now < n.nextStepTimeMs + n.stepDurationMs
      ensures n.nextStepTimeMs <= t.now ==> EventOf(n) in es[1..]
    {
      if n in s.motions {
        if n.piece == e.piece {
          StepConsumes(s, ls, n);
        }
        assert n.nextStepTimeMs <= s.now ==> EventOf(n) in es && EventOf(n) != e;
      } else {
        var m := MotionOf(s.motions, e.piece).value;
        assert m in s.motions && n == m.AdvancedTo(n.currentCell);
      }
    }
  }

  lemma HeadIsNext(s: State, es: seq<StepEvent>)
    requires Clockwork(s) && PiecesSound(s) && CompleteBatch(s, es) && es != [] && s.Of(es[0].piece).state == Moving
    ensures IsNext(s, s.now, es[0])
  {
    var m := MotionOf(s.motions, es[0].piece).value;
    assert es[0] in es;
    forall n | n in s.motions && n != m ensures Precedes(EventOf(m), EventOf(n)) {
      if n.nextStepTimeMs <= s.now {
        var i :| 0 <= i < |es| && es[i] == EventOf(n);
        if i == 0 {
          SameMotion(s.motions, m, n);
        }
      }
    }
  }

  /** Applying a complete batch is playing the chronicle; events of pieces that stopped meanwhile do nothing. */
  lemma {:induction false} BatchPlaysChronicle(s: State, ls: seq<Landing>, es: seq<StepEvent>) returns (c: Chronicle)
    requires Sound(s, ls) && CompleteBatch(s, es)
    ensures c.Plays(s, s.now) && ProcessSteps(s, es) == c.End()
    decreases es
  {
    if es == [] {
      c := Chronicle([s], []);
    } else {
      BatchSteps(s, ls, es);
      StepWorks(s, es[0]);
      var rest := BatchPlaysChronicle(ProcessStep(s, es[0]), ls, es[1..]);
      if s.Of(es[0].piece).state == Moving {
        HeadIsNext(s, es);
        c := Prepended(s, s.now, es[0], rest);
      } else {
        c := rest;
      }
    }
  }

  ghost predicate ShortTick(s: State, ms: int) {
    && 0 <= ms
    && (forall m :: m in s.motions ==> ms <= m.stepDurationMs)
    && (forall j :: j in s.jumps ==> s.now + ms < j.finishTimeMs)
  }

  lemma {:induction false} NobodyLands(js: seq<Jump>, now: int)
    requires forall j :: j in js ==> now < j.finishTimeMs
    ensures StillJumping(js, now) == js && DueLandings(js, now) == []
  {
    if js != [] {
      NobodyLands(js[1..], now);
    }
  }

  lemma BatchIsComplete(s: State, ms: int)
    requires Sound(s, []) && NothingDue(s) && ShortTick(s, ms)
    ensures var t := Later(s, ms);
            Clockwork(t) && AfterBatch(t) == t && LandingBatch(t) == [] && CompleteBatch(t, StepBatch(t))
  {
    var t := Later(s, ms);
    StillMovingIsAll(t.motions, t.pieces);
    NobodyLands(t.jumps, t.now);
    BatchIsInStep(t);
    forall m | m in t.motions && m.nextStepTimeMs <= t.now ensures EventOf(m) in StepBatch(t) {
      assert EventOf(m) in DueSteps(t.motions, t.pieces, t.now);
      assert EventOf(m) in multiset(StepBatch(t));
    }
  }

  lemma QuietStateStays(cfg: Config, s: State)
    requires Clockwork(s) && NothingDue(s)
    ensures Settle(cfg, s) == s
  {
    StillMovingIsAll(s.motions, s.pieces);
    NobodyLands(s.jumps, s.now);
    assert StepBatch(s) == [] by {
      if StepBatch(s) != [] {
        BatchCameFromMotions(s, StepBatch(s)[0]);
      }
    }
  }

  lemma CompleteBatchSettles(cfg: Config, t: State) returns (c: Chronicle)
    requires Sound(t, []) && AfterBatch(t) == t && LandingBatch(t) == [] && CompleteBatch(t, StepBatch(t))
    requires forall j :: j in t.jumps ==> t.now < j.finishTimeMs
    ensures c.Plays(t, t.now) && Settle(cfg, t) == c.End()
  {
    c := BatchPlaysChronicle(t, [], StepBatch(t));
    StepsWork(t, StepBatch(t));
    QuietStateStays(cfg, c.End());
    SettleAfterOneRound(cfg, t, c.End());
  }

  /** One short tick, from a state with nothing due, plays the chronicle up to its end. */
  lemma ShortTickPlaysChronicle(cfg: Config, s: State, ms: int) returns (c: Chronicle)
    requires Sound(s, []) && NothingDue(s) && ShortTick(s, ms)
    ensures c.Plays(s, s.now + ms) && Wait(cfg, s, ms) == Later(c.End(), ms)
  {
    hide Sound, StepBatch, LandingBatch, AfterBatch, CompleteBatch, Settle;
    TimeKeepsSound(s, ms);
    BatchIsComplete(s, ms);
    var later := CompleteBatchSettles(cfg, Later(s, ms));
    c := ChronicleIgnoresNow(later, s, s.now + ms, ms);
  }

  lemma SettleAfterOneRound(cfg: Config, t: State, u: State)
    requires Clockwork(t) && AfterBatch(t) == t && LandingBatch(t) == []
    requires u == ProcessSteps(t, StepBatch(t)) && Clockwork(u) && Settle(cfg, u) == u
    ensures Settle(cfg, t) == u
  {
    if !Quiet(t) {
      assert Round(cfg, t) == u;
      RoundProgresses(cfg, t);
    }
  }

  // ----- many ticks

  function Total(ticks: seq<int>): int {
    if ticks == [] then 0 else ticks[0] + Total(ticks[1..])
  }

  function Waits(cfg: Config, s: State, ticks: seq<int>): (t: State)
    requires Sound(s, [])
    ensures Sound(t, [])
    decreases ticks
  {
    if ticks == [] then s
    else
      WaitKeepsSound(cfg, s, ticks[0]);
      Waits(cfg, Wait(cfg, s, ticks[0]), ticks[1..])
  }

  /** Every tick is short for the motions under way, and no jump lands before the ticks are over. */
  ghost predicate ShortTicks(s: State, ticks: seq<int>) {
    && (forall i :: 0 <= i < |ticks| ==> 0 <= ticks[i])
    && (forall i, m :: 0 <= i < |ticks| && m in s.motions ==> ticks[i] <= m.stepDurationMs)
    && (forall j :: j in s.jumps ==> s.now + Total(ticks) < j.finishTimeMs)
  }

  lemma {:induction false} TotalIsNotNegative(ticks: seq<int>)
    requires forall i :: 0 <= i < |ticks| ==> 0 <= ticks[i]
    ensures 0 <= Total(ticks)
  {
    if ticks != [] {
      TotalIsNotNegative(ticks[1..]);
    }
  }

  ghost predicate DurationsFrom(s: State, t: State) {
    && t.jumps == s.jumps && t.now == s.now
    && forall n :: n in t.motions ==> exists m :: m in s.motions && m.stepDurationMs == n.stepDurationMs
  }

  lemma StepKeepsDurations(s: State, e: StepEvent)
    requires Clockwork(s)
    ensures DurationsFrom(s, ProcessStep(s, e))
  {
    StepWorks(s, e);
    forall n | n in ProcessStep(s, e).motions ensures exists m :: m in s.motions && m.stepDurationMs == n.stepDurationMs {
      if n !in s.motions {
        var m := MotionOf(s.motions, e.piece).value;
        assert m in s.motions && m.stepDurationMs == n.stepDurationMs;
      }
    }
  }

  lemma {:induction false} ChronicleKeepsDurations(c: Chronicle, s: State, deadline: int)
    requires Clockwork(s) && c.Plays(s, deadline)
    ensures DurationsFrom(s, c.End())
    decreases |c.steps|
  {
    if c.steps != [] {
      TailPlays(c, s, deadline);
      StepWorks(s, c.steps[0]);
      StepKeepsDurations(s, c.steps[0]);
      ChronicleKeepsDurations(c.Tail(), ProcessStep(s, c.steps[0]), deadline);
    }
  }

  lemma SoundIsClockwork(s: State, ls: seq<Landing>)
    requires Sound(s, ls)
    ensures Clockwork(s)
  {
  }

  lemma ShortTicksGoOn(cfg: Config, s: State, ticks: seq<int>)
    requires Sound(s, []) && NothingDue(s) && ShortTicks(s, ticks) && ticks != []
    ensures ShortTick(s, ticks[0])
    ensures var t := Wait(cfg, s, ticks[0]);
            Sound(t, []) && NothingDue(t) && ShortTicks(t, ticks[1..])
  {
    hide Sound;
    SoundIsClockwork(s, []);
    TotalIsNotNegative(ticks[1..]);
    var c := ShortTickPlaysChronicle(cfg, s, ticks[0]);
    ChronicleKeepsDurations(c, s, s.now + ticks[0]);
    WaitLeavesNothingDue(cfg, s, ticks[0]);
    WaitKeepsSound(cfg, s, ticks[0]);
  }

  lemma {:induction false} TicksPlayChronicle(cfg: Config, s: State, ticks: seq<int>, deadline: int) returns (c: Chronicle)
    requires Sound(s, []) && NothingDue(s) && ShortTicks(s, ticks) && deadline == s.now + Total(ticks)
    ensures c.Plays(s, deadline) && Waits(cfg, s, ticks) == Later(c.End(), Total(ticks))
    decreases ticks
  {
    hide Sound, Settle, IsNext, ProcessStep;
    SoundIsClockwork(s, []);
    if ticks == [] {
      c := Chronicle([s], []);
    } else {
      TotalIsNotNegative(ticks[1..]);
      ShortTicksGoOn(cfg, s, ticks);
      var first := ShortTickPlaysChronicle(cfg, s, ticks[0]);
      var later := TicksPlayChronicle(cfg, Wait(cfg, s, ticks[0]), ticks[1..], deadline);
      ChronicleKeepsDurations(first, s, s.now + ticks[0]);
      var rest := ChronicleIgnoresNow(later, first.End(), deadline, ticks[0]);
      c := ChroniclesJoin(first, rest, s, s.now + ticks[0], deadline);
    }
  }

  /**
   * Tick-rate independence: from a state with nothing due, any two ways of cutting the same waiting time into ticks
   * that are short for the motions under way, with no landing meanwhile, end in the same state:
   * same board, pieces, motions, scores and histories.
   */
  lemma TickRateDoesNotMatter(cfg: Config, s: State, ticks: seq<int>, others: seq<int>)
    requires Sound(s, []) && NothingDue(s)
    requires ShortTicks(s, ticks) && ShortTicks(s, others) && Total(ticks) == Total(others)
    ensures Waits(cfg, s, ticks) == Waits(cfg, s, others)
  {
    hide Sound;
    var deadline := s.now + Total(ticks);
    var c := TicksPlayChronicle(cfg, s, ticks, deadline);
    var d := TicksPlayChronicle(cfg, s, others, deadline);
    ChronicleIsUnique(c, d, s, deadline);
  }
}
