/** A slide nobody gets in the way of arrives, whatever else happens on the board meanwhile. */
module EngineArrival {
  import opened Wrappers
  import opened ChessTypes
  import opened Rules
  import opened Arbiter
  import opened Engine
  import opened EngineFacts
  import opened EngineTime
  import opened EngineInvariants
  import opened EngineLedger
  import opened EngineRuns
  import opened EngineRoutes
  import opened EngineTraces

  predicate IsStepOf(a: Act, p: PieceRef) {
    a.StepApplied? && a.step.piece == p
  }

  /** The number of steps of piece p among the acts. */
  function StepsOf(acts: seq<Act>, p: PieceRef): nat {
    if acts == [] then 0 else StepsOf(acts[..|acts| - 1], p) + if IsStepOf(acts[|acts| - 1], p) then 1 else 0
  }

  /** n is motion m some steps later: the same slide of the same piece. */
  predicate SameSlide(m: Motion, n: Motion) {
    && n.piece == m.piece && n.source == m.source && n.destination == m.destination && n.order == m.order
    && n.directMove == m.directMove && n.rowStep == m.rowStep && n.colStep == m.colStep && n.stepDurationMs == m.stepDurationMs
    && StartOf(n) == StartOf(m)
  }

  /** The slide m is still under way and has come so many steps further. */
  ghost predicate OnItsWay(s: State, m: Motion, taken: nat) {
    var n := MotionOf(s.motions, m.piece);
    n.Some? && SameSlide(m, n.value) && StepsLeft(n.value) + taken == StepsLeft(m) && CastleWith(s.castles, m.piece).None?
  }

  /** Act a, from s to t, does not disturb piece p: its own step meets nobody, another piece's step leaves it moving. */
  ghost predicate LeavesAlone(s: State, a: Act, t: State, p: PieceRef) {
    a.StepApplied? ==> if a.step.piece == p then FindAt(s, a.step.to, p).None? else t.Of(p).state == Moving
  }

  /** Where an undisturbed slide ends up. */
  ghost predicate ArrivedAt(s: State, t: State, m: Motion, time: int) {
    && t.Of(m.piece).state == Idle && t.grid.Get(m.destination) == Some(m.piece) && MotionOf(t.motions, m.piece).None?
    && Recorded(s, t, StopEntry(s, m.piece, m.source, m.destination, time, false))
    && t.Of(m.piece).cooldownUntilMs == time + Distance(m.source, m.destination) * 1000
  }

  // ----- one act

  ghost predicate CastlesStay(s: State, t: State) {
    forall c :: c in t.castles ==> c in s.castles
  }

  lemma StopKeepsCastleList(s: State, p: PieceRef, source: Position, cell: Position, time: int, wasCapture: bool)
    ensures StopAt(s, p, source, cell, time, wasCapture).castles == s.castles
  {
  }

  lemma ShotDownKeepsCastleList(s: State, p: PieceRef, hunter: PieceColor)
    ensures ShotDown(s, p, hunter).castles == s.castles
  {
  }

  lemma EnteredKeepsCastleList(s: State, m: Motion, e: StepEvent)
    ensures Entered(s, m, e).castles == s.castles
  {
    hide StopAt;
    StopKeepsCastleList(Glide(s, e.piece, e.to), e.piece, m.source, e.to, e.eventTimeMs, false);
  }

  lemma TakesKeepsCastleList(s: State, m: Motion, e: StepEvent, t: PieceRef)
    ensures Takes(s, m, e, t).castles == s.castles
  {
    hide StopAt;
    var entered := Glide(Capture(s, t, s.Of(e.piece).color), e.piece, e.to);
    StopKeepsCastleList(entered, e.piece, m.source, e.to, e.eventTimeMs, true);
  }

  lemma ResolveKeepsCastleList(s: State, m: Motion, e: StepEvent)
    ensures ResolveStep(s, m, e).castles == s.castles
  {
    hide StopAt, Entered, Takes, ShotDown;
    StopKeepsCastleList(s, e.piece, m.source, e.from, e.eventTimeMs, false);
    EnteredKeepsCastleList(s, m, e);
    match FindAt(s, e.to, e.piece)
    case None =>
    case Some(t) =>
      TakesKeepsCastleList(s, m, e, t);
      ShotDownKeepsCastleList(s, e.piece, s.Of(t).color);
  }

  lemma StepOnlyEndsCastles(s: State, e: StepEvent)
    ensures CastlesStay(s, ProcessStep(s, e))
  {
    hide ResolveStep, CastledGrid, Seated;
    match CastleWith(s.castles, e.piece)
    case Some(i) => assert CompleteCastle(s, i, e.eventTimeMs).castles == s.castles[..i] + s.castles[i + 1..];
    case None =>
      match MotionOf(s.motions, e.piece)
      case None =>
      case Some(m) => ResolveKeepsCastleList(s, m, e);
  }

  lemma NoCastleWith(s: State, t: State, p: PieceRef)
    requires CastlesStay(s, t) && CastleWith(s.castles, p).None?
    ensures CastleWith(t.castles, p).None?
  {
  }

  lemma StillTheMotion(s: State, n: Motion)
    requires Clockwork(s) && n in s.motions
    ensures MotionOf(s.motions, n.piece) == Some(n)
  {
    SameMotion(s.motions, n, MotionOf(s.motions, n.piece).value);
  }

  lemma OthersStepLeavesItOnItsWay(s: State, e: StepEvent, m: Motion, taken: nat)
    requires Clockwork(s) && OnItsWay(s, m, taken) && e.piece != m.piece && ProcessStep(s, e).Of(m.piece).state == Moving
    ensures OnItsWay(ProcessStep(s, e), m, taken)
  {
    hide ProcessStep;
    StepWorks(s, e);
    StepOnlyEndsCastles(s, e);
    NoCastleWith(s, ProcessStep(s, e), m.piece);
    var n := MotionOf(s.motions, m.piece).value;
    assert n in s.motions && n.piece != e.piece;
    StillTheMotion(ProcessStep(s, e), n);
  }

  lemma RequestLeavesMotions(cfg: Config, s: State, source: Position, destination: Position, n: Motion)
    requires Clockwork(s) && GridSound(s) && n in s.motions && CastleWith(s.castles, n.piece).None?
    ensures var t := RequestMove(cfg, s, source, destination).0;
            n in t.motions && CastleWith(t.castles, n.piece).None?
  {
    RequestStarts(cfg, s, source, destination);
    hide RequestMove, CanCastle, ValidateMove;
    var t := RequestMove(cfg, s, source, destination).0;
    if t != s {
      if CastleStarted(cfg, s, source, destination, t) {
        var c := CanCastle(s, source, destination).value;
        CastleWithAppended(s.castles, c, n.piece);
      } else {
        assert t.castles == s.castles;
      }
    }
  }

  /** Anything but a step leaves the slide where it was. */
  lemma RestLeavesItOnItsWay(cfg: Config, s: State, ls: seq<Landing>, a: Act, m: Motion, taken: nat)
    requires Sound(s, ls) && OnItsWay(s, m, taken) && !a.StepApplied? && Clockwork(Do(cfg, s, a))
    ensures OnItsWay(Do(cfg, s, a), m, taken)
  {
    var n := MotionOf(s.motions, m.piece).value;
    assert n in s.motions && Clockwork(s) && GridSound(s);
    hide Sound, Clockwork, GridSound, RequestMove, SameSlide, StepsLeft;
    if a.MoveAsked? {
      RequestLeavesMotions(cfg, s, a.source, a.destination, n);
      StillTheMotion(Do(cfg, s, a), n);
    } else {
      hide Do;
      OtherActsMoveNothing(cfg, s, a);
    }
  }

  lemma FreeStepEnters(s: State, n: Motion)
    requires Clockwork(s) && n in s.motions && OnCourse(s.grid, n) && CastleWith(s.castles, n.piece).None?
    requires FindAt(s, EventOf(n).to, n.piece).None?
    ensures ProcessStep(s, EventOf(n)) == Entered(s, n, EventOf(n))
  {
    NextCellIsOnCourse(s.grid, n);
    StillTheMotion(s, n);
    hide FindAt, Entered, OnCourse;
  }

  lemma SlideKeepsItsMeasures(m: Motion, n: Motion)
    requires SameSlide(m, n)
    ensures StepsInAll(n) == StepsInAll(m) && ArrivalTime(n) == ArrivalTime(m)
  {
    hide StartOf;
  }

  lemma SlideArrivalIsTheSame(s: State, t: State, m: Motion, n: Motion, time: int)
    requires SameSlide(m, n) && ArrivedAt(s, t, n, time)
    ensures ArrivedAt(s, t, m, time)
  {
  }

  /** The motion after a step that does not reach its destination. */
  lemma NextLeg(g: Grid, m: Motion)
    requires OnCourse(g, m)
    ensures EventOf(m).reachedDestination <==> StepsLeft(m) == 1
    ensures StepsLeft(m) > 1 ==>
              var n := m.AdvancedTo(m.NextCell());
              && OnCourse(g, n) && StartOf(n) == StartOf(m) && StepsLeft(n) == StepsLeft(m) - 1 && StepsInAll(n) == StepsInAll(m)
              && forall k :: Along(n.currentCell, n.rowStep, n.colStep, k) == Along(m.currentCell, m.rowStep, m.colStep, k + 1)
  {
    NextCellIsOnCourse(g, m);
    StepsGone(g, m);
    if StepsLeft(m) > 1 {
      StepsGone(g, m.AdvancedTo(m.NextCell()));
    }
  }

  lemma StoppingIsArriving(s: State, m: Motion, time: int)
    requires m.piece < |s.pieces| && s.grid.IsInside(m.destination)
    ensures ArrivedAt(s, StopAt(s, m.piece, m.source, m.destination, time, false), m, time)
  {
    StopFacts(s, m.piece, m.source, m.destination, time, false);
  }

  lemma LastStepArrives(s: State, n: Motion)
    requires Clockwork(s) && n in s.motions && OnCourse(s.grid, n) && CastleWith(s.castles, n.piece).None?
    requires FindAt(s, EventOf(n).to, n.piece).None? && StepsLeft(n) == 1
    ensures EventOf(n).eventTimeMs == ArrivalTime(n) && ArrivedAt(s, ProcessStep(s, EventOf(n)), n, ArrivalTime(n))
  {
    FreeStepEnters(s, n);
    NextLeg(s.grid, n);
    OnCourseMeansOnTime(s.grid, n);
    hide ProcessStep, FindAt, OnCourse, Entered, StopAt, ArrivedAt, StartOf;
    EnteringTheDestinationStops(s, n, EventOf(n));
    StoppingIsArriving(s, n, ArrivalTime(n));
  }

  lemma StepGoesOn(s: State, n: Motion)
    requires Clockwork(s) && n in s.motions && OnCourse(s.grid, n) && CastleWith(s.castles, n.piece).None?
    requires FindAt(s, EventOf(n).to, n.piece).None? && StepsLeft(n) > 1
    ensures var t, n2 := ProcessStep(s, EventOf(n)), n.AdvancedTo(n.NextCell());
            MotionOf(t.motions, n.piece) == Some(n2) && SameSlide(n, n2) && StepsLeft(n2) == StepsLeft(n) - 1 && t.castles == s.castles
  {
    FreeStepEnters(s, n);
    NextLeg(s.grid, n);
    AdvancedMembers(s.motions, n, n.NextCell());
    hide ProcessStep, FindAt, OnCourse;
    StillTheMotion(Glide(s, n.piece, n.NextCell()), n.AdvancedTo(n.NextCell()));
  }

  /** The slide's own step onto a cell where it meets nobody: it arrives on time, or goes on. */
  lemma OwnStepMovesOn(s: State, ls: seq<Landing>, e: StepEvent, m: Motion, taken: nat)
    requires Sound(s, ls) && OnItsWay(s, m, taken) && e == EventOf(MotionOf(s.motions, m.piece).value)
    requires FindAt(s, e.to, m.piece).None?
    ensures taken + 1 <= StepsLeft(m)
    ensures taken + 1 < StepsLeft(m) ==> OnItsWay(ProcessStep(s, e), m, taken + 1)
    ensures taken + 1 == StepsLeft(m) ==> e.eventTimeMs == ArrivalTime(m) && ArrivedAt(s, ProcessStep(s, e), m, ArrivalTime(m))
  {
    var n := MotionOf(s.motions, m.piece).value;
    assert n in s.motions && OnCourse(s.grid, n);
    StepsGone(s.grid, n);
    SlideKeepsItsMeasures(m, n);
    hide ProcessStep, OnCourse, FindAt, ArrivedAt, StartOf;
    if StepsLeft(n) == 1 {
      LastStepArrives(s, n);
      SlideArrivalIsTheSame(s, ProcessStep(s, e), m, n, ArrivalTime(n));
    } else {
      StepGoesOn(s, n);
    }
  }

  // ----- a stretch of a run

  ghost predicate Undisturbed(tr: Trace, m: Motion)
    requires tr.Shaped()
  {
    forall i :: 0 <= i < |tr.acts| && MotionOf(tr.states[i].motions, m.piece).Some?
                && MotionOf(tr.states[i].motions, m.piece).value.order == m.order ==>
                  LeavesAlone(tr.states[i], tr.acts[i], tr.states[i + 1], m.piece)
  }

  lemma OneActOn(cfg: Config, tr: Trace, i: nat, m: Motion, taken: nat)
    requires tr.Shaped() && i < |tr.acts| && tr.Links(cfg, i) && Sound(tr.states[i + 1], tr.pending[i + 1])
    requires Undisturbed(tr, m) && OnItsWay(tr.states[i], m, taken)
    ensures !IsStepOf(tr.acts[i], m.piece) ==> OnItsWay(tr.states[i + 1], m, taken)
    ensures IsStepOf(tr.acts[i], m.piece) ==>
              && taken + 1 <= StepsLeft(m)
              && (taken + 1 < StepsLeft(m) ==> OnItsWay(tr.states[i + 1], m, taken + 1))
              && (taken + 1 == StepsLeft(m) ==>
                    tr.acts[i].step.eventTimeMs == ArrivalTime(m) && ArrivedAt(tr.states[i], tr.states[i + 1], m, ArrivalTime(m)))
  {
    var s, a := tr.states[i], tr.acts[i];
    assert LeavesAlone(s, a, tr.states[i + 1], m.piece);
    assert MotionOf(s.motions, m.piece).value in s.motions;
    if IsStepOf(a, m.piece) {
      OwnStepMovesOn(s, tr.pending[i], a.step, m, taken);
    } else if a.StepApplied? {
      OthersStepLeavesItOnItsWay(s, a.step, m, taken);
    } else {
      RestLeavesItOnItsWay(cfg, s, tr.pending[i], a, m, taken);
    }
  }

  lemma ActLetsTimePass(cfg: Config, s: State, ls: seq<Landing>, a: Act)
    requires Sound(s, ls)
    ensures s.now <= Do(cfg, s, a).now
  {
    hide RequestMove, ProcessStep, CanCastle, ValidateMove;
    match a
    case MoveAsked(source, destination) => RequestStarts(cfg, s, source, destination);
    case StepApplied(e) => StepWorks(s, e);
    case _ =>
  }

  lemma {:induction false} TimePassesAlong(cfg: Config, tr: Trace, i: nat)
    requires Linked(cfg, tr) && i <= |tr.acts|
    ensures tr.states[i].now <= tr.End().now
    decreases |tr.acts| - i
  {
    hide Do, Sound;
    if i < |tr.acts| {
      assert tr.Links(cfg, i);
      ActLetsTimePass(cfg, tr.states[i], tr.pending[i], tr.acts[i]);
      TimePassesAlong(cfg, tr, i + 1);
    }
  }

  lemma StepsCountUp(acts: seq<Act>, i: nat, p: PieceRef)
    requires i < |acts|
    ensures StepsOf(acts[..i + 1], p) == StepsOf(acts[..i], p) + if IsStepOf(acts[i], p) then 1 else 0
  {
    assert acts[..i + 1][..i] == acts[..i];
  }

  /** The slide is followed along the trace until its last step. */
  lemma {:induction false} FollowSlide(cfg: Config, tr: Trace, m: Motion, i: nat) returns (k: nat)
    requires Linked(cfg, tr) && i <= |tr.acts| && Undisturbed(tr, m)
    requires Sound(tr.End(), tr.Left())
    requires forall j :: 0 <= j <= i ==> OnItsWay(tr.states[j], m, StepsOf(tr.acts[..j], m.piece))
    ensures k <= |tr.acts|
    ensures forall j :: 0 <= j <= k ==> OnItsWay(tr.states[j], m, StepsOf(tr.acts[..j], m.piece))
    ensures k < |tr.acts| ==> IsStepOf(tr.acts[k], m.piece) && StepsOf(tr.acts[..k + 1], m.piece) == StepsLeft(m)
    ensures k < |tr.acts| ==> tr.acts[k].step.eventTimeMs == ArrivalTime(m) && ArrivedAt(tr.states[k], tr.states[k + 1], m, ArrivalTime(m))
    decreases |tr.acts| - i
  {
    hide OnItsWay, ArrivedAt, Undisturbed, StepsLeft, StepsOf, ArrivalTime, Sound, Do;
    k := i;
    if i < |tr.acts| {
      assert tr.Links(cfg, i);
      assert i + 1 < |tr.acts| ==> tr.Links(cfg, i + 1);
      StepsCountUp(tr.acts, i, m.piece);
      OneActOn(cfg, tr, i, m, StepsOf(tr.acts[..i], m.piece));
      if !IsStepOf(tr.acts[i], m.piece) || StepsOf(tr.acts[..i], m.piece) + 1 < StepsLeft(m) {
        k := FollowSlide(cfg, tr, m, i + 1);
      }
    }
  }

  lemma StartKeepsNothingDue(cfg: Config, s: State, source: Position, destination: Position)
    requires NothingDue(s)
    ensures NothingDue(RequestMove(cfg, s, source, destination).0)
  {
    RequestStarts(cfg, s, source, destination);
    hide RequestMove, CanCastle, ValidateMove;
  }

  /** Between the events of a run nothing is due. */
  lemma {:induction false} RunLeavesNothingDue(cfg: Config, s: State, es: seq<Event>)
    requires Sound(s, []) && NothingDue(s)
    ensures NothingDue(Run(cfg, s, es))
    decreases es
  {
    hide Sound, Settle, RequestMove, NothingDue;
    if es != [] {
      assert NothingDue(Apply(cfg, s, es[0])) by {
        match es[0]
        case MoveRequest(source, destination) => StartKeepsNothingDue(cfg, s, source, destination);
        case JumpRequest(cell) => JumpKeepsNothingDue(cfg, s, cell);
        case Waiting(ms) => WaitKeepsNothingDue(cfg, s, ms);
      }
      RunLeavesNothingDue(cfg, Apply(cfg, s, es[0]), es[1..]);
    }
  }

  lemma JumpKeepsNothingDue(cfg: Config, s: State, cell: Position)
    requires NothingDue(s)
    ensures NothingDue(RequestJump(cfg, s, cell).0)
  {
  }

  lemma WaitKeepsNothingDue(cfg: Config, s: State, ms: int)
    requires Sound(s, []) && NothingDue(s)
    ensures NothingDue(Wait(cfg, s, ms))
  {
    if ms >= 0 {
      WaitLeavesNothingDue(cfg, s, ms);
    }
  }

  lemma UnderWayMeansEarly(s: State, m: Motion, taken: nat)
    requires Sound(s, []) && NothingDue(s) && OnItsWay(s, m, taken)
    ensures s.now < ArrivalTime(m)
  {
    var n := MotionOf(s.motions, m.piece).value;
    assert n in s.motions && OnCourse(s.grid, n);
    SlideKeepsItsMeasures(m, n);
    StepsGone(s.grid, n);
    OnCourseMeansOnTime(s.grid, n);
    LaterStepsComeLater(StepsInAll(n) - StepsLeft(n) + 1, StepsInAll(n), n.stepDurationMs);
  }

  lemma LaterStepsComeLater(n: nat, k: nat, stepDurationMs: int)
    requires n <= k && stepDurationMs >= 1
    ensures n * stepDurationMs <= k * stepDurationMs
  {
  }

  lemma SlideStartsOnItsWay(s: State, m: Motion)
    requires Clockwork(s) && m in s.motions && CastleWith(s.castles, m.piece).None?
    ensures OnItsWay(s, m, 0)
  {
    StillTheMotion(s, m);
  }

  lemma NoStepsAtFirst(p: PieceRef)
    ensures StepsOf([], p) == 0
  {
  }

  lemma AppliedStepIsDue(cfg: Config, tr: Trace, k: nat)
    requires Linked(cfg, tr) && k < |tr.acts| && tr.acts[k].StepApplied?
    ensures tr.acts[k].step.eventTimeMs <= tr.states[k].now
  {
    hide Do, Sound;
    assert tr.Links(cfg, k);
  }

  lemma FollowedToTheEnd(tr: Trace, m: Motion)
    requires tr.Shaped() && Sound(tr.End(), []) && NothingDue(tr.End())
    requires OnItsWay(tr.End(), m, StepsOf(tr.acts, m.piece))
    ensures tr.End().now < ArrivalTime(m)
  {
    UnderWayMeansEarly(tr.End(), m, StepsOf(tr.acts, m.piece));
  }

  /**
   * On any run, among any other moves, jumps, captures and castles: a slide whose own steps meet nobody and whose piece nobody
   * stops is under way until, with its last step, it comes to rest on its destination, after just as many steps as it had to go
   * and recorded at start + steps * duration; and it has come to rest exactly when the run has reached that time.
   */
  lemma UndisturbedSlideArrives(cfg: Config, s: State, es: seq<Event>, tr: Trace, m: Motion) returns (k: nat)
    requires tr.Records(cfg, s, es) && NothingDue(s)
    requires m in s.motions && CastleWith(s.castles, m.piece).None? && Undisturbed(tr, m)
    ensures k <= |tr.acts| && (k < |tr.acts| <==> ArrivalTime(m) <= Run(cfg, s, es).now)
    ensures forall i :: 0 <= i <= k ==> OnItsWay(tr.states[i], m, StepsOf(tr.acts[..i], m.piece))
    ensures k < |tr.acts| ==> IsStepOf(tr.acts[k], m.piece) && StepsOf(tr.acts[..k + 1], m.piece) == StepsLeft(m)
    ensures k < |tr.acts| ==> tr.acts[k].step.eventTimeMs == ArrivalTime(m) && ArrivedAt(tr.states[k], tr.states[k + 1], m, ArrivalTime(m))
  {
    hide OnItsWay, ArrivedAt, Undisturbed, StepsLeft, ArrivalTime, Sound, Do, Proper, Run, RunActs, NothingDue, StepsOf, CastleWith,
         Clockwork, Linked;
    RecordMeans(cfg, s, es, tr);
    SlideStartsOnItsWay(s, m);
    RunLeavesNothingDue(cfg, s, es);
    NoStepsAtFirst(m.piece);
    assert tr.acts[..0] == [];
    k := FollowSlide(cfg, tr, m, 0);
    if k < |tr.acts| {
      TimePassesAlong(cfg, tr, k);
      AppliedStepIsDue(cfg, tr, k);
    } else {
      assert tr.acts[..k] == tr.acts;
      FollowedToTheEnd(tr, m);
    }
  }
}
