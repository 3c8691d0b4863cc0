/** Runs in their smallest acts: a request, time passing, the handing out of events, one step, one landing. */
module EngineTraces {
  import opened Wrappers
  import opened ChessTypes
  import opened Rules
  import opened Arbiter
  import opened Engine
  import opened EngineFacts
  import opened EngineTime
  import opened EngineBatch
  import opened EngineInvariants
  import opened EngineRuns

  datatype Act =
    | MoveAsked(source: Position, destination: Position)
    | JumpAsked(cell: Position)
    | TimePasses(ms: nat)
    | EventsHandedOut
    | StepApplied(step: StepEvent)
    | LandingApplied(landing: Landing)

  function Do(cfg: Config, s: State, a: Act): State {
    match a
    case MoveAsked(source, destination) => RequestMove(cfg, s, source, destination).0
    case JumpAsked(cell) => RequestJump(cfg, s, cell).0
    case TimePasses(ms) => Later(s, ms)
    case EventsHandedOut => AfterBatch(s)
    case StepApplied(e) => ProcessStep(s, e)
    case LandingApplied(l) => ProcessLanding(cfg, s, l)
  }

  // ----- the acts of a run

  function StepActs(es: seq<StepEvent>): seq<Act> {
    if es == [] then [] else [StepApplied(es[0])] + StepActs(es[1..])
  }

  function LandingActs(ls: seq<Landing>): seq<Act> {
    if ls == [] then [] else [LandingApplied(ls[0])] + LandingActs(ls[1..])
  }

  /** One turn of the wait loop: all steps of the batch, then all landings. */
  function RoundActs(s: State): seq<Act> {
    [EventsHandedOut] + (StepActs(StepBatch(s)) + LandingActs(LandingBatch(s)))
  }

  function SettleActs(cfg: Config, s: State): seq<Act>
    requires Clockwork(s)
    decreases Load(s)
  {
    if Quiet(s) then [EventsHandedOut]
    else
      RoundProgresses(cfg, s);
      RoundActs(s) + SettleActs(cfg, Round(cfg, s))
  }

  function EventActs(cfg: Config, s: State, e: Event): seq<Act>
    requires Sound(s, [])
  {
    match e
    case MoveRequest(source, destination) => [MoveAsked(source, destination)]
    case JumpRequest(cell) => [JumpAsked(cell)]
    case Waiting(ms) => if ms < 0 then [] else [TimePasses(ms)] + (TimeKeepsSound(s, ms); SettleActs(cfg, Later(s, ms)))
  }

  function RunActs(cfg: Config, s: State, es: seq<Event>): seq<Act>
    requires Sound(s, [])
    decreases es
  {
    if es == [] then [] else EventActs(cfg, s, es[0]) + RunActs(cfg, Apply(cfg, s, es[0]), es[1..])
  }

  // ----- traces

  /** In a sound state with landings ls still to be applied, act a is one the engine comes to; ls2 are the landings then left. */
  ghost predicate Proper(s: State, ls: seq<Landing>, a: Act, ls2: seq<Landing>) {
    && Sound(s, ls)
    && match a
       case EventsHandedOut => ls == [] && ls2 == LandingBatch(s)
       case StepApplied(e) => ls2 == ls && e.eventTimeMs <= s.now && forall m :: m in s.motions && m.piece == e.piece ==> e == EventOf(m)
       case LandingApplied(l) => ls == [l] + ls2
       case _ => ls == [] && ls2 == []
  }

  /** The states between the acts of a stretch of a run, with the landings still to be applied in each. */
  datatype Trace = Trace(states: seq<State>, pending: seq<seq<Landing>>, acts: seq<Act>) {
    ghost predicate Shaped() {
      |states| == |acts| + 1 && |pending| == |acts| + 1
    }

    ghost predicate Links(cfg: Config, i: nat)
      requires Shaped() && i < |acts|
    {
      Proper(states[i], pending[i], acts[i], pending[i + 1]) && states[i + 1] == Do(cfg, states[i], acts[i])
    }

    ghost predicate Traces(cfg: Config, s: State, ls: seq<Landing>, todo: seq<Act>) {
      && Shaped() && acts == todo && states[0] == s && pending[0] == ls
      && (forall i :: 0 <= i < |acts| ==> Links(cfg, i))
      && Sound(End(), Left())
    }

    ghost function End(): State
      requires Shaped()
    {
      states[|acts|]
    }

    ghost function Left(): seq<Landing>
      requires Shaped()
    {
      pending[|acts|]
    }

    /** These are the states and acts of the run es from s. */
    ghost predicate Records(cfg: Config, s: State, es: seq<Event>) {
      Sound(s, []) && Traces(cfg, s, [], RunActs(cfg, s, es))
    }
  }

  lemma Nothing(cfg: Config, s: State, ls: seq<Landing>) returns (tr: Trace)
    requires Sound(s, ls)
    ensures tr.Traces(cfg, s, ls, []) && tr.End() == s && tr.Left() == ls
  {
    tr := Trace([s], [ls], []);
  }

  lemma First(cfg: Config, s: State, ls: seq<Landing>, a: Act, ls2: seq<Landing>, todo: seq<Act>, rest: Trace) returns (tr: Trace)
    requires Proper(s, ls, a, ls2) && rest.Traces(cfg, Do(cfg, s, a), ls2, todo)
    ensures tr.Traces(cfg, s, ls, [a] + todo) && tr.End() == rest.End() && tr.Left() == rest.Left()
  {
    hide Proper, Do, Sound;
    tr := Trace([s] + rest.states, [ls] + rest.pending, [a] + rest.acts);
    forall i | 0 <= i < |tr.acts| ensures tr.Links(cfg, i) {
      if i > 0 {
        assert rest.Links(cfg, i - 1);
      }
    }
  }

  lemma Joined(cfg: Config, a: Trace, b: Trace, s: State, ls: seq<Landing>, todo: seq<Act>, more: seq<Act>) returns (tr: Trace)
    requires a.Traces(cfg, s, ls, todo) && b.Traces(cfg, a.End(), a.Left(), more)
    ensures tr.Traces(cfg, s, ls, todo + more) && tr.End() == b.End() && tr.Left() == b.Left()
  {
    hide Proper, Do, Sound;
    tr := Trace(a.states + b.states[1..], a.pending + b.pending[1..], a.acts + b.acts);
    forall i | 0 <= i < |tr.acts| ensures tr.Links(cfg, i) {
      if i < |a.acts| {
        assert a.Links(cfg, i);
      } else {
        assert b.Links(cfg, i - |a.acts|);
      }
    }
  }

  lemma {:induction false} TraceOfSteps(cfg: Config, s: State, ls: seq<Landing>, es: seq<StepEvent>) returns (tr: Trace)
    requires Sound(s, ls) && InStep(s, es)
    ensures tr.Traces(cfg, s, ls, StepActs(es)) && tr.End() == ProcessSteps(s, es) && tr.Left() == ls
    decreases es
  {
    if es == [] {
      tr := Nothing(cfg, s, ls);
    } else {
      assert es[0] in es;
      StepKeepsSound(s, ls, es[0]);
      StepKeepsInStep(s, es);
      var rest := TraceOfSteps(cfg, ProcessStep(s, es[0]), ls, es[1..]);
      hide Sound, ProcessStep, ProcessSteps, InStep;
      tr := First(cfg, s, ls, StepApplied(es[0]), ls, StepActs(es[1..]), rest);
    }
  }

  lemma {:induction false} TraceOfLandings(cfg: Config, s: State, ls: seq<Landing>) returns (tr: Trace)
    requires Sound(s, ls)
    ensures tr.Traces(cfg, s, ls, LandingActs(ls)) && tr.End() == ProcessLandings(cfg, s, ls) && tr.Left() == []
    decreases ls
  {
    if ls == [] {
      tr := Nothing(cfg, s, ls);
    } else {
      assert ls == [ls[0]] + ls[1..];
      LandingKeepsSound(cfg, s, ls[0], ls[1..]);
      var rest := TraceOfLandings(cfg, ProcessLanding(cfg, s, ls[0]), ls[1..]);
      hide Sound, ProcessLanding, ProcessLandings;
      tr := First(cfg, s, ls, LandingApplied(ls[0]), ls[1..], LandingActs(ls[1..]), rest);
    }
  }

  lemma TraceOfRound(cfg: Config, s: State) returns (tr: Trace)
    requires Sound(s, [])
    ensures tr.Traces(cfg, s, [], RoundActs(s)) && tr.End() == Round(cfg, s) && tr.Left() == []
  {
    BatchKeepsSound(s);
    BatchIsInStep(s);
    hide Sound, InStep, AfterBatch, StepBatch, LandingBatch, ProcessSteps, ProcessLandings;
    var steps := TraceOfSteps(cfg, AfterBatch(s), LandingBatch(s), StepBatch(s));
    var landings := TraceOfLandings(cfg, steps.End(), LandingBatch(s));
    var both := Joined(cfg, steps, landings, AfterBatch(s), LandingBatch(s), StepActs(StepBatch(s)), LandingActs(LandingBatch(s)));
    tr := First(cfg, s, [], EventsHandedOut, LandingBatch(s), StepActs(StepBatch(s)) + LandingActs(LandingBatch(s)), both);
  }

  lemma TraceOfQuiet(cfg: Config, s: State) returns (tr: Trace)
    requires Sound(s, []) && Quiet(s)
    ensures tr.Traces(cfg, s, [], [EventsHandedOut]) && tr.End() == AfterBatch(s) && tr.Left() == []
  {
    BatchKeepsSound(s);
    hide Sound, AfterBatch;
    var rest := Nothing(cfg, AfterBatch(s), []);
    tr := First(cfg, s, [], EventsHandedOut, [], [], rest);
  }

  lemma {:induction false} TraceOfSettle(cfg: Config, s: State) returns (tr: Trace)
    requires Sound(s, [])
    ensures tr.Traces(cfg, s, [], SettleActs(cfg, s)) && tr.End() == Settle(cfg, s) && tr.Left() == []
    decreases Load(s)
  {
    if Quiet(s) {
      tr := TraceOfQuiet(cfg, s);
    } else {
      RoundProgresses(cfg, s);
      RoundKeepsSound(cfg, s);
      var first := TraceOfRound(cfg, s);
      var rest := TraceOfSettle(cfg, Round(cfg, s));
      hide Sound, Round, RoundActs, Quiet;
      tr := Joined(cfg, first, rest, s, [], RoundActs(s), SettleActs(cfg, Round(cfg, s)));
    }
  }

  lemma TraceOfWait(cfg: Config, s: State, ms: nat) returns (tr: Trace)
    requires Sound(s, [])
    ensures tr.Traces(cfg, s, [], EventActs(cfg, s, Waiting(ms))) && tr.End() == Wait(cfg, s, ms) && tr.Left() == []
  {
    hide Sound, Settle, SettleActs, Clockwork;
    SoundMeans(s, []);
    TimeKeepsSound(s, ms);
    SoundMeans(Later(s, ms), []);
    var rest := TraceOfSettle(cfg, Later(s, ms));
    tr := First(cfg, s, [], TimePasses(ms), [], SettleActs(cfg, Later(s, ms)), rest);
  }

  lemma TraceOfRequest(cfg: Config, s: State, a: Act) returns (tr: Trace)
    requires Sound(s, []) && (a.MoveAsked? || a.JumpAsked?)
    ensures tr.Traces(cfg, s, [], [a]) && tr.End() == Do(cfg, s, a) && tr.Left() == []
  {
    assert Sound(Do(cfg, s, a), []) by {
      match a
      case MoveAsked(source, destination) => MoveRequestKeepsSound(cfg, s, source, destination);
      case JumpAsked(cell) => JumpRequestKeepsSound(cfg, s, cell);
    }
    hide Sound, Do;
    var rest := Nothing(cfg, Do(cfg, s, a), []);
    tr := First(cfg, s, [], a, [], [], rest);
  }

  lemma TraceOfEvent(cfg: Config, s: State, e: Event) returns (tr: Trace)
    requires Sound(s, [])
    ensures tr.Traces(cfg, s, [], EventActs(cfg, s, e)) && tr.End() == Apply(cfg, s, e) && tr.Left() == []
  {
    match e
    case MoveRequest(source, destination) => tr := TraceOfRequest(cfg, s, MoveAsked(source, destination));
    case JumpRequest(cell) => tr := TraceOfRequest(cfg, s, JumpAsked(cell));
    case Waiting(ms) =>
      if ms < 0 {
        tr := Nothing(cfg, s, []);
      } else {
        tr := TraceOfWait(cfg, s, ms);
      }
  }

  /** Every run has a trace: sound at every act, and ending where the run ends. */
  lemma {:induction false} TraceOfRun(cfg: Config, s: State, es: seq<Event>) returns (tr: Trace)
    requires Sound(s, [])
    ensures tr.Records(cfg, s, es) && tr.End() == Run(cfg, s, es) && tr.Left() == []
    decreases es
  {
    if es == [] {
      tr := Nothing(cfg, s, []);
    } else {
      var first := TraceOfEvent(cfg, s, es[0]);
      var rest := TraceOfRun(cfg, Apply(cfg, s, es[0]), es[1..]);
      hide Sound, Apply, EventActs;
      tr := Joined(cfg, first, rest, s, [], EventActs(cfg, s, es[0]), RunActs(cfg, Apply(cfg, s, es[0]), es[1..]));
    }
  }

  // ----- a trace is determined by its acts

  lemma OneWayOn(s: State, ls: seq<Landing>, a: Act, x: seq<Landing>, y: seq<Landing>)
    requires Proper(s, ls, a, x) && Proper(s, ls, a, y)
    ensures x == y
  {
    hide Sound;
    if a.LandingApplied? {
      assert x == ls[1..] && y == ls[1..];
    }
  }

  lemma {:induction false} TraceIsUnique(cfg: Config, a: Trace, b: Trace, s: State, ls: seq<Landing>, todo: seq<Act>, n: nat)
    requires a.Traces(cfg, s, ls, todo) && b.Traces(cfg, s, ls, todo) && n <= |todo|
    ensures a.states[n] == b.states[n] && a.pending[n] == b.pending[n]
  {
    hide Do, Proper, Sound;
    if n > 0 {
      TraceIsUnique(cfg, a, b, s, ls, todo, n - 1);
      assert a.Links(cfg, n - 1) && b.Links(cfg, n - 1);
      OneWayOn(a.states[n - 1], a.pending[n - 1], todo[n - 1], a.pending[n], b.pending[n]);
    }
  }

  /** The recorded states are those of the run: the trace ends where the run ends, with every landing applied. */
  lemma RecordedRunEnds(cfg: Config, s: State, es: seq<Event>, tr: Trace)
    requires tr.Records(cfg, s, es)
    ensures tr.End() == Run(cfg, s, es) && tr.Left() == []
  {
    var own := TraceOfRun(cfg, s, es);
    TraceIsUnique(cfg, tr, own, s, [], RunActs(cfg, s, es), |tr.acts|);
  }

  ghost predicate Linked(cfg: Config, tr: Trace) {
    tr.Shaped() && forall i :: 0 <= i < |tr.acts| ==> tr.Links(cfg, i)
  }

  /** What is known of the trace of a run. */
  lemma RecordMeans(cfg: Config, s: State, es: seq<Event>, tr: Trace)
    requires tr.Records(cfg, s, es)
    ensures Sound(s, []) && Clockwork(s) && Linked(cfg, tr) && tr.states[0] == s && tr.pending[0] == []
    ensures tr.End() == Run(cfg, s, es) && tr.Left() == [] && Sound(tr.End(), [])
  {
    RecordedRunEnds(cfg, s, es, tr);
  }

  /** Only requests and steps change what moves, what stands where, and the castles. */
  lemma OtherActsMoveNothing(cfg: Config, s: State, a: Act)
    requires Clockwork(s) && !a.MoveAsked? && !a.StepApplied?
    ensures var t := Do(cfg, s, a);
            && t.motions == s.motions && t.castles == s.castles && t.grid == s.grid
            && forall p: PieceRef :: t.Of(p).state == Moving <==> s.Of(p).state == Moving
  {
    if a.EventsHandedOut? {
      StillMovingIsAll(s.motions, s.pieces);
    }
  }

  // ----- what a request may do

  ghost predicate SlideStarted(cfg: Config, s: State, source: Position, destination: Position, t: State) {
    && s.grid.Get(source).Some? && s.Of(s.grid.Get(source).value).state == Idle
    && ValidateMove(s.grid, s.pieces, source, destination) == OK
    && t == StartSlide(cfg, s, s.grid.Get(source).value, source, destination)
  }

  ghost predicate CastleStarted(cfg: Config, s: State, source: Position, destination: Position, t: State) {
    var c := CanCastle(s, source, destination);
    c.Some? && CastleReady(s, c.value) && t == StartCastle(cfg, s, c.value)
  }

  lemma RequestStarts(cfg: Config, s: State, source: Position, destination: Position)
    ensures var t := RequestMove(cfg, s, source, destination).0;
            t == s || SlideStarted(cfg, s, source, destination, t) || CastleStarted(cfg, s, source, destination, t)
  {
    hide CanCastle, ValidateMove, StartCastle, StartSlide, CastleReady;
    if RequestMove(cfg, s, source, destination).1.isAccepted && IsCastlingRequest(s, source, destination) {
      AcceptedCastleIsReady(s, source, destination);
    }
  }
}
