/** A piece that has come to rest neither moves nor jumps nor castles before it has cooled down, on any run. */
module EngineCooling {
  import opened Wrappers
  import opened ChessTypes
  import opened Rules
  import opened RuleShapes
  import opened Arbiter
  import opened Engine
  import opened EngineFacts
  import opened EngineTime
  import opened EngineInvariants
  import opened EngineRuns
  import opened EngineFates
  import opened EngineTraces
  import opened EngineArrival
  import opened EngineRequests

  /** The piece rests until the time, or is captured meanwhile; no castle waits for it. */
  ghost predicate Cooling(s: State, p: PieceRef, until: int) {
    && (s.Of(p).state == Idle || s.Of(p).state == Captured)
    && s.Of(p).cooldownUntilMs == until
    && CastleWith(s.castles, p).None?
  }

  /** The piece is as it was, or has been captured; castles with it are as few as they were. */
  ghost predicate LeftAtRest(s: State, t: State, p: PieceRef) {
    && (t.Of(p) == s.Of(p) || t.Of(p) == s.Of(p).(state := Captured))
    && (CastleWith(s.castles, p).None? ==> CastleWith(t.castles, p).None?)
  }

  lemma StaysCooling(s: State, t: State, p: PieceRef, until: int)
    requires Cooling(s, p, until) && LeftAtRest(s, t, p)
    ensures Cooling(t, p, until)
  {
  }

  // ----- requests

  lemma SlidesLeaveTheCooling(cfg: Config, s: State, source: Position, destination: Position, p: PieceRef, until: int)
    requires Cooling(s, p, until) && s.now < until
    requires RequestMove(cfg, s, source, destination).1.isAccepted
    ensures s.grid.Get(source) != Some(p)
  {
    hide CanCastle, ValidateMove, RequestMove;
    WhyAMoveIsRefused(cfg, s, source, destination);
  }

  lemma CastlersAreNotCooling(s: State, source: Position, destination: Position, c: Castle, p: PieceRef, until: int)
    requires Cooling(s, p, until) && s.now < until
    requires CanCastle(s, source, destination) == Some(c) && TwoColumnsAsKing(s, source, destination)
    ensures c.rook != p
  {
    hide CanCastle, NobodyBearsOn, NothingBetween;
    WhenCastlingIsAllowed(s, source, destination, c);
  }

  lemma AcceptedRequestsStart(cfg: Config, s: State, source: Position, destination: Position)
    ensures var (t, result) := RequestMove(cfg, s, source, destination);
            && (!result.isAccepted ==> t == s)
            && (result.isAccepted && !TwoColumnsAsKing(s, source, destination) ==>
                  s.grid.Get(source).Some? && t == StartSlide(cfg, s, s.grid.Get(source).value, source, destination))
            && (result.isAccepted && TwoColumnsAsKing(s, source, destination) ==>
                  && CanCastle(s, source, destination).Some? && t == StartCastle(cfg, s, CanCastle(s, source, destination).value)
                  && s.grid.Get(source) == Some(CanCastle(s, source, destination).value.king))
  {
    hide ValidateMove, StartSlide, StartCastle, RankClear, IsSquareAttacked;
  }

  lemma CastleStartLeaves(cfg: Config, s: State, c: Castle, p: PieceRef)
    requires p != c.king && p != c.rook
    ensures LeftAtRest(s, StartCastle(cfg, s, c), p)
  {
    CastleWithAppended(s.castles, c, p);
  }

  lemma RequestLeavesTheCooling(cfg: Config, s: State, source: Position, destination: Position, p: PieceRef, until: int)
    requires Cooling(s, p, until) && s.now < until
    ensures LeftAtRest(s, RequestMove(cfg, s, source, destination).0, p)
  {
    hide RequestMove, CanCastle, ValidateMove, StartCastle, Cooling;
    AcceptedRequestsStart(cfg, s, source, destination);
    if RequestMove(cfg, s, source, destination).1.isAccepted {
      SlidesLeaveTheCooling(cfg, s, source, destination, p, until);
      if TwoColumnsAsKing(s, source, destination) {
        var c := CanCastle(s, source, destination).value;
        CastlersAreNotCooling(s, source, destination, c, p, until);
        CastleStartLeaves(cfg, s, c, p);
      }
    }
  }

  lemma JumpLeavesTheCooling(cfg: Config, s: State, cell: Position, p: PieceRef, until: int)
    requires Cooling(s, p, until) && s.now < until
    ensures LeftAtRest(s, RequestJump(cfg, s, cell).0, p)
  {
    WhyAJumpIsRefused(cfg, s, cell);
  }

  // ----- steps

  lemma FateLeavesTheResting(s: State, ls: seq<Landing>, e: StepEvent, fate: Fate, t: State, p: PieceRef)
    requires Sound(s, ls) && Sensible(s, e, fate) && After(s, e, fate, t)
    requires (s.Of(p).state == Idle || s.Of(p).state == Captured) && CastleWith(s.castles, p).None?
    ensures t.Of(p) == s.Of(p) || t.Of(p) == s.Of(p).(state := Captured)
  {
    hide FindAt, Sound, CompleteCastle, StopAt, Capture, AfterTaking, ShotDown, EndIfKing, Commit, Without, OnCourse;
    match fate
    case Ignored =>
    case Castled(i) => CastlingLeavesOthers(s, ls, i, e.eventTimeMs, p);
    case WentOn(m) =>
    case Stopped(m, cell) => StopFacts(s, m.piece, m.source, cell, m.nextStepTimeMs, false);
    case Shot(m, h) => ShotFacts(s, m, e, s.Of(h).color);
    case Took(m, v) => TakenFacts(s, m, e, v);
  }

  lemma CastlingLeavesOthers(s: State, ls: seq<Landing>, i: nat, time: int, p: PieceRef)
    requires Sound(s, ls) && i < |s.castles| && CastleWith(s.castles, p).None?
    ensures CompleteCastle(s, i, time).Of(p) == s.Of(p)
  {
    CastlePieces(s, i);
    CastleFacts(s, i, time);
    assert s.castles[i] in s.castles;
  }

  lemma StepLeavesTheCooling(s: State, ls: seq<Landing>, e: StepEvent, p: PieceRef, until: int)
    requires Sound(s, ls) && Current(s, e) && Cooling(s, p, until)
    ensures LeftAtRest(s, ProcessStep(s, e), p)
  {
    hide Sound, Current, ProcessStep, Sensible, After, FateOf;
    StepMeetsItsFate(s, ls, e);
    FateLeavesTheResting(s, ls, e, FateOf(s, e), ProcessStep(s, e), p);
    StepOnlyEndsCastles(s, e);
    NoCastleWith(s, ProcessStep(s, e), p);
  }

  /** While it has not cooled down, no act of any kind sets the piece going. */
  lemma ActLeavesTheCooling(cfg: Config, s: State, ls: seq<Landing>, a: Act, ls2: seq<Landing>, p: PieceRef, until: int)
    requires Proper(s, ls, a, ls2) && Cooling(s, p, until) && s.now < until
    ensures Cooling(Do(cfg, s, a), p, until)
  {
    hide RequestMove, RequestJump, ProcessStep, Sound, LeftAtRest, Cooling;
    match a
    case MoveAsked(source, destination) =>
      RequestLeavesTheCooling(cfg, s, source, destination, p, until);
      StaysCooling(s, Do(cfg, s, a), p, until);
    case JumpAsked(cell) =>
      JumpLeavesTheCooling(cfg, s, cell, p, until);
      StaysCooling(s, Do(cfg, s, a), p, until);
    case StepApplied(e) =>
      StepLeavesTheCooling(s, ls, e, p, until);
      StaysCooling(s, Do(cfg, s, a), p, until);
    case LandingApplied(l) => LandingLeavesTheCooling(cfg, s, l, p, until);
    case EventsHandedOut => ClockLeavesTheCooling(s, Do(cfg, s, a), p, until);
    case TimePasses(ms) => ClockLeavesTheCooling(s, Do(cfg, s, a), p, until);
  }

  lemma LandingLeavesTheCooling(cfg: Config, s: State, l: Landing, p: PieceRef, until: int)
    requires Cooling(s, p, until)
    ensures Cooling(ProcessLanding(cfg, s, l), p, until)
  {
  }

  lemma ClockLeavesTheCooling(s: State, t: State, p: PieceRef, until: int)
    requires Cooling(s, p, until) && t.pieces == s.pieces && t.castles == s.castles
    ensures Cooling(t, p, until)
  {
  }

  // ----- runs

  lemma {:induction false} CoolsAlong(cfg: Config, tr: Trace, i: nat, j: nat, p: PieceRef, until: int)
    requires Linked(cfg, tr) && i <= j <= |tr.acts| && Cooling(tr.states[i], p, until)
    requires forall k :: i <= k < j ==> tr.states[k].now < until
    ensures Cooling(tr.states[j], p, until)
    decreases j
  {
    hide Do, Proper, Cooling;
    if i < j {
      CoolsAlong(cfg, tr, i, j - 1, p, until);
      assert tr.Links(cfg, j - 1);
      ActLeavesTheCooling(cfg, tr.states[j - 1], tr.pending[j - 1], tr.acts[j - 1], tr.pending[j], p, until);
    }
  }

  lemma {:induction false} ClockNeverGoesBack(cfg: Config, tr: Trace, i: nat, j: nat)
    requires Linked(cfg, tr) && i <= j <= |tr.acts|
    ensures tr.states[i].now <= tr.states[j].now
    decreases j
  {
    hide Do, Sound;
    if i < j {
      ClockNeverGoesBack(cfg, tr, i, j - 1);
      assert tr.Links(cfg, j - 1);
      ActLetsTimePass(cfg, tr.states[j - 1], tr.pending[j - 1], tr.acts[j - 1]);
    }
  }

  /** The cell on which a step ends the way of its piece with the piece alive, and where that way began. */
  function StopOf(fate: Fate): Option<(PieceRef, Position, Position)> {
    match fate
    case Stopped(m, cell) => Some((m.piece, m.source, cell))
    case Took(m, _) => Some((m.piece, m.source, m.NextCell()))
    case _ => None
  }

  /** One second for each cell, counted as a king goes. */
  function RestAfter(source: Position, cell: Position): int {
    var rows := if cell.row < source.row then source.row - cell.row else cell.row - source.row;
    var columns := if cell.col < source.col then source.col - cell.col else cell.col - source.col;
    1000 * (if rows < columns then columns else rows)
  }

  lemma FateStartsCooling(s: State, ls: seq<Landing>, e: StepEvent, fate: Fate, t: State)
    requires Sound(s, ls) && Sensible(s, e, fate) && After(s, e, fate, t) && StopOf(fate).Some?
    ensures var (p, source, cell) := StopOf(fate).value;
            && p == e.piece && source == e.source && Cooling(t, p, e.eventTimeMs + RestAfter(source, cell)) && t.Of(p).state == Idle
  {
    hide Sound, FindAt, OnCourse, Cooling, RestAfter, StopAt, AfterTaking, EndIfKing, CompleteCastle, ShotDown, Glide;
    match fate
    case Stopped(m, cell) => StopperCools(s, m, e, cell);
    case Took(m, v) => TakerCools(s, m, e, v);
  }

  lemma StopperCools(s: State, m: Motion, e: StepEvent, cell: Position)
    requires Underway(s, m, e)
    ensures var t := StopAt(s, m.piece, m.source, cell, m.nextStepTimeMs, false);
            Cooling(t, m.piece, e.eventTimeMs + RestAfter(m.source, cell)) && t.Of(m.piece).state == Idle
  {
    StopFacts(s, m.piece, m.source, cell, m.nextStepTimeMs, false);
  }

  lemma StoppingStartsCooling(s: State, ls: seq<Landing>, e: StepEvent)
    requires Sound(s, ls) && Current(s, e) && StopOf(FateOf(s, e)).Some?
    ensures var (p, source, cell) := StopOf(FateOf(s, e)).value;
            && p == e.piece && source == e.source && Cooling(ProcessStep(s, e), p, e.eventTimeMs + RestAfter(source, cell))
            && ProcessStep(s, e).Of(p).state == Idle
  {
    hide Sound, Current, ProcessStep, FateOf, After, Sensible, Cooling, StopOf;
    StepMeetsItsFate(s, ls, e);
    FateStartsCooling(s, ls, e, FateOf(s, e), ProcessStep(s, e));
  }

  lemma TakerCools(s: State, m: Motion, e: StepEvent, v: PieceRef)
    requires Underway(s, m, e) && v != m.piece && v < |s.pieces|
    ensures var t := EndIfKing(AfterTaking(s, m, v), s.Of(v).kind, s.Of(m.piece).color);
            Cooling(t, m.piece, e.eventTimeMs + RestAfter(m.source, m.NextCell())) && t.Of(m.piece).state == Idle
  {
    var color := s.Of(m.piece).color;
    CaptureFacts(s, v, color);
    StopFacts(Capture(s, v, color), m.piece, m.source, m.NextCell(), m.nextStepTimeMs, true);
  }

  /** Nothing asked of the piece before the time is granted. */
  ghost predicate Waits(cfg: Config, s: State, p: PieceRef) {
    && (s.Of(p).state == Idle || s.Of(p).state == Captured)
    && (forall source, destination :: s.grid.Get(source) == Some(p) ==> !RequestMove(cfg, s, source, destination).1.isAccepted)
    && (forall cell :: s.grid.Get(cell) == Some(p) ==> !RequestJump(cfg, s, cell).1.isAccepted)
  }

  lemma CoolingMeansWaiting(cfg: Config, s: State, p: PieceRef, until: int)
    requires Cooling(s, p, until) && s.now < until
    ensures Waits(cfg, s, p)
  {
    hide RequestMove, RequestJump;
    forall source, destination | s.grid.Get(source) == Some(p) ensures !RequestMove(cfg, s, source, destination).1.isAccepted {
      CoolingWaits(cfg, s, p, until, source, destination);
    }
    forall cell | s.grid.Get(cell) == Some(p) ensures !RequestJump(cfg, s, cell).1.isAccepted {
      CoolingWaits(cfg, s, p, until, cell, cell);
    }
  }

  lemma CoolingWaits(cfg: Config, s: State, p: PieceRef, until: int, source: Position, destination: Position)
    requires Cooling(s, p, until) && s.now < until && s.grid.Get(source) == Some(p)
    ensures !RequestMove(cfg, s, source, destination).1.isAccepted && !RequestJump(cfg, s, source).1.isAccepted
  {
    hide RequestMove, CanCastle, ValidateMove;
    WhyAMoveIsRefused(cfg, s, source, destination);
    WhyAJumpIsRefused(cfg, s, source);
  }

  /**
   * On every run: a piece that stops d cells from where it set out, at its step's time t, rests or is captured, and no request
   * for it is accepted, as long as the clock has not reached t + 1000 * d.
   */
  lemma StoppedPieceWaits(cfg: Config, s: State, es: seq<Event>, tr: Trace, i: nat, j: nat)
    requires tr.Records(cfg, s, es) && i < j <= |tr.acts|
    requires tr.acts[i].StepApplied? && StopOf(FateOf(tr.states[i], tr.acts[i].step)).Some?
    ensures var (p, source, cell) := StopOf(FateOf(tr.states[i], tr.acts[i].step)).value;
            tr.states[j].now < tr.acts[i].step.eventTimeMs + RestAfter(source, cell) ==> Waits(cfg, tr.states[j], p)
  {
    hide Do, Sound, Run, RunActs, Waits, Cooling, FateOf, RestAfter, ProcessStep;
    RecordMeans(cfg, s, es, tr);
    var (p, source, cell) := StopOf(FateOf(tr.states[i], tr.acts[i].step)).value;
    var until := tr.acts[i].step.eventTimeMs + RestAfter(source, cell);
    assert tr.Links(cfg, i);
    StoppingStartsCooling(tr.states[i], tr.pending[i], tr.acts[i].step);
    StepIsTheAct(cfg, tr.states[i], tr.acts[i]);
    if tr.states[j].now < until {
      forall k | i + 1 <= k < j ensures tr.states[k].now < until {
        ClockNeverGoesBack(cfg, tr, k, j);
      }
      CoolsAlong(cfg, tr, i + 1, j, p, until);
      CoolingMeansWaiting(cfg, tr.states[j], p, until);
    }
  }

  lemma StepIsTheAct(cfg: Config, s: State, a: Act)
    requires a.StepApplied?
    ensures Do(cfg, s, a) == ProcessStep(s, a.step)
  {
  }

  /** The same for whatever started the cooling. */
  lemma CoolingPieceWaits(cfg: Config, s: State, es: seq<Event>, tr: Trace, i: nat, j: nat, p: PieceRef, until: int)
    requires tr.Records(cfg, s, es) && i <= j <= |tr.acts| && Cooling(tr.states[i], p, until) && tr.states[j].now < until
    ensures Waits(cfg, tr.states[j], p)
  {
    hide Do, Sound, Run, RunActs, Waits, Cooling;
    RecordMeans(cfg, s, es, tr);
    forall k | i <= k < j ensures tr.states[k].now < until {
      ClockNeverGoesBack(cfg, tr, k, j);
    }
    CoolsAlong(cfg, tr, i, j, p, until);
    CoolingMeansWaiting(cfg, tr.states[j], p, until);
  }

  /** A piece that lands cools down for its configured short rest from the end of its jump. */
  lemma LandingStartsCooling(cfg: Config, s: State, ls: seq<Landing>, l: Landing)
    requires Sound(s, ls) && s.Of(l.piece).state == Airborne && s.grid.Get(l.cell) == Some(l.piece)
    ensures var x := s.Of(l.piece);
            var ms := cfg.jump(x.color, x.kind).shortCooldownMs;
            Cooling(ProcessLanding(cfg, s, l), l.piece, l.eventTimeMs + if ms < 0 then 0 else ms)
    ensures ProcessLanding(cfg, s, l).Of(l.piece).state == Idle
  {
    LandingFacts(cfg, s, l);
    if CastleWith(s.castles, l.piece).Some? {
      CastlePieces(s, CastleWith(s.castles, l.piece).value);
    }
    hide ProcessLanding, Recorded;
  }

  /** King and rook cool down for two seconds from the completion of their castle. */
  lemma CastlingStartsCooling(s: State, ls: seq<Landing>, i: nat, time: int)
    requires Sound(s, ls) && i < |s.castles|
    ensures var c, t := s.castles[i], CompleteCastle(s, i, time);
            Cooling(t, c.king, time + 2000) && Cooling(t, c.rook, time + 2000) && t.Of(c.king).state == Idle && t.Of(c.rook).state == Idle
  {
    hide Sound, CompleteCastle, CastledGrid, Recorded, Without, CastlePairSound;
    SoundMeans(s, ls);
    hide CastlesSound;
    CastlePieces(s, i);
    CastleFacts(s, i, time);
    NoMoreCastles(s, i);
  }

  lemma NoMoreCastles(s: State, i: nat)
    requires CastlesSound(s) && i < |s.castles|
    ensures var rest, c := s.castles[..i] + s.castles[i + 1..], s.castles[i];
            CastleWith(rest, c.king).None? && CastleWith(rest, c.rook).None?
  {
    hide CastlesSound, CastlePairSound;
    var rest, c := s.castles[..i] + s.castles[i + 1..], s.castles[i];
    forall d | d in rest ensures DisjointCastles(d, c) {
      var j :| 0 <= j < |rest| && rest[j] == d;
      RemainingCastles(s, i, j);
    }
    NotAmong(rest, c.king);
    NotAmong(rest, c.rook);
  }

  lemma NotAmong(cs: seq<Castle>, p: PieceRef)
    requires forall d :: d in cs ==> d.king != p && d.rook != p
    ensures CastleWith(cs, p).None?
  {
    assert forall i :: 0 <= i < |cs| ==> cs[i] in cs;
  }
}
