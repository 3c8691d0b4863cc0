/** On every run, castling included: an airborne piece has one jump that will land it, unless it has lost its cell. */
module EngineFlights {
  import opened Wrappers
  import opened ChessTypes
  import opened Rules
  import opened Arbiter
  import opened Engine
  import opened EngineFacts
  import opened EngineTime
  import opened EngineInvariants
  import opened EngineOccupancy
  import opened EngineLedger
  import opened EngineRuns
  import opened EngineFates
  import opened EngineTraces
  import opened EngineRevival
  import opened EngineLosses

  ghost predicate InFlight(s: State, ls: seq<Landing>, p: PieceRef) {
    (exists j :: j in s.jumps && j.piece == p) || (exists l :: l in ls && l.piece == p)
  }

  /** A jumping piece is stored at most where it took off. */
  ghost predicate TakenOffThere(s: State, ls: seq<Landing>) {
    && (forall j, x :: j in s.jumps && StoredAt(s, j.piece, x) ==> x == j.cell)
    && (forall l, x :: l in ls && StoredAt(s, l.piece, x) ==> x == l.cell)
  }

  ghost predicate Aloft(s: State, ls: seq<Landing>) {
    && TakenOffThere(s, ls)
    && forall p: PieceRef :: s.Of(p).state == Airborne ==> InFlight(s, ls, p) || Lost(s, p)
  }

  // ----- steps

  lemma FateSparesTheAirborne(s: State, ls: seq<Landing>, e: StepEvent, fate: Fate, t: State, p: PieceRef)
    requires Sound(s, ls) && Sensible(s, e, fate) && After(s, e, fate, t)
    ensures t.Of(p).state == Airborne <==> s.Of(p).state == Airborne
  {
    hide FindAt, Sound, CompleteCastle, StopAt, Capture, AfterTaking, ShotDown, EndIfKing, Commit, Without;
    match fate
    case Ignored =>
    case Castled(i) => CastlingSparesTheAirborne(s, ls, i, e.eventTimeMs, p);
    case WentOn(m) =>
    case Stopped(m, cell) => StopFacts(s, m.piece, m.source, cell, m.nextStepTimeMs, false);
    case Shot(m, h) => ShotFacts(s, m, e, s.Of(h).color);
    case Took(m, v) => TakenFacts(s, m, e, v);
  }

  lemma CastlingSparesTheAirborne(s: State, ls: seq<Landing>, i: nat, time: int, p: PieceRef)
    requires Sound(s, ls) && i < |s.castles|
    ensures CompleteCastle(s, i, time).Of(p).state == Airborne <==> s.Of(p).state == Airborne
  {
    CastlePieces(s, i);
    CastleFacts(s, i, time);
  }

  /** A step neither lifts nor lands a piece, and stores no airborne piece anywhere new. */
  lemma StepSparesTheAirborne(s: State, ls: seq<Landing>, e: StepEvent, p: PieceRef, x: Position)
    requires Sound(s, ls) && Current(s, e)
    ensures var t := ProcessStep(s, e);
            && (t.Of(p).state == Airborne <==> s.Of(p).state == Airborne)
            && (s.Of(p).state == Airborne && StoredAt(t, p, x) ==> StoredAt(s, p, x))
  {
    StepMeetsItsFate(s, ls, e);
    hide Sound, Current, ProcessStep, Sensible, After, FateOf, StoredAt;
    FateSparesTheAirborne(s, ls, e, FateOf(s, e), ProcessStep(s, e), p);
    if s.Of(p).state == Airborne {
      NewlyAtRest(s, ls, e, FateOf(s, e), ProcessStep(s, e), p);
      FateSweeps(s, ls, e, FateOf(s, e), ProcessStep(s, e), p, x);
    }
  }

  lemma JumpersAreAirborne(s: State, ls: seq<Landing>)
    requires Sound(s, ls)
    ensures forall j :: j in s.jumps ==> s.Of(j.piece).state == Airborne
    ensures forall l :: l in ls ==> s.Of(l.piece).state == Airborne
  {
  }

  lemma StepKeepsTakeOffs(s: State, ls: seq<Landing>, e: StepEvent)
    requires Sound(s, ls) && Current(s, e) && TakenOffThere(s, ls)
    ensures TakenOffThere(ProcessStep(s, e), ls) && ProcessStep(s, e).jumps == s.jumps
  {
    StepWorks(s, e);
    JumpersAreAirborne(s, ls);
    hide Sound, ProcessStep, Current, StoredAt, Clockwork, Load, IsAdvance;
    forall p: PieceRef, x | s.Of(p).state == Airborne && StoredAt(ProcessStep(s, e), p, x) ensures StoredAt(s, p, x) {
      StepSparesTheAirborne(s, ls, e, p, x);
    }
  }

  lemma StepKeepsAloft(s: State, ls: seq<Landing>, e: StepEvent)
    requires Sound(s, ls) && Current(s, e) && Aloft(s, ls)
    ensures Aloft(ProcessStep(s, e), ls)
  {
    var t := ProcessStep(s, e);
    StepMeetsItsFate(s, ls, e);
    StepKeepsTakeOffs(s, ls, e);
    hide Sound, ProcessStep, Current, Sensible, After, StoredAt, Lost, TakenOffThere, FateOf, DropsAs;
    forall p: PieceRef | t.Of(p).state == Airborne ensures InFlight(t, ls, p) || Lost(t, p) {
      StepSparesTheAirborne(s, ls, e, p, Position(0, 0));
      FateLoses(s, ls, e, FateOf(s, e), t, p);
    }
  }

  // ----- the other acts

  lemma LandingKeepsAloft(cfg: Config, s: State, l: Landing, ls: seq<Landing>)
    requires Sound(s, [l] + ls) && Aloft(s, [l] + ls)
    ensures Aloft(ProcessLanding(cfg, s, l), ls)
  {
    var t := ProcessLanding(cfg, s, l);
    var all := [l] + ls;
    assert l in all && (forall k :: k in ls ==> k in all) && (forall k :: k in all ==> k == l || k in ls);
    assert forall p: PieceRef, x :: StoredAt(t, p, x) <==> StoredAt(s, p, x) by {
      LandingLosesNobody(cfg, s, l, l.piece);
    }
    assert s.Of(l.piece).state == Airborne;
    forall p: PieceRef | t.Of(p).state == Airborne ensures InFlight(t, ls, p) || Lost(t, p) {
      LandingLosesNobody(cfg, s, l, p);
      if p == l.piece {
        assert !StoredAt(s, p, l.cell);
      }
    }
  }

  lemma BatchKeepsAloft(s: State)
    requires Aloft(s, [])
    ensures Aloft(AfterBatch(s), LandingBatch(s))
  {
    var t, ls := AfterBatch(s), LandingBatch(s);
    assert forall p: PieceRef, x :: StoredAt(t, p, x) <==> StoredAt(s, p, x);
    forall l, x | l in ls && StoredAt(t, l.piece, x) ensures x == l.cell {
      var j :| j in s.jumps && s.now >= j.finishTimeMs && l == LandingOf(j);
    }
    forall p: PieceRef | t.Of(p).state == Airborne ensures InFlight(t, ls, p) || Lost(t, p) {
      SamePlaces(s, t, p);
      if InFlight(s, [], p) {
        var j :| j in s.jumps && j.piece == p;
        assert s.now >= j.finishTimeMs ==> LandingOf(j) in ls;
        assert s.now < j.finishTimeMs ==> j in t.jumps;
      }
    }
  }

  lemma MoveRequestKeepsAloft(cfg: Config, s: State, source: Position, destination: Position)
    requires Sound(s, []) && Aloft(s, [])
    ensures Aloft(RequestMove(cfg, s, source, destination).0, [])
  {
    var t := RequestMove(cfg, s, source, destination).0;
    RequestLosesNobody(cfg, s, source, destination, 0);
    assert forall p: PieceRef, x :: StoredAt(t, p, x) <==> StoredAt(s, p, x);
    hide RequestMove, Sound, StoredAt, Lost;
    forall p: PieceRef | t.Of(p).state == Airborne ensures InFlight(t, [], p) || Lost(t, p) {
      RequestLosesNobody(cfg, s, source, destination, p);
    }
  }

  lemma JumpRequestKeepsAloft(cfg: Config, s: State, cell: Position)
    requires Sound(s, []) && Aloft(s, [])
    ensures Aloft(RequestJump(cfg, s, cell).0, [])
  {
    var t := RequestJump(cfg, s, cell).0;
    if t != s {
      var q := s.grid.Get(cell).value;
      StartJumpFacts(cfg, s, q, cell);
      assert forall p: PieceRef, x :: StoredAt(t, p, x) <==> StoredAt(s, p, x);
      var j := t.jumps[|s.jumps|];
      assert j in t.jumps && forall k :: k in t.jumps <==> k in s.jumps || k == j by {
        assert t.jumps == s.jumps + [j];
      }
      forall x | StoredAt(s, q, x) ensures x == cell {
        assert StoredAt(s, q, cell);
        StoredOnce(s, [], q, x, cell);
      }
      forall p: PieceRef | t.Of(p).state == Airborne ensures InFlight(t, [], p) || Lost(t, p) {
        JumpLosesNobody(cfg, s, cell, p);
      }
    }
  }

  lemma ActKeepsAloft(cfg: Config, s: State, ls: seq<Landing>, a: Act, ls2: seq<Landing>)
    requires Proper(s, ls, a, ls2) && Aloft(s, ls)
    ensures Aloft(Do(cfg, s, a), ls2)
  {
    hide RequestMove, RequestJump, ProcessStep, ProcessLanding, AfterBatch, LandingBatch, Aloft;
    match a
    case MoveAsked(source, destination) => MoveRequestKeepsAloft(cfg, s, source, destination);
    case JumpAsked(cell) => JumpRequestKeepsAloft(cfg, s, cell);
    case StepApplied(e) => StepKeepsAloft(s, ls, e);
    case LandingApplied(l) => LandingKeepsAloft(cfg, s, l, ls2);
    case EventsHandedOut => BatchKeepsAloft(s);
    case TimePasses(ms) => TimeKeepsAloft(s, ms);
  }

  lemma TimeKeepsAloft(s: State, ms: nat)
    requires Aloft(s, [])
    ensures Aloft(Later(s, ms), [])
  {
    var t := Later(s, ms);
    assert forall p: PieceRef, x :: StoredAt(t, p, x) <==> StoredAt(s, p, x);
    forall p: PieceRef | t.Of(p).state == Airborne ensures InFlight(t, [], p) || Lost(t, p) {
      SamePlaces(s, t, p);
    }
  }

  // ----- runs

  lemma {:induction false} TraceKeepsAloft(cfg: Config, tr: Trace, n: nat)
    requires Linked(cfg, tr) && n <= |tr.acts| && Aloft(tr.states[0], tr.pending[0])
    ensures Aloft(tr.states[n], tr.pending[n])
  {
    hide Do, Proper, Aloft;
    if n > 0 {
      TraceKeepsAloft(cfg, tr, n - 1);
      assert tr.Links(cfg, n - 1);
      ActKeepsAloft(cfg, tr.states[n - 1], tr.pending[n - 1], tr.acts[n - 1], tr.pending[n]);
    }
  }

  lemma NobodyIsAloftInitially(s: State)
    requires Initial(s)
    ensures Sound(s, []) && Aloft(s, [])
  {
    InitialIsSound(s);
    forall p: PieceRef ensures s.Of(p).state != Airborne {
    }
  }

  /** On every run: a piece in the air has a jump of its own that is still to land, unless it stands on no cell. */
  lemma AirborneMeansJumping(cfg: Config, s: State, es: seq<Event>, t: State, p: PieceRef)
    requires Reaches(cfg, s, es, t)
    ensures t.Of(p).state == Airborne && !Lost(t, p) ==> exists j :: j in t.jumps && j.piece == p
    ensures forall j :: j in t.jumps ==> t.Of(j.piece).state == Airborne
    ensures forall j, x :: j in t.jumps && t.grid.Get(x) == Some(j.piece) ==> x == j.cell
  {
    NobodyIsAloftInitially(s);
    var tr := TraceOfRun(cfg, s, es);
    TraceKeepsAloft(cfg, tr, |tr.acts|);
    forall j, x | j in t.jumps && t.grid.Get(x) == Some(j.piece) ensures x == j.cell {
      assert StoredAt(t, j.piece, x);
    }
    hide Initial, Run, RunActs, Do;
  }

  /** Without castling the airborne pieces are just those with an active jump. */
  lemma AirborneExactlyWhileJumping(cfg: Config, s: State, es: seq<Event>, t: State, p: PieceRef)
    requires CastleFreeRun(cfg, s, es, t)
    ensures t.Of(p).state == Airborne <==> exists j :: j in t.jumps && j.piece == p
  {
    AirborneMeansJumping(cfg, s, es, t, p);
    CastleFreeRunsAreOrderly(cfg, s, es, t);
    if t.Of(p).state == Airborne {
      assert StoredAt(t, p, t.grid.CellOf(p).value);
    }
  }
}
