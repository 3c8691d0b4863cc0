/** On every run, castling included: when a resting piece loses its cell, and which airborne pieces have a jump to end. */
module EngineLosses {
  import opened Wrappers
  import opened ChessTypes
  import opened Rules
  import opened Arbiter
  import opened Engine
  import opened EngineFacts
  import opened EngineTime
  import opened EngineInvariants
  import opened EngineOccupancy
  import opened EngineLedger
  import opened EngineRuns
  import opened EngineFates
  import opened EngineTraces
  import opened EngineRevival

  ghost predicate StoredAt(s: State, p: PieceRef, x: Position) {
    s.grid.Get(x) == Some(p)
  }

  /** The piece is neither moving nor captured, and no cell stores it. */
  ghost predicate Lost(s: State, p: PieceRef) {
    Resting(s, p) && forall x :: !StoredAt(s, p, x)
  }

  /** The cells a step writes or clears without looking at what they store. */
  predicate Sweeps(s: State, fate: Fate, x: Position) {
    match fate
    case Castled(i) =>
      i < |s.castles| && var c := s.castles[i];
      x == c.kingSource || x == c.rookSource || x == c.kingDestination || x == c.rookDestination
    case Stopped(_, cell) => x == cell
    case Took(m, _) => x == m.NextCell()
    case _ => false
  }

  /** The step sweeps the cell of resting piece p, which is not its victim. */
  ghost predicate Drops(s: State, a: Act, p: PieceRef) {
    a.StepApplied? && DropsAs(s, FateOf(s, a.step), p)
  }

  ghost predicate DropsAs(s: State, fate: Fate, p: PieceRef) {
    Resting(s, p) && Victim(fate) != Some(p) && exists x :: StoredAt(s, p, x) && Sweeps(s, fate, x)
  }

  // ----- where a step leaves the resting pieces

  lemma CastledGridElsewhere(g: Grid, c: Castle, p: PieceRef, x: Position)
    requires g.IsInside(c.kingSource) && g.IsInside(c.rookSource) && g.IsInside(c.kingDestination) && g.IsInside(c.rookDestination)
    requires p != c.king && p != c.rook
    ensures CastledGrid(g, c).Get(x) == Some(p) <==>
              g.Get(x) == Some(p) && x != c.kingSource && x != c.rookSource && x != c.kingDestination && x != c.rookDestination
  {
  }

  lemma CommitElsewhere(g: Grid, q: PieceRef, source: Position, cell: Position, p: PieceRef, x: Position)
    requires g.IsInside(cell) && p != q
    ensures Commit(g, q, source, cell).Get(x) == Some(p) <==> g.Get(x) == Some(p) && x != cell
  {
  }

  lemma CastlersDoNotRest(s: State, ls: seq<Landing>, i: nat)
    requires Sound(s, ls) && i < |s.castles|
    ensures var c := s.castles[i];
            && !Resting(s, c.king) && !Resting(s, c.rook)
            && s.grid.IsInside(c.kingSource) && s.grid.IsInside(c.rookSource)
            && s.grid.IsInside(c.kingDestination) && s.grid.IsInside(c.rookDestination)
  {
    assert CastlePairSound(s, s.castles[i]);
  }

  lemma CastleSweeps(s: State, ls: seq<Landing>, i: nat, time: int, p: PieceRef, x: Position)
    requires Sound(s, ls) && i < |s.castles| && Resting(s, p)
    ensures var t := CompleteCastle(s, i, time);
            && (StoredAt(t, p, x) <==> StoredAt(s, p, x) && !Sweeps(s, Castled(i), x))
            && t.Of(p) == s.Of(p)
  {
    CastlePieces(s, i);
    CastleFacts(s, i, time);
    CastlersDoNotRest(s, ls, i);
    CastledGridElsewhere(s.grid, s.castles[i], p, x);
    hide CompleteCastle, CastledGrid, Sound, CastlePairSound;
  }

  lemma StopSweeps(s: State, m: Motion, e: StepEvent, cell: Position, time: int, wasCapture: bool, p: PieceRef, x: Position)
    requires Underway(s, m, e) && s.grid.IsInside(cell) && Resting(s, p)
    ensures var t := StopAt(s, m.piece, m.source, cell, time, wasCapture);
            && (StoredAt(t, p, x) <==> StoredAt(s, p, x) && x != cell)
            && t.Of(p) == s.Of(p)
  {
    StopFacts(s, m.piece, m.source, cell, time, wasCapture);
  }

  lemma RemovalSweeps(s: State, ls: seq<Landing>, v: PieceRef, p: PieceRef, x: Position)
    requires Sound(s, ls) && p != v
    ensures s.grid.RemovePiece(v).Get(x) == Some(p) <==> StoredAt(s, p, x)
  {
  }

  lemma TakingSweeps(s: State, ls: seq<Landing>, m: Motion, e: StepEvent, v: PieceRef, p: PieceRef, x: Position)
    requires Sound(s, ls) && Underway(s, m, e) && v != m.piece && v < |s.pieces| && Resting(s, p) && p != v
    ensures var t := EndIfKing(AfterTaking(s, m, v), s.Of(v).kind, s.Of(m.piece).color);
            && (StoredAt(t, p, x) <==> StoredAt(s, p, x) && x != m.NextCell())
            && t.Of(p) == s.Of(p)
  {
    TakenFacts(s, m, e, v);
    RemovalSweeps(s, ls, v, p, x);
    CommitElsewhere(s.grid.RemovePiece(v), m.piece, m.source, m.NextCell(), p, x);
    hide Sound, AfterTaking, EndIfKing, Without, Commit, OnCourse;
  }

  /** A resting piece that is not the victim keeps its cell exactly when the step does not sweep it. */
  lemma FateSweeps(s: State, ls: seq<Landing>, e: StepEvent, fate: Fate, t: State, p: PieceRef, x: Position)
    requires Sound(s, ls) && Sensible(s, e, fate) && After(s, e, fate, t) && Resting(s, p) && Victim(fate) != Some(p)
    ensures StoredAt(t, p, x) <==> StoredAt(s, p, x) && !Sweeps(s, fate, x)
    ensures t.Of(p) == s.Of(p)
  {
    hide FindAt, Sound, CompleteCastle, StopAt, Capture, AfterTaking, ShotDown, EndIfKing, Commit, Without;
    match fate
    case Ignored =>
    case Castled(i) => CastleSweeps(s, ls, i, e.eventTimeMs, p, x);
    case WentOn(m) =>
    case Stopped(m, cell) => StopSweeps(s, m, e, cell, m.nextStepTimeMs, false, p, x);
    case Shot(m, h) =>
      ShotFacts(s, m, e, s.Of(h).color);
      RemovalSweeps(s, ls, m.piece, p, x);
    case Took(m, v) => TakingSweeps(s, ls, m, e, v, p, x);
  }

  lemma CommitStores(g: Grid, p: PieceRef, source: Position, cell: Position)
    requires g.IsInside(cell)
    ensures Commit(g, p, source, cell).Get(cell) == Some(p)
  {
  }

  /** Who comes to rest by a step is stored where it stopped; a victim is not at rest. */
  lemma NewlyAtRest(s: State, ls: seq<Landing>, e: StepEvent, fate: Fate, t: State, p: PieceRef)
    requires Sound(s, ls) && Sensible(s, e, fate) && After(s, e, fate, t) && Resting(t, p)
    ensures Victim(fate) != Some(p)
    ensures Resting(s, p) || exists x :: StoredAt(t, p, x)
  {
    hide FindAt, Sound, CompleteCastle, StopAt, Capture, AfterTaking, ShotDown, EndIfKing, Without, Commit, OnCourse;
    match fate
    case Ignored =>
    case Castled(i) => CastlersAreStored(s, ls, i, e.eventTimeMs, p);
    case WentOn(m) =>
    case Stopped(m, cell) =>
      StopFacts(s, m.piece, m.source, cell, m.nextStepTimeMs, false);
      CommitStores(s.grid, m.piece, m.source, cell);
      assert StoredAt(t, m.piece, cell);
    case Shot(m, h) => ShotFacts(s, m, e, s.Of(h).color);
    case Took(m, v) =>
      TakenFacts(s, m, e, v);
      CommitStores(s.grid.RemovePiece(v), m.piece, m.source, m.NextCell());
      assert StoredAt(t, m.piece, m.NextCell());
  }

  lemma CastledGridStores(g: Grid, c: Castle)
    requires g.IsInside(c.kingDestination) && g.IsInside(c.rookDestination) && c.kingDestination != c.rookDestination
    ensures CastledGrid(g, c).Get(c.kingDestination) == Some(c.king) && CastledGrid(g, c).Get(c.rookDestination) == Some(c.rook)
  {
  }

  lemma CastlersAreStored(s: State, ls: seq<Landing>, i: nat, time: int, p: PieceRef)
    requires Sound(s, ls) && i < |s.castles| && Resting(CompleteCastle(s, i, time), p)
    ensures Resting(s, p) || exists x :: StoredAt(CompleteCastle(s, i, time), p, x)
  {
    hide Sound, Clockwork, Routes, GridSound, PiecesSound, JumpsSound, HistoriesSound, CompleteCastle, CastledGrid, Recorded, Without;
    SoundMeans(s, ls);
    CastlePieces(s, i);
    CastleFacts(s, i, time);
    var c, t := s.castles[i], CompleteCastle(s, i, time);
    CastledGridStores(s.grid, c);
    CastlersDoNotRest(s, ls, i);
    assert StoredAt(t, c.king, c.kingDestination) && StoredAt(t, c.rook, c.rookDestination) by {
      assert CastlePairSound(s, c);
    }
  }

  lemma VictimWasNotLost(s: State, ls: seq<Landing>, e: StepEvent, fate: Fate, p: PieceRef)
    requires Sound(s, ls) && Sensible(s, e, fate) && Victim(fate) == Some(p)
    ensures !Lost(s, p)
  {
    if fate.Took? {
      FoundPieceIsThere(s, fate.motion.NextCell(), fate.motion.piece);
      assert StoredAt(s, p, fate.motion.NextCell()) || s.Of(p).state == Moving;
    }
  }

  lemma StoredOnce(s: State, ls: seq<Landing>, p: PieceRef, x: Position, y: Position)
    requires Sound(s, ls) && StoredAt(s, p, x) && StoredAt(s, p, y)
    ensures x == y
  {
  }

  lemma FateLoses(s: State, ls: seq<Landing>, e: StepEvent, fate: Fate, t: State, p: PieceRef)
    requires Sound(s, ls) && Sensible(s, e, fate) && After(s, e, fate, t)
    ensures Lost(t, p) <==> Lost(s, p) || DropsAs(s, fate, p)
  {
    hide Sound, Sensible, After, Sweeps, StoredAt, Victim;
    if Victim(fate) == Some(p) {
      VictimWasNotLost(s, ls, e, fate, p);
      if Resting(t, p) {
        NewlyAtRest(s, ls, e, fate, t, p);
      }
    } else if Resting(s, p) {
      forall x ensures StoredAt(t, p, x) <==> StoredAt(s, p, x) && !Sweeps(s, fate, x) {
        FateSweeps(s, ls, e, fate, t, p, x);
      }
      assert Resting(t, p) by {
        FateSweeps(s, ls, e, fate, t, p, Position(0, 0));
      }
      if DropsAs(s, fate, p) {
        forall x, y | StoredAt(s, p, x) && StoredAt(s, p, y) ensures x == y {
          StoredOnce(s, ls, p, x, y);
        }
      }
    } else if Resting(t, p) {
      NewlyAtRest(s, ls, e, fate, t, p);
    }
  }

  // ----- the other acts

  lemma RequestLosesNobody(cfg: Config, s: State, source: Position, destination: Position, p: PieceRef)
    requires Sound(s, [])
    ensures var t := RequestMove(cfg, s, source, destination).0;
            && (Lost(t, p) <==> Lost(s, p)) && t.grid == s.grid && t.jumps == s.jumps
            && (t.Of(p).state == Airborne <==> s.Of(p).state == Airborne)
  {
    RequestStarts(cfg, s, source, destination);
    hide RequestMove, CanCastle, ValidateMove, Sound;
    var t := RequestMove(cfg, s, source, destination).0;
    if t != s {
      assert forall x :: StoredAt(t, p, x) <==> StoredAt(s, p, x);
      if SlideStarted(cfg, s, source, destination, t) {
        assert StoredAt(s, s.grid.Get(source).value, source);
      } else {
        var c := CanCastle(s, source, destination).value;
        assert StoredAt(s, c.king, c.kingSource) && StoredAt(s, c.rook, c.rookSource);
      }
    }
  }

  lemma JumpLosesNobody(cfg: Config, s: State, cell: Position, p: PieceRef)
    requires Sound(s, [])
    ensures var t := RequestJump(cfg, s, cell).0;
            && (Lost(t, p) <==> Lost(s, p)) && t.grid == s.grid
  {
    var t := RequestJump(cfg, s, cell).0;
    if t != s {
      assert forall x :: StoredAt(t, p, x) <==> StoredAt(s, p, x);
      assert StoredAt(s, s.grid.Get(cell).value, cell);
    }
  }

  lemma LandingLosesNobody(cfg: Config, s: State, l: Landing, p: PieceRef)
    ensures var t := ProcessLanding(cfg, s, l);
            && (Lost(t, p) <==> Lost(s, p)) && t.grid == s.grid && t.jumps == s.jumps
            && (p != l.piece ==> t.Of(p) == s.Of(p))
  {
    var t := ProcessLanding(cfg, s, l);
    assert forall x :: StoredAt(t, p, x) <==> StoredAt(s, p, x);
    if t != s && p == l.piece {
      assert StoredAt(s, p, l.cell);
    }
  }

  /** A resting piece loses its cell by an act exactly when the act is a step that sweeps the cell; a lost piece stays lost. */
  lemma WhoIsLost(cfg: Config, s: State, ls: seq<Landing>, a: Act, ls2: seq<Landing>, p: PieceRef)
    requires Proper(s, ls, a, ls2)
    ensures Lost(Do(cfg, s, a), p) <==> Lost(s, p) || Drops(s, a, p)
  {
    hide RequestMove, RequestJump, ProcessStep, ProcessLanding, Lost, DropsAs, FateOf;
    match a
    case MoveAsked(source, destination) => RequestLosesNobody(cfg, s, source, destination, p);
    case JumpAsked(cell) => JumpLosesNobody(cfg, s, cell, p);
    case StepApplied(e) =>
      StepMeetsItsFate(s, ls, e);
      FateLoses(s, ls, e, FateOf(s, e), ProcessStep(s, e), p);
    case LandingApplied(l) => LandingLosesNobody(cfg, s, l, p);
    case EventsHandedOut => SamePlaces(s, AfterBatch(s), p);
    case TimePasses(ms) => SamePlaces(s, Later(s, ms), p);
  }

  lemma SamePlaces(s: State, t: State, p: PieceRef)
    requires t.grid == s.grid && t.pieces == s.pieces
    ensures Lost(t, p) <==> Lost(s, p)
  {
    forall x ensures StoredAt(t, p, x) <==> StoredAt(s, p, x) {
    }
  }

  // ----- runs

  lemma {:induction false} LostSoFar(cfg: Config, tr: Trace, p: PieceRef, n: nat)
    requires Linked(cfg, tr) && n <= |tr.acts| && !Lost(tr.states[0], p)
    ensures Lost(tr.states[n], p) <==> exists i :: 0 <= i < n && Drops(tr.states[i], tr.acts[i], p)
  {
    hide Do, Proper, Drops, Lost;
    if n > 0 {
      LostSoFar(cfg, tr, p, n - 1);
      assert tr.Links(cfg, n - 1);
      WhoIsLost(cfg, tr.states[n - 1], tr.pending[n - 1], tr.acts[n - 1], tr.pending[n], p);
    }
  }

  lemma NobodyIsLostInitially(s: State, p: PieceRef)
    requires Initial(s)
    ensures !Lost(s, p)
  {
    if p < |s.pieces| {
      assert StoredAt(s, p, s.grid.CellOf(p).value);
    }
  }

  /** On every run, a piece is at rest on no cell exactly when some step swept the cell it rested on. */
  lemma LostOnlyBySweeping(cfg: Config, s: State, es: seq<Event>, tr: Trace, p: PieceRef)
    requires Initial(s) && tr.Records(cfg, s, es)
    ensures Run(cfg, s, es) == tr.End()
    ensures Lost(tr.End(), p) <==> exists i :: 0 <= i < |tr.acts| && Drops(tr.states[i], tr.acts[i], p)
  {
    RecordedRunEnds(cfg, s, es, tr);
    NobodyIsLostInitially(s, p);
    hide Initial, Sound, Run, RunActs, Lost, Drops;
    LostSoFar(cfg, tr, p, |tr.acts|);
  }
}
