/** What a run does to a few pieces on a board, event by event: the tools for following a particular run. */
module EngineScenes {
  import opened Wrappers
  import opened ChessTypes
  import opened Rules
  import opened Arbiter
  import opened Engine
  import opened EngineFacts
  import opened EngineTime
  import opened EngineBatch
  import opened EngineInvariants
  import opened EngineRuns
  import opened EngineTicks

  /** The durations used where no others are configured: a second for each cell and for a jump, three seconds of rest after it. */
  const STANDARD := PieceTimes(1000, 1000, 3000)

  function Standard(): Config {
    Config((c, k) => STANDARD, (c, k) => STANDARD)
  }

  /** A state without scores, histories and most counters. */
  datatype Scene = Scene(
    now: int,
    pieces: seq<Piece>,
    cells: map<Position, PieceRef>,
    motions: seq<Motion>,
    jumps: seq<Jump>,
    castles: seq<Castle>,
    order: int,
    over: bool,
    ended: seq<PieceColor>,
    castled: nat)

  function SceneOf(s: State): Scene {
    Scene(s.now, s.pieces, s.grid.cells, s.motions, s.jumps, s.castles, s.nextOrder, s.gameOver, s.tally.gamesEnded, s.tally.acceptedCastles)
  }

  /** The state shows this scene on a chess board. */
  ghost predicate Shows(s: State, scene: Scene) {
    SceneOf(s) == scene && s.grid.height == 8 && s.grid.width == 8
  }

  /** An engine built around pieces on an 8x8 board. */
  function Opening(pieces: seq<Piece>, cells: map<Position, PieceRef>): State {
    State(Grid(8, 8, cells), pieces, 0, [], [], 0, false, 0, 0, [], [], [], Tally(0, 0, 0, 0, []))
  }

  function OpeningScene(pieces: seq<Piece>, cells: map<Position, PieceRef>): Scene {
    Scene(0, pieces, cells, [], [], [], 0, false, [], 0)
  }

  ghost predicate ProperOpening(pieces: seq<Piece>, cells: map<Position, PieceRef>, homes: seq<Position>) {
    && |homes| == |pieces|
    && (forall p :: 0 <= p < |pieces| ==> pieces[p] == FreshPiece(pieces[p].id, pieces[p].color, pieces[p].kind))
    && (forall p :: 0 <= p < |pieces| ==> homes[p] in cells && cells[homes[p]] == p)
    && (forall c :: c in cells ==> Grid(8, 8, cells).IsInside(c) && cells[c] < |pieces|)
    && (forall c, d :: c in cells && d in cells && cells[c] == cells[d] ==> c == d)
  }

  lemma OpeningIsInitial(pieces: seq<Piece>, cells: map<Position, PieceRef>, homes: seq<Position>)
    requires ProperOpening(pieces, cells, homes)
    ensures var s := Opening(pieces, cells);
            Initial(s) && Sound(s, []) && Shows(s, OpeningScene(pieces, cells))
  {
    var s := Opening(pieces, cells);
    forall p | 0 <= p < |s.pieces| ensures s.grid.CellOf(p).Some? {
      assert s.grid.Get(homes[p]) == Some(p);
    }
    InitialIsSound(s);
  }

  // ----- requests

  function SetOut(x: Piece): Piece {
    x.(state := Moving, hasMoved := true)
  }

  /** A legal move is accepted and its piece sets out. */
  lemma Slides(cfg: Config, s: State, p: PieceRef, source: Position, destination: Position)
    requires !s.gameOver && s.grid.Get(source) == Some(p) && s.grid.IsInside(destination) && p < |s.pieces|
    requires s.Of(p).state == Idle && s.Of(p).cooldownUntilMs <= s.now && s.Of(p).kind != King
    requires ValidateMove(s.grid, s.pieces, source, destination) == OK
    ensures var t, x := RequestMove(cfg, s, source, destination).0, s.pieces[p];
            && t.grid == s.grid
            && SceneOf(t) == SceneOf(s).(
                 pieces := s.pieces[p := SetOut(x)],
                 motions := s.motions + [NewMotion(p, x.kind, source, destination, cfg.move(x.color, x.kind).moveTimePerCellMs, false, s.now, s.nextOrder)],
                 order := s.nextOrder + 1)
  {
    hide ValidateMove, CanCastle;
  }

  lemma Jumps(cfg: Config, s: State, p: PieceRef, cell: Position)
    requires !s.gameOver && s.grid.Get(cell) == Some(p) && p < |s.pieces|
    requires s.Of(p).state == Idle && s.Of(p).cooldownUntilMs <= s.now
    ensures var t, x := RequestJump(cfg, s, cell).0, s.pieces[p];
            && t.grid == s.grid
            && SceneOf(t) == SceneOf(s).(
                 pieces := s.pieces[p := x.(state := Airborne)],
                 jumps := s.jumps + [NewJump(p, cell, cfg.jump(x.color, x.kind).jumpDurationMs, s.now)])
  {
  }

  /** An accepted castling request sends out king and rook. */
  lemma CastlesOut(cfg: Config, s: State, source: Position, destination: Position, c: Castle)
    requires !s.gameOver && IsCastlingRequest(s, source, destination) && CanCastle(s, source, destination) == Some(c)
    requires s.grid.Get(source) == Some(c.king) && s.grid.IsInside(source) && s.grid.IsInside(destination)
    requires c.king < |s.pieces| && c.rook < |s.pieces| && c.king != c.rook
    requires s.Of(c.king).state == Idle && s.Of(c.king).cooldownUntilMs <= s.now
    ensures var t, k, r := RequestMove(cfg, s, source, destination).0, s.pieces[c.king], s.pieces[c.rook];
            var dur := Max(1, cfg.move(k.color, k.kind).moveTimePerCellMs * 2);
            && t.grid == s.grid
            && SceneOf(t) == SceneOf(s).(
                 pieces := s.pieces[c.king := SetOut(k)][c.rook := SetOut(r)],
                 motions := s.motions + [NewMotion(c.king, k.kind, c.kingSource, c.kingDestination, dur, true, s.now, s.nextOrder),
                                         NewMotion(c.rook, r.kind, c.rookSource, c.rookDestination, dur, true, s.now, s.nextOrder + 1)],
                 castles := s.castles + [c],
                 castled := s.tally.acceptedCastles + 1,
                 order := s.nextOrder + 2)
  {
    hide CanCastle;
    var k := s.Of(c.king);
    var dur := Max(1, cfg.move(k.color, k.kind).moveTimePerCellMs * 2);
    StartMotionFacts(s, c.king, c.kingSource, c.kingDestination, dur, true);
    var s1 := StartMotion(s, c.king, c.kingSource, c.kingDestination, dur, true);
    StartMotionFacts(s1, c.rook, c.rookSource, c.rookDestination, dur, true);
    var t := RequestMove(cfg, s, source, destination).0;
    assert t == StartCastle(cfg, s, c);
    assert t.pieces == s.pieces[c.king := SetOut(s.pieces[c.king])][c.rook := SetOut(s.pieces[c.rook])];
    assert t.motions == s.motions + [NewMotion(c.king, k.kind, c.kingSource, c.kingDestination, dur, true, s.now, s.nextOrder),
                                     NewMotion(c.rook, s.Of(c.rook).kind, c.rookSource, c.rookDestination, dur, true, s.now, s.nextOrder + 1)];
  }

  // ----- steps

  function Rested(x: Piece, time: int, cells: nat): Piece {
    x.(state := Idle, cooldownStartedAtMs := time, totalCooldownMs := cells * 1000, cooldownUntilMs := time + cells * 1000)
  }

  ghost predicate Ready(s: State, m: Motion) {
    && MotionOf(s.motions, m.piece) == Some(m) && m.piece < |s.pieces| && s.Of(m.piece).state == Moving
    && CastleWith(s.castles, m.piece).None? && s.grid.IsInside(m.NextCell()) && s.Of(m.piece).kind != Pawn
  }

  lemma GlidesOn(s: State, m: Motion)
    requires Ready(s, m) && FindAt(s, m.NextCell(), m.piece).None? && m.NextCell() != m.destination
    ensures var t := ProcessStep(s, EventOf(m));
            t.grid == s.grid && SceneOf(t) == SceneOf(s).(motions := Advanced(s.motions, m.piece, m.NextCell()))
  {
    hide FindAt;
  }

  lemma Arrives(s: State, m: Motion)
    requires Ready(s, m) && FindAt(s, m.NextCell(), m.piece).None? && m.NextCell() == m.destination
    ensures var t, x := ProcessStep(s, EventOf(m)), s.pieces[m.piece];
            && t.grid == Commit(s.grid, m.piece, m.source, m.destination)
            && SceneOf(t) == SceneOf(s).(
                 pieces := s.pieces[m.piece := Rested(x, m.nextStepTimeMs, Distance(m.source, m.destination))],
                 cells := t.grid.cells,
                 motions := Without(s.motions, m.piece))
  {
    EnteringTheDestinationStops(s, m, EventOf(m));
    StopFacts(s, m.piece, m.source, m.destination, m.nextStepTimeMs, false);
    hide FindAt, Entered, StopAt, Commit;
    var t, x := ProcessStep(s, EventOf(m)), s.pieces[m.piece];
    SamePiecesBut(s, t, m.piece, Rested(x, m.nextStepTimeMs, Distance(m.source, m.destination)));
  }

  lemma SamePiecesBut(s: State, t: State, p: PieceRef, y: Piece)
    requires p < |s.pieces| && OnlyChanged(s, t, p) && t.Of(p) == y
    ensures t.pieces == s.pieces[p := y]
  {
    forall q | 0 <= q < |s.pieces| && q != p ensures t.pieces[q] == s.pieces[q] {
      assert t.Of(q) == s.Of(q);
    }
  }

  /** The piece captures v, which is not a king or is one, and stops on its cell. */
  lemma Captures(s: State, m: Motion, v: PieceRef)
    requires Ready(s, m) && FindAt(s, m.NextCell(), m.piece) == Some(v) && m.NextCell() == m.destination
    requires v < |s.pieces| && v != m.piece && s.Of(v).color != s.Of(m.piece).color && s.Of(v).state != Airborne
    ensures var t, x, king := ProcessStep(s, EventOf(m)), s.pieces[m.piece], s.pieces[v].kind == King;
            && t.grid == Commit(s.grid.RemovePiece(v), m.piece, m.source, m.destination)
            && SceneOf(t) == SceneOf(s).(
                 pieces := s.pieces[v := s.pieces[v].(state := Captured)][m.piece := Rested(x, m.nextStepTimeMs, Distance(m.source, m.destination))],
                 cells := t.grid.cells,
                 motions := Without(Without(s.motions, v), m.piece),
                 over := s.gameOver || king,
                 ended := if king && !s.gameOver then s.tally.gamesEnded + [x.color] else s.tally.gamesEnded)
  {
    var taken := Capture(s, v, s.Of(m.piece).color);
    TakingIsCapturingThenStopping(s, m, EventOf(m), v);
    CaptureFacts(s, v, s.Of(m.piece).color);
    StopFacts(taken, m.piece, m.source, m.destination, m.nextStepTimeMs, true);
    hide FindAt, Takes, StopAt, Commit, Capture;
    var u := StopAt(taken, m.piece, m.source, m.destination, m.nextStepTimeMs, true);
    SamePiecesBut(s, taken, v, s.pieces[v].(state := Captured));
    SamePiecesBut(taken, u, m.piece, Rested(s.pieces[m.piece], m.nextStepTimeMs, Distance(m.source, m.destination)));
    assert ProcessStep(s, EventOf(m)) == EndIfKing(u, s.Of(v).kind, s.Of(m.piece).color);
  }

  /** The piece runs into a jumping enemy h. */
  lemma IsShotDown(s: State, m: Motion, h: PieceRef)
    requires Ready(s, m) && FindAt(s, m.NextCell(), m.piece) == Some(h)
    requires s.Of(h).color != s.Of(m.piece).color && s.Of(h).state == Airborne && s.Of(m.piece).kind != King
    ensures var t := ProcessStep(s, EventOf(m));
            && t.grid == s.grid.RemovePiece(m.piece)
            && SceneOf(t) == SceneOf(s).(
                 pieces := s.pieces[m.piece := s.pieces[m.piece].(state := Captured)],
                 cells := t.grid.cells,
                 motions := Without(s.motions, m.piece))
  {
    CaptureFacts(s, m.piece, s.Of(h).color);
    hide FindAt, Capture;
    SamePiecesBut(s, Capture(s, m.piece, s.Of(h).color), m.piece, s.pieces[m.piece].(state := Captured));
  }

  /** The step of castler p completes castle i, whatever has become of the other castler. */
  lemma CompletesCastle(s: State, p: PieceRef, i: nat, e: StepEvent)
    requires e.piece == p && s.Of(p).state == Moving && CastleWith(s.castles, p) == Some(i)
    requires s.castles[i].king < |s.pieces| && s.castles[i].rook < |s.pieces| && s.castles[i].king != s.castles[i].rook
    ensures var t, c := ProcessStep(s, e), s.castles[i];
            && t.grid == CastledGrid(s.grid, c)
            && SceneOf(t) == SceneOf(s).(
                 pieces := s.pieces[c.king := Rested(s.pieces[c.king], e.eventTimeMs, 2)][c.rook := Rested(s.pieces[c.rook], e.eventTimeMs, 2)],
                 cells := t.grid.cells,
                 motions := Without(Without(s.motions, c.king), c.rook),
                 castles := s.castles[..i] + s.castles[i + 1..])
  {
    hide CastledGrid, Without, Recorded, CompleteCastle;
    CastleFacts(s, i, e.eventTimeMs);
    var t, c := ProcessStep(s, e), s.castles[i];
    var half := s.With(c.king, t.Of(c.king));
    SamePiecesBut(s, half, c.king, t.Of(c.king));
    SamePiecesBut(half, t, c.rook, t.Of(c.rook));
  }

  /** A piece stored on `cell` is replaced there by p, which came from `source`. */
  lemma ReplacedOn(g: Grid, v: PieceRef, p: PieceRef, source: Position, cell: Position)
    requires g.height == 8 && g.width == 8 && g.IsInside(cell) && g.IsInside(source) && source != cell && v != p
    requires cell in g.cells && g.cells[cell] == v && source in g.cells && g.cells[source] == p
    requires forall c :: c in g.cells && g.cells[c] == v ==> c == cell
    ensures Commit(g.RemovePiece(v), p, source, cell) == Grid(8, 8, (g.cells - {cell, source})[cell := p])
  {
    assert g.Get(cell) == Some(v);
    assert g.RemovePiece(v) == g.Remove(cell);
    assert g.cells - {cell} - {source} == g.cells - {cell, source};
  }

  /** A piece comes from `source` to `cell`. */
  lemma MovedTo(g: Grid, p: PieceRef, source: Position, cell: Position)
    requires g.height == 8 && g.width == 8 && g.IsInside(cell) && g.IsInside(source)
    requires source in g.cells && g.cells[source] == p
    ensures Commit(g, p, source, cell) == Grid(8, 8, (g.cells - {source})[cell := p])
  {
  }

  // ----- who is met

  /** Nobody but p is on the cell. */
  lemma NobodyIsMet(s: State, cell: Position, p: PieceRef)
    requires forall m :: m in s.motions ==> m.piece == p || m.currentCell != cell
    requires cell in s.grid.cells && s.grid.cells[cell] != p ==>
               s.Of(s.grid.cells[cell]).state == Moving && MotionOf(s.motions, s.grid.cells[cell]).Some?
    ensures FindAt(s, cell, p).None?
  {
    if cell in s.grid.cells && s.grid.cells[cell] != p {
      var m := MotionOf(s.motions, s.grid.cells[cell]).value;
      assert m in s.motions && m.piece == s.grid.cells[cell] && m.currentCell != cell;
    }
  }

  /** Piece v rests on the cell, and nobody moves across it. */
  lemma RestingPieceIsMet(s: State, cell: Position, p: PieceRef, v: PieceRef)
    requires forall m :: m in s.motions ==> m.piece == p || m.currentCell != cell
    requires s.grid.Get(cell) == Some(v) && v != p && s.Of(v).state != Moving
    ensures FindAt(s, cell, p) == Some(v)
  {
  }

  /** Piece v is virtually on the cell, and nobody else is. */
  lemma MovingPieceIsMet(s: State, cell: Position, p: PieceRef, v: PieceRef)
    requires exists m :: m in s.motions && m.piece == v && m.currentCell == cell
    requires forall m :: m in s.motions && m.currentCell == cell ==> m.piece == v || m.piece == p
    requires v != p && s.Of(v).state == Moving
    ensures FindAt(s, cell, p) == Some(v)
  {
  }

  // ----- waiting

  lemma Applied(cfg: Config, s: State, e: Event)
    requires Sound(s, [])
    ensures Apply(cfg, s, e) == match e
                                case MoveRequest(a, b) => RequestMove(cfg, s, a, b).0
                                case JumpRequest(c) => RequestJump(cfg, s, c).0
                                case Waiting(ms) => Wait(cfg, s, ms)
  {
    hide RequestMove, RequestJump, Wait;
  }

  lemma RunGoesOn(cfg: Config, s: State, e: Event, es: seq<Event>)
    requires Sound(s, [])
    ensures Run(cfg, s, [e] + es) == Run(cfg, Apply(cfg, s, e), es)
  {
    hide Sound, Apply;
    assert ([e] + es)[0] == e && ([e] + es)[1..] == es;
  }

  lemma {:induction false} RunInTwo(cfg: Config, s: State, es: seq<Event>, fs: seq<Event>)
    requires Sound(s, [])
    ensures Run(cfg, s, es + fs) == Run(cfg, Run(cfg, s, es), fs)
    decreases es
  {
    hide Sound, Apply;
    if es == [] {
      assert es + fs == fs;
    } else {
      assert (es + fs)[1..] == es[1..] + fs;
      RunInTwo(cfg, Apply(cfg, s, es[0]), es[1..], fs);
    }
  }

  lemma EmptyRun(cfg: Config, s: State)
    requires Sound(s, [])
    ensures Run(cfg, s, []) == s
  {
    hide Sound;
  }

  lemma OneEvent(cfg: Config, s: State, a: Event)
    requires Sound(s, [])
    ensures Run(cfg, s, [a]) == Apply(cfg, s, a)
  {
    hide Sound, Apply;
    RunGoesOn(cfg, s, a, []);
    EmptyRun(cfg, Apply(cfg, s, a));
    assert [a] + [] == [a];
  }

  lemma TwoEvents(cfg: Config, s: State, a: Event, b: Event)
    requires Sound(s, [])
    ensures Run(cfg, s, [a, b]) == Apply(cfg, Apply(cfg, s, a), b)
  {
    hide Sound, Apply;
    RunGoesOn(cfg, s, a, [b]);
    OneEvent(cfg, Apply(cfg, s, a), b);
    assert [a] + [b] == [a, b];
  }

  lemma ThreeEvents(cfg: Config, s: State, a: Event, b: Event, c: Event)
    requires Sound(s, [])
    ensures Run(cfg, s, [a, b, c]) == Apply(cfg, Apply(cfg, Apply(cfg, s, a), b), c)
  {
    hide Sound, Apply;
    RunGoesOn(cfg, s, a, [b, c]);
    TwoEvents(cfg, Apply(cfg, s, a), b, c);
    assert [a] + [b, c] == [a, b, c];
  }

  lemma FourEvents(cfg: Config, s: State, a: Event, b: Event, c: Event, d: Event)
    requires Sound(s, [])
    ensures Run(cfg, s, [a, b, c, d]) == Apply(cfg, Apply(cfg, Apply(cfg, Apply(cfg, s, a), b), c), d)
  {
    hide Sound, Apply;
    RunGoesOn(cfg, s, a, [b, c, d]);
    ThreeEvents(cfg, Apply(cfg, s, a), b, c, d);
    assert [a] + [b, c, d] == [a, b, c, d];
  }

  /** Just the step of m falls due while the time passes. */
  ghost predicate OneDue(s: State, m: Motion) {
    m in s.motions && m.nextStepTimeMs <= s.now && forall n :: n in s.motions && n.nextStepTimeMs <= s.now ==> n == m
  }

  lemma BatchOfOne(t: State, m: Motion)
    requires Clockwork(t) && OneDue(t, m)
    ensures StepBatch(t) == [EventOf(m)]
  {
    var es := StepBatch(t);
    assert EventOf(m) in DueSteps(t.motions, t.pieces, t.now);
    assert EventOf(m) in multiset(es);
    forall e | e in es ensures e == EventOf(m) {
      BatchCameFromMotions(t, e);
    }
    if |es| > 1 {
      assert es[0] in es && es[1] in es;
      BatchPiecesDiffer(t, 0, 1);
    }
  }

  ghost predicate TwoDue(s: State, m: Motion, n: Motion) {
    && m in s.motions && m.nextStepTimeMs <= s.now && n in s.motions && n.nextStepTimeMs <= s.now && Precedes(EventOf(m), EventOf(n))
    && forall k :: k in s.motions && k.nextStepTimeMs <= s.now ==> k == m || k == n
  }

  lemma EarlierFirst(es: seq<StepEvent>, a: StepEvent, b: StepEvent)
    requires StrictlySorted(es) && a in es && b in es && Precedes(a, b) && forall e :: e in es ==> e == a || e == b
    ensures es == [a, b]
  {
    var third := if |es| > 2 then es[2] else b;
    forall i, j | 0 <= i < j < |es| ensures es[i] == a && es[j] == b {
      assert es[i] in es && es[j] in es;
      assert Precedes(es[i], es[j]);
    }
    assert |es| > 1;
    assert es[0] == a && es[1] == b;
    if |es| > 2 {
      assert false;
    }
  }

  lemma BatchOfTwo(t: State, m: Motion, n: Motion)
    requires Clockwork(t) && TwoDue(t, m, n)
    ensures StepBatch(t) == [EventOf(m), EventOf(n)]
  {
    var es, a, b := StepBatch(t), EventOf(m), EventOf(n);
    assert a in DueSteps(t.motions, t.pieces, t.now) && b in DueSteps(t.motions, t.pieces, t.now);
    assert a in multiset(es) && b in multiset(es);
    forall e | e in es ensures e == a || e == b {
      BatchCameFromMotions(t, e);
    }
    SortedBatchIsStrict(t.motions, t.pieces, t.now);
    hide StepBatch, Precedes;
    EarlierFirst(es, a, b);
  }

  /** A wait in which only the given batch is applied. */
  lemma WaitIsOneBatch(cfg: Config, s: State, ms: nat, u: State)
    requires Sound(s, []) && s.jumps == [] && u == ProcessSteps(Later(s, ms), StepBatch(Later(s, ms)))
    requires NothingDue(u)
    ensures Wait(cfg, s, ms) == u
  {
    var t := Later(s, ms);
    TimeKeepsSound(s, ms);
    StillMovingIsAll(t.motions, t.pieces);
    StepsWork(t, StepBatch(t));
    QuietStateStays(cfg, u);
    hide Settle, StepBatch, ProcessSteps, Sound;
    SettleAfterOneRound(cfg, t, u);
  }

  lemma WaitForNothing(cfg: Config, s: State, ms: nat)
    requires Sound(s, []) && NothingDue(Later(s, ms))
    ensures Wait(cfg, s, ms) == Later(s, ms)
  {
    TimeKeepsSound(s, ms);
    QuietStateStays(cfg, Later(s, ms));
  }

  /** Nothing is due in the scene. */
  ghost predicate AtRest(scene: Scene) {
    scene.jumps == [] && forall m :: m in scene.motions ==> scene.now < m.nextStepTimeMs
  }

  lemma WaitForOne(cfg: Config, s: State, ms: nat, m: Motion, after: Scene)
    requires Sound(s, []) && s.jumps == [] && OneDue(Later(s, ms), m)
    requires Shows(ProcessStep(Later(s, ms), EventOf(m)), after) && AtRest(after)
    ensures Shows(Wait(cfg, s, ms), after)
  {
    var t, u := Later(s, ms), ProcessStep(Later(s, ms), EventOf(m));
    BatchOfOne(t, m);
    assert ProcessSteps(t, [EventOf(m)]) == u;
    hide StepBatch, ProcessStep, Sound, Wait, ProcessSteps;
    WaitIsOneBatch(cfg, s, ms, u);
  }

  lemma TwoStepsApplied(t: State, a: StepEvent, b: StepEvent)
    ensures ProcessSteps(t, [a, b]) == ProcessStep(ProcessStep(t, a), b)
  {
    hide ProcessStep;
    var u := ProcessStep(t, a);
    assert [a, b][1..] == [b] && [b][1..] == [];
    assert ProcessSteps(u, [b]) == ProcessSteps(ProcessStep(u, b), []);
  }

  lemma WaitForTwo(cfg: Config, s: State, ms: nat, m: Motion, n: Motion, after: Scene)
    requires Sound(s, []) && s.jumps == [] && TwoDue(Later(s, ms), m, n)
    requires Shows(ProcessStep(ProcessStep(Later(s, ms), EventOf(m)), EventOf(n)), after) && AtRest(after)
    ensures Shows(Wait(cfg, s, ms), after)
  {
    hide StepBatch, ProcessStep, ProcessSteps, Sound, Clockwork, Wait, TwoDue;
    SoundIsClockwork(s, []);
    TimeKeepsClockwork(s, ms);
    BatchOfTwo(Later(s, ms), m, n);
    TwoStepsApplied(Later(s, ms), EventOf(m), EventOf(n));
    WaitIsOneBatch(cfg, s, ms, ProcessStep(ProcessStep(Later(s, ms), EventOf(m)), EventOf(n)));
  }

  lemma TimeKeepsClockwork(s: State, ms: nat)
    requires Clockwork(s)
    ensures Clockwork(Later(s, ms))
  {
  }

  /** After a batch of two steps there may be more to do at the same time. */
  lemma TwoStepsFirst(cfg: Config, s: State, ms: nat, m: Motion, n: Motion)
    requires Sound(s, []) && s.jumps == [] && TwoDue(Later(s, ms), m, n)
    ensures var u := ProcessStep(ProcessStep(Later(s, ms), EventOf(m)), EventOf(n));
            Sound(u, []) && Wait(cfg, s, ms) == Wait(cfg, u, 0)
  {
    var t := Later(s, ms);
    var t1 := ProcessStep(t, EventOf(m));
    var u := ProcessStep(t1, EventOf(n));
    hide StepBatch, ProcessStep, Sound, TwoDue;
    TimeKeepsSound(s, ms);
    SoundIsClockwork(s, []);
    SoundIsClockwork(t, []);
    BatchOfTwo(t, m, n);
    RoundKeepsSound(cfg, t);
    RoundProgresses(cfg, t);
    BatchIsInStep(t);
    assert AfterBatch(t) == t;
    hide AfterBatch;
    TwoStepsApplied(t, EventOf(m), EventOf(n));
    assert Round(cfg, t) == u;
    assert Later(u, 0) == u;
  }

  lemma WaitIsOneRound(cfg: Config, s: State, ms: nat)
    requires Sound(s, []) && !Quiet(Later(s, ms)) && NothingDue(Round(cfg, Later(s, ms)))
    ensures Wait(cfg, s, ms) == Round(cfg, Later(s, ms))
  {
    TimeKeepsSound(s, ms);
    RoundProgresses(cfg, Later(s, ms));
    QuietStateStays(cfg, Round(cfg, Later(s, ms)));
  }

  /** Only the jump j ends while the time passes. */
  ghost predicate OneLanding(s: State, j: Jump) {
    s.jumps == [j] && j.finishTimeMs <= s.now
  }

  function Landed(t: State): State {
    t.(jumps := [])
  }

  lemma LandingsOfOne(t: State, j: Jump)
    requires Clockwork(t) && OneLanding(t, j)
    ensures LandingBatch(t) == [LandingOf(j)] && AfterBatch(t) == Landed(t)
  {
    StillMovingIsAll(t.motions, t.pieces);
    assert t.jumps[0] == j && t.jumps[1..] == [];
    assert DueLandings([], t.now) == [] && StillJumping([], t.now) == [];
  }

  lemma WaitForLanding(cfg: Config, s: State, ms: nat, j: Jump, after: Scene)
    requires Sound(s, []) && OneLanding(Later(s, ms), j) && forall m :: m in s.motions ==> s.now + ms < m.nextStepTimeMs
    requires Shows(ProcessLanding(cfg, Landed(Later(s, ms)), LandingOf(j)), after) && AtRest(after)
    ensures Shows(Wait(cfg, s, ms), after)
  {
    var t := Later(s, ms);
    LandingsOfOne(t, j);
    assert StepBatch(t) == [] by {
      if StepBatch(t) != [] {
        BatchCameFromMotions(t, StepBatch(t)[0]);
      }
    }
    hide StepBatch, LandingBatch, AfterBatch, Sound, ProcessLanding, Wait;
    assert ProcessLandings(cfg, Landed(t), [LandingOf(j)]) == ProcessLanding(cfg, Landed(t), LandingOf(j));
    assert Round(cfg, t) == ProcessLanding(cfg, Landed(t), LandingOf(j));
    WaitIsOneRound(cfg, s, ms);
  }

  /** A due step is applied before a due landing, whichever comes first. */
  lemma WaitForStepAndLanding(cfg: Config, s: State, ms: nat, m: Motion, j: Jump, after: Scene)
    requires Sound(s, []) && OneLanding(Later(s, ms), j) && OneDue(Later(s, ms), m)
    requires Shows(ProcessLanding(cfg, ProcessStep(Landed(Later(s, ms)), EventOf(m)), LandingOf(j)), after) && AtRest(after)
    ensures Shows(Wait(cfg, s, ms), after)
  {
    var t := Later(s, ms);
    var t1 := ProcessStep(Landed(t), EventOf(m));
    LandingsOfOne(t, j);
    BatchOfOne(t, m);
    hide StepBatch, LandingBatch, AfterBatch, Sound, ProcessLanding, ProcessStep, Wait;
    assert ProcessSteps(Landed(t), [EventOf(m)]) == t1;
    assert ProcessLandings(cfg, t1, [LandingOf(j)]) == ProcessLanding(cfg, t1, LandingOf(j));
    assert Round(cfg, t) == ProcessLanding(cfg, t1, LandingOf(j));
    WaitIsOneRound(cfg, s, ms);
  }

  lemma Lands(cfg: Config, s: State, l: Landing)
    requires l.piece < |s.pieces| && s.Of(l.piece).state == Airborne && s.grid.Get(l.cell) == Some(l.piece)
    ensures var t, x := ProcessLanding(cfg, s, l), s.pieces[l.piece];
            var rest := Max(0, cfg.jump(x.color, x.kind).shortCooldownMs);
            && t.grid == s.grid
            && SceneOf(t) == SceneOf(s).(pieces := s.pieces[l.piece := x.(state := Idle, cooldownStartedAtMs := l.eventTimeMs,
                                                                           totalCooldownMs := rest, cooldownUntilMs := l.eventTimeMs + rest)])
  {
    LandingFacts(cfg, s, l);
    SamePiecesBut(s, ProcessLanding(cfg, s, l), l.piece, ProcessLanding(cfg, s, l).Of(l.piece));
  }
}
