/** Two runs in which the cut of one waiting time matters: a tick longer than a step, and a landing during the wait. */
module LongTicks {
  import opened Wrappers
  import opened ChessTypes
  import opened Rules
  import opened Arbiter
  import opened Engine
  import opened EngineTime
  import opened EngineInvariants
  import opened EngineRuns
  import opened EngineTicks
  import opened EngineScenes

  const WHITE_ROOK := 0
  const BLACK_ROOK := 1

  const A8 := Position(0, 0)
  const B8 := Position(0, 1)
  const C8 := Position(0, 2)
  const C7 := Position(1, 2)
  const E1 := Position(7, 4)
  const H3 := Position(5, 7)

  function Pieces(): seq<Piece> {
    [FreshPiece(0, White, Rook), FreshPiece(1, Black, Rook), FreshPiece(2, White, King), FreshPiece(3, Black, King)]
  }

  // ----- a tick longer than a step

  /** Black rooks take two seconds for a cell. */
  function Uneven(): Config {
    Config((c, k) => if c == Black && k == Rook then PieceTimes(2000, 1000, 3000) else STANDARD, (c, k) => STANDARD)
  }

  function Cells(): map<Position, PieceRef> {
    map[A8 := WHITE_ROOK, C7 := BLACK_ROOK, E1 := 2, H3 := 3]
  }

  function Quick(cell: Position, next: int): Motion {
    Motion(WHITE_ROOK, A8, C8, cell, 0, 1, false, 1000, next, 0)
  }

  function Slow(): Motion {
    Motion(BLACK_ROOK, C7, C8, C7, -1, 0, false, 2000, 2000, 1)
  }

  function OneOut(): Scene {
    OpeningScene(Pieces()[WHITE_ROOK := SetOut(Pieces()[WHITE_ROOK])], Cells()).(motions := [Quick(A8, 1000)], order := 1)
  }

  function BothOut(): Scene {
    OneOut().(pieces := OneOut().pieces[BLACK_ROOK := SetOut(Pieces()[BLACK_ROOK])], motions := [Quick(A8, 1000), Slow()], order := 2)
  }

  lemma WhiteSetsOut(s: State)
    requires Shows(s, OpeningScene(Pieces(), Cells()))
    ensures Shows(RequestMove(Uneven(), s, A8, C8).0, OneOut())
  {
    assert s.grid.Get(A8) == Some(WHITE_ROOK) && s.grid.Get(C8) == None;
    assert ValidateMove(s.grid, s.pieces, A8, C8) == OK;
    Slides(Uneven(), s, WHITE_ROOK, A8, C8);
  }

  lemma BlackSetsOut(s: State)
    requires Shows(s, OneOut())
    ensures Shows(RequestMove(Uneven(), s, C7, C8).0, BothOut())
  {
    assert s.grid.Get(C7) == Some(BLACK_ROOK) && s.grid.Get(C8) == None;
    assert ValidateMove(s.grid, s.pieces, C7, C8) == OK;
    Slides(Uneven(), s, BLACK_ROOK, C7, C8);
  }

  // one long tick: black stops on the cell first, and white takes it there

  function BlackThereCells(): map<Position, PieceRef> {
    map[A8 := WHITE_ROOK, C8 := BLACK_ROOK, E1 := 2, H3 := 3]
  }

  function BlackThere(): Scene {
    BothOut().(now := 2000,
               pieces := BothOut().pieces[BLACK_ROOK := Rested(SetOut(Pieces()[BLACK_ROOK]), 2000, 1)],
               cells := BlackThereCells(),
               motions := [Quick(B8, 2000)])
  }

  function WhiteTakes(): Scene {
    BlackThere().(pieces := BlackThere().pieces[BLACK_ROOK := Rested(SetOut(Pieces()[BLACK_ROOK]), 2000, 1).(state := Captured)]
                                               [WHITE_ROOK := Rested(SetOut(Pieces()[WHITE_ROOK]), 2000, 2)],
                  cells := map[C8 := WHITE_ROOK, E1 := 2, H3 := 3],
                  motions := [])
  }

  lemma WhiteGlides(t: State, now: int)
    requires Shows(t, BothOut().(now := now))
    ensures Shows(ProcessStep(t, EventOf(Quick(A8, 1000))), BothOut().(now := now, motions := [Quick(B8, 2000), Slow()]))
  {
    hide ProcessStep, FindAt;
    NobodyIsMet(t, B8, WHITE_ROOK);
    GlidesOn(t, Quick(A8, 1000));
    assert Advanced([Quick(A8, 1000), Slow()], WHITE_ROOK, B8) == [Quick(B8, 2000), Slow()];
  }

  lemma BlackIsStored(g: Grid)
    requires g == Grid(8, 8, Cells())
    ensures Commit(g, BLACK_ROOK, C7, C8) == Grid(8, 8, BlackThereCells())
  {
    hide Commit, Grid.RemovePiece;
    MovedTo(g, BLACK_ROOK, C7, C8);
    assert g.cells - {C7} == map[A8 := WHITE_ROOK, E1 := 2, H3 := 3];
  }

  lemma BlackStops(t: State)
    requires Shows(t, BothOut().(now := 2000, motions := [Quick(B8, 2000), Slow()]))
    ensures Shows(ProcessStep(t, EventOf(Slow())), BlackThere())
  {
    hide ProcessStep, FindAt, Commit;
    var g, ms := t.grid, [Quick(B8, 2000), Slow()];
    assert ms[1..] == [Slow()] && t.grid.Get(C7) == Some(BLACK_ROOK);
    NobodyIsMet(t, C8, BLACK_ROOK);
    Arrives(t, Slow());
    assert Without([Slow()], BLACK_ROOK) == [];
    assert Without(ms, BLACK_ROOK) == [Quick(B8, 2000)];
    BlackIsStored(g);
  }

  lemma BlackIsTaken(g: Grid)
    requires g == Grid(8, 8, BlackThereCells())
    ensures Commit(g.RemovePiece(BLACK_ROOK), WHITE_ROOK, A8, C8) == Grid(8, 8, map[C8 := WHITE_ROOK, E1 := 2, H3 := 3])
  {
    hide Commit, Grid.RemovePiece;
    ReplacedOn(g, BLACK_ROOK, WHITE_ROOK, A8, C8);
    assert g.cells - {C8, A8} == map[E1 := 2, H3 := 3];
  }

  lemma WhiteTakesBlack(t: State)
    requires Shows(t, BlackThere())
    ensures Shows(ProcessStep(t, EventOf(Quick(B8, 2000))), WhiteTakes())
  {
    hide ProcessStep, FindAt, Commit;
    assert t.grid.Get(C8) == Some(BLACK_ROOK);
    RestingPieceIsMet(t, C8, WHITE_ROOK, BLACK_ROOK);
    Captures(t, Quick(B8, 2000), BLACK_ROOK);
    assert Without(Without([Quick(B8, 2000)], BLACK_ROOK), WHITE_ROOK) == [];
    BlackIsTaken(t.grid);
  }

  lemma OneLongTick(s: State)
    requires Sound(s, []) && Shows(s, BothOut())
    ensures Shows(Wait(Uneven(), s, 2000), WhiteTakes())
  {
    hide ProcessStep, Wait, Sound, Pieces, Cells;
    var t := Later(s, 2000);
    var u := ProcessStep(t, EventOf(Quick(A8, 1000)));
    var v := ProcessStep(u, EventOf(Slow()));
    WhiteGlides(t, 2000);
    BlackStops(u);
    TwoStepsFirst(Uneven(), s, 2000, Quick(A8, 1000), Slow());
    WhiteTakesBlack(Later(v, 0));
    WaitForOne(Uneven(), v, 0, Quick(B8, 2000), WhiteTakes());
  }

  // two ticks of a step each: white stops on the cell first, and black takes it there

  function WhiteThereCells(): map<Position, PieceRef> {
    map[C8 := WHITE_ROOK, C7 := BLACK_ROOK, E1 := 2, H3 := 3]
  }

  function WhiteThere(): Scene {
    BothOut().(now := 2000,
               pieces := BothOut().pieces[WHITE_ROOK := Rested(SetOut(Pieces()[WHITE_ROOK]), 2000, 2)],
               cells := WhiteThereCells(),
               motions := [Slow()])
  }

  function BlackTakes(): Scene {
    WhiteThere().(pieces := WhiteThere().pieces[WHITE_ROOK := Rested(SetOut(Pieces()[WHITE_ROOK]), 2000, 2).(state := Captured)]
                                               [BLACK_ROOK := Rested(SetOut(Pieces()[BLACK_ROOK]), 2000, 1)],
                  cells := map[C8 := BLACK_ROOK, E1 := 2, H3 := 3],
                  motions := [])
  }

  function HalfWay(): Scene {
    BothOut().(now := 1000, motions := [Quick(B8, 2000), Slow()])
  }

  lemma FirstTick(s: State)
    requires Sound(s, []) && Shows(s, BothOut())
    ensures Shows(Wait(Uneven(), s, 1000), HalfWay())
  {
    hide ProcessStep, Wait, Sound, Pieces, Cells;
    WhiteGlides(Later(s, 1000), 1000);
    WaitForOne(Uneven(), s, 1000, Quick(A8, 1000), HalfWay());
  }

  lemma WhiteIsStored(g: Grid)
    requires g == Grid(8, 8, Cells())
    ensures Commit(g, WHITE_ROOK, A8, C8) == Grid(8, 8, WhiteThereCells())
  {
    hide Commit, Grid.RemovePiece;
    MovedTo(g, WHITE_ROOK, A8, C8);
    assert g.cells - {A8} == map[C7 := BLACK_ROOK, E1 := 2, H3 := 3];
  }

  lemma WhiteStops(t: State)
    requires Shows(t, HalfWay().(now := 2000))
    ensures Shows(ProcessStep(t, EventOf(Quick(B8, 2000))), WhiteThere())
  {
    hide ProcessStep, FindAt, Commit;
    var g := t.grid;
    assert g.Get(A8) == Some(WHITE_ROOK);
    NobodyIsMet(t, C8, WHITE_ROOK);
    Arrives(t, Quick(B8, 2000));
    assert Without([Slow()], WHITE_ROOK) == [Slow()];
    assert Without([Quick(B8, 2000), Slow()], WHITE_ROOK) == [Slow()];
    WhiteIsStored(g);
  }

  lemma WhiteIsTaken(g: Grid)
    requires g == Grid(8, 8, WhiteThereCells())
    ensures Commit(g.RemovePiece(WHITE_ROOK), BLACK_ROOK, C7, C8) == Grid(8, 8, map[C8 := BLACK_ROOK, E1 := 2, H3 := 3])
  {
    hide Commit, Grid.RemovePiece;
    ReplacedOn(g, WHITE_ROOK, BLACK_ROOK, C7, C8);
    assert g.cells - {C8, C7} == map[E1 := 2, H3 := 3];
  }

  lemma BlackTakesWhite(t: State)
    requires Shows(t, WhiteThere())
    ensures Shows(ProcessStep(t, EventOf(Slow())), BlackTakes())
  {
    hide ProcessStep, FindAt, Commit;
    assert t.grid.Get(C8) == Some(WHITE_ROOK);
    RestingPieceIsMet(t, C8, BLACK_ROOK, WHITE_ROOK);
    Captures(t, Slow(), WHITE_ROOK);
    assert Without(Without([Slow()], WHITE_ROOK), BLACK_ROOK) == [];
    WhiteIsTaken(t.grid);
  }

  lemma SecondTick(s: State)
    requires Sound(s, []) && Shows(s, HalfWay())
    ensures Shows(Wait(Uneven(), s, 1000), BlackTakes())
  {
    hide ProcessStep, Wait, Sound, Pieces, Cells;
    var t := Later(s, 1000);
    WhiteStops(t);
    BlackTakesWhite(ProcessStep(t, EventOf(Quick(B8, 2000))));
    WaitForTwo(Uneven(), s, 1000, Quick(B8, 2000), Slow(), BlackTakes());
  }

  lemma OneWait(cfg: Config, s: State, ms: int)
    requires Sound(s, [])
    ensures Waits(cfg, s, [ms]) == Wait(cfg, s, ms)
  {
    hide Sound, Wait;
    SoundIsClockwork(s, []);
    WaitKeepsSound(cfg, s, ms);
    assert Waits(cfg, Wait(cfg, s, ms), [ms][1..]) == Wait(cfg, s, ms);
  }

  lemma TwoWaits(cfg: Config, s: State, ms: int)
    requires Sound(s, [])
    ensures Sound(Wait(cfg, s, ms), []) && Clockwork(s) && Clockwork(Wait(cfg, s, ms))
    ensures Waits(cfg, s, [ms, ms]) == Wait(cfg, Wait(cfg, s, ms), ms)
  {
    hide Sound, Wait;
    SoundIsClockwork(s, []);
    WaitKeepsSound(cfg, s, ms);
    SoundIsClockwork(Wait(cfg, s, ms), []);
    assert [ms, ms][1..] == [ms];
    OneWait(cfg, Wait(cfg, s, ms), ms);
  }

  lemma RooksSetOut(s: State)
    requires Sound(s, []) && Shows(s, OpeningScene(Pieces(), Cells()))
    ensures Shows(Run(Uneven(), s, [MoveRequest(A8, C8), MoveRequest(C7, C8)]), BothOut())
  {
    hide Sound, Shows, RequestMove, Run, Apply, OneOut, BothOut, Pieces, Cells;
    var c := Uneven();
    TwoEvents(c, s, MoveRequest(A8, C8), MoveRequest(C7, C8));
    Applied(c, s, MoveRequest(A8, C8));
    WhiteSetsOut(s);
    Applied(c, Apply(c, s, MoveRequest(A8, C8)), MoveRequest(C7, C8));
    BlackSetsOut(Apply(c, s, MoveRequest(A8, C8)));
  }

  lemma TheOpening()
    ensures var s := Opening(Pieces(), Cells());
            Initial(s) && Sound(s, []) && Shows(s, OpeningScene(Pieces(), Cells()))
  {
    hide Initial, Sound;
    OpeningIsInitial(Pieces(), Cells(), [A8, C7, E1, H3]);
  }

  lemma BothOutFacts(t: State)
    requires Shows(t, BothOut())
    ensures NothingDue(t) && t.motions == [Quick(A8, 1000), Slow()] && t.jumps == []
  {
  }

  lemma TakenFacts(t: State, u: State)
    requires Shows(t, WhiteTakes()) && Shows(u, BlackTakes())
    ensures t.Of(BLACK_ROOK).state == Captured && t.Of(WHITE_ROOK).state == Idle
    ensures u.Of(WHITE_ROOK).state == Captured && u.Of(BLACK_ROOK).state == Idle
  {
  }

  /**
   * Two rooks make for one cell, the white one in two steps of a second and the black one in one of two seconds.
   * In one wait of two seconds white captures black; in two waits of a second black captures white.
   */
  lemma ALongTickMatters() returns (s: State, t: State)
    ensures Reaches(Uneven(), s, [MoveRequest(A8, C8), MoveRequest(C7, C8)], t) && Sound(t, []) && NothingDue(t) && t.jumps == []
    ensures ShortTicks(t, [1000, 1000]) && Total([1000, 1000]) == Total([2000])
    ensures Waits(Uneven(), t, [2000]).Of(BLACK_ROOK).state == Captured && Waits(Uneven(), t, [2000]).Of(WHITE_ROOK).state == Idle
    ensures Waits(Uneven(), t, [1000, 1000]).Of(WHITE_ROOK).state == Captured && Waits(Uneven(), t, [1000, 1000]).Of(BLACK_ROOK).state == Idle
  {
    hide Initial, Sound, Run, Wait, Shows, NothingDue, Pieces, Cells, Opening, OpeningScene, Waits, ShortTicks, BothOut;
    s := Opening(Pieces(), Cells());
    TheOpening();
    RooksSetOut(s);
    t := Run(Uneven(), s, [MoveRequest(A8, C8), MoveRequest(C7, C8)]);
    BothOutFacts(t);
    TwoSecondsAreTwice(t);
    OneWait(Uneven(), t, 2000);
    TwoWaits(Uneven(), t, 1000);
    OneLongTick(t);
    FirstTick(t);
    SecondTick(Wait(Uneven(), t, 1000));
    TakenFacts(Wait(Uneven(), t, 2000), Wait(Uneven(), Wait(Uneven(), t, 1000), 1000));
  }

  lemma TwoSecondsAreTwice(t: State)
    requires t.motions == [Quick(A8, 1000), Slow()] && t.jumps == []
    ensures ShortTicks(t, [1000, 1000]) && Total([1000, 1000]) == Total([2000])
  {
    assert [1000, 1000][1..] == [1000] && Total([1000]) == 1000 && Total([2000]) == 2000;
  }

  // ----- a landing during the wait

  function JumperCells(): map<Position, PieceRef> {
    map[A8 := WHITE_ROOK, B8 := BLACK_ROOK, E1 := 2, H3 := 3]
  }

  function Flight(): Jump {
    Jump(BLACK_ROOK, B8, 1000)
  }

  function Strike(): Motion {
    Motion(WHITE_ROOK, A8, B8, A8, 0, 1, false, 1000, 1500, 0)
  }

  function InTheAir(): Scene {
    OpeningScene(Pieces()[BLACK_ROOK := Pieces()[BLACK_ROOK].(state := Airborne)], JumperCells()).(jumps := [Flight()])
  }

  function StrikeUnderWay(): Scene {
    InTheAir().(now := 500, pieces := InTheAir().pieces[WHITE_ROOK := SetOut(Pieces()[WHITE_ROOK])], motions := [Strike()], order := 1)
  }

  lemma BlackJumps(s: State)
    requires Shows(s, OpeningScene(Pieces(), JumperCells()))
    ensures Shows(RequestJump(Standard(), s, B8).0, InTheAir())
  {
    assert s.grid.Get(B8) == Some(BLACK_ROOK);
    Jumps(Standard(), s, BLACK_ROOK, B8);
  }

  lemma HalfASecond(s: State)
    requires Sound(s, []) && Shows(s, InTheAir())
    ensures Shows(Wait(Standard(), s, 500), InTheAir().(now := 500))
  {
    hide Wait, Sound, Pieces, JumperCells;
    WaitForNothing(Standard(), s, 500);
  }

  lemma WhiteStrikes(s: State)
    requires Shows(s, InTheAir().(now := 500))
    ensures Shows(RequestMove(Standard(), s, A8, B8).0, StrikeUnderWay())
  {
    assert s.grid.Get(A8) == Some(WHITE_ROOK) && s.grid.Get(B8) == Some(BLACK_ROOK);
    assert ValidateMove(s.grid, s.pieces, A8, B8) == OK;
    Slides(Standard(), s, WHITE_ROOK, A8, B8);
  }

  // one tick: the step is applied while black is still in the air

  function WhiteShot(): Scene {
    StrikeUnderWay().(now := 1500,
                      pieces := StrikeUnderWay().pieces[WHITE_ROOK := SetOut(Pieces()[WHITE_ROOK]).(state := Captured)]
                                                       [BLACK_ROOK := Touchdown()],
                      cells := map[B8 := BLACK_ROOK, E1 := 2, H3 := 3],
                      motions := [],
                      jumps := [])
  }

  function Touchdown(): Piece {
    Pieces()[BLACK_ROOK].(cooldownStartedAtMs := 1000, totalCooldownMs := 3000, cooldownUntilMs := 4000)
  }

  lemma WhiteIsShot(t: State)
    requires Shows(t, StrikeUnderWay().(now := 1500, jumps := []))
    ensures Shows(ProcessStep(t, EventOf(Strike())),
                  WhiteShot().(pieces := StrikeUnderWay().pieces[WHITE_ROOK := SetOut(Pieces()[WHITE_ROOK]).(state := Captured)]))
  {
    hide ProcessStep, FindAt;
    assert t.grid.Get(B8) == Some(BLACK_ROOK) && t.grid.Get(A8) == Some(WHITE_ROOK);
    RestingPieceIsMet(t, B8, WHITE_ROOK, BLACK_ROOK);
    IsShotDown(t, Strike(), BLACK_ROOK);
    assert Without([Strike()], WHITE_ROOK) == [];
    assert t.grid.RemovePiece(WHITE_ROOK).cells == WhiteShot().cells;
  }

  lemma BlackLandsAfterwards(t: State)
    requires Shows(t, WhiteShot().(pieces := StrikeUnderWay().pieces[WHITE_ROOK := SetOut(Pieces()[WHITE_ROOK]).(state := Captured)]))
    ensures Shows(ProcessLanding(Standard(), t, LandingOf(Flight())), WhiteShot())
  {
    hide ProcessLanding;
    assert t.grid.Get(B8) == Some(BLACK_ROOK);
    Lands(Standard(), t, LandingOf(Flight()));
  }

  lemma OneTick(s: State)
    requires Sound(s, []) && Shows(s, StrikeUnderWay())
    ensures Shows(Wait(Standard(), s, 1000), WhiteShot())
  {
    hide ProcessStep, ProcessLanding, Wait, Sound, Pieces, JumperCells;
    var t := Later(s, 1000);
    WhiteIsShot(Landed(t));
    BlackLandsAfterwards(ProcessStep(Landed(t), EventOf(Strike())));
    WaitForStepAndLanding(Standard(), s, 1000, Strike(), Flight(), WhiteShot());
  }

  // two ticks: black has landed when the step is applied

  function BlackDown(): Scene {
    StrikeUnderWay().(now := 1000, pieces := StrikeUnderWay().pieces[BLACK_ROOK := Touchdown()], jumps := [])
  }

  function BlackLost(): Scene {
    BlackDown().(now := 1500,
                 pieces := BlackDown().pieces[BLACK_ROOK := Touchdown().(state := Captured)]
                                             [WHITE_ROOK := Rested(SetOut(Pieces()[WHITE_ROOK]), 1500, 1)],
                 cells := map[B8 := WHITE_ROOK, E1 := 2, H3 := 3],
                 motions := [])
  }

  lemma BlackLands(t: State)
    requires Shows(t, StrikeUnderWay().(now := 1000, jumps := []))
    ensures Shows(ProcessLanding(Standard(), t, LandingOf(Flight())), BlackDown())
  {
    hide ProcessLanding;
    assert t.grid.Get(B8) == Some(BLACK_ROOK);
    Lands(Standard(), t, LandingOf(Flight()));
  }

  lemma TickWithLanding(s: State)
    requires Sound(s, []) && Shows(s, StrikeUnderWay())
    ensures Shows(Wait(Standard(), s, 500), BlackDown())
  {
    hide ProcessLanding, Wait, Sound, Pieces, JumperCells;
    BlackLands(Landed(Later(s, 500)));
    WaitForLanding(Standard(), s, 500, Flight(), BlackDown());
  }

  lemma JumperIsTaken(g: Grid)
    requires g == Grid(8, 8, JumperCells())
    ensures Commit(g.RemovePiece(BLACK_ROOK), WHITE_ROOK, A8, B8) == Grid(8, 8, BlackLost().cells)
  {
    hide Commit, Grid.RemovePiece;
    ReplacedOn(g, BLACK_ROOK, WHITE_ROOK, A8, B8);
    assert g.cells - {B8, A8} == map[E1 := 2, H3 := 3];
  }

  lemma WhiteTakesTheJumper(t: State)
    requires Shows(t, BlackDown().(now := 1500))
    ensures Shows(ProcessStep(t, EventOf(Strike())), BlackLost())
  {
    hide ProcessStep, FindAt, Commit;
    assert t.grid.Get(B8) == Some(BLACK_ROOK);
    RestingPieceIsMet(t, B8, WHITE_ROOK, BLACK_ROOK);
    Captures(t, Strike(), BLACK_ROOK);
    assert Without(Without([Strike()], BLACK_ROOK), WHITE_ROOK) == [];
    JumperIsTaken(t.grid);
  }

  lemma TickWithStep(s: State)
    requires Sound(s, []) && Shows(s, BlackDown())
    ensures Shows(Wait(Standard(), s, 500), BlackLost())
  {
    hide ProcessStep, Wait, Sound, Pieces, JumperCells;
    WhiteTakesTheJumper(Later(s, 500));
    WaitForOne(Standard(), s, 500, Strike(), BlackLost());
  }

  function JumpAndStrike(): seq<Event> {
    [JumpRequest(B8), Waiting(500), MoveRequest(A8, B8)]
  }

  lemma JumpThenStrike(s: State)
    requires Sound(s, []) && Shows(s, OpeningScene(Pieces(), JumperCells()))
    ensures Shows(Run(Standard(), s, JumpAndStrike()), StrikeUnderWay())
  {
    hide Sound, Shows, RequestMove, RequestJump, Wait, Run, Apply, InTheAir, StrikeUnderWay, Pieces, JumperCells;
    var c, es := Standard(), JumpAndStrike();
    ThreeEvents(c, s, es[0], es[1], es[2]);
    var s1 := Apply(c, s, es[0]);
    Applied(c, s, es[0]);
    BlackJumps(s);
    var s2 := Apply(c, s1, es[1]);
    Applied(c, s1, es[1]);
    HalfASecond(s1);
    Applied(c, s2, es[2]);
    WhiteStrikes(s2);
  }

  lemma TheOtherOpening()
    ensures var s := Opening(Pieces(), JumperCells());
            Initial(s) && Sound(s, []) && Shows(s, OpeningScene(Pieces(), JumperCells()))
  {
    hide Initial, Sound;
    OpeningIsInitial(Pieces(), JumperCells(), [A8, B8, E1, H3]);
  }

  lemma StrikeFacts(t: State)
    requires Shows(t, StrikeUnderWay())
    ensures NothingDue(t) && t.motions == [Strike()]
  {
  }

  lemma StruckFacts(t: State, u: State)
    requires Shows(t, WhiteShot()) && Shows(u, BlackLost())
    ensures t.Of(WHITE_ROOK).state == Captured && t.Of(BLACK_ROOK).state == Idle
    ensures u.Of(BLACK_ROOK).state == Captured && u.Of(WHITE_ROOK).state == Idle
  {
  }

  /**
   * At the standard durations: a rook steps onto the cell of a jumping rook half a second after that one is due to land.
   * In one wait of a second, no longer than the step, the jumper captures it; in two waits of half a second the jumper is captured.
   */
  lemma ALandingMatters() returns (s: State, t: State)
    ensures Reaches(Standard(), s, JumpAndStrike(), t) && Sound(t, []) && NothingDue(t)
    ensures forall m :: m in t.motions ==> 1000 <= m.stepDurationMs
    ensures Waits(Standard(), t, [1000]).Of(WHITE_ROOK).state == Captured && Waits(Standard(), t, [1000]).Of(BLACK_ROOK).state == Idle
    ensures Waits(Standard(), t, [500, 500]).Of(BLACK_ROOK).state == Captured && Waits(Standard(), t, [500, 500]).Of(WHITE_ROOK).state == Idle
  {
    hide Initial, Sound, Run, Wait, Shows, NothingDue, Pieces, JumperCells, Opening, OpeningScene, Waits, StrikeUnderWay;
    s := Opening(Pieces(), JumperCells());
    TheOtherOpening();
    JumpThenStrike(s);
    t := Run(Standard(), s, JumpAndStrike());
    StrikeFacts(t);
    OneWait(Standard(), t, 1000);
    TwoWaits(Standard(), t, 500);
    OneTick(t);
    TickWithLanding(t);
    TickWithStep(Wait(Standard(), t, 500));
    StruckFacts(Wait(Standard(), t, 1000), Wait(Standard(), Wait(Standard(), t, 500), 500));
  }
}
