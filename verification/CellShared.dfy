/** A run, at the standard durations, in which a castled king is put on the cell of a bishop that is setting out. */
module CellShared {
  import opened Wrappers
  import opened ChessTypes
  import opened Rules
  import opened Arbiter
  import opened Engine
  import opened EngineTime
  import opened EngineInvariants
  import opened EngineOccupancy
  import opened EngineRuns
  import opened EngineScenes
  import opened SnapshotRuns

  const KING := 0
  const ROOK := 1
  const BISHOP := 2
  const FAR_KING := 3

  const A1 := Position(7, 0)
  const C1 := Position(7, 2)
  const D1 := Position(7, 3)
  const E1 := Position(7, 4)
  const B2 := Position(6, 1)
  const D2 := Position(6, 3)
  const H8 := Position(0, 7)

  function Pieces(): seq<Piece> {
    [FreshPiece(0, White, King), FreshPiece(1, White, Rook), FreshPiece(2, White, Bishop), FreshPiece(3, Black, King)]
  }

  function Cells(): map<Position, PieceRef> {
    map[E1 := KING, A1 := ROOK, B2 := BISHOP, H8 := FAR_KING]
  }

  function ArrivedCells(): map<Position, PieceRef> {
    map[E1 := KING, A1 := ROOK, C1 := BISHOP, H8 := FAR_KING]
  }

  function CastledCells(): map<Position, PieceRef> {
    map[C1 := KING, D1 := ROOK, H8 := FAR_KING]
  }

  function BishopComes(): Motion {
    Motion(BISHOP, B2, C1, B2, 1, 1, false, 1000, 1000, 0)
  }

  function Long(): Castle {
    Castle(KING, ROOK, E1, C1, A1, D1)
  }

  function KingGoes(): Motion {
    Motion(KING, E1, C1, E1, 0, -1, true, 2000, 2500, 1)
  }

  function RookGoes(): Motion {
    Motion(ROOK, A1, D1, A1, 0, 1, true, 2000, 2500, 2)
  }

  function BishopLeaves(): Motion {
    Motion(BISHOP, C1, D2, C1, -1, 1, false, 1000, 3000, 3)
  }

  // ----- the scenes

  function BishopOut(): Scene {
    OpeningScene(Pieces()[BISHOP := SetOut(Pieces()[BISHOP])], Cells()).(motions := [BishopComes()], order := 1)
  }

  function Castling(): Scene {
    BishopOut().(now := 500,
                 pieces := BishopOut().pieces[KING := SetOut(Pieces()[KING])][ROOK := SetOut(Pieces()[ROOK])],
                 motions := [BishopComes(), KingGoes(), RookGoes()],
                 castles := [Long()],
                 order := 3,
                 castled := 1)
  }

  function OnTarget(): Scene {
    Castling().(now := 1000,
                pieces := Castling().pieces[BISHOP := Rested(SetOut(Pieces()[BISHOP]), 1000, 1)],
                cells := ArrivedCells(),
                motions := [KingGoes(), RookGoes()])
  }

  function Leaving(): Scene {
    OnTarget().(now := 2000,
                pieces := OnTarget().pieces[BISHOP := SetOut(OnTarget().pieces[BISHOP])],
                motions := [KingGoes(), RookGoes(), BishopLeaves()],
                order := 4)
  }

  function Crowded(): Scene {
    Leaving().(now := 2500,
               pieces := Leaving().pieces[KING := Rested(SetOut(Pieces()[KING]), 2500, 2)][ROOK := Rested(SetOut(Pieces()[ROOK]), 2500, 2)],
               cells := CastledCells(),
               motions := [BishopLeaves()],
               castles := [])
  }

  // ----- the events

  lemma BishopSetsOut(s: State)
    requires Shows(s, OpeningScene(Pieces(), Cells()))
    ensures Shows(RequestMove(Standard(), s, B2, C1).0, BishopOut())
  {
    assert s.grid.Get(B2) == Some(BISHOP) && s.grid.Get(C1) == None;
    assert ValidateMove(s.grid, s.pieces, B2, C1) == OK;
    Slides(Standard(), s, BISHOP, B2, C1);
  }

  lemma HalfASecond(s: State)
    requires Sound(s, []) && Shows(s, BishopOut())
    ensures Shows(Wait(Standard(), s, 500), BishopOut().(now := 500))
  {
    hide Wait, Sound, Pieces, Cells;
    WaitForNothing(Standard(), s, 500);
  }

  lemma NobodyAttacks(s: State, cell: Position)
    requires Shows(s, BishopOut().(now := 500)) && cell in {E1, D1, C1}
    ensures !IsSquareAttacked(s.grid, s.pieces, cell, Black)
  {
    forall source | source in s.grid.cells ensures !Attacks(s.grid, s.pieces, source, cell, Black) {
    }
  }

  lemma CastlingIsAllowed(s: State)
    requires Shows(s, BishopOut().(now := 500))
    ensures IsCastlingRequest(s, E1, C1) && CanCastle(s, E1, C1) == Some(Long())
  {
    NobodyAttacks(s, E1);
    NobodyAttacks(s, D1);
    NobodyAttacks(s, C1);
    hide IsSquareAttacked;
    assert s.grid.Get(E1) == Some(KING) && s.grid.Get(A1) == Some(ROOK);
    assert RankClear(s.grid, 7, 4, -1);
  }

  lemma KingCastles(s: State)
    requires Shows(s, BishopOut().(now := 500))
    ensures Shows(RequestMove(Standard(), s, E1, C1).0, Castling())
  {
    CastlingIsAllowed(s);
    hide CanCastle, IsCastlingRequest, RequestMove;
    assert s.grid.Get(E1) == Some(KING);
    CastlesOut(Standard(), s, E1, C1, Long());
  }

  lemma BishopIsStored(g: Grid)
    requires g == Grid(8, 8, Cells())
    ensures Commit(g, BISHOP, B2, C1) == Grid(8, 8, ArrivedCells())
  {
    hide Commit;
    MovedTo(g, BISHOP, B2, C1);
    assert g.cells - {B2} == map[E1 := KING, A1 := ROOK, H8 := FAR_KING];
  }

  lemma BishopArrives(t: State)
    requires Shows(t, Castling().(now := 1000))
    ensures Shows(ProcessStep(t, EventOf(BishopComes())), OnTarget())
  {
    hide ProcessStep, FindAt, Commit, Without;
    var g := t.grid;
    NobodyIsMet(t, C1, BISHOP);
    NoCastleWithTheBishop();
    Arrives(t, BishopComes());
    CastlersGoOn();
    BishopIsStored(g);
  }

  lemma NoCastleWithTheBishop()
    ensures CastleWith([Long()], BISHOP) == None
  {
  }

  lemma CastlersGoOn()
    ensures Without([BishopComes(), KingGoes(), RookGoes()], BISHOP) == [KingGoes(), RookGoes()]
  {
    var ms := [BishopComes(), KingGoes(), RookGoes()];
    assert ms[1..] == [KingGoes(), RookGoes()] && ms[1..][1..] == [RookGoes()];
    assert Without([RookGoes()], BISHOP) == [RookGoes()];
    assert Without(ms[1..], BISHOP) == [KingGoes(), RookGoes()];
  }

  lemma BishopRests(s: State)
    requires Sound(s, []) && Shows(s, Castling())
    ensures Shows(Wait(Standard(), s, 500), OnTarget())
  {
    hide ProcessStep, Wait, Sound, Pieces, Cells;
    BishopArrives(Later(s, 500));
    WaitForOne(Standard(), s, 500, BishopComes(), OnTarget());
  }

  lemma ASecond(s: State)
    requires Sound(s, []) && Shows(s, OnTarget())
    ensures Shows(Wait(Standard(), s, 1000), OnTarget().(now := 2000))
  {
    hide Wait, Sound, Pieces, Cells;
    WaitForNothing(Standard(), s, 1000);
  }

  lemma BishopSetsOutAgain(s: State)
    requires Shows(s, OnTarget().(now := 2000))
    ensures Shows(RequestMove(Standard(), s, C1, D2).0, Leaving())
  {
    assert s.grid.Get(C1) == Some(BISHOP) && s.grid.Get(D2) == None;
    assert ValidateMove(s.grid, s.pieces, C1, D2) == OK;
    Slides(Standard(), s, BISHOP, C1, D2);
  }

  lemma BothAreSeated(g: Grid)
    requires g == Grid(8, 8, ArrivedCells())
    ensures CastledGrid(g, Long()) == Grid(8, 8, CastledCells())
  {
    assert g.Remove(E1).Remove(A1).cells == map[C1 := BISHOP, H8 := FAR_KING];
  }

  lemma PiecesWhenLeaving()
    ensures var ps := Leaving().pieces;
            |ps| == 4 && ps[KING] == SetOut(Pieces()[KING]) && ps[ROOK] == SetOut(Pieces()[ROOK])
  {
  }

  lemma BishopGoesOn()
    ensures Without(Without([KingGoes(), RookGoes(), BishopLeaves()], KING), ROOK) == [BishopLeaves()]
  {
    var ms, rest := [KingGoes(), RookGoes(), BishopLeaves()], [RookGoes(), BishopLeaves()];
    assert ms[1..] == rest && rest[1..] == [BishopLeaves()];
    assert Without([BishopLeaves()], KING) == [BishopLeaves()] && Without([BishopLeaves()], ROOK) == [BishopLeaves()];
    assert Without(rest, KING) == rest && Without(rest, ROOK) == [BishopLeaves()];
  }

  lemma KingCompletesTheCastle(t: State)
    requires Shows(t, Leaving().(now := 2500))
    ensures Shows(ProcessStep(t, EventOf(KingGoes())), Crowded())
  {
    hide ProcessStep, CastledGrid, Pieces, Without;
    BothAreSeated(t.grid);
    PiecesWhenLeaving();
    BishopGoesOn();
    assert CastleWith([Long()], KING) == Some(0);
    CompletesCastle(t, KING, 0, EventOf(KingGoes()));
    assert t.castles[..0] + t.castles[1..] == [];
  }

  lemma RookHasArrived(t: State)
    requires Shows(t, Crowded())
    ensures ProcessStep(t, EventOf(RookGoes())) == t
  {
  }

  lemma KingIsSeated(s: State)
    requires Sound(s, []) && Shows(s, Leaving())
    ensures Shows(Wait(Standard(), s, 500), Crowded())
  {
    hide ProcessStep, Wait, Sound, Pieces, Cells;
    var t := Later(s, 500);
    KingCompletesTheCastle(t);
    RookHasArrived(ProcessStep(t, EventOf(KingGoes())));
    WaitForTwo(Standard(), s, 500, KingGoes(), RookGoes(), Crowded());
  }

  // ----- the run

  function FirstHalf(): seq<Event> {
    [MoveRequest(B2, C1), Waiting(500), MoveRequest(E1, C1), Waiting(500)]
  }

  function SecondHalf(): seq<Event> {
    [Waiting(1000), MoveRequest(C1, D2), Waiting(500)]
  }

  lemma FirstHalfShows(s: State)
    requires Sound(s, []) && Shows(s, OpeningScene(Pieces(), Cells()))
    ensures Shows(Run(Standard(), s, FirstHalf()), OnTarget())
  {
    hide Sound, Shows, Wait, RequestMove, Run, Apply, Pieces, Cells, BishopOut, Castling, OnTarget;
    var c, es := Standard(), FirstHalf();
    FourEvents(c, s, es[0], es[1], es[2], es[3]);
    var s1 := Apply(c, s, es[0]);
    Applied(c, s, es[0]);
    BishopSetsOut(s);
    var s2 := Apply(c, s1, es[1]);
    Applied(c, s1, es[1]);
    HalfASecond(s1);
    var s3 := Apply(c, s2, es[2]);
    Applied(c, s2, es[2]);
    KingCastles(s2);
    Applied(c, s3, es[3]);
    BishopRests(s3);
  }

  lemma SecondHalfShows(s: State)
    requires Sound(s, []) && Shows(s, OnTarget())
    ensures Shows(Run(Standard(), s, SecondHalf()), Crowded())
  {
    hide Sound, Shows, Wait, RequestMove, Run, Apply, Pieces, Cells, OnTarget, Leaving, Crowded;
    var c, es := Standard(), SecondHalf();
    ThreeEvents(c, s, es[0], es[1], es[2]);
    var s1 := Apply(c, s, es[0]);
    Applied(c, s, es[0]);
    ASecond(s);
    var s2 := Apply(c, s1, es[1]);
    Applied(c, s1, es[1]);
    BishopSetsOutAgain(s1);
    Applied(c, s2, es[2]);
    KingIsSeated(s2);
  }

  lemma TheOpening()
    ensures var s := Opening(Pieces(), Cells());
            Initial(s) && Sound(s, []) && Shows(s, OpeningScene(Pieces(), Cells())) && EightByEight(s.grid)
  {
    hide Initial, Sound;
    OpeningIsInitial(Pieces(), Cells(), [E1, A1, B2, H8]);
  }

  lemma CrowdedFacts(t: State)
    requires Shows(t, Crowded())
    ensures LogicallyAt(t, KING, C1) && LogicallyAt(t, BISHOP, C1)
  {
    assert t.grid.Get(C1) == Some(KING);
    assert MotionOf([BishopLeaves()], BISHOP) == Some(BishopLeaves());
  }

  /** After this run the king and a bishop, both alive, are on one logical cell. */
  lemma TwoPiecesOnOneCell() returns (s: State, t: State)
    ensures EightByEight(s.grid) && Reaches(Standard(), s, FirstHalf() + SecondHalf(), t)
    ensures LogicallyAt(t, KING, C1) && LogicallyAt(t, BISHOP, C1) && KING != BISHOP
  {
    hide Initial, Sound, Run, Shows, Pieces, Cells, Opening, OpeningScene, FirstHalf, SecondHalf, LogicallyAt, OnTarget, Crowded;
    s := Opening(Pieces(), Cells());
    TheOpening();
    FirstHalfShows(s);
    SecondHalfShows(Run(Standard(), s, FirstHalf()));
    RunInTwo(Standard(), s, FirstHalf(), SecondHalf());
    t := Run(Standard(), s, FirstHalf() + SecondHalf());
    CrowdedFacts(t);
  }
}
