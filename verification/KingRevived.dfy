/** A run, at the standard durations, in which a captured king comes back by castling and its captor loses its cell. */
module KingRevived {
  import opened Wrappers
  import opened ChessTypes
  import opened Rules
  import opened Arbiter
  import opened Engine
  import opened EngineTime
  import opened EngineInvariants
  import opened EngineRuns
  import opened EngineLedger
  import opened EngineRevival
  import opened EngineLosses
  import opened EngineScenes
  import opened Snapshots
  import opened SnapshotRuns
  import opened EngineOccupancy
  import opened Winner

  const KING := 0
  const ROOK := 1
  const HUNTER := 2
  const KNIGHT := 3
  const FAR_KING := 4

  const E1 := Position(7, 4)
  const F1 := Position(7, 5)
  const G1 := Position(7, 6)
  const H1 := Position(7, 7)
  const E2 := Position(6, 4)
  const E3 := Position(5, 4)
  const E4 := Position(4, 4)
  const C4 := Position(4, 2)
  const A8 := Position(0, 0)

  function Pieces(): seq<Piece> {
    [FreshPiece(0, White, King), FreshPiece(1, White, Rook), FreshPiece(2, Black, Rook), FreshPiece(3, White, Knight), FreshPiece(4, Black, King)]
  }

  function Cells(): map<Position, PieceRef> {
    map[E1 := KING, H1 := ROOK, E4 := HUNTER, C4 := KNIGHT, A8 := FAR_KING]
  }

  function Chase(cell: Position, next: int): Motion {
    Motion(HUNTER, E4, E1, cell, 1, 0, false, 1000, next, 0)
  }

  function Leap(): Motion {
    Motion(KNIGHT, C4, E3, C4, 1, 1, true, 1000, 2500, 1)
  }

  function Short(): Castle {
    Castle(KING, ROOK, E1, G1, H1, F1)
  }

  function KingGoes(): Motion {
    Motion(KING, E1, G1, E1, 0, 1, true, 2000, 4500, 2)
  }

  function RookGoes(): Motion {
    Motion(ROOK, H1, F1, H1, 0, -1, true, 2000, 4500, 3)
  }

  // ----- the scenes

  function HunterOut(): Scene {
    OpeningScene(Pieces()[HUNTER := SetOut(Pieces()[HUNTER])], Cells()).(motions := [Chase(E4, 1000)], order := 1)
  }

  function HunterNear(): Scene {
    HunterOut().(now := 1500, motions := [Chase(E3, 2000)])
  }

  function KnightOut(): Scene {
    HunterNear().(pieces := HunterNear().pieces[KNIGHT := SetOut(Pieces()[KNIGHT])], motions := [Chase(E3, 2000), Leap()], order := 2)
  }

  function ShieldedCells(): map<Position, PieceRef> {
    map[E1 := KING, H1 := ROOK, E4 := HUNTER, E3 := KNIGHT, A8 := FAR_KING]
  }

  function TakenCells(): map<Position, PieceRef> {
    map[E1 := HUNTER, H1 := ROOK, E3 := KNIGHT, A8 := FAR_KING]
  }

  function BackCells(): map<Position, PieceRef> {
    map[G1 := KING, F1 := ROOK, E3 := KNIGHT, A8 := FAR_KING]
  }

  /** The knight stands behind the hunter, who is already past it, and shields the king from the hunter's stored cell. */
  function Shielded(): Scene {
    KnightOut().(now := 2500,
                 pieces := KnightOut().pieces[KNIGHT := Rested(SetOut(Pieces()[KNIGHT]), 2500, 2)],
                 cells := ShieldedCells(),
                 motions := [Chase(E2, 3000)])
  }

  function Castling(): Scene {
    Shielded().(pieces := Shielded().pieces[KING := SetOut(Pieces()[KING])][ROOK := SetOut(Pieces()[ROOK])],
                motions := [Chase(E2, 3000), KingGoes(), RookGoes()],
                castles := [Short()],
                order := 4,
                castled := 1)
  }

  function KingTaken(): Scene {
    Castling().(now := 3000,
                pieces := Castling().pieces[KING := SetOut(Pieces()[KING]).(state := Captured)]
                                           [HUNTER := Rested(SetOut(Pieces()[HUNTER]), 3000, 3)],
                cells := TakenCells(),
                motions := [RookGoes()],
                over := true,
                ended := [Black])
  }

  function KingBack(): Scene {
    KingTaken().(now := 4500,
                 pieces := KingTaken().pieces[KING := Rested(SetOut(Pieces()[KING]), 4500, 2)][ROOK := Rested(SetOut(Pieces()[ROOK]), 4500, 2)],
                 cells := BackCells(),
                 motions := [],
                 castles := [])
  }

  // ----- the events

  lemma HunterSetsOut(s: State)
    requires Shows(s, OpeningScene(Pieces(), Cells()))
    ensures Shows(RequestMove(Standard(), s, E4, E1).0, HunterOut())
  {
    assert s.grid.Get(E4) == Some(HUNTER);
    assert ValidateMove(s.grid, s.pieces, E4, E1) == OK;
    Slides(Standard(), s, HUNTER, E4, E1);
  }

  lemma HunterComesNear(s: State)
    requires Sound(s, []) && Shows(s, HunterOut())
    ensures Shows(Wait(Standard(), s, 1500), HunterNear())
  {
    hide ProcessStep, Wait, Sound, Pieces, Cells;
    var t, m := Later(s, 1500), Chase(E4, 1000);
    HunterGlides(t);
    WaitForOne(Standard(), s, 1500, m, HunterNear());
  }

  lemma HunterGlides(t: State)
    requires Shows(t, HunterOut().(now := 1500))
    ensures Shows(ProcessStep(t, EventOf(Chase(E4, 1000))), HunterNear())
  {
    hide ProcessStep, FindAt;
    var m := Chase(E4, 1000);
    assert t.motions == [m];
    NobodyIsMet(t, E3, HUNTER);
    GlidesOn(t, m);
    assert Advanced([m], HUNTER, E3) == [Chase(E3, 2000)];
  }

  lemma KnightSetsOut(s: State)
    requires Shows(s, HunterNear())
    ensures Shows(RequestMove(Standard(), s, C4, E3).0, KnightOut())
  {
    assert s.grid.Get(C4) == Some(KNIGHT);
    assert ValidateMove(s.grid, s.pieces, C4, E3) == OK;
    Slides(Standard(), s, KNIGHT, C4, E3);
  }

  lemma HunterPasses(t: State)
    requires Shows(t, KnightOut().(now := 2500))
    ensures Shows(ProcessStep(t, EventOf(Chase(E3, 2000))), KnightOut().(now := 2500, motions := [Chase(E2, 3000), Leap()]))
  {
    hide ProcessStep, FindAt;
    var m := Chase(E3, 2000);
    assert t.motions == [m, Leap()];
    NobodyIsMet(t, E2, HUNTER);
    GlidesOn(t, m);
    assert Advanced([m, Leap()], HUNTER, E2) == [Chase(E2, 3000), Leap()];
  }

  lemma OnlyTheHunterGoesOn()
    ensures Without([Chase(E2, 3000), Leap()], KNIGHT) == [Chase(E2, 3000)]
  {
    assert [Chase(E2, 3000), Leap()][1..] == [Leap()] && Without([Leap()], KNIGHT) == [];
  }

  lemma KnightIsStored(g: Grid)
    requires g == Grid(8, 8, Cells())
    ensures Commit(g, KNIGHT, C4, E3) == Grid(8, 8, ShieldedCells())
  {
    hide Commit;
    MovedTo(g, KNIGHT, C4, E3);
    assert g.cells - {C4} == map[E1 := KING, H1 := ROOK, E4 := HUNTER, A8 := FAR_KING];
  }

  lemma KnightLands(t: State)
    requires Shows(t, KnightOut().(now := 2500, motions := [Chase(E2, 3000), Leap()]))
    ensures Shows(ProcessStep(t, EventOf(Leap())), Shielded())
  {
    hide ProcessStep, FindAt, Commit, Without;
    var ms := [Chase(E2, 3000), Leap()];
    var g := t.grid;
    assert MotionOf(t.motions, KNIGHT) == Some(Leap()) by {
      assert ms[1..] == [Leap()];
    }
    NobodyIsMet(t, E3, KNIGHT);
    Arrives(t, Leap());
    OnlyTheHunterGoesOn();
    KnightIsStored(g);
  }

  lemma HunterPassesAndKnightLands(s: State)
    requires Sound(s, []) && Shows(s, KnightOut())
    ensures Shows(Wait(Standard(), s, 1000), Shielded())
  {
    hide ProcessStep, Wait, Sound, Pieces, Cells;
    var t := Later(s, 1000);
    HunterPasses(t);
    KnightLands(ProcessStep(t, EventOf(Chase(E3, 2000))));
    WaitForTwo(Standard(), s, 1000, Chase(E3, 2000), Leap(), Shielded());
  }

  // ----- castling

  lemma HunterSeesNobody(s: State, cell: Position)
    requires Shows(s, Shielded()) && cell in {E1, F1, G1}
    ensures !IsSquareAttacked(s.grid, s.pieces, cell, Black)
  {
    var g := s.grid;
    assert g.Get(E4) == Some(HUNTER) && g.Get(E3) == Some(KNIGHT);
    forall source | source in g.cells ensures !Attacks(g, s.pieces, source, cell, Black) {
      if source == E4 && cell == E1 {
        assert Along(E4, 1, 0, 1) == E3 && !g.IsEmpty(E3);
      }
    }
  }

  lemma CastlingIsAllowed(s: State)
    requires Shows(s, Shielded())
    ensures IsCastlingRequest(s, E1, G1) && CanCastle(s, E1, G1) == Some(Short())
  {
    HunterSeesNobody(s, E1);
    HunterSeesNobody(s, F1);
    HunterSeesNobody(s, G1);
    hide IsSquareAttacked;
    assert s.grid.Get(E1) == Some(KING) && s.grid.Get(H1) == Some(ROOK);
    assert RankClear(s.grid, 7, 4, 1);
  }

  lemma KingCastles(s: State)
    requires Shows(s, Shielded())
    ensures Shows(RequestMove(Standard(), s, E1, G1).0, Castling())
  {
    CastlingIsAllowed(s);
    hide CanCastle, IsCastlingRequest, RequestMove;
    assert s.grid.Get(E1) == Some(KING);
    CastlesOut(Standard(), s, E1, G1, Short());
  }

  lemma HunterTakesTheKing(t: State)
    requires Shows(t, Castling().(now := 3000))
    ensures Shows(ProcessStep(t, EventOf(Chase(E2, 3000))), KingTaken())
  {
    hide ProcessStep, FindAt, Commit, Without;
    assert KingGoes() in t.motions;
    MovingPieceIsMet(t, E1, HUNTER, KING);
    Captures(t, Chase(E2, 3000), KING);
    OnlyTheRookGoesOn();
    KingLeavesTheGrid(t.grid);
  }

  lemma OnlyTheRookGoesOn()
    ensures Without(Without([Chase(E2, 3000), KingGoes(), RookGoes()], KING), HUNTER) == [RookGoes()]
  {
    var ms := [Chase(E2, 3000), KingGoes(), RookGoes()];
    var both := [Chase(E2, 3000), RookGoes()];
    assert ms[1..] == [KingGoes(), RookGoes()] && ms[1..][1..] == [RookGoes()] && both[1..] == [RookGoes()];
    assert Without([RookGoes()], KING) == [RookGoes()] && Without([RookGoes()], HUNTER) == [RookGoes()];
    assert Without(ms[1..], KING) == [RookGoes()];
    assert Without(ms, KING) == both && Without(both, HUNTER) == [RookGoes()];
  }

  lemma KingLeavesTheGrid(g: Grid)
    requires g == Grid(8, 8, ShieldedCells())
    ensures Commit(g.RemovePiece(KING), HUNTER, E4, E1) == Grid(8, 8, TakenCells())
  {
    hide Commit, Grid.RemovePiece;
    ReplacedOn(g, KING, HUNTER, E4, E1);
    assert g.cells - {E1, E4} == map[H1 := ROOK, E3 := KNIGHT, A8 := FAR_KING];
  }

  lemma KingFalls(s: State)
    requires Sound(s, []) && Shows(s, Castling())
    ensures Shows(Wait(Standard(), s, 500), KingTaken())
  {
    hide ProcessStep, Wait, Sound, Pieces, Cells;
    HunterTakesTheKing(Later(s, 500));
    WaitForOne(Standard(), s, 500, Chase(E2, 3000), KingTaken());
  }

  lemma BothAreSeated(g: Grid)
    requires g == Grid(8, 8, TakenCells())
    ensures CastledGrid(g, Short()) == Grid(8, 8, BackCells())
  {
    var cleared := g.Remove(E1).Remove(H1);
    assert cleared.cells == map[E3 := KNIGHT, A8 := FAR_KING];
  }

  lemma PiecesWhenTaken()
    ensures var ps := KingTaken().pieces;
            |ps| == 5 && ps[KING] == SetOut(Pieces()[KING]).(state := Captured) && ps[ROOK] == SetOut(Pieces()[ROOK])
  {
  }

  lemma RookCompletesTheCastle(t: State)
    requires Shows(t, KingTaken().(now := 4500))
    ensures Shows(ProcessStep(t, EventOf(RookGoes())), KingBack())
  {
    hide ProcessStep, CastledGrid, Pieces, Cells;
    BothAreSeated(t.grid);
    PiecesWhenTaken();
    assert CastleWith([Short()], ROOK) == Some(0);
    CompletesCastle(t, ROOK, 0, EventOf(RookGoes()));
    assert Without(Without([RookGoes()], KING), ROOK) == [];
    assert t.castles[..0] + t.castles[1..] == [];
  }

  lemma KingComesBack(s: State)
    requires Sound(s, []) && Shows(s, KingTaken())
    ensures Shows(Wait(Standard(), s, 1500), KingBack())
  {
    hide ProcessStep, Wait, Sound, Pieces, Cells;
    RookCompletesTheCastle(Later(s, 1500));
    WaitForOne(Standard(), s, 1500, RookGoes(), KingBack());
  }

  // ----- the run

  function Events(): seq<Event> {
    [MoveRequest(E4, E1), Waiting(1500), MoveRequest(C4, E3), Waiting(1000), MoveRequest(E1, G1), Waiting(500), Waiting(1500)]
  }

  lemma Prologue(s: State) returns (t: State)
    requires Sound(s, []) && Shows(s, OpeningScene(Pieces(), Cells()))
    ensures Sound(t, []) && Shows(t, Shielded())
    ensures Run(Standard(), s, Events()[..4]) == t
  {
    hide Sound, Shows, Wait, RequestMove, Run, Apply, Pieces, Cells, Shielded, HunterOut, HunterNear, KnightOut;
    var c, es := Standard(), Events();
    HunterSetsOut(s);
    var s1 := Apply(c, s, es[0]);
    Applied(c, s, es[0]);
    HunterComesNear(s1);
    var s2 := Apply(c, s1, es[1]);
    Applied(c, s1, es[1]);
    KnightSetsOut(s2);
    var s3 := Apply(c, s2, es[2]);
    Applied(c, s2, es[2]);
    HunterPassesAndKnightLands(s3);
    t := Apply(c, s3, es[3]);
    Applied(c, s3, es[3]);
    FourEvents(c, s, es[0], es[1], es[2], es[3]);
    assert es[..4] == [es[0], es[1], es[2], es[3]];
  }

  lemma Epilogue(s: State) returns (taken: State, t: State)
    requires Sound(s, []) && Shows(s, Shielded())
    ensures Sound(taken, []) && Shows(taken, KingTaken()) && Shows(t, KingBack())
    ensures Run(Standard(), s, Events()[4..6]) == taken && Run(Standard(), taken, [Events()[6]]) == t
  {
    hide Sound, Shows, Wait, RequestMove, Run, Apply, Pieces, Cells, Shielded, Castling, KingTaken, KingBack;
    var c, es := Standard(), Events();
    KingCastles(s);
    var s1 := Apply(c, s, es[4]);
    Applied(c, s, es[4]);
    KingFalls(s1);
    taken := Apply(c, s1, es[5]);
    Applied(c, s1, es[5]);
    KingComesBack(taken);
    t := Apply(c, taken, es[6]);
    Applied(c, taken, es[6]);
    TwoEvents(c, s, es[4], es[5]);
    OneEvent(c, taken, es[6]);
    assert es[4..6] == [es[4], es[5]];
  }

  lemma SevenEvents()
    ensures |Events()| == 7
  {
  }

  lemma TheOpening()
    ensures var s := Opening(Pieces(), Cells());
            Initial(s) && Sound(s, []) && Shows(s, OpeningScene(Pieces(), Cells())) && EightByEight(s.grid)
  {
    hide Initial, Sound;
    OpeningIsInitial(Pieces(), Cells(), [E1, H1, E4, C4, A8]);
  }

  lemma TakenFacts(s: State)
    requires Shows(s, KingTaken())
    ensures s.gameOver && KingLost(s, White) && s.tally.gamesEnded == [Black]
  {
    assert s.pieces[KING].state == Captured;
  }

  lemma BackFacts(t: State)
    requires Shows(t, KingBack())
    ensures t.gameOver && t.tally.gamesEnded == [Black] && !KingDown(t)
    ensures t.Of(KING).state == Idle && t.grid.Get(G1) == Some(KING) && Lost(t, HUNTER)
  {
    assert forall p: PieceRef :: p < |t.pieces| ==> t.pieces[p].state == Idle;
  }

  lemma OneKingEach()
    ensures var s := Opening(Pieces(), Cells());
            DistinctIds(s) && OneKing(s, KING, White) && OneKing(s, FAR_KING, Black)
  {
    hide Cells;
  }

  lemma BothKingsAreOnBoard(t: State)
    requires Shows(t, KingBack())
    ensures OnBoard(t, KING) && OnBoard(t, FAR_KING)
  {
    assert t.grid.Get(G1) == Some(KING) && t.grid.Get(A8) == Some(FAR_KING);
    CellOfStored(t.grid, KING, G1);
    CellOfStored(t.grid, FAR_KING, A8);
  }

  /**
   * At the standard durations: White castles while a black rook is already past the knight that hides the king from its stored
   * cell. The rook takes the king, which ends the game for Black; then the white rook's step completes the castle. The king is
   * back, the game stays over with no king captured, the snapshot names nobody, and the black rook rests on no cell.
   */
  lemma RevivedByCastling(players: Players) returns (s: State, taken: State, t: State)
    ensures Initial(s) && EightByEight(s.grid) && OneKing(s, KING, White) && OneKing(s, FAR_KING, Black)
    ensures Reaches(Standard(), s, Events()[..6], taken) && KingLost(taken, White) && taken.gameOver
    ensures Reaches(Standard(), s, Events(), t) && t.gameOver && t.tally.gamesEnded == [Black] && !KingDown(t)
    ensures t.Of(KING).state == Idle && t.grid.Get(G1) == Some(KING) && Lost(t, HUNTER)
    ensures WinnerColor(Build(t, players).pieces) == None
  {
    hide Initial, Sound, Run, Shows, Lost, KingDown, KingLost, Pieces, Cells, Opening, OpeningScene, EightByEight, Events, OneKing, DistinctIds,
         WinnerColor, Build, OnBoard;
    s := Opening(Pieces(), Cells());
    TheOpening();
    OneKingEach();
    var mid := Prologue(s);
    taken, t := Epilogue(mid);
    TakenFacts(taken);
    BackFacts(t);
    var es := Events();
    SevenEvents();
    assert es[..6] == es[..4] + es[4..6] && es == es[..6] + [es[6]];
    RunInTwo(Standard(), s, es[..4], es[4..6]);
    RunInTwo(Standard(), s, es[..6], [es[6]]);
    BothKingsAreOnBoard(t);
    NamedExactlyIfAloneOnBoard(Standard(), s, es, t, players, KING, FAR_KING);
    NobodyIsNamed(players, t);
  }

  lemma NobodyIsNamed(players: Players, t: State)
    requires WinnerColor(Build(t, players).pieces) != Some(White) && WinnerColor(Build(t, players).pieces) != Some(Black)
    ensures WinnerColor(Build(t, players).pieces) == None
  {
    hide Build, WinnerColor;
    var winner := WinnerColor(Build(t, players).pieces);
    assert winner == None || winner.value == White || winner.value == Black;
  }
}
