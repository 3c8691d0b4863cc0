/** A run, at the standard durations, in which both kings fall: a winner is announced, and the snapshot names none. */
module WinnerDraw {
  import opened Wrappers
  import opened ChessTypes
  import opened Rules
  import opened Arbiter
  import opened Engine
  import opened EngineTime
  import opened EngineInvariants
  import opened EngineLedger
  import opened EngineRuns
  import opened EngineScenes
  import opened Snapshots
  import opened SnapshotRuns
  import opened Winner

  const BLACK_KING := 0
  const WHITE_ROOK := 1
  const WHITE_KING := 2
  const BLACK_ROOK := 3

  const A8 := Position(0, 0)
  const B8 := Position(0, 1)
  const A1 := Position(7, 0)
  const B1 := Position(7, 1)

  /** Each king stands next to an enemy rook. */
  function Pieces(): seq<Piece> {
    [FreshPiece(0, Black, King), FreshPiece(1, White, Rook), FreshPiece(2, White, King), FreshPiece(3, Black, Rook)]
  }

  function Cells(): map<Position, PieceRef> {
    map[A8 := BLACK_KING, B8 := WHITE_ROOK, A1 := WHITE_KING, B1 := BLACK_ROOK]
  }

  function WhiteStrikes(): Motion {
    Motion(WHITE_ROOK, B8, A8, B8, 0, -1, false, 1000, 1000, 0)
  }

  function BlackStrikes(): Motion {
    Motion(BLACK_ROOK, B1, A1, B1, 0, -1, false, 1000, 1000, 1)
  }

  function OneOut(): Scene {
    OpeningScene(Pieces()[WHITE_ROOK := SetOut(Pieces()[WHITE_ROOK])], Cells()).(motions := [WhiteStrikes()], order := 1)
  }

  function BothOut(): Scene {
    OneOut().(pieces := OneOut().pieces[BLACK_ROOK := SetOut(Pieces()[BLACK_ROOK])], motions := [WhiteStrikes(), BlackStrikes()], order := 2)
  }

  function OneFallen(): Scene {
    BothOut().(now := 1000,
               pieces := BothOut().pieces[BLACK_KING := Pieces()[BLACK_KING].(state := Captured)]
                                         [WHITE_ROOK := Rested(SetOut(Pieces()[WHITE_ROOK]), 1000, 1)],
               cells := map[A8 := WHITE_ROOK, A1 := WHITE_KING, B1 := BLACK_ROOK],
               motions := [BlackStrikes()],
               over := true,
               ended := [White])
  }

  function BothFallen(): Scene {
    OneFallen().(pieces := OneFallen().pieces[WHITE_KING := Pieces()[WHITE_KING].(state := Captured)]
                                             [BLACK_ROOK := Rested(SetOut(Pieces()[BLACK_ROOK]), 1000, 1)],
                 cells := map[A8 := WHITE_ROOK, A1 := BLACK_ROOK],
                 motions := [])
  }

  // ----- the events

  lemma WhiteRookSetsOut(s: State)
    requires Shows(s, OpeningScene(Pieces(), Cells()))
    ensures Shows(RequestMove(Standard(), s, B8, A8).0, OneOut())
  {
    assert s.grid.Get(B8) == Some(WHITE_ROOK) && s.grid.Get(A8) == Some(BLACK_KING);
    assert ValidateMove(s.grid, s.pieces, B8, A8) == OK;
    Slides(Standard(), s, WHITE_ROOK, B8, A8);
  }

  lemma BlackRookSetsOut(s: State)
    requires Shows(s, OneOut())
    ensures Shows(RequestMove(Standard(), s, B1, A1).0, BothOut())
  {
    assert s.grid.Get(B1) == Some(BLACK_ROOK) && s.grid.Get(A1) == Some(WHITE_KING);
    assert ValidateMove(s.grid, s.pieces, B1, A1) == OK;
    Slides(Standard(), s, BLACK_ROOK, B1, A1);
  }

  lemma BlackKingLeavesTheGrid(g: Grid)
    requires g == Grid(8, 8, Cells())
    ensures Commit(g.RemovePiece(BLACK_KING), WHITE_ROOK, B8, A8) == Grid(8, 8, OneFallen().cells)
  {
    hide Commit, Grid.RemovePiece;
    ReplacedOn(g, BLACK_KING, WHITE_ROOK, B8, A8);
    assert g.cells - {A8, B8} == map[A1 := WHITE_KING, B1 := BLACK_ROOK];
  }

  lemma WhiteKingLeavesTheGrid(g: Grid)
    requires g == Grid(8, 8, OneFallen().cells)
    ensures Commit(g.RemovePiece(WHITE_KING), BLACK_ROOK, B1, A1) == Grid(8, 8, BothFallen().cells)
  {
    hide Commit, Grid.RemovePiece;
    ReplacedOn(g, WHITE_KING, BLACK_ROOK, B1, A1);
    assert g.cells - {A1, B1} == map[A8 := WHITE_ROOK];
  }

  lemma BlackKingFalls(t: State)
    requires Shows(t, BothOut().(now := 1000))
    ensures Shows(ProcessStep(t, EventOf(WhiteStrikes())), OneFallen())
  {
    hide ProcessStep, FindAt, Commit;
    assert t.motions[1..] == [BlackStrikes()] && t.grid.Get(A8) == Some(BLACK_KING);
    RestingPieceIsMet(t, A8, WHITE_ROOK, BLACK_KING);
    Captures(t, WhiteStrikes(), BLACK_KING);
    assert Without(t.motions, BLACK_KING) == t.motions && Without(t.motions, WHITE_ROOK) == [BlackStrikes()] by {
      assert Without([BlackStrikes()], WHITE_ROOK) == [BlackStrikes()] && Without([BlackStrikes()], BLACK_KING) == [BlackStrikes()];
    }
    BlackKingLeavesTheGrid(t.grid);
  }

  /** The second step, of the same batch, takes the white king: the end of the game is not announced again. */
  lemma WhiteKingFallsToo(t: State)
    requires Shows(t, OneFallen())
    ensures Shows(ProcessStep(t, EventOf(BlackStrikes())), BothFallen())
  {
    hide ProcessStep, FindAt, Commit;
    assert t.grid.Get(A1) == Some(WHITE_KING);
    RestingPieceIsMet(t, A1, BLACK_ROOK, WHITE_KING);
    Captures(t, BlackStrikes(), WHITE_KING);
    assert Without(Without([BlackStrikes()], WHITE_KING), BLACK_ROOK) == [];
    WhiteKingLeavesTheGrid(t.grid);
  }

  lemma BothStrike(s: State)
    requires Sound(s, []) && Shows(s, BothOut())
    ensures Shows(Wait(Standard(), s, 1000), BothFallen())
  {
    hide ProcessStep, Wait, Sound, Pieces, Cells;
    var t := Later(s, 1000);
    BlackKingFalls(t);
    WhiteKingFallsToo(ProcessStep(t, EventOf(WhiteStrikes())));
    WaitForTwo(Standard(), s, 1000, WhiteStrikes(), BlackStrikes(), BothFallen());
  }

  // ----- the run

  function Events(): seq<Event> {
    [MoveRequest(B8, A8), MoveRequest(B1, A1), Waiting(1000)]
  }

  lemma RunShows(s: State)
    requires Sound(s, []) && Shows(s, OpeningScene(Pieces(), Cells()))
    ensures Shows(Run(Standard(), s, Events()), BothFallen())
  {
    hide Sound, Shows, Wait, RequestMove, Run, Apply, OneOut, BothOut, BothFallen, Pieces, Cells;
    var c, es := Standard(), Events();
    ThreeEvents(c, s, es[0], es[1], es[2]);
    var s1 := Apply(c, s, es[0]);
    Applied(c, s, es[0]);
    WhiteRookSetsOut(s);
    var s2 := Apply(c, s1, es[1]);
    Applied(c, s1, es[1]);
    BlackRookSetsOut(s1);
    Applied(c, s2, es[2]);
    BothStrike(s2);
  }

  lemma TheOpening()
    ensures var s := Opening(Pieces(), Cells());
            Initial(s) && Sound(s, []) && Shows(s, OpeningScene(Pieces(), Cells())) && EightByEight(s.grid)
  {
    hide Initial, Sound;
    OpeningIsInitial(Pieces(), Cells(), [A8, B8, A1, B1]);
  }

  lemma OneKingEach()
    ensures var s := Opening(Pieces(), Cells());
            DistinctIds(s) && OneKing(s, WHITE_KING, White) && OneKing(s, BLACK_KING, Black)
  {
    hide Cells;
  }

  lemma FallenFacts(t: State)
    requires Shows(t, BothFallen())
    ensures KingLost(t, White) && KingLost(t, Black) && t.gameOver && t.tally.gamesEnded == [White] && t.tally.acceptedCastles == 0
  {
    assert t.pieces[BLACK_KING].state == Captured && t.pieces[WHITE_KING].state == Captured;
  }

  /**
   * The claim that the king still on the board names the winner fails here: two rooks take the two kings,
   * White is announced, and the snapshot of the finished game names nobody.
   */
  lemma AnnouncedWinnerIsNotNamed(players: Players) returns (s: State, t: State)
    ensures EightByEight(s.grid) && DistinctIds(s) && OneKing(s, WHITE_KING, White) && OneKing(s, BLACK_KING, Black)
    ensures CastleFreeRun(Standard(), s, Events(), t)
    ensures t.gameOver && t.tally.gamesEnded == [White] && WinnerColor(Build(t, players).pieces) == None
  {
    hide Initial, Sound, Run, Shows, KingLost, Pieces, Cells, Opening, OpeningScene, Events, OneKing, DistinctIds, WinnerColor, Build;
    s := Opening(Pieces(), Cells());
    TheOpening();
    OneKingEach();
    RunShows(s);
    t := Run(Standard(), s, Events());
    FallenFacts(t);
    WinnerAgreement(Standard(), s, Events(), t, players, WHITE_KING, BLACK_KING, White);
  }
}
