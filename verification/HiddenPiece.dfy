/** A run, at the standard durations, after which the snapshot does not show a live piece. */
module HiddenPiece {
  import opened Wrappers
  import opened ChessTypes
  import opened Rules
  import opened Arbiter
  import opened Engine
  import opened EngineTime
  import opened EngineInvariants
  import opened EngineRuns
  import opened EngineScenes
  import opened Snapshots
  import opened SnapshotRuns

  const RUNNER := 0
  const FOLLOWER := 1

  const A8 := Position(0, 0)
  const B8 := Position(0, 1)
  const F8 := Position(0, 5)
  const H8 := Position(0, 7)
  const A7 := Position(1, 0)
  const E1 := Position(7, 4)

  function Pieces(): seq<Piece> {
    [FreshPiece(0, White, Rook), FreshPiece(1, Black, Rook), FreshPiece(2, White, King), FreshPiece(3, Black, King)]
  }

  function Cells(): map<Position, PieceRef> {
    map[A8 := RUNNER, A7 := FOLLOWER, E1 := 2, H8 := 3]
  }

  function Running(cell: Position, next: int): Motion {
    Motion(RUNNER, A8, F8, cell, 0, 1, false, 1000, next, 0)
  }

  function Following(): Motion {
    Motion(FOLLOWER, A7, A8, A7, -1, 0, false, 1000, 1000, 1)
  }

  function RunnerOut(): Scene {
    OpeningScene(Pieces()[RUNNER := SetOut(Pieces()[RUNNER])], Cells()).(motions := [Running(A8, 1000)], order := 1)
  }

  function BothOut(): Scene {
    RunnerOut().(pieces := RunnerOut().pieces[FOLLOWER := SetOut(Pieces()[FOLLOWER])], motions := [Running(A8, 1000), Following()], order := 2)
  }

  /** The runner has left its cell, which still stores it, and the follower has been stored there instead. */
  function Covered(): Scene {
    BothOut().(now := 1000,
               pieces := BothOut().pieces[FOLLOWER := Rested(SetOut(Pieces()[FOLLOWER]), 1000, 1)],
               cells := map[A8 := FOLLOWER, E1 := 2, H8 := 3],
               motions := [Running(B8, 2000)])
  }

  lemma RunnerSetsOut(s: State)
    requires Shows(s, OpeningScene(Pieces(), Cells()))
    ensures Shows(RequestMove(Standard(), s, A8, F8).0, RunnerOut())
  {
    assert s.grid.Get(A8) == Some(RUNNER) && s.grid.Get(F8) == None;
    assert ValidateMove(s.grid, s.pieces, A8, F8) == OK;
    Slides(Standard(), s, RUNNER, A8, F8);
  }

  lemma FollowerSetsOut(s: State)
    requires Shows(s, RunnerOut())
    ensures Shows(RequestMove(Standard(), s, A7, A8).0, BothOut())
  {
    assert s.grid.Get(A7) == Some(FOLLOWER) && s.grid.Get(A8) == Some(RUNNER);
    assert ValidateMove(s.grid, s.pieces, A7, A8) == OK;
    Slides(Standard(), s, FOLLOWER, A7, A8);
  }

  lemma RunnerLeaves(t: State)
    requires Shows(t, BothOut().(now := 1000))
    ensures Shows(ProcessStep(t, EventOf(Running(A8, 1000))), BothOut().(now := 1000, motions := [Running(B8, 2000), Following()]))
  {
    hide ProcessStep, FindAt;
    NobodyIsMet(t, B8, RUNNER);
    GlidesOn(t, Running(A8, 1000));
    assert Advanced([Running(A8, 1000), Following()], RUNNER, B8) == [Running(B8, 2000), Following()];
  }

  lemma FollowerIsStored(g: Grid)
    requires g == Grid(8, 8, Cells())
    ensures Commit(g, FOLLOWER, A7, A8) == Grid(8, 8, Covered().cells)
  {
    hide Commit;
    MovedTo(g, FOLLOWER, A7, A8);
    assert g.cells - {A7} == map[A8 := RUNNER, E1 := 2, H8 := 3];
  }

  lemma FollowerStops(t: State)
    requires Shows(t, BothOut().(now := 1000, motions := [Running(B8, 2000), Following()]))
    ensures Shows(ProcessStep(t, EventOf(Following())), Covered())
  {
    hide ProcessStep, FindAt, Commit;
    var ms := [Running(B8, 2000), Following()];
    assert ms[1..] == [Following()];
    NobodyIsMet(t, A8, FOLLOWER);
    Arrives(t, Following());
    assert Without([Following()], FOLLOWER) == [];
    assert Without(ms, FOLLOWER) == [Running(B8, 2000)];
    FollowerIsStored(t.grid);
  }

  lemma BothStep(s: State)
    requires Sound(s, []) && Shows(s, BothOut())
    ensures Shows(Wait(Standard(), s, 1000), Covered())
  {
    hide ProcessStep, Wait, Sound, Pieces, Cells;
    var t := Later(s, 1000);
    RunnerLeaves(t);
    FollowerStops(ProcessStep(t, EventOf(Running(A8, 1000))));
    WaitForTwo(Standard(), s, 1000, Running(A8, 1000), Following(), Covered());
  }

  function Events(): seq<Event> {
    [MoveRequest(A8, F8), MoveRequest(A7, A8), Waiting(1000)]
  }

  lemma RunShows(s: State)
    requires Sound(s, []) && Shows(s, OpeningScene(Pieces(), Cells()))
    ensures Shows(Run(Standard(), s, Events()), Covered())
  {
    hide Sound, Shows, Wait, RequestMove, Run, Apply, RunnerOut, BothOut, Covered, Pieces, Cells;
    var c, es := Standard(), Events();
    ThreeEvents(c, s, es[0], es[1], es[2]);
    var s1 := Apply(c, s, es[0]);
    Applied(c, s, es[0]);
    RunnerSetsOut(s);
    var s2 := Apply(c, s1, es[1]);
    Applied(c, s1, es[1]);
    FollowerSetsOut(s1);
    Applied(c, s2, es[2]);
    BothStep(s2);
  }

  lemma TheOpening()
    ensures var s := Opening(Pieces(), Cells());
            Initial(s) && Sound(s, []) && Shows(s, OpeningScene(Pieces(), Cells())) && EightByEight(s.grid)
  {
    hide Initial, Sound;
    OpeningIsInitial(Pieces(), Cells(), [A8, A7, E1, H8]);
  }

  lemma CoveredFacts(t: State)
    requires Shows(t, Covered())
    ensures |t.pieces| == 4 && DistinctIds(t) && t.Of(RUNNER).state == Moving && t.grid.CellOf(RUNNER).None?
    ensures t.motions == [Running(B8, 2000)] && t.tally.acceptedCastles == 0 && t.Of(RUNNER).id == 0
  {
    assert forall c :: c in t.grid.cells ==> t.grid.cells[c] != RUNNER;
  }

  /** A rook under way is not among the pieces of the snapshot: another rook has stopped on the cell it left. */
  lemma LivePieceIsNotShown(players: Players) returns (s: State, t: State)
    ensures EightByEight(s.grid) && CastleFreeRun(Standard(), s, Events(), t)
    ensures |t.pieces| == 4 && t.Of(RUNNER).state == Moving && t.motions == [Running(B8, 2000)]
    ensures forall v :: v in Build(t, players).pieces ==> v.id != t.Of(RUNNER).id
  {
    hide Initial, Sound, Run, Shows, Pieces, Cells, Opening, OpeningScene, Events, DistinctIds, PiecesFrom, Covered;
    s := Opening(Pieces(), Cells());
    TheOpening();
    RunShows(s);
    t := Run(Standard(), s, Events());
    CoveredFacts(t);
    ShownExactlyWhenStored(Standard(), s, Events(), t, RUNNER);
  }
}
