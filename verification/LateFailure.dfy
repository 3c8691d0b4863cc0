/** A run, with its calls in order, in which a start fails after registering its match: two registered matches get one shard. */
module LateFailure {
  import opened Wrappers
  import opened ChessTypes
  import R = Rooms
  import opened Matches
  import opened MatchRuns
  import A = Allocator
  import P = Protocol

  ghost predicate RunsInOrder(configured: seq<A.Shard>, limits: A.Limits, s: State, es: seq<Event>, t: State)
    decreases es
  {
    if es == [] then t == s
    else WellFormed(s) && InOrder(configured, s, es[0]) && RunsInOrder(configured, limits, Step(limits, s, es[0]), es[1..], t)
  }

  lemma OneMore(configured: seq<A.Shard>, limits: A.Limits, s: State, e: Event, es: seq<Event>, t: State)
    requires WellFormed(s) && InOrder(configured, s, e) && RunsInOrder(configured, limits, Step(limits, s, e), es, t)
    ensures RunsInOrder(configured, limits, s, [e] + es, t)
  {
    hide Step, InOrder;
    assert ([e] + es)[0] == e && ([e] + es)[1..] == es;
  }

  const NO_SPAWNING := A.Limits(false, 0)

  ghost function Pool(available: seq<A.Shard>, held: multiset<A.Shard>, returning: multiset<A.Shard>): A.State {
    A.Initial(available).(held := held, returning := returning)
  }

  function Fresh(room: R.RoomId): Match {
    NewMatch(room, 7)
  }

  function Going(room: R.RoomId): Match {
    Fresh(room).(revision := 1)
  }

  function Taken(room: R.RoomId): Match {
    Going(room).(releases := 1)
  }

  /** A bridge answers, sending the announcement fails, and the start gives the shard of the registered match back. */
  ghost function FirstOpening(): State {
    State(Pool([], multiset{7}, multiset{}), [Fresh(1)], [Opening], map[], [])
  }

  ghost function FirstGoing(start: Start): State {
    State(Pool([], multiset{7}, multiset{}), [Going(1)], [start], map[1 := 0], [])
  }

  ghost function FirstReturned(): State {
    State(Pool([], multiset{}, multiset{7}), [Taken(1)], [Failed(true)], map[1 := 0], [])
  }

  ghost function FreeAgain(): State {
    FirstReturned().(pool := Pool([7], multiset{}, multiset{}))
  }

  ghost function SecondOpening(): State {
    State(Pool([], multiset{7}, multiset{}), [Taken(1), Fresh(2)], [Failed(true), Opening], map[1 := 0], [])
  }

  ghost function BothGoing(): State {
    State(Pool([], multiset{7}, multiset{}), [Taken(1), Going(2)], [Failed(true), Announcing], map[1 := 0, 2 := 1], [])
  }

  function Events(): seq<Event> {
    [StartTakesFreeShard(1), BridgeStarts(0, P.EMPTY_SNAPSHOT), AnnouncementFails(0), StartGivesShardBack(0),
     Event.Pool(A.StaticPutBack(7)), StartTakesFreeShard(2), BridgeStarts(1, P.EMPTY_SNAPSHOT)]
  }

  lemma FirstStarts()
    ensures Step(NO_SPAWNING, Initial([7]), StartTakesFreeShard(1)) == FirstOpening()
    ensures Step(NO_SPAWNING, FirstOpening(), BridgeStarts(0, P.EMPTY_SNAPSHOT)) == FirstGoing(Announcing)
  {
    assert [7][..0] == [];
  }

  lemma FirstFails()
    ensures Step(NO_SPAWNING, FirstGoing(Announcing), AnnouncementFails(0)) == FirstGoing(Failing(true))
    ensures Step(NO_SPAWNING, FirstGoing(Failing(true)), StartGivesShardBack(0)) == FirstReturned()
    ensures Step(NO_SPAWNING, FirstReturned(), Event.Pool(A.StaticPutBack(7))) == FreeAgain()
  {
  }

  lemma SecondStarts()
    ensures Step(NO_SPAWNING, FreeAgain(), StartTakesFreeShard(2)) == SecondOpening()
    ensures Step(NO_SPAWNING, SecondOpening(), BridgeStarts(1, P.EMPTY_SNAPSHOT)) == BothGoing()
  {
    assert [7][..0] == [];
  }

  lemma FirstInOrder()
    ensures WellFormed(Initial([7])) && InOrder([7], Initial([7]), StartTakesFreeShard(1))
    ensures WellFormed(FirstOpening()) && InOrder([7], FirstOpening(), BridgeStarts(0, P.EMPTY_SNAPSHOT))
    ensures WellFormed(FirstGoing(Announcing)) && InOrder([7], FirstGoing(Announcing), AnnouncementFails(0))
    ensures WellFormed(FirstGoing(Failing(true))) && InOrder([7], FirstGoing(Failing(true)), StartGivesShardBack(0))
  {
  }

  lemma SecondInOrder()
    ensures WellFormed(FirstReturned()) && InOrder([7], FirstReturned(), Event.Pool(A.StaticPutBack(7)))
    ensures WellFormed(FreeAgain()) && InOrder([7], FreeAgain(), StartTakesFreeShard(2))
    ensures WellFormed(SecondOpening()) && InOrder([7], SecondOpening(), BridgeStarts(1, P.EMPTY_SNAPSHOT))
  {
  }

  lemma AllRuns()
    ensures RunsInOrder([7], NO_SPAWNING, Initial([7]), Events(), BothGoing())
  {
    FirstStarts();
    FirstFails();
    SecondStarts();
    FirstInOrder();
    SecondInOrder();
    TheEvents();
    hide Step, InOrder, WellFormed, Events, RunsInOrder, FirstOpening, FirstGoing, FirstReturned, FreeAgain, SecondOpening, BothGoing, Initial;
    var es, t := Events(), BothGoing();
    Nothing(t);
    OneMore([7], NO_SPAWNING, SecondOpening(), es[6], [], t);
    OneMore([7], NO_SPAWNING, FreeAgain(), es[5], [es[6]] + [], t);
    OneMore([7], NO_SPAWNING, FirstReturned(), es[4], [es[5]] + ([es[6]] + []), t);
    OneMore([7], NO_SPAWNING, FirstGoing(Failing(true)), es[3], [es[4]] + ([es[5]] + ([es[6]] + [])), t);
    OneMore([7], NO_SPAWNING, FirstGoing(Announcing), es[2], [es[3]] + ([es[4]] + ([es[5]] + ([es[6]] + []))), t);
    OneMore([7], NO_SPAWNING, FirstOpening(), es[1], [es[2]] + ([es[3]] + ([es[4]] + ([es[5]] + ([es[6]] + [])))), t);
    OneMore([7], NO_SPAWNING, Initial([7]), es[0], [es[1]] + ([es[2]] + ([es[3]] + ([es[4]] + ([es[5]] + ([es[6]] + []))))), t);
  }

  lemma BothGoingFacts()
    ensures var t := BothGoing();
            && t.matches == map[1 := 0, 2 := 1] && WellFormed(t) && IsRegistered(t, 0) && IsRegistered(t, 1)
            && t.all[0].shard == t.all[1].shard && t.all[0].releases == 1 && t.all[1].releases == 0
  {
  }

  /** In the end rooms 1 and 2 both have a registered match, on the one shard there is. */
  lemma TwoMatchesOnOneShard()
    ensures RunsInOrder([7], NO_SPAWNING, Initial([7]), Events(), BothGoing())
    ensures var t := BothGoing();
            && t.matches == map[1 := 0, 2 := 1] && WellFormed(t) && IsRegistered(t, 0) && IsRegistered(t, 1)
            && t.all[0].shard == t.all[1].shard && t.all[0].releases == 1 && t.all[1].releases == 0
  {
    hide *;
    AllRuns();
    BothGoingFacts();
  }

  lemma Nothing(t: State)
    ensures RunsInOrder([7], NO_SPAWNING, t, [], t)
  {
  }

  lemma TheEvents()
    ensures var es := Events();
            && |es| == 7 && es[0] == StartTakesFreeShard(1) && es[1] == BridgeStarts(0, P.EMPTY_SNAPSHOT) && es[2] == AnnouncementFails(0)
            && es[3] == StartGivesShardBack(0) && es[4] == Event.Pool(A.StaticPutBack(7)) && es[5] == StartTakesFreeShard(2)
            && es[6] == BridgeStarts(1, P.EMPTY_SNAPSHOT)
            && es == [es[0]] + ([es[1]] + ([es[2]] + ([es[3]] + ([es[4]] + ([es[5]] + ([es[6]] + []))))))
  {
  }
}
