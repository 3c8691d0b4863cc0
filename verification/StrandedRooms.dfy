/** Waiting hidden rooms that nobody can join any more: just when a room loses its code to another one. */
module StrandedRooms {
  import opened Wrappers
  import opened Rooms
  import opened RoomRuns

  /** The room's own code leads to it. */
  ghost predicate LedTo(s: State, id: RoomId) {
    && id in s.rooms && s.rooms[id].code.Some?
    && s.rooms[id].code.value in s.hiddenCodes && s.hiddenCodes[s.rooms[id].code.value] == id
  }

  ghost predicate WaitsHidden(s: State, id: RoomId) {
    id in s.rooms && s.rooms[id].status == Waiting && s.rooms[id].visibility == Hidden
  }

  ghost predicate Stranded(s: State, id: RoomId) {
    WaitsHidden(s, id) && !LedTo(s, id)
  }

  /** The room whose code a step takes back or takes out of use: a game rolled back, a room discarded or removed. */
  function CodeReturned(s: State, e: Event): Option<RoomId> {
    match e
    case Rollback(id, guestId) =>
      if id in s.rooms && s.rooms[id].guest.Some? && s.rooms[id].guest.value.userId == guestId then Some(id) else None
    case Discard(id) => if id in s.rooms then Some(id) else None
    case Remove(u, c) => RoomToRemove(s, u, c)
    case _ => None
  }

  /** The step returns the code of another room that carries the same code as room id. */
  ghost predicate CutsOff(s: State, e: Event, id: RoomId) {
    var other := CodeReturned(s, e);
    LedTo(s, id) && other.Some? && other.value in s.rooms && other.value != id && s.rooms[other.value].code == s.rooms[id].code
  }

  // ----- one step

  ghost predicate ExactlyStranded(s: State, e: Event, id: RoomId) {
    Stranded(Step(s, e), id) <==> id in Step(s, e).rooms && (Stranded(s, id) || CutsOff(s, e, id))
  }

  lemma CreateStrands(s: State, user: User, name: string, visibility: string, id: RoomId, draws: seq<string>, r: RoomId)
    requires Agree(s) && FreshRoom(s, id)
    ensures ExactlyStranded(s, Create(user, name, visibility, id, draws), r)
  {
    hide ValidateRoomName, IsStripped, NameTaken, Utf8Length, FirstUnused;
  }

  lemma JoinStrands(s: State, id: RoomId, user: User, r: RoomId)
    requires Agree(s) && id in s.rooms && (s.rooms[id].visibility == Public || LedTo(s, id))
    ensures var t := Join(s, s.rooms[id], user).0;
            Stranded(t, r) <==> r in t.rooms && Stranded(s, r)
  {
    assert RoomSound(id, s.rooms[id]);
  }

  lemma HiddenJoinStrands(s: State, code: string, user: User, r: RoomId)
    requires Agree(s)
    ensures ExactlyStranded(s, JoinHidden(code, user), r)
  {
    if code in s.hiddenCodes && s.hiddenCodes[code] in s.rooms {
      JoinStrands(s, s.hiddenCodes[code], user, r);
    }
  }

  lemma PublicJoinStrands(s: State, id: RoomId, user: User, r: RoomId)
    requires Agree(s)
    ensures ExactlyStranded(s, JoinPublic(id, user), r)
  {
    if id in s.rooms && s.rooms[id].visibility == Public {
      JoinStrands(s, id, user, r);
    }
  }

  lemma DiscardStrands(s: State, id: RoomId, r: RoomId)
    requires Agree(s)
    ensures ExactlyStranded(s, Discard(id), r)
  {
    if r in s.rooms {
      assert RoomSound(r, s.rooms[r]);
    }
  }

  lemma RollbackStrands(s: State, id: RoomId, guestId: UserId, r: RoomId)
    requires Agree(s) && Unfinished(s, id)
    ensures ExactlyStranded(s, Rollback(id, guestId), r)
  {
    if id in s.rooms {
      assert RoomSound(id, s.rooms[id]);
    }
    if r in s.rooms {
      assert RoomSound(r, s.rooms[r]);
    }
  }

  lemma UnwatchingKeepsRooms(s: State, c: ConnectionId)
    ensures var t := StopWatching(s.(subscribers := s.subscribers - {c}), c);
            && t.rooms.Keys == s.rooms.Keys && t.hiddenCodes == s.hiddenCodes && t.playerRoom == s.playerRoom
            && forall r :: r in s.rooms ==> t.rooms[r] == s.rooms[r].(spectators := t.rooms[r].spectators)
  {
  }

  lemma RemovalStrands(s: State, id: RoomId, r: RoomId)
    requires Agree(s) && id in s.rooms
    ensures var t := RemoveRoom(s, id);
            Stranded(t, r) <==> r in t.rooms && (Stranded(s, r) || (LedTo(s, r) && id != r && s.rooms[id].code == s.rooms[r].code))
  {
    if r in s.rooms {
      assert RoomSound(r, s.rooms[r]);
    }
  }

  lemma RemoveStrands(s: State, u: UserId, c: ConnectionId, r: RoomId)
    requires Agree(s)
    ensures ExactlyStranded(s, Remove(u, c), r)
  {
    UnwatchingKeepsRooms(s, c);
    var t := StopWatching(s.(subscribers := s.subscribers - {c}), c);
    UnwatchingKeepsAgreement(s, c);
    hide Agree, RemoveRoom, StopWatching;
    assert RoomToRemove(t, u, c) == RoomToRemove(s, u, c);
    assert Stranded(t, r) <==> Stranded(s, r);
    assert LedTo(t, r) <==> LedTo(s, r);
    if RoomToRemove(t, u, c).Some? {
      RemovalStrands(t, RoomToRemove(t, u, c).value, r);
    }
  }

  /** A step leaves a waiting hidden room stranded exactly if it was stranded or is cut off now, and is still there. */
  lemma StepStrands(s: State, e: Event, id: RoomId)
    requires Agree(s) && InOrder(s, e)
    ensures Stranded(Step(s, e), id) <==> id in Step(s, e).rooms && (Stranded(s, id) || CutsOff(s, e, id))
  {
    match e
    case Create(user, name, visibility, r, draws) => CreateStrands(s, user, name, visibility, r, draws, id);
    case JoinPublic(r, user) => PublicJoinStrands(s, r, user, id);
    case JoinHidden(code, user) => HiddenJoinStrands(s, code, user, id);
    case Discard(r) => DiscardStrands(s, r, id);
    case Rollback(r, guestId) => RollbackStrands(s, r, guestId, id);
    case Remove(u, c) => RemoveStrands(s, u, c, id);
    case Match(first, second, r, name) =>
    case Watch(r, user) =>
    case Leave(c, r) =>
    case Finish(r) =>
    case Subscribe(c) =>
  }

  // ----- runs

  function At(es: seq<Event>, n: nat): State
    requires n <= |es|
  {
    Run(EMPTY, es[..n])
  }

  lemma {:induction false} RunSnoc(s: State, es: seq<Event>, e: Event)
    ensures Run(s, es + [e]) == Step(Run(s, es), e)
    decreases es
  {
    hide Step;
    if es == [] {
      assert es + [e] == [e] && [e][1..] == [];
      assert Run(s, [e]) == Run(Step(s, e), []);
    } else {
      assert (es + [e])[1..] == es[1..] + [e];
      RunSnoc(Step(s, es[0]), es[1..], e);
    }
  }

  lemma {:induction false} PrefixInOrder(s: State, es: seq<Event>, n: nat)
    requires RunsInOrder(s, es) && n < |es|
    ensures RunsInOrder(s, es[..n]) && InOrder(Run(s, es[..n]), es[n])
    decreases es
  {
    hide Step, InOrder;
    if n > 0 {
      PrefixInOrder(Step(s, es[0]), es[1..], n - 1);
      assert es[..n][1..] == es[1..][..n - 1] && es[1..][n - 1] == es[n] && es[..n][0] == es[0];
    } else {
      assert es[..0] == [];
    }
  }

  lemma NextState(es: seq<Event>, n: nat)
    requires RunsInOrder(EMPTY, es) && n < |es|
    ensures Agree(At(es, n)) && InOrder(At(es, n), es[n]) && At(es, n + 1) == Step(At(es, n), es[n])
  {
    hide Step, InOrder, Agree;
    PrefixInOrder(EMPTY, es, n);
    EmptyAgrees();
    RunsKeepAgreement(EMPTY, es[..n]);
    assert es[..n + 1] == es[..n] + [es[n]];
    RunSnoc(EMPTY, es[..n], es[n]);
  }

  lemma EmptyAgrees()
    ensures Agree(EMPTY)
  {
  }

  /** At step k the room was cut off, and it has been there ever since. */
  ghost predicate CutOffAt(es: seq<Event>, k: nat, n: nat, id: RoomId)
    requires k < n <= |es|
  {
    CutsOff(At(es, k), es[k], id) && forall j :: k < j <= n ==> id in At(es, j).rooms
  }

  lemma {:induction false} StrandedSoFar(es: seq<Event>, n: nat, id: RoomId)
    requires RunsInOrder(EMPTY, es) && n <= |es|
    ensures Stranded(At(es, n), id) <==> exists k :: 0 <= k < n && CutOffAt(es, k, n, id)
  {
    hide Step, InOrder, Agree, CutsOff;
    if n == 0 {
      assert At(es, 0) == EMPTY;
    } else {
      StrandedSoFar(es, n - 1, id);
      NextState(es, n - 1);
      StepStrands(At(es, n - 1), es[n - 1], id);
      if Stranded(At(es, n), id) {
        if CutsOff(At(es, n - 1), es[n - 1], id) {
          assert CutOffAt(es, n - 1, n, id);
        } else {
          var k :| 0 <= k < n - 1 && CutOffAt(es, k, n - 1, id);
          assert CutOffAt(es, k, n, id);
        }
      }
      if k :| 0 <= k < n && CutOffAt(es, k, n, id) {
        assert id in At(es, n).rooms;
        assert k < n - 1 ==> CutOffAt(es, k, n - 1, id);
      }
    }
  }

  /**
   * After any run in the router's order: a waiting hidden room cannot be joined by its code exactly if, while the room was there,
   * another room with the same code was rolled back, discarded or removed.
   */
  lemma StrandedExactly(es: seq<Event>, id: RoomId)
    requires RunsInOrder(EMPTY, es)
    ensures Stranded(Run(EMPTY, es), id) <==> exists k :: 0 <= k < |es| && CutOffAt(es, k, |es|, id)
  {
    assert es[..|es|] == es;
    StrandedSoFar(es, |es|, id);
  }

  ghost predicate Joinable(s: State) {
    forall id :: id in s.rooms ==> !Stranded(s, id)
  }

  /** All along a run every waiting hidden room can be joined exactly if no step cuts a room off. */
  lemma JoinableAllAlong(es: seq<Event>)
    requires RunsInOrder(EMPTY, es)
    ensures (forall n :: 0 <= n <= |es| ==> Joinable(At(es, n))) <==> (forall k, id :: 0 <= k < |es| ==> !CutsOff(At(es, k), es[k], id))
  {
    hide At, Step, InOrder, Agree, CutsOff, LedTo, RunsInOrder;
    if forall n :: 0 <= n <= |es| ==> Joinable(At(es, n)) {
      forall k, id | 0 <= k < |es| ensures !CutsOff(At(es, k), es[k], id) {
        assert Joinable(At(es, k + 1));
        NextState(es, k);
        StepStrands(At(es, k), es[k], id);
        if CutsOff(At(es, k), es[k], id) {
          CutRoomRemains(At(es, k), es[k], id);
        }
      }
    }
    if forall k, id :: 0 <= k < |es| ==> !CutsOff(At(es, k), es[k], id) {
      forall n, id | 0 <= n <= |es| && id in At(es, n).rooms ensures !Stranded(At(es, n), id) {
        StrandedSoFar(es, n, id);
      }
    }
  }

  lemma CutRoomRemains(s: State, e: Event, id: RoomId)
    requires CutsOff(s, e, id)
    ensures id in Step(s, e).rooms
  {
    if e.Remove? {
      UnwatchingKeepsRooms(s, e.connection);
    }
  }

  // ----- such runs

  const HOST := User(1, "ann", 11, 1200)
  const GUEST := User(2, "ben", 12, 1200)
  const OTHER := User(3, "cem", 13, 1200)
  const CODE := "AAAAAA"

  /** A hidden room is joined, which frees its code; another room draws it; the first game cannot be started and is rolled back. */
  function Reuse(): seq<Event> {
    [Create(HOST, "one", "hidden", 1, [CODE]), JoinHidden(CODE, GUEST), Create(OTHER, "two", "hidden", 2, [CODE]), Rollback(1, 2)]
  }

  function First(): Room {
    Room(1, "one", Hidden, HOST, Some(CODE), None, None, None, Waiting, map[])
  }

  function FirstBegun(): Room {
    First().(guest := Some(GUEST), white := Some(HOST), black := Some(GUEST), status := Active)
  }

  function Second(): Room {
    Room(2, "two", Hidden, OTHER, Some(CODE), None, None, None, Waiting, map[])
  }

  function Opened(): State {
    State(map[1 := First()], map[CODE := 1], map[1 := 1], map[], {})
  }

  function Begun(): State {
    State(map[1 := FirstBegun()], map[], map[1 := 1, 2 := 1], map[], {})
  }

  function Reused(): State {
    State(map[1 := FirstBegun(), 2 := Second()], map[CODE := 2], map[1 := 1, 2 := 1, 3 := 2], map[], {})
  }

  function BackAgain(): State {
    State(map[1 := First(), 2 := Second()], map[CODE := 1], map[1 := 1, 3 := 2], map[], {})
  }

  lemma PlainName(name: string)
    requires |name| == 3 && forall i :: 0 <= i < 3 ==> 'a' <= name[i] <= 'z'
    ensures ValidateRoomName(name) == Ok(name)
  {
    assert StripLeft(name) == name && StripRight(name) == name;
    assert Utf8Length(name[3..]) == 0 && Utf8Length(name[2..]) == 1 && Utf8Length(name[1..]) == 2;
  }

  lemma FirstIsCreated()
    ensures Step(EMPTY, Reuse()[0]) == Opened()
  {
    PlainName("one");
    hide ValidateRoomName;
    assert FirstUnused(map[], [CODE]) == Some(CODE);
  }

  lemma SecondIsCreated()
    ensures Step(Begun(), Reuse()[2]) == Reused()
  {
    PlainName("two");
    hide ValidateRoomName;
    assert FirstUnused(map[], [CODE]) == Some(CODE);
    assert !NameTaken(Begun(), "two") by {
      assert NormalizeRoomName("one")[0] == 'o' && NormalizeRoomName("two")[0] == 't';
    }
  }

  lemma JoinedAndRolledBack()
    ensures Step(Opened(), Reuse()[1]) == Begun() && Step(Reused(), Reuse()[3]) == BackAgain()
  {
  }

  lemma OneMore(s: State, e: Event, es: seq<Event>)
    requires InOrder(s, e) && RunsInOrder(Step(s, e), es)
    ensures RunsInOrder(s, [e] + es) && Run(s, [e] + es) == Run(Step(s, e), es)
  {
    hide Step, InOrder;
    assert ([e] + es)[0] == e && ([e] + es)[1..] == es;
  }

  lemma InOrderThroughout()
    ensures InOrder(EMPTY, Reuse()[0]) && InOrder(Opened(), Reuse()[1]) && InOrder(Begun(), Reuse()[2]) && InOrder(Reused(), Reuse()[3])
    ensures InOrder(BackAgain(), Remove(3, 13))
  {
  }

  lemma SecondHostLeaves()
    ensures Step(BackAgain(), Remove(3, 13)) == State(map[1 := First()], map[], map[1 := 1], map[], {})
  {
    var s := BackAgain();
    assert RoomToRemove(s, 3, 13) == Some(2);
    assert WithoutPlayers(s.playerRoom, Second()) == map[1 := 1];
    assert s.rooms - {2} == map[1 := First()];
  }

  lemma ReuseRuns(last: seq<Event>)
    requires RunsInOrder(BackAgain(), last)
    ensures RunsInOrder(EMPTY, Reuse() + last) && Run(EMPTY, Reuse() + last) == Run(BackAgain(), last)
  {
    FirstIsCreated();
    JoinedAndRolledBack();
    SecondIsCreated();
    InOrderThroughout();
    FourEvents(last);
    var es := Reuse();
    hide Step, InOrder, Run, RunsInOrder, Opened, Begun, Reused, BackAgain, Reuse;
    OneMore(Reused(), es[3], last);
    OneMore(Begun(), es[2], [es[3]] + last);
    OneMore(Opened(), es[1], [es[2]] + ([es[3]] + last));
    OneMore(EMPTY, es[0], [es[1]] + ([es[2]] + ([es[3]] + last)));
  }

  lemma FourEvents(last: seq<Event>)
    ensures var es := Reuse();
            |es| == 4 && es + last == [es[0]] + ([es[1]] + ([es[2]] + ([es[3]] + last)))
  {
  }

  lemma BothAreStranded()
    ensures Stranded(BackAgain(), 2) && LedTo(BackAgain(), 1)
    ensures Stranded(State(map[1 := First()], map[], map[1 := 1], map[], {}), 1)
  {
  }

  /**
   * A run in the router's order after which the second room cannot be joined; and when its host then leaves,
   * the first room, so far joinable, cannot be joined either.
   */
  lemma ReusedCodeStrandsBoth()
    ensures RunsInOrder(EMPTY, Reuse()) && Stranded(Run(EMPTY, Reuse()), 2) && LedTo(Run(EMPTY, Reuse()), 1)
    ensures var leaves := Reuse() + [Remove(3, 13)];
            RunsInOrder(EMPTY, leaves) && Stranded(Run(EMPTY, leaves), 1) && 2 !in Run(EMPTY, leaves).rooms
  {
    InOrderThroughout();
    SecondHostLeaves();
    BothAreStranded();
    hide Step, InOrder, Opened, Begun, Reused, BackAgain, Reuse, Stranded, LedTo;
    assert Reuse() + [] == Reuse();
    ReuseRuns([]);
    OneMore(BackAgain(), Remove(3, 13), []);
    assert [Remove(3, 13)] + [] == [Remove(3, 13)];
    ReuseRuns([Remove(3, 13)]);
  }
}
