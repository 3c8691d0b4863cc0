/** The index maps of the rooms agree with the rooms on every run that keeps the router's call order. */
module RoomRuns {
  import opened Wrappers
  import opened Rooms

  // ----- agreement

  ghost predicate RoomSound(id: RoomId, room: Room) {
    && room.roomId == id
    && (room.visibility == Hidden <==> room.code.Some?)
    && (room.guest.Some? ==> room.guest.value.userId != room.host.userId)
    && (room.status == Waiting ==> room.guest.None? && room.white.None? && room.black.None?)
    && (room.status == Active ==> room.guest.Some? && room.white == Some(room.host) && room.black == room.guest)
  }

  ghost predicate RoomsSound(s: State) {
    forall id :: id in s.rooms ==> RoomSound(id, s.rooms[id])
  }

  /** User u is host or guest of the stored, unfinished room r. */
  ghost predicate PlaysIn(s: State, u: UserId, r: RoomId) {
    r in s.rooms && s.rooms[r].status != Finished && s.rooms[r].Has(u)
  }

  ghost predicate PlayersAgree(s: State) {
    forall u, r :: (u in s.playerRoom && s.playerRoom[u] == r) <==> PlaysIn(s, u, r)
  }

  ghost predicate CodesAgree(s: State) {
    forall c :: c in s.hiddenCodes ==>
                  && s.hiddenCodes[c] in s.rooms
                  && var room := s.rooms[s.hiddenCodes[c]]; room.status == Waiting && room.visibility == Hidden && room.code == Some(c)
  }

  ghost predicate Watches(s: State, c: ConnectionId, r: RoomId) {
    r in s.rooms && c in s.rooms[r].spectators
  }

  ghost predicate SpectatorsAgree(s: State) {
    && (forall c, r :: Watches(s, c, r) ==> c in s.spectatorRoom && s.spectatorRoom[c] == r)
    && (forall c :: c in s.spectatorRoom && s.spectatorRoom[c] in s.rooms ==> Watches(s, c, s.spectatorRoom[c]))
  }

  ghost predicate Agree(s: State) {
    RoomsSound(s) && PlayersAgree(s) && CodesAgree(s) && SpectatorsAgree(s)
  }

  // ----- runs

  datatype Event =
    | Create(user: User, name: string, visibility: string, id: RoomId, draws: seq<string>)
    | JoinPublic(id: RoomId, user: User)
    | JoinHidden(code: string, user: User)
    | Match(first: User, second: User, id: RoomId, name: string)
    | Discard(id: RoomId)
    | Rollback(id: RoomId, guestId: UserId)
    | Watch(id: RoomId, user: User)
    | Leave(connection: ConnectionId, id: RoomId)
    | Finish(id: RoomId)
    | Subscribe(connection: ConnectionId)
    | Remove(userId: UserId, connection: ConnectionId)

  function Step(s: State, e: Event): State {
    match e
    case Create(user, name, visibility, id, draws) => CreateRoom(s, user, name, visibility, id, draws).0
    case JoinPublic(id, user) => JoinPublicRoom(s, id, user).0
    case JoinHidden(code, user) => JoinHiddenRoom(s, code, user).0
    case Match(first, second, id, name) => MatchPlayers(s, first, second, id, name).0
    case Discard(id) => DiscardRoom(s, id)
    case Rollback(id, guestId) => RollbackJoin(s, id, guestId)
    case Watch(id, user) => WatchRoom(s, id, user).0
    case Leave(c, id) => LeaveSpectator(s, c, id).0
    case Finish(id) => FinishRoom(s, id)
    case Subscribe(c) => SubscribeLobby(s, c).0
    case Remove(u, c) => RemoveConnection(s, u, c)
  }

  predicate Unfinished(s: State, id: RoomId) {
    id in s.rooms ==> s.rooms[id].status != Finished
  }

  predicate NotWaiting(s: State, id: RoomId) {
    id in s.rooms ==> s.rooms[id].status != Waiting
  }

  /** No room, stored or gone, has the number. */
  predicate FreshRoom(s: State, id: RoomId) {
    id !in s.rooms && forall c :: c in s.spectatorRoom ==> s.spectatorRoom[c] != id
  }

  /** Numbers are fresh, a room is discarded or rolled back only before
      its game is finished, and only a game that has begun is finished. */
  predicate InOrder(s: State, e: Event) {
    match e
    case Create(user, name, visibility, id, draws) => FreshRoom(s, id)
    case Match(first, second, id, name) => FreshRoom(s, id) && first.userId != second.userId
    case Discard(id) => Unfinished(s, id)
    case Rollback(id, guestId) => Unfinished(s, id)
    case Finish(id) => NotWaiting(s, id)
    case _ => true
  }

  function Run(s: State, es: seq<Event>): State
    decreases es
  {
    if es == [] then s else Run(Step(s, es[0]), es[1..])
  }

  predicate RunsInOrder(s: State, es: seq<Event>)
    decreases es
  {
    es == [] || (InOrder(s, es[0]) && RunsInOrder(Step(s, es[0]), es[1..]))
  }

  // ----- each step keeps the agreement

  /** Users without a room enter one room. */
  lemma PlayersEnter(s: State, t: State, us: set<UserId>, id: RoomId)
    requires PlayersAgree(s) && forall u :: u in us ==> u !in s.playerRoom
    requires forall u :: u in t.playerRoom <==> u in s.playerRoom || u in us
    requires forall u :: u in t.playerRoom ==> t.playerRoom[u] == if u in us then id else s.playerRoom[u]
    requires forall u, r :: PlaysIn(t, u, r) <==> PlaysIn(s, u, r) || (u in us && r == id)
    ensures PlayersAgree(t)
  {
    forall u, r ensures (u in t.playerRoom && t.playerRoom[u] == r) <==> PlaysIn(t, u, r) {
      assert PlaysIn(s, u, r) <==> u in s.playerRoom && s.playerRoom[u] == r;
    }
  }

  lemma CreateKeepsAgreement(s: State, user: User, name: string, visibility: string, id: RoomId, draws: seq<string>)
    requires Agree(s) && FreshRoom(s, id)
    ensures Agree(CreateRoom(s, user, name, visibility, id, draws).0)
  {
    hide ValidateRoomName, IsStripped, NameTaken, Utf8Length;
    var t := CreateRoom(s, user, name, visibility, id, draws).0;
    if t != s {
      PlayersEnter(s, t, {user.userId}, id);
      assert forall c, r :: Watches(t, c, r) <==> Watches(s, c, r);
    }
  }

  lemma JoinKeepsAgreement(s: State, id: RoomId, user: User)
    requires Agree(s) && id in s.rooms
    ensures Agree(Join(s, s.rooms[id], user).0)
  {
    var room, t := s.rooms[id], Join(s, s.rooms[id], user).0;
    assert RoomSound(id, room);
    if t != s {
      PlayersEnter(s, t, {user.userId}, id);
      assert forall c, r :: Watches(t, c, r) <==> Watches(s, c, r);
    }
  }

  lemma MatchKeepsAgreement(s: State, first: User, second: User, id: RoomId, name: string)
    requires Agree(s) && FreshRoom(s, id) && first.userId != second.userId
    ensures Agree(MatchPlayers(s, first, second, id, name).0)
  {
    var t := MatchPlayers(s, first, second, id, name).0;
    if t != s {
      PlayersEnter(s, t, {first.userId, second.userId}, id);
      assert forall c, r :: Watches(t, c, r) <==> Watches(s, c, r);
    }
  }

  /** The players of a room leave the index, and only they. */
  lemma PlayersLeave(s: State, t: State, id: RoomId)
    requires PlayersAgree(s) && id in s.rooms && s.rooms[id].status != Finished
    requires t.playerRoom == WithoutPlayers(s.playerRoom, s.rooms[id])
    requires forall u, r :: PlaysIn(t, u, r) <==> r != id && PlaysIn(s, u, r)
    ensures PlayersAgree(t)
  {
    var room := s.rooms[id];
    forall u, r ensures (u in t.playerRoom && t.playerRoom[u] == r) <==> PlaysIn(t, u, r) {
      assert room.Has(u) <==> PlaysIn(s, u, id);
      assert u in t.playerRoom <==> u in s.playerRoom && !room.Has(u);
      assert PlaysIn(s, u, r) <==> u in s.playerRoom && s.playerRoom[u] == r;
    }
  }

  lemma DiscardKeepsAgreement(s: State, id: RoomId)
    requires Agree(s) && Unfinished(s, id)
    ensures Agree(DiscardRoom(s, id))
  {
    if id in s.rooms {
      var t := DiscardRoom(s, id);
      PlayersLeave(s, t, id);
      assert forall c, r :: Watches(t, c, r) <==> r != id && Watches(s, c, r);
      CodesStay(s, t, id);
    }
  }

  /** Codes of other rooms are untouched when a room and its code go. */
  lemma CodesStay(s: State, t: State, id: RoomId)
    requires RoomsSound(s) && CodesAgree(s) && id in s.rooms
    requires t.hiddenCodes == WithoutCode(s.hiddenCodes, s.rooms[id].code)
    requires forall r :: r in s.rooms && r != id ==> r in t.rooms && t.rooms[r] == s.rooms[r]
    ensures CodesAgree(t)
  {
    assert RoomSound(id, s.rooms[id]);
  }

  lemma RollbackKeepsAgreement(s: State, id: RoomId, guestId: UserId)
    requires Agree(s) && Unfinished(s, id)
    ensures Agree(RollbackJoin(s, id, guestId))
  {
    var t := RollbackJoin(s, id, guestId);
    if t != s {
      var room := s.rooms[id];
      assert RoomSound(id, room);
      assert room.status == Active;
      forall u, r ensures (u in t.playerRoom && t.playerRoom[u] == r) <==> PlaysIn(t, u, r) {
        assert PlaysIn(s, u, r) <==> u in s.playerRoom && s.playerRoom[u] == r;
        assert PlaysIn(s, guestId, id);
      }
      assert forall c, r :: Watches(t, c, r) <==> Watches(s, c, r);
    }
  }

  lemma WatchKeepsAgreement(s: State, id: RoomId, user: User)
    requires Agree(s)
    ensures Agree(WatchRoom(s, id, user).0)
  {
    var t := WatchRoom(s, id, user).0;
    assert forall u, r :: PlaysIn(t, u, r) <==> PlaysIn(s, u, r);
    assert forall c, r :: Watches(t, c, r) <==> Watches(s, c, r) || (t != s && c == user.connection && r == id);
  }

  lemma UnwatchKeepsAgreement(s: State, c: ConnectionId)
    requires Agree(s) && c in s.spectatorRoom
    ensures Agree(s.(rooms := WithoutSpectator(s.rooms, s.spectatorRoom[c], c), spectatorRoom := s.spectatorRoom - {c}))
  {
    var t := s.(rooms := WithoutSpectator(s.rooms, s.spectatorRoom[c], c), spectatorRoom := s.spectatorRoom - {c});
    assert forall u, r :: PlaysIn(t, u, r) <==> PlaysIn(s, u, r);
    forall d, r ensures Watches(t, d, r) <==> Watches(s, d, r) && d != c {
      assert Watches(s, c, r) ==> r == s.spectatorRoom[c];
    }
  }

  lemma FinishKeepsAgreement(s: State, id: RoomId)
    requires Agree(s) && NotWaiting(s, id)
    ensures Agree(FinishRoom(s, id))
  {
    var t := FinishRoom(s, id);
    if t != s {
      PlayersLeave(s, t, id);
      assert forall c, r :: Watches(t, c, r) <==> Watches(s, c, r);
    }
  }

  lemma UnwatchingKeepsAgreement(s: State, c: ConnectionId)
    requires Agree(s)
    ensures Agree(StopWatching(s.(subscribers := s.subscribers - {c}), c))
  {
    var s1 := s.(subscribers := s.subscribers - {c});
    SubscribersDoNotMatter(s, s1);
    if c in s.spectatorRoom {
      UnwatchKeepsAgreement(s1, c);
    }
  }

  lemma RemoveKeepsAgreement(s: State, u: UserId, c: ConnectionId)
    requires Agree(s)
    ensures Agree(RemoveConnection(s, u, c))
  {
    var s2 := StopWatching(s.(subscribers := s.subscribers - {c}), c);
    UnwatchingKeepsAgreement(s, c);
    if RoomToRemove(s2, u, c).Some? {
      assert PlaysIn(s2, u, s2.playerRoom[u]);
      RoomRemovalKeepsAgreement(s2, RoomToRemove(s2, u, c).value);
    }
  }

  lemma RoomRemovalKeepsAgreement(s: State, id: RoomId)
    requires Agree(s) && id in s.rooms && s.rooms[id].status != Finished
    ensures Agree(RemoveRoom(s, id))
  {
    var d, t := DiscardRoom(s, id), RemoveRoom(s, id);
    DiscardKeepsAgreement(s, id);
    assert forall v, r :: PlaysIn(t, v, r) <==> PlaysIn(d, v, r);
    assert forall c, r :: Watches(t, c, r) <==> r != id && Watches(s, c, r);
    forall c, r | Watches(t, c, r) ensures c !in s.rooms[id].spectators {
      assert Watches(s, c, r);
      assert c in s.rooms[id].spectators ==> Watches(s, c, id);
    }
  }

  lemma StepKeepsAgreement(s: State, e: Event)
    requires Agree(s) && InOrder(s, e)
    ensures Agree(Step(s, e))
  {
    hide Agree;
    match e
    case Create(user, name, visibility, id, draws) => CreateKeepsAgreement(s, user, name, visibility, id, draws);
    case JoinPublic(id, user) => if id in s.rooms { JoinKeepsAgreement(s, id, user); }
    case JoinHidden(code, user) =>
      if code in s.hiddenCodes && s.hiddenCodes[code] in s.rooms {
        JoinKeepsAgreement(s, s.hiddenCodes[code], user);
      }
    case Match(first, second, id, name) => MatchKeepsAgreement(s, first, second, id, name);
    case Discard(id) => DiscardKeepsAgreement(s, id);
    case Rollback(id, guestId) => RollbackKeepsAgreement(s, id, guestId);
    case Watch(id, user) => WatchKeepsAgreement(s, id, user);
    case Leave(c, id) => if c in s.spectatorRoom && s.spectatorRoom[c] == id { UnwatchKeepsAgreement(s, c); }
    case Finish(id) => FinishKeepsAgreement(s, id);
    case Subscribe(c) => SubscribersDoNotMatter(s, SubscribeLobby(s, c).0);
    case Remove(u, c) => RemoveKeepsAgreement(s, u, c);
  }

  lemma SubscribersDoNotMatter(s: State, t: State)
    requires Agree(s) && t == s.(subscribers := t.subscribers)
    ensures Agree(t)
  {
    assert forall v, r :: PlaysIn(t, v, r) <==> PlaysIn(s, v, r);
    assert forall d, r :: Watches(t, d, r) <==> Watches(s, d, r);
  }

  /** The indexes agree with the rooms after every run in the router's order. */
  lemma {:induction false} RunsKeepAgreement(s: State, es: seq<Event>)
    requires Agree(s) && RunsInOrder(s, es)
    ensures Agree(Run(s, es))
    decreases es
  {
    if es != [] {
      StepKeepsAgreement(s, es[0]);
      RunsKeepAgreement(Step(s, es[0]), es[1..]);
    }
  }

  /**
   * From the start: a user's room is the stored unfinished room they host or joined; a code leads to a stored, waiting,
   * hidden room that carries it; and a connection watches at most one stored room, the one its index names.
   */
  lemma IndexesAgree(es: seq<Event>, u: UserId, r: RoomId, q: RoomId, code: string, c: ConnectionId)
    requires RunsInOrder(EMPTY, es)
    ensures var t := Run(EMPTY, es);
            && ((u in t.playerRoom && t.playerRoom[u] == r) <==> PlaysIn(t, u, r))
            && (code in t.hiddenCodes ==>
                  && t.hiddenCodes[code] in t.rooms && t.rooms[t.hiddenCodes[code]].status == Waiting
                  && t.rooms[t.hiddenCodes[code]].visibility == Hidden && t.rooms[t.hiddenCodes[code]].code == Some(code))
            && (PlaysIn(t, u, r) && PlaysIn(t, u, q) ==> r == q)
            && (Watches(t, c, r) && Watches(t, c, q) ==> r == q)
            && (r in t.rooms ==> (Watches(t, c, r) <==> c in t.spectatorRoom && t.spectatorRoom[c] == r))
  {
    RunsKeepAgreement(EMPTY, es);
  }

  // ----- out of order

  /** Discarding a finished room keeps the agreement exactly when its players are in no other room by now. */
  lemma DiscardingAFinishedRoom(s: State, id: RoomId)
    requires Agree(s) && id in s.rooms && s.rooms[id].status == Finished
    ensures Agree(DiscardRoom(s, id)) <==> (forall u :: s.rooms[id].Has(u) ==> u !in s.playerRoom)
  {
    var t, room := DiscardRoom(s, id), s.rooms[id];
    assert forall u, r :: PlaysIn(t, u, r) <==> PlaysIn(s, u, r);
    if u :| room.Has(u) && u in s.playerRoom {
      assert PlaysIn(t, u, s.playerRoom[u]) && u !in t.playerRoom;
    } else {
      assert t.playerRoom == s.playerRoom;
      assert forall c, r :: Watches(t, c, r) <==> r != id && Watches(s, c, r);
      CodesStay(s, t, id);
    }
  }

  /** Rolling back a finished room that has this guest always breaks it: the host has no index entry. */
  lemma RollingBackAFinishedRoom(s: State, id: RoomId, guestId: UserId)
    requires Agree(s) && id in s.rooms && s.rooms[id].status == Finished
    ensures Agree(RollbackJoin(s, id, guestId)) <==> !(s.rooms[id].guest.Some? && s.rooms[id].guest.value.userId == guestId)
  {
    var t, host := RollbackJoin(s, id, guestId), s.rooms[id].host.userId;
    if t != s {
      assert PlaysIn(t, host, id);
      assert !PlaysIn(s, host, id);
    }
  }

  /** Finishing a waiting room breaks it exactly when a code still leads to the room. */
  lemma FinishingAWaitingRoom(s: State, id: RoomId)
    requires Agree(s) && id in s.rooms && s.rooms[id].status == Waiting
    ensures Agree(FinishRoom(s, id)) <==> (forall c :: c in s.hiddenCodes ==> s.hiddenCodes[c] != id)
  {
    var t := FinishRoom(s, id);
    assert forall c, r :: Watches(t, c, r) <==> Watches(s, c, r);
    PlayersLeave(s, t, id);
  }
}
