/** What the operations on rooms answer and to whom they speak, case by case. */
module RoomAnswers {
  import opened Wrappers
  import opened Rooms

  // ----- joining

  /** The room waits for a guest, and the user is not its host and in no room yet. */
  predicate MayJoin(room: Room, user: User, isInARoom: bool) {
    room.status == Waiting && room.guest.None? && room.host.userId != user.userId && !isInARoom
  }

  /** The host plays White, the guest Black, and the rest of the room is as before. */
  predicate IsJoined(room: Room, user: User, joined: Room) {
    && joined.status == Active && joined.guest == Some(user) && joined.white == Some(room.host) && joined.black == Some(user)
    && joined.host == room.host && joined.roomId == room.roomId && joined.name == room.name && joined.visibility == room.visibility
    && joined.code == room.code && joined.spectators == room.spectators
  }

  // ----- creating

  /** White space by code: the characters for which isspace holds in Python, which strip removes. */
  lemma WhatCountsAsSpace(c: char)
    ensures IsSpace(c) <==> c as int in {
              0x09, 0x0A, 0x0B, 0x0C, 0x0D, 0x1C, 0x1D, 0x1E, 0x1F, 0x20, 0x85, 0xA0, 0x1680,
              0x2000, 0x2001, 0x2002, 0x2003, 0x2004, 0x2005, 0x2006, 0x2007, 0x2008, 0x2009, 0x200A,
              0x2028, 0x2029, 0x202F, 0x205F, 0x3000}
  {
  }

  /** Equal but for the case of the letters A to Z. */
  predicate SameName(a: string, b: string) {
    && |a| == |b|
    && forall i :: 0 <= i < |a| ==>
         || a[i] == b[i]
         || ('A' <= a[i] <= 'Z' && b[i] as int == a[i] as int + 32)
         || ('A' <= b[i] <= 'Z' && a[i] as int == b[i] as int + 32)
  }

  lemma SameNamesNormalizeAlike(a: string, b: string)
    ensures NormalizeRoomName(a) == NormalizeRoomName(b) <==> SameName(a, b)
  {
    if NormalizeRoomName(a) == NormalizeRoomName(b) {
      forall i | 0 <= i < |a|
        ensures a[i] == b[i] || ('A' <= a[i] <= 'Z' && b[i] as int == a[i] as int + 32)
             || ('A' <= b[i] <= 'Z' && a[i] as int == b[i] as int + 32)
      {
        assert NormalizeRoomName(a)[i] == NormalizeRoomName(b)[i];
      }
    }
  }

  /** The bytes of a character in UTF-8, section 3 of RFC 3629. */
  function Utf8Bytes(c: char): seq<int> {
    var n := c as int;
    if n <= 0x7F then [n]
    else if n <= 0x7FF then [0xC0 + n / 64, 0x80 + n % 64]
    else if n <= 0xFFFF then [0xE0 + n / 4096, 0x80 + n / 64 % 64, 0x80 + n % 64]
    else [0xF0 + n / 262144, 0x80 + n / 4096 % 64, 0x80 + n / 64 % 64, 0x80 + n % 64]
  }

  function Utf8(t: string): seq<int> {
    if t == [] then [] else Utf8Bytes(t[0]) + Utf8(t[1..])
  }

  lemma {:induction false} LengthInBytes(t: string)
    ensures |Utf8(t)| == Utf8Length(t)
  {
    if t != [] {
      LengthInBytes(t[1..]);
    }
  }

  predicate AnotherHasTheName(s: State, name: string) {
    exists k :: k in s.rooms && s.rooms[k].status != Finished && SameName(s.rooms[k].name, name)
  }

  lemma WhichNamesAreTaken(s: State, name: string)
    ensures NameTaken(s, name) <==> AnotherHasTheName(s, name)
  {
    hide NormalizeRoomName, SameName;
    forall k | k in s.rooms ensures SameName(s.rooms[k].name, name) <==> NormalizeRoomName(s.rooms[k].name) == NormalizeRoomName(name) {
      SameNamesNormalizeAlike(s.rooms[k].name, name);
    }
  }

  lemma VisibilitiesByName(value: string)
    ensures VisibilityOf(value).None? <==> value != "public" && value != "hidden"
    ensures VisibilityOf(value) == Some(Public) <==> value == "public"
    ensures VisibilityOf(value) == Some(Hidden) <==> value == "hidden"
  {
    assert "public"[0] == 'p' && "hidden"[0] == 'h';
  }

  /** Why a room is not created: the visibility, the name, the user, or another unfinished room of the same name, in this order. */
  lemma WhyARoomIsRefused(s: State, user: User, value: string, visibility: string, id: RoomId, draws: seq<string>)
    ensures var r := CreateRoom(s, user, value, visibility, id, draws).1;
            var name := Strip(value);
            var unknown := visibility != "public" && visibility != "hidden";
            var unusable := name == "" || |Utf8(name)| > 40;
            var taken := AnotherHasTheName(s, name);
            && (r == Err(InvalidVisibility) <==> unknown)
            && (r == Err(InvalidRoomName) <==> !unknown && unusable)
            && (r == Err(AlreadyInRoom) <==> !unknown && !unusable && user.userId in s.playerRoom)
            && (r == Err(RoomNameTaken) <==> !unknown && !unusable && user.userId !in s.playerRoom && taken)
            && (r.Ok? ==> r.value.name == name && (r.value.visibility == Public <==> visibility == "public"))
  {
    hide Strip, Utf8, Utf8Length, NameTaken, AnotherHasTheName, NormalizeRoomName, SameName, FirstUnused, IsStripped, VisibilityOf;
    VisibilitiesByName(visibility);
    LengthInBytes(Strip(value));
    WhichNamesAreTaken(s, Strip(value));
  }

  // ----- leaving

  /** The user is the host or the guest of the room, on this very connection. */
  predicate PlaysOn(room: Room, u: UserId, c: ConnectionId) {
    || (room.host.userId == u && room.host.connection == c)
    || (room.guest.Some? && room.guest.value.userId == u && room.guest.value.connection == c)
  }

  /** The room of a player whose own connection ends is removed with its entries; any other connection only stops watching. */
  lemma WhatARemovalDoes(s: State, u: UserId, c: ConnectionId)
    ensures var t, result := RemoveConnection(s, u, c), CleanupOf(s, u, c);
            && t.subscribers == s.subscribers - {c} && c !in t.spectatorRoom
            && (result.removed.Some? <==> u in s.playerRoom && s.playerRoom[u] in s.rooms && PlaysOn(s.rooms[s.playerRoom[u]], u, c))
            && (result.removed.Some? ==>
                  var room := s.rooms[s.playerRoom[u]];
                  && result.removed == Some(s.playerRoom[u]) && result.removed.value !in t.rooms
                  && (forall p :: room.Has(p) ==> p !in t.playerRoom)
                  && (room.code.Some? ==> room.code.value !in t.hiddenCodes)
                  && (forall k :: k in room.spectators ==> k !in t.spectatorRoom))
  {
  }

  /** Whether a spectator of the room is still there once connection c has stopped watching. */
  predicate StillWatches(s: State, id: RoomId, c: ConnectionId, k: ConnectionId) {
    id in s.rooms && k in s.rooms[id].spectators && !(k == c && c in s.spectatorRoom && s.spectatorRoom[c] == id)
  }

  lemma WhoStillWatches(s: State, id: RoomId, c: ConnectionId)
    requires id in s.rooms
    ensures var t := StopWatching(s.(subscribers := s.subscribers - {c}), c);
            && id in t.rooms && t.rooms[id] == s.rooms[id].(spectators := t.rooms[id].spectators)
            && forall k :: && (k in t.rooms[id].spectators <==> StillWatches(s, id, c, k))
                           && (k in t.rooms[id].spectators ==> t.rooms[id].spectators[k] == s.rooms[id].spectators[k])
  {
  }

  /** In a removed active game the opponent is told that the player left and each remaining spectator that the room is gone;
      nobody else is told anything. */
  lemma WhoIsTold(s: State, u: UserId, c: ConnectionId, n: Notification)
    requires CleanupOf(s, u, c).removed.Some?
    ensures u in s.playerRoom && s.playerRoom[u] in s.rooms
    ensures var id := s.playerRoom[u];
            var room := s.rooms[id];
            n in CleanupOf(s, u, c).notified <==>
              && room.status == Active
              && match n.message
                 case OpponentDisconnected =>
                   if room.white.Some? && room.white.value.userId == u then room.black.Some? && n.to == room.black.value.connection
                   else room.black.Some? && room.black.value.userId == u && room.white.Some? && n.to == room.white.value.connection
                 case RoomRemoved =>
                   exists k :: StillWatches(s, id, c, k) && room.spectators[k].connection == n.to
  {
    var t := StopWatching(s.(subscribers := s.subscribers - {c}), c);
    assert RoomToRemove(t, u, c).Some?;
    var id := s.playerRoom[u];
    WhoStillWatches(s, id, c);
    hide StopWatching, StillWatches, RoomToRemove;
    var room := t.rooms[id];
    if n.message.RoomRemoved? && exists k :: StillWatches(s, id, c, k) && s.rooms[id].spectators[k].connection == n.to {
      var k :| StillWatches(s, id, c, k) && s.rooms[id].spectators[k].connection == n.to;
      assert k in room.spectators;
    }
  }

  /** The lobby looks different exactly if a watcher of a stored room left, or the removed room was being played or publicly waiting. */
  lemma WhenTheLobbyChanges(s: State, u: UserId, c: ConnectionId)
    ensures CleanupOf(s, u, c).lobbyChanged <==>
              || (c in s.spectatorRoom && s.spectatorRoom[c] in s.rooms)
              || (CleanupOf(s, u, c).removed.Some?
                  && var room := s.rooms[s.playerRoom[u]]; room.status == Active || room.visibility == Public)
  {
  }
}
