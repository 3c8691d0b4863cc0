/** The room manager as it runs: its dictionaries are fields, each method is one locked step. */
module RoomManager {
  import opened Wrappers
  import R = Rooms
  import A = RoomAnswers

  class RoomManager {
    var rooms: map<R.RoomId, R.Room>
    var hiddenCodes: map<string, R.RoomId>
    var playerRoom: map<R.UserId, R.RoomId>
    var spectatorRoom: map<R.ConnectionId, R.RoomId>
    var subscribers: set<R.ConnectionId>

    ghost function View(): R.State
      reads this
    {
      R.State(rooms, hiddenCodes, playerRoom, spectatorRoom, subscribers)
    }

    constructor ()
      ensures View() == R.EMPTY
    {
      rooms, hiddenCodes, playerRoom, spectatorRoom, subscribers := map[], map[], map[], map[], {};
    }

    /** Draws codes until one is unused. */
    method NewRoomCode(draws: seq<string>) returns (code: Option<string>)
      ensures code == R.FirstUnused(hiddenCodes, draws)
    {
      var i := 0;
      while i < |draws|
        invariant 0 <= i <= |draws|
        invariant R.FirstUnused(hiddenCodes, draws) == R.FirstUnused(hiddenCodes, draws[i..])
      {
        if draws[i] !in hiddenCodes {
          return Some(draws[i]);
        }
        i := i + 1;
      }
      return None;
    }

    method CreateRoom(user: R.User, name: string, visibility: string, id: R.RoomId, draws: seq<string>)
      returns (r: Result<R.Room, R.Error>)
      modifies this
      ensures (View(), r) == R.CreateRoom(old(View()), user, name, visibility, id, draws)
      ensures r.Err? ==> View() == old(View())
      ensures r.Ok? ==>
                && rooms == old(rooms)[id := r.value] && r.value.host == user && r.value.status == R.Waiting
                && user.userId !in old(playerRoom) && playerRoom == old(playerRoom)[user.userId := id]
                && (r.value.code.Some? <==> visibility == "hidden")
                && (r.value.code.Some? ==> r.value.code.value !in old(hiddenCodes) && hiddenCodes == old(hiddenCodes)[r.value.code.value := id])
    {
      hide R.ValidateRoomName, R.IsStripped, R.Utf8Length, R.NormalizeRoomName, R.FirstUnused;
      var seen := R.VisibilityOf(visibility);
      if seen.None? {
        return Err(R.InvalidVisibility);
      }
      var validated := R.ValidateRoomName(name);
      if validated.Err? {
        return Err(validated.error);
      }
      if user.userId in playerRoom {
        return Err(R.AlreadyInRoom);
      }
      if exists other :: other in rooms && rooms[other].status != R.Finished
                         && R.NormalizeRoomName(rooms[other].name) == R.NormalizeRoomName(validated.value) {
        return Err(R.RoomNameTaken);
      }
      var code: Option<string> := None;
      if seen.value == R.Hidden {
        code := NewRoomCode(draws);
        if code.None? {
          return Err(R.StillDrawing);
        }
      }
      var room := R.Room(id, validated.value, seen.value, user, code, None, None, None, R.Waiting, map[]);
      rooms := rooms[id := room];
      playerRoom := playerRoom[user.userId := id];
      if code.Some? {
        hiddenCodes := hiddenCodes[code.value := id];
      }
      return Ok(room);
    }

    method Join(room: R.Room, user: R.User) returns (r: Result<R.Room, R.Error>)
      modifies this
      ensures (View(), r) == R.Join(old(View()), room, user)
      ensures r.Err? ==> View() == old(View())
      ensures r.Ok? ==>
                && room.status == R.Waiting && user.userId !in old(playerRoom) && room.host.userId != user.userId
                && rooms == old(rooms)[room.roomId := r.value] && r.value.status == R.Active
                && r.value.white == Some(room.host) && r.value.black == Some(user) && r.value.guest == Some(user)
                && playerRoom == old(playerRoom)[user.userId := room.roomId]
                && (forall c :: c in hiddenCodes <==> c in old(hiddenCodes) && room.code != Some(c))
    {
      if room.host.userId == user.userId {
        return Err(R.CannotJoinOwnRoom);
      }
      if user.userId in playerRoom {
        return Err(R.AlreadyInRoom);
      }
      if room.status != R.Waiting || room.guest.Some? {
        return Err(R.RoomUnavailable);
      }
      var joined := room.(guest := Some(user), white := Some(room.host), black := Some(user), status := R.Active);
      rooms := rooms[room.roomId := joined];
      playerRoom := playerRoom[user.userId := room.roomId];
      ForgetCode(room.code);
      return Ok(joined);
    }

    method ForgetCode(code: Option<string>)
      modifies this`hiddenCodes
      ensures hiddenCodes == R.WithoutCode(old(hiddenCodes), code)
    {
      if code.Some? {
        hiddenCodes := hiddenCodes - {code.value};
      }
    }

    method ReleasePlayers(room: R.Room)
      modifies this`playerRoom
      ensures playerRoom == R.WithoutPlayers(old(playerRoom), room)
    {
      playerRoom := playerRoom - {room.host.userId};
      if room.guest.Some? {
        playerRoom := playerRoom - {room.guest.value.userId};
      }
    }

    method JoinPublicRoom(id: R.RoomId, user: R.User) returns (r: Result<R.Room, R.Error>)
      modifies this
      ensures (View(), r) == R.JoinPublicRoom(old(View()), id, user)
      ensures r.Ok? <==> && id in old(rooms) && old(rooms)[id].visibility == R.Public
                         && A.MayJoin(old(rooms)[id], user, user.userId in old(playerRoom))
      ensures r == Err(R.RoomNotFound) <==> id !in old(rooms)
      ensures r == Err(R.RoomNotPublic) <==> id in old(rooms) && old(rooms)[id].visibility != R.Public
      ensures r.Ok? ==> A.IsJoined(old(rooms)[id], user, r.value) && rooms == old(rooms)[old(rooms)[id].roomId := r.value]
      ensures r.Err? ==> View() == old(View())
    {
      if id !in rooms {
        return Err(R.RoomNotFound);
      }
      if rooms[id].visibility != R.Public {
        return Err(R.RoomNotPublic);
      }
      r := Join(rooms[id], user);
    }

    method JoinHiddenRoom(code: string, user: R.User) returns (r: Result<R.Room, R.Error>)
      modifies this
      ensures (View(), r) == R.JoinHiddenRoom(old(View()), code, user)
      ensures r.Ok? <==> && code in old(hiddenCodes) && old(hiddenCodes)[code] in old(rooms)
                         && A.MayJoin(old(rooms)[old(hiddenCodes)[code]], user, user.userId in old(playerRoom))
      ensures r == Err(R.InvalidRoomCode) <==> code !in old(hiddenCodes) || old(hiddenCodes)[code] !in old(rooms)
      ensures r.Ok? ==> A.IsJoined(old(rooms)[old(hiddenCodes)[code]], user, r.value)
      ensures r.Err? ==> View() == old(View())
    {
      if code !in hiddenCodes || hiddenCodes[code] !in rooms {
        return Err(R.InvalidRoomCode);
      }
      r := Join(rooms[hiddenCodes[code]], user);
    }

    method MatchPlayers(first: R.User, second: R.User, id: R.RoomId, name: string) returns (r: Result<R.Room, R.Error>)
      modifies this
      ensures (View(), r) == R.MatchPlayers(old(View()), first, second, id, name)
      ensures r.Ok? <==> first.userId !in old(playerRoom) && second.userId !in old(playerRoom)
      ensures r.Ok? ==>
                && rooms == old(rooms)[id := r.value] && r.value.status == R.Active && r.value.visibility == R.Public
                && r.value.white == Some(first) && r.value.black == Some(second) && r.value.host == first && r.value.guest == Some(second)
                && r.value.code.None? && r.value.spectators == map[] && r.value.name == name && r.value.roomId == id
                && hiddenCodes == old(hiddenCodes)
      ensures r.Ok? ==> first.userId in playerRoom && playerRoom[first.userId] == id && second.userId in playerRoom && playerRoom[second.userId] == id
      ensures r.Err? ==> View() == old(View())
    {
      if first.userId in playerRoom || second.userId in playerRoom {
        return Err(R.AlreadyInRoom);
      }
      var room := R.Room(id, name, R.Public, first, None, Some(second), Some(first), Some(second), R.Active, map[]);
      rooms := rooms[id := room];
      playerRoom := playerRoom[first.userId := id];
      playerRoom := playerRoom[second.userId := id];
      return Ok(room);
    }

    method DiscardRoom(id: R.RoomId)
      modifies this
      ensures View() == R.DiscardRoom(old(View()), id)
      ensures id !in rooms && forall u :: id in old(rooms) && old(rooms)[id].Has(u) ==> u !in playerRoom
      ensures forall r :: r != id ==> (r in rooms <==> r in old(rooms)) && (r in rooms ==> rooms[r] == old(rooms)[r])
    {
      if id !in rooms {
        return;
      }
      var room := rooms[id];
      rooms := rooms - {id};
      ReleasePlayers(room);
      ForgetCode(room.code);
    }

    method RollbackJoin(id: R.RoomId, guestId: R.UserId)
      modifies this
      ensures View() == R.RollbackJoin(old(View()), id, guestId)
      ensures id in old(rooms) && old(rooms)[id].guest.Some? && old(rooms)[id].guest.value.userId == guestId ==>
                && id in rooms && rooms[id].status == R.Waiting && rooms[id].guest.None? && guestId !in playerRoom
                && rooms[id].white.None? && rooms[id].black.None? && rooms[id].host == old(rooms)[id].host
                && rooms[id].code == old(rooms)[id].code && rooms[id].visibility == old(rooms)[id].visibility
                && (rooms[id].code.Some? ==> rooms[id].code.value in hiddenCodes && hiddenCodes[rooms[id].code.value] == rooms[id].roomId)
                && (forall u :: u != guestId ==> (u in playerRoom <==> u in old(playerRoom)))
      ensures !(id in old(rooms) && old(rooms)[id].guest.Some? && old(rooms)[id].guest.value.userId == guestId) ==> View() == old(View())
    {
      if id !in rooms || rooms[id].guest.None? || rooms[id].guest.value.userId != guestId {
        return;
      }
      var room := rooms[id];
      playerRoom := playerRoom - {guestId};
      rooms := rooms[id := room.(guest := None, white := None, black := None, status := R.Waiting)];
      if room.code.Some? {
        hiddenCodes := hiddenCodes[room.code.value := room.roomId];
      }
    }

    method WatchRoom(id: R.RoomId, user: R.User) returns (r: Result<R.Room, R.Error>)
      modifies this
      ensures (View(), r) == R.WatchRoom(old(View()), id, user)
      ensures r.Err? ==> View() == old(View())
      ensures r.Ok? ==>
                && id in old(rooms) && old(rooms)[id].status == R.Active && !old(rooms)[id].IsPlayer(user.userId)
                && user.connection !in old(spectatorRoom) && spectatorRoom == old(spectatorRoom)[user.connection := id]
                && id in rooms && rooms == old(rooms)[id := rooms[id]]
                && rooms[id] == old(rooms)[id].(spectators := old(rooms)[id].spectators[user.connection := user])
      ensures r == Err(R.RoomNotFound) <==> id !in old(rooms)
      ensures r == Err(R.RoomNotActive) <==> id in old(rooms) && old(rooms)[id].status != R.Active
      ensures r == Err(R.PlayerCannotSpectate) <==>
                && id in old(rooms) && old(rooms)[id].status == R.Active
                && (|| (old(rooms)[id].white.Some? && old(rooms)[id].white.value.userId == user.userId)
                    || (old(rooms)[id].black.Some? && old(rooms)[id].black.value.userId == user.userId))
    {
      if id !in rooms {
        return Err(R.RoomNotFound);
      }
      if rooms[id].status != R.Active {
        return Err(R.RoomNotActive);
      }
      if rooms[id].IsPlayer(user.userId) {
        return Err(R.PlayerCannotSpectate);
      }
      if user.connection in spectatorRoom {
        return Err(R.AlreadyWatching);
      }
      rooms := rooms[id := rooms[id].(spectators := rooms[id].spectators[user.connection := user])];
      spectatorRoom := spectatorRoom[user.connection := id];
      return Ok(rooms[id]);
    }

    method DropSpectator(id: R.RoomId, c: R.ConnectionId)
      modifies this`rooms
      ensures rooms == R.WithoutSpectator(old(rooms), id, c)
    {
      if id in rooms {
        rooms := rooms[id := rooms[id].(spectators := rooms[id].spectators - {c})];
      }
    }

    method LeaveSpectator(c: R.ConnectionId, id: R.RoomId) returns (r: Result<(), R.Error>)
      modifies this
      ensures (View(), r) == R.LeaveSpectator(old(View()), c, id)
      ensures r.Ok? <==> c in old(spectatorRoom) && old(spectatorRoom)[c] == id
      ensures r.Ok? ==> c !in spectatorRoom && (id in rooms ==> c !in rooms[id].spectators)
      ensures r.Err? ==> View() == old(View())
    {
      if c !in spectatorRoom || spectatorRoom[c] != id {
        return Err(R.NotWatching);
      }
      DropSpectator(id, c);
      spectatorRoom := spectatorRoom - {c};
      return Ok(());
    }

    method FinishRoom(id: R.RoomId)
      modifies this
      ensures View() == R.FinishRoom(old(View()), id)
      ensures id in old(rooms) ==> id in rooms && rooms[id].status == R.Finished
      ensures id in old(rooms) && old(rooms)[id].status != R.Finished ==> forall u :: old(rooms)[id].Has(u) ==> u !in playerRoom
      ensures id in old(rooms) && old(rooms)[id].status == R.Finished ==> View() == old(View())
    {
      if id !in rooms || rooms[id].status == R.Finished {
        return;
      }
      var room := rooms[id];
      rooms := rooms[id := room.(status := R.Finished)];
      ReleasePlayers(room);
    }

    method SubscribeLobby(c: R.ConnectionId) returns (r: Result<(), R.Error>)
      modifies this
      ensures (View(), r) == R.SubscribeLobby(old(View()), c)
      ensures (r.Ok? <==> c !in old(subscribers)) && subscribers == old(subscribers) + {c}
    {
      if c in subscribers {
        return Err(R.AlreadySubscribed);
      }
      subscribers := subscribers + {c};
      return Ok(());
    }

    /** Every spectator of a removed room stops watching it. */
    method DropSpectators(room: R.Room)
      modifies this`spectatorRoom
      ensures spectatorRoom == old(spectatorRoom) - room.spectators.Keys
    {
      var left := room.spectators.Keys;
      while exists c :: c in left
        invariant left <= room.spectators.Keys
        invariant spectatorRoom == old(spectatorRoom) - (room.spectators.Keys - left)
        decreases |left|
      {
        var c :| c in left;
        left := left - {c};
        spectatorRoom := spectatorRoom - {c};
      }
    }

    method RemoveConnection(u: R.UserId, c: R.ConnectionId) returns (result: R.Cleanup)
      modifies this
      ensures View() == R.RemoveConnection(old(View()), u, c)
      ensures result == R.CleanupOf(old(View()), u, c)
      ensures subscribers == old(subscribers) - {c} && c !in spectatorRoom
    {
      subscribers := subscribers - {c};
      result := R.Cleanup(false, None, {});
      if c in spectatorRoom {
        var watchedId := spectatorRoom[c];
        spectatorRoom := spectatorRoom - {c};
        if watchedId in rooms {
          DropSpectator(watchedId, c);
          result := result.(lobbyChanged := true);
        }
      }
      if u !in playerRoom || playerRoom[u] !in rooms {
        return;
      }
      var room := rooms[playerRoom[u]];
      var id := playerRoom[u];
      if !room.OwnsConnection(u, c) {
        return;
      }
      rooms := rooms - {id};
      ForgetCode(room.code);
      ReleasePlayers(room);
      DropSpectators(room);
      result := result.(removed := Some(id), notified := R.Notified(room, u),
                        lobbyChanged := result.lobbyChanged || room.status == R.Active || room.visibility == R.Public);
    }
  }
}
