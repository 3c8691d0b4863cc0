/** Game rooms of the gateway: each operation is one atomic step on the rooms and their index maps. */
module Rooms {
  import opened Wrappers

  type UserId = int
  type RoomId = int
  type ConnectionId = int

  datatype User = User(userId: UserId, username: string, connection: ConnectionId, rating: int)

  datatype Visibility = Public | Hidden

  datatype Status = Waiting | Active | Finished

  datatype Room = Room(
    roomId: RoomId,
    name: string,
    visibility: Visibility,
    host: User,
    code: Option<string>,
    guest: Option<User>,
    white: Option<User>,
    black: Option<User>,
    status: Status,
    spectators: map<ConnectionId, User>)
  {
    predicate Has(u: UserId) {
      host.userId == u || (guest.Some? && guest.value.userId == u)
    }

    function Opponent(u: UserId): Option<User> {
      if white.Some? && white.value.userId == u then black
      else if black.Some? && black.value.userId == u then white
      else None
    }

    predicate IsPlayer(u: UserId) {
      (white.Some? && white.value.userId == u) || (black.Some? && black.value.userId == u)
    }

    predicate OwnsConnection(u: UserId, c: ConnectionId) {
      || (host.userId == u && host.connection == c)
      || (guest.Some? && guest.value.userId == u && guest.value.connection == c)
    }
  }

  datatype Error =
    | InvalidRoomName | AlreadyInRoom | RoomNameTaken | CannotJoinOwnRoom | RoomUnavailable | RoomNotFound | RoomNotPublic
    | InvalidRoomCode | RoomNotActive | PlayerCannotSpectate | AlreadyWatching | NotWatching | AlreadySubscribed
    | InvalidVisibility
    | StillDrawing  // no error: among the codes drawn so far none is unused, and the drawing goes on

  datatype State = State(
    rooms: map<RoomId, Room>,
    hiddenCodes: map<string, RoomId>,
    playerRoom: map<UserId, RoomId>,
    spectatorRoom: map<ConnectionId, RoomId>,
    subscribers: set<ConnectionId>)

  const EMPTY := State(map[], map[], map[], map[], {})

  // ----- names

  predicate IsSpace(c: char) {
    var n := c as int;
    || 9 <= n <= 13 || 28 <= n <= 32 || n == 0x85 || n == 0xA0 || n == 0x1680 || 0x2000 <= n <= 0x200A
    || n == 0x2028 || n == 0x2029 || n == 0x202F || n == 0x205F || n == 0x3000
  }

  predicate AllSpace(t: string) {
    forall i :: 0 <= i < |t| ==> IsSpace(t[i])
  }

  function StripLeft(t: string): string {
    if t != [] && IsSpace(t[0]) then StripLeft(t[1..]) else t
  }

  function StripRight(t: string): string {
    if t != [] && IsSpace(t[|t| - 1]) then StripRight(t[..|t| - 1]) else t
  }

  ghost predicate IsRest(t: string, r: string) {
    && (r != [] ==> !IsSpace(r[0]))
    && |r| <= |t| && r == t[|t| - |r|..] && AllSpace(t[..|t| - |r|])
  }

  lemma OneMoreSpace(t: string, r: string)
    requires t != [] && IsSpace(t[0]) && IsRest(t[1..], r)
    ensures IsRest(t, r)
  {
    hide IsSpace;
    var n := |t| - |r|;
    assert t[1..][n - 1..] == t[n..];
    forall i | 0 <= i < n ensures IsSpace(t[..n][i]) {
      assert i > 0 ==> t[1..][..n - 1][i - 1] == t[i];
    }
  }

  lemma {:induction false} LeftIsRest(t: string)
    ensures IsRest(t, StripLeft(t))
  {
    hide IsSpace;
    if t != [] && IsSpace(t[0]) {
      LeftIsRest(t[1..]);
      OneMoreSpace(t, StripLeft(t[1..]));
    } else {
      assert t[0..] == t;
    }
  }

  ghost predicate IsStart(t: string, r: string) {
    && (r != [] ==> !IsSpace(r[|r| - 1]))
    && |r| <= |t| && r == t[..|r|] && AllSpace(t[|r|..])
  }

  lemma {:induction false} RightIsStart(t: string)
    ensures IsStart(t, StripRight(t))
  {
    hide IsSpace;
    if t != [] && IsSpace(t[|t| - 1]) {
      var r := StripRight(t[..|t| - 1]);
      RightIsStart(t[..|t| - 1]);
      assert t[..|t| - 1][..|r|] == t[..|r|];
      forall i | 0 <= i < |t| - |r| ensures IsSpace(t[|r|..][i]) {
        assert i < |t| - 1 - |r| ==> t[..|t| - 1][|r|..][i] == t[|r|..][i];
      }
    }
  }

  function Utf8Length(t: string): nat {
    if t == [] then 0
    else
      var n := t[0] as int;
      (if n < 0x80 then 1 else if n < 0x800 then 2 else if n < 0x1_0000 then 3 else 4) + Utf8Length(t[1..])
  }

  const ROOM_NAME_MAX_BYTES := 40

  ghost predicate StandsAt(value: string, i: nat, name: string) {
    && i + |name| <= |value| && value[i..i + |name|] == name && AllSpace(value[..i]) && AllSpace(value[i + |name|..])
  }

  /** The name is the value without the space around it. */
  ghost predicate IsStripped(value: string, name: string) {
    && (name != [] ==> !IsSpace(name[0]) && !IsSpace(name[|name| - 1]))
    && exists i :: StandsAt(value, i, name)
  }

  lemma StrippedStandsAt(value: string, left: string, name: string)
    requires IsRest(value, left) && IsStart(left, name)
    ensures StandsAt(value, |value| - |left|, name) && IsStripped(value, name)
  {
    hide IsSpace;
    var i := |value| - |left|;
    assert value[i + |name|..] == left[|name|..];
    assert value[i..i + |name|] == left[..|name|];
  }

  function Strip(value: string): (name: string)
    ensures IsStripped(value, name)
  {
    var left := StripLeft(value);
    var name := StripRight(left);
    LeftIsRest(value);
    RightIsStart(left);
    StrippedStandsAt(value, left, name);
    name
  }

  /** The name without the space around it, unless nothing is left or it is too long. */
  function ValidateRoomName(value: string): (r: Result<string, Error>)
    ensures r.Ok? ==> IsStripped(value, r.value) && r.value != [] && Utf8Length(r.value) <= ROOM_NAME_MAX_BYTES
    ensures r.Err? ==> exists name :: IsStripped(value, name) && (name == [] || Utf8Length(name) > ROOM_NAME_MAX_BYTES)
  {
    var name := Strip(value);
    if name == [] || Utf8Length(name) > ROOM_NAME_MAX_BYTES then Err(InvalidRoomName) else Ok(name)
  }

  function Lower(c: char): char {
    if 'A' <= c <= 'Z' then (c as int + 32) as char else c
  }

  function NormalizeRoomName(name: string): (r: string)
    ensures |r| == |name| && forall i :: 0 <= i < |name| ==> r[i] == Lower(name[i])
  {
    seq(|name|, i requires 0 <= i < |name| => Lower(name[i]))
  }

  // ----- the steps

  predicate NameTaken(s: State, name: string) {
    exists id :: id in s.rooms && s.rooms[id].status != Finished && NormalizeRoomName(s.rooms[id].name) == NormalizeRoomName(name)
  }

  function VisibilityOf(value: string): Option<Visibility> {
    if value == "public" then Some(Public) else if value == "hidden" then Some(Hidden) else None
  }

  /** The first of the drawn codes that leads to no room. */
  function FirstUnused(codes: map<string, RoomId>, draws: seq<string>): (r: Option<string>)
    ensures r.Some? ==> r.value in draws && r.value !in codes
    ensures r.None? ==> forall c :: c in draws ==> c in codes
  {
    if draws == [] then None else if draws[0] !in codes then Some(draws[0]) else FirstUnused(codes, draws[1..])
  }

  /** A fresh room number and the random codes come from outside. */
  function CreateRoom(s: State, user: User, name: string, visibility: string, id: RoomId, draws: seq<string>): (State, Result<Room, Error>) {
    var seen := VisibilityOf(visibility);
    if seen.None? then (s, Err(InvalidVisibility))
    else
      var validated := ValidateRoomName(name);
      if validated.Err? then (s, Err(validated.error))
      else if user.userId in s.playerRoom then (s, Err(AlreadyInRoom))
      else if NameTaken(s, validated.value) then (s, Err(RoomNameTaken))
      else
        var code := if seen.value == Hidden then FirstUnused(s.hiddenCodes, draws) else None;
        if seen.value == Hidden && code.None? then (s, Err(StillDrawing))
        else
          var room := Room(id, validated.value, seen.value, user, code, None, None, None, Waiting, map[]);
          (s.(rooms := s.rooms[id := room],
              playerRoom := s.playerRoom[user.userId := id],
              hiddenCodes := if code.Some? then s.hiddenCodes[code.value := id] else s.hiddenCodes),
           Ok(room))
  }

  function WithoutCode(codes: map<string, RoomId>, code: Option<string>): map<string, RoomId> {
    if code.Some? then codes - {code.value} else codes
  }

  function WithoutPlayers(players: map<UserId, RoomId>, room: Room): map<UserId, RoomId> {
    players - ({room.host.userId} + if room.guest.Some? then {room.guest.value.userId} else {})
  }

  function Join(s: State, room: Room, user: User): (State, Result<Room, Error>) {
    if room.host.userId == user.userId then (s, Err(CannotJoinOwnRoom))
    else if user.userId in s.playerRoom then (s, Err(AlreadyInRoom))
    else if room.status != Waiting || room.guest.Some? then (s, Err(RoomUnavailable))
    else
      var joined := room.(guest := Some(user), white := Some(room.host), black := Some(user), status := Active);
      (s.(rooms := s.rooms[room.roomId := joined],
          playerRoom := s.playerRoom[user.userId := room.roomId],
          hiddenCodes := WithoutCode(s.hiddenCodes, room.code)),
       Ok(joined))
  }

  function JoinPublicRoom(s: State, id: RoomId, user: User): (State, Result<Room, Error>) {
    if id !in s.rooms then (s, Err(RoomNotFound))
    else if s.rooms[id].visibility != Public then (s, Err(RoomNotPublic))
    else Join(s, s.rooms[id], user)
  }

  function JoinHiddenRoom(s: State, code: string, user: User): (State, Result<Room, Error>) {
    if code !in s.hiddenCodes || s.hiddenCodes[code] !in s.rooms then (s, Err(InvalidRoomCode))
    else Join(s, s.rooms[s.hiddenCodes[code]], user)
  }

  function MatchPlayers(s: State, first: User, second: User, id: RoomId, name: string): (State, Result<Room, Error>) {
    if first.userId in s.playerRoom || second.userId in s.playerRoom then (s, Err(AlreadyInRoom))
    else
      var room := Room(id, name, Public, first, None, Some(second), Some(first), Some(second), Active, map[]);
      (s.(rooms := s.rooms[id := room], playerRoom := s.playerRoom[first.userId := id][second.userId := id]), Ok(room))
  }

  function DiscardRoom(s: State, id: RoomId): State {
    if id !in s.rooms then s
    else
      var room := s.rooms[id];
      s.(rooms := s.rooms - {id},
         playerRoom := WithoutPlayers(s.playerRoom, room),
         hiddenCodes := WithoutCode(s.hiddenCodes, room.code))
  }

  function RollbackJoin(s: State, id: RoomId, guestId: UserId): State {
    if id !in s.rooms || s.rooms[id].guest.None? || s.rooms[id].guest.value.userId != guestId then s
    else
      var room := s.rooms[id];
      s.(rooms := s.rooms[id := room.(guest := None, white := None, black := None, status := Waiting)],
         playerRoom := s.playerRoom - {guestId},
         hiddenCodes := if room.code.Some? then s.hiddenCodes[room.code.value := room.roomId] else s.hiddenCodes)
  }

  function WatchRoom(s: State, id: RoomId, user: User): (State, Result<Room, Error>) {
    if id !in s.rooms then (s, Err(RoomNotFound))
    else if s.rooms[id].status != Active then (s, Err(RoomNotActive))
    else if s.rooms[id].IsPlayer(user.userId) then (s, Err(PlayerCannotSpectate))
    else if user.connection in s.spectatorRoom then (s, Err(AlreadyWatching))
    else
      var watched := s.rooms[id].(spectators := s.rooms[id].spectators[user.connection := user]);
      (s.(rooms := s.rooms[id := watched], spectatorRoom := s.spectatorRoom[user.connection := id]), Ok(watched))
  }

  function WithoutSpectator(rooms: map<RoomId, Room>, id: RoomId, c: ConnectionId): map<RoomId, Room> {
    if id in rooms then rooms[id := rooms[id].(spectators := rooms[id].spectators - {c})] else rooms
  }

  function LeaveSpectator(s: State, c: ConnectionId, id: RoomId): (State, Result<(), Error>) {
    if c !in s.spectatorRoom || s.spectatorRoom[c] != id then (s, Err(NotWatching))
    else (s.(rooms := WithoutSpectator(s.rooms, id, c), spectatorRoom := s.spectatorRoom - {c}), Ok(()))
  }

  function FinishRoom(s: State, id: RoomId): State {
    if id !in s.rooms || s.rooms[id].status == Finished then s
    else s.(rooms := s.rooms[id := s.rooms[id].(status := Finished)], playerRoom := WithoutPlayers(s.playerRoom, s.rooms[id]))
  }

  function SubscribeLobby(s: State, c: ConnectionId): (State, Result<(), Error>) {
    if c in s.subscribers then (s, Err(AlreadySubscribed)) else (s.(subscribers := s.subscribers + {c}), Ok(()))
  }

  /** The connection stops watching and, if it is a player's own, its unfinished room is removed with all who are in it. */
  function RemoveConnection(s: State, u: UserId, c: ConnectionId): State {
    var unwatched := StopWatching(s.(subscribers := s.subscribers - {c}), c);
    match RoomToRemove(unwatched, u, c)
    case None => unwatched
    case Some(id) => RemoveRoom(unwatched, id)
  }

  function StopWatching(s: State, c: ConnectionId): State {
    if c !in s.spectatorRoom then s
    else s.(rooms := WithoutSpectator(s.rooms, s.spectatorRoom[c], c), spectatorRoom := s.spectatorRoom - {c})
  }

  function RoomToRemove(s: State, u: UserId, c: ConnectionId): Option<RoomId> {
    if u !in s.playerRoom || s.playerRoom[u] !in s.rooms || !s.rooms[s.playerRoom[u]].OwnsConnection(u, c) then None
    else Some(s.playerRoom[u])
  }

  function RemoveRoom(s: State, id: RoomId): State
    requires id in s.rooms
  {
    DiscardRoom(s, id).(spectatorRoom := s.spectatorRoom - s.rooms[id].spectators.Keys)
  }

  datatype Message = OpponentDisconnected | RoomRemoved

  datatype Notification = Notification(to: ConnectionId, message: Message)

  /** Who is told what when a room is removed because user u left: the opponent and the spectators of an active game. */
  function Notified(room: Room, u: UserId): set<Notification> {
    if room.status != Active then {}
    else
      (if room.Opponent(u).Some? then {Notification(room.Opponent(u).value.connection, OpponentDisconnected)} else {})
      + set c | c in room.spectators :: Notification(room.spectators[c].connection, RoomRemoved)
  }

  datatype Cleanup = Cleanup(lobbyChanged: bool, removed: Option<RoomId>, notified: set<Notification>)

  /** What the caller of RemoveConnection learns. */
  function CleanupOf(s: State, u: UserId, c: ConnectionId): Cleanup {
    var unwatched := StopWatching(s.(subscribers := s.subscribers - {c}), c);
    var watched := c in s.spectatorRoom && s.spectatorRoom[c] in s.rooms;
    match RoomToRemove(unwatched, u, c)
    case None => Cleanup(watched, None, {})
    case Some(id) =>
      var room := unwatched.rooms[id];
      Cleanup(watched || room.status == Active || room.visibility == Public, Some(id), Notified(room, u))
  }
}
