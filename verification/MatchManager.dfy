/** The match manager as it runs: matches are objects shared by the index and the coroutines that took them out. */
module MatchManager {
  import opened Wrappers
  import opened ChessTypes
  import R = Rooms
  import A = Allocator
  import M = Matches
  import V = MatchViews
  import P = Protocol

  class ActiveMatch {
    const room: R.RoomId
    const shard: A.Shard
    var revision: nat
    var snapshot: P.GameStateSnapshot
    var sequenceOwners: map<M.SequenceKey, R.ConnectionId>
    ghost var submitted: nat
    ghost var answered: nat
    ghost var broadcasts: nat
    ghost var removals: nat

    ghost function View(): M.Match
      reads this
    {
      M.Match(room, shard, revision, snapshot, sequenceOwners, submitted, answered, broadcasts, removals, 0, 0)
    }

    constructor (room: R.RoomId, shard: A.Shard, snapshot: P.GameStateSnapshot)
      ensures View() == M.NewMatch(room, shard).(revision := 1, snapshot := snapshot)
    {
      this.room, this.shard, this.snapshot := room, shard, snapshot;
      revision, sequenceOwners := 1, map[];
      submitted, answered, broadcasts, removals := 0, 0, 0, 0;
    }

    method Submit(started: bool, color: Option<PieceColor>, sequence: int, sender: R.ConnectionId) returns (r: Result<(), M.Error>)
      modifies this
      ensures (View(), r) == M.Submit(old(View()), started, color, sequence, sender)
      ensures r.Ok? <==> started && color.Some? && (color.value, sequence) !in old(sequenceOwners)
      ensures r == Err(M.MatchNotStarted) <==> !started
      ensures r == Err(M.NotAPlayer) <==> started && color.None?
      ensures r.Ok? ==> sequenceOwners == old(sequenceOwners)[(color.value, sequence) := sender]
      ensures r.Err? ==> View() == old(View())
    {
      if !started {
        return Err(M.MatchNotStarted);
      }
      if color.None? {
        return Err(M.NotAPlayer);
      }
      if (color.value, sequence) in sequenceOwners {
        return Err(M.DuplicateSequence);
      }
      sequenceOwners := sequenceOwners[(color.value, sequence) := sender];
      submitted := submitted + 1;
      return Ok(());
    }

    method Handle(color: PieceColor, message: P.Message, audience: seq<R.ConnectionId>) returns (deliveries: seq<M.Delivery>)
      modifies this
      ensures (View(), deliveries) == M.Handle(old(View()), color, message, audience)
      ensures message.hasSnapshot && message.snapshot != old(snapshot) ==>
                && snapshot == message.snapshot && revision == old(revision) + 1
                && V.StatesAmong(deliveries) == M.Updates(audience, old(revision) + 1, message.snapshot)
      ensures !message.hasSnapshot || message.snapshot == old(snapshot) ==>
                snapshot == old(snapshot) && revision == old(revision) && V.StatesAmong(deliveries) == []
    {
      hide V.StatesAmong;
      V.NewStateGoesToEverybody(View(), color, message, audience);
      deliveries := [];
      if M.IsAnswer(message) {
        var key := (color, message.sequence as int);
        if key in sequenceOwners {
          deliveries := [M.MoveResult(sequenceOwners[key], message.sequence, message.accepted, message.reason)];
          sequenceOwners := sequenceOwners - {key};
          answered := answered + 1;
        }
      }
      if message.hasSnapshot && message.snapshot != snapshot {
        snapshot := message.snapshot;
        revision := revision + 1;
        broadcasts := broadcasts + 1;
        deliveries := deliveries + M.Updates(audience, revision, snapshot);
      } else {
        assert deliveries + [] == deliveries;
      }
    }
  }

  class MatchManager {
    var matches: map<R.RoomId, ActiveMatch>

    /** The index holds matches that nobody has taken out, under their own rooms, each once. */
    ghost predicate Valid()
      reads this, matches.Values
    {
      && (forall r :: r in matches ==> matches[r].room == r && matches[r].removals == 0)
      && (forall q, r :: q in matches && r in matches && matches[q] == matches[r] ==> q == r)
    }

    constructor ()
      ensures matches == map[] && Valid()
    {
      matches := map[];
    }

    method Register(m: ActiveMatch)
      requires Valid() && m.removals == 0
      modifies this
      ensures matches == old(matches)[m.room := m] && Valid()
    {
      matches := matches[m.room := m];
    }

    /** Only one caller gets the match; whoever comes later finds none. */
    method PopMatch(room: R.RoomId) returns (m: ActiveMatch?)
      requires Valid()
      modifies this, if room in matches then {matches[room]} else {}
      ensures m == (if room in old(matches) then old(matches)[room] else null)
      ensures matches == old(matches) - {room} && Valid()
      ensures m != null ==> (forall r :: r in matches ==> matches[r] != m) && m.View() == old(m.View()).(removals := 1)
    {
      if room !in matches {
        return null;
      }
      m := matches[room];
      matches := matches - {room};
      m.removals := m.removals + 1;
    }

    /** Refused before the match is looked up: the sequence number, then the two cells. */
    method Move(room: R.RoomId, started: bool, color: Option<PieceColor>, sequence: M.Value, source: M.Value, destination: M.Value,
                sender: R.ConnectionId)
      returns (r: Result<(), M.Error>)
      requires Valid()
      modifies if room in matches then {matches[room]} else {}
      ensures Valid()
      ensures r == Err(M.InvalidMove) <==> !(M.IsSequence(sequence) && M.IsCell(source) && M.IsCell(destination))
      ensures r == Err(M.MatchNotFound) <==> r != Err(M.InvalidMove) && room !in matches
      ensures room in matches ==>
                var m := matches[room];
                if r == Err(M.InvalidMove) then m.View() == old(m.View())
                else (m.View(), r) == M.Submit(old(m.View()), started, color, sequence.n, sender)
    {
      if !M.IsSequence(sequence) {
        return Err(M.InvalidMove);
      }
      var values := [source, destination];
      var i := 0;
      while i < 2
        invariant 0 <= i <= 2
        invariant forall k :: 0 <= k < i ==> M.IsCell(values[k])
      {
        if !M.IsCell(values[i]) {
          return Err(M.InvalidMove);
        }
        i := i + 1;
      }
      assert M.IsCell(values[0]) && M.IsCell(values[1]);
      if room !in matches {
        return Err(M.MatchNotFound);
      }
      r := matches[room].Submit(started, color, sequence.n, sender);
    }

    method Jump(room: R.RoomId, started: bool, color: Option<PieceColor>, sequence: M.Value, cell: M.Value, sender: R.ConnectionId)
      returns (r: Result<(), M.Error>)
      requires Valid()
      modifies if room in matches then {matches[room]} else {}
      ensures Valid()
      ensures r == Err(M.InvalidJump) <==> !(M.IsSequence(sequence) && M.IsCell(cell))
      ensures r == Err(M.MatchNotFound) <==> r != Err(M.InvalidJump) && room !in matches
      ensures room in matches ==>
                var m := matches[room];
                if r == Err(M.InvalidJump) then m.View() == old(m.View())
                else (m.View(), r) == M.Submit(old(m.View()), started, color, sequence.n, sender)
    {
      if !M.IsSequence(sequence) || !M.IsCell(cell) {
        return Err(M.InvalidJump);
      }
      if room !in matches {
        return Err(M.MatchNotFound);
      }
      r := matches[room].Submit(started, color, sequence.n, sender);
    }

    method HandleBridgeEvent(room: R.RoomId, color: PieceColor, message: P.Message, audience: seq<R.ConnectionId>)
      returns (deliveries: seq<M.Delivery>)
      requires Valid()
      modifies if room in matches then {matches[room]} else {}
      ensures Valid()
      ensures room !in matches ==> deliveries == []
      ensures room in matches ==>
                var m := matches[room];
                (m.View(), deliveries) == M.Handle(old(m.View()), color, message, audience)
      ensures room in matches && message.hasSnapshot && message.snapshot != old(matches[room].snapshot) ==>
                && matches[room].snapshot == message.snapshot && matches[room].revision == old(matches[room].revision) + 1
                && V.StatesAmong(deliveries) == M.Updates(audience, matches[room].revision, message.snapshot)
      ensures room in matches && (!message.hasSnapshot || message.snapshot == old(matches[room].snapshot)) ==>
                V.StatesAmong(deliveries) == [] && matches[room].snapshot == old(matches[room].snapshot)
    {
      if room !in matches {
        return [];
      }
      deliveries := matches[room].Handle(color, message, audience);
    }
  }
}
