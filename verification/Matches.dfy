/** Matches of the gateway, from the reservation of a shard to its release, under any interleaving of their coroutines. */
module Matches {
  import opened Wrappers
  import opened ChessTypes
  import R = Rooms
  import A = Allocator
  import P = Protocol

  type SequenceKey = (PieceColor, int)

  /** A match object: shared by the index and by every coroutine that has it in a local variable. The last six fields count. */
  datatype Match = Match(
    room: R.RoomId,
    shard: A.Shard,
    revision: nat,
    snapshot: P.GameStateSnapshot,
    owners: map<SequenceKey, R.ConnectionId>,
    submitted: nat,
    answered: nat,
    broadcasts: nat,
    removals: nat,
    ratings: nat,
    releases: nat)

  /**
   * The coroutine that starts a match: it waits for the bridge; it has registered the match and announces it; it is through;
   * an exception has been raised, late if the match was registered by then; it has given the shard back after that.
   */
  datatype Start = Opening | Announcing | Started | Failing(late: bool) | Failed(late: bool)

  /** Why a coroutine took the match out of the index, with what it found. */
  datatype End =
    | GameFinished
    | RoomCleanup(beforeStart: bool, playerLeft: bool)

  datatype Stage = Rating | Closing | Done

  /** A coroutine that took a match out of the index and holds it in a local variable. */
  datatype Ender = Ender(game: nat, end: End, stage: Stage)

  /** A match is its place in the list of all matches ever begun, next to the coroutine that starts it. */
  datatype State = State(pool: A.State, all: seq<Match>, starts: seq<Start>, matches: map<R.RoomId, nat>, enders: seq<Ender>)

  datatype Error = InvalidMove | InvalidJump | MatchNotFound | MatchNotStarted | NotAPlayer | DuplicateSequence

  function NewMatch(room: R.RoomId, shard: A.Shard): Match {
    Match(room, shard, 0, P.EMPTY_SNAPSHOT, map[], 0, 0, 0, 0, 0, 0)
  }

  // ----- what a client sends

  /** A value of a JSON message. */
  datatype Value = Int(n: int) | Bool(b: bool) | Object(fields: map<string, Value>) | Other

  /** Truth values pass for integers. */
  function AsInt(v: Value): Option<int> {
    match v
    case Int(n) => Some(n)
    case Bool(b) => Some(if b then 1 else 0)
    case _ => None
  }

  predicate IsCoordinate(fields: map<string, Value>, key: string) {
    key in fields && AsInt(fields[key]).Some? && 0 <= AsInt(fields[key]).value <= 7
  }

  predicate IsCell(v: Value) {
    v.Object? && IsCoordinate(v.fields, "row") && IsCoordinate(v.fields, "col")
  }

  /** Truth values do not pass for a sequence number. */
  predicate IsSequence(v: Value) {
    v.Int? && v.n >= 1
  }

  // ----- single steps on one match

  /** A move or jump is accepted for sending once for each colour and sequence number still unanswered. */
  function Submit(m: Match, started: bool, color: Option<PieceColor>, sequence: int, sender: R.ConnectionId): (Match, Result<(), Error>) {
    if !started then (m, Err(MatchNotStarted))
    else if color.None? then (m, Err(NotAPlayer))
    else if (color.value, sequence) in m.owners then (m, Err(DuplicateSequence))
    else (m.(owners := m.owners[(color.value, sequence) := sender], submitted := m.submitted + 1), Ok(()))
  }

  datatype Delivery =
    | MoveResult(receiver: R.ConnectionId, sequence: int, accepted: bool, reason: string)
    | StateUpdate(receiver: R.ConnectionId, revision: nat, state: P.GameStateSnapshot)

  predicate IsAnswer(message: P.Message) {
    message.kind == P.MoveAccepted || message.kind == P.MoveRejected
  }

  /** The result of a move goes to the connection that sent it, and to nobody a second time. */
  function Answer(m: Match, color: PieceColor, message: P.Message): (Match, seq<Delivery>) {
    var key := (color, message.sequence as int);
    if !IsAnswer(message) || key !in m.owners then (m, [])
    else
      (m.(owners := m.owners - {key}, answered := m.answered + 1),
       [MoveResult(m.owners[key], message.sequence, message.accepted, message.reason)])
  }

  function Updates(audience: seq<R.ConnectionId>, revision: nat, state: P.GameStateSnapshot): (r: seq<Delivery>)
    ensures |r| == |audience| && forall i :: 0 <= i < |r| ==> r[i] == StateUpdate(audience[i], revision, state)
  {
    seq(|audience|, i requires 0 <= i < |audience| => StateUpdate(audience[i], revision, state))
  }

  /** A snapshot that differs from the last one gets the next revision and is sent to everybody in the room. */
  function Observe(m: Match, message: P.Message, audience: seq<R.ConnectionId>): (Match, seq<Delivery>) {
    if !message.hasSnapshot || message.snapshot == m.snapshot then (m, [])
    else
      (m.(snapshot := message.snapshot, revision := m.revision + 1, broadcasts := m.broadcasts + 1),
       Updates(audience, m.revision + 1, message.snapshot))
  }

  function Handle(m: Match, color: PieceColor, message: P.Message, audience: seq<R.ConnectionId>): (Match, seq<Delivery>) {
    var (answered, results) := Answer(m, color, message);
    var (observed, updates) := Observe(answered, message, audience);
    (observed, results + updates)
  }

  /** Whether the coroutine that took the match out goes on to rate the players. */
  predicate IsRated(m: Match, end: End) {
    match end
    case GameFinished => m.snapshot.gameOver
    case RoomCleanup(beforeStart, playerLeft) => !beforeStart && (m.snapshot.gameOver || playerLeft)
  }

  // ----- events

  datatype Event =
    | Pool(e: A.Event)
    | StartTakesFreeShard(room: R.RoomId)
    | StartGetsSpawnedShard(room: R.RoomId, shard: A.Shard)
    | BridgeStarts(i: nat, snapshot: P.GameStateSnapshot)
    | BridgeFails(i: nat)
    | Announced(i: nat)
    | AnnouncementFails(i: nat)
    | StartGivesShardBack(i: nat)
    | BridgeEvent(room: R.RoomId, color: PieceColor, message: P.Message, audience: seq<R.ConnectionId>)
    | Action(room: R.RoomId, started: bool, player: Option<PieceColor>, sequence: int, sender: R.ConnectionId)
    | FinishPops(room: R.RoomId)
    | CleanupPops(room: R.RoomId, beforeStart: bool, playerLeft: bool)
    | Rates(k: nat, applied: bool)
    | EnderGivesShardBack(k: nat)

  /** Events of the allocator that belong to no call of start_match or of a closing coroutine. */
  predicate IsBackground(e: A.Event) {
    e.SpawnReturns? || e.SpawnFails? || e.SpawnCancelled? || e.ReleaseReturns? || e.ReleaseFails? || e.PlaceGivenBack? || e.StaticPutBack?
  }

  /** Every reference leads to a match. */
  ghost predicate WellFormed(s: State) {
    && |s.starts| == |s.all|
    && (forall r :: r in s.matches ==> s.matches[r] < |s.all|)
    && (forall k :: 0 <= k < |s.enders| ==> s.enders[k].game < |s.all|)
  }

  predicate StartIs(s: State, i: nat, start: Start) {
    i < |s.starts| && s.starts[i] == start
  }

  predicate EnderIs(s: State, k: nat, stage: Stage) {
    k < |s.enders| && s.enders[k].stage == stage
  }

  function Begin(s: State, room: R.RoomId, shard: A.Shard): State {
    s.(all := s.all + [NewMatch(room, shard)], starts := s.starts + [Opening])
  }

  /** A later match of the same room displaces an earlier one from the index. */
  function Register(s: State, i: nat, snapshot: P.GameStateSnapshot): State
    requires WellFormed(s) && i < |s.all|
  {
    s.(all := s.all[i := s.all[i].(revision := 1, snapshot := snapshot)],
       starts := s.starts[i := Announcing],
       matches := s.matches[s.all[i].room := i])
  }

  /** Takes the match of the room out of the index; nobody else can find it there any more. */
  function Pop(s: State, room: R.RoomId, end: End): State
    requires WellFormed(s)
  {
    if room !in s.matches then s
    else
      var i := s.matches[room];
      s.(all := s.all[i := s.all[i].(removals := s.all[i].removals + 1)],
         matches := s.matches - {room},
         enders := s.enders + [Ender(i, end, Rating)])
  }

  function Return(limits: A.Limits, s: State, i: nat): State
    requires i < |s.all|
  {
    s.(all := s.all[i := s.all[i].(releases := s.all[i].releases + 1)],
       pool := A.Step(limits, s.pool, A.ReleaseBegins(s.all[i].shard)))
  }

  function RateBy(s: State, k: nat, applied: bool): State
    requires WellFormed(s) && k < |s.enders|
  {
    var i := s.enders[k].game;
    var rated := applied && IsRated(s.all[i], s.enders[k].end);
    s.(all := s.all[i := s.all[i].(ratings := s.all[i].ratings + if rated then 1 else 0)],
       enders := s.enders[k := s.enders[k].(stage := Closing)])
  }

  function Step(limits: A.Limits, s: State, e: Event): State
    requires WellFormed(s)
  {
    match e
    case Pool(a) => if IsBackground(a) then s.(pool := A.Step(limits, s.pool, a)) else s
    case StartTakesFreeShard(room) =>
      var t := s.(pool := A.Step(limits, s.pool, A.AcquireBegins));
      (match A.Acquire(limits, s.pool.pool).1
       case Static(shard) => Begin(t, room, shard)
       case _ => t)
    case StartGetsSpawnedShard(room, shard) =>
      if shard !in s.pool.arriving then s else Begin(s.(pool := A.Step(limits, s.pool, A.SpawnRegistered(shard))), room, shard)
    case BridgeStarts(i, snapshot) => if StartIs(s, i, Opening) then Register(s, i, snapshot) else s
    case BridgeFails(i) => if StartIs(s, i, Opening) then s.(starts := s.starts[i := Failing(false)]) else s
    case Announced(i) => if StartIs(s, i, Announcing) then s.(starts := s.starts[i := Started]) else s
    case AnnouncementFails(i) => if StartIs(s, i, Announcing) then s.(starts := s.starts[i := Failing(true)]) else s
    case StartGivesShardBack(i) =>
      if i < |s.starts| && s.starts[i].Failing? then Return(limits, s, i).(starts := s.starts[i := Failed(s.starts[i].late)]) else s
    case BridgeEvent(room, color, message, audience) =>
      if room !in s.matches then s
      else s.(all := s.all[s.matches[room] := Handle(s.all[s.matches[room]], color, message, audience).0])
    case Action(room, started, color, sequence, sender) =>
      if sequence < 1 || room !in s.matches then s
      else s.(all := s.all[s.matches[room] := Submit(s.all[s.matches[room]], started, color, sequence, sender).0])
    case FinishPops(room) => Pop(s, room, GameFinished)
    case CleanupPops(room, beforeStart, playerLeft) => Pop(s, room, RoomCleanup(beforeStart, playerLeft))
    case Rates(k, applied) => if EnderIs(s, k, Rating) then RateBy(s, k, applied) else s
    case EnderGivesShardBack(k) =>
      if EnderIs(s, k, Closing) then Return(limits, s, s.enders[k].game).(enders := s.enders[k := s.enders[k].(stage := Done)]) else s
  }
}
