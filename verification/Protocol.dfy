/** Messages between server, gateway and clients, and their text form. */
module Protocol {
  import opened Wrappers
  import opened ChessTypes
  import opened Json

  const VERSION := 5

  datatype MessageType =
    | MoveRequest | JumpRequest | MoveAccepted | MoveRejected | PlayerAssigned | WaitingForOpponent | GameStarted
    | GameFull | InvalidUsername | ReconnectRequest | Reconnecting | GameClosed | GameStateUpdated | GameOver

  datatype PieceSnapshot = PieceSnapshot(
    id: int,
    token: string,
    position: Position,
    state: string,
    hasMoved: bool,
    remainingCooldownMs: int,
    totalCooldownMs: int)

  datatype MotionSnapshot = MotionSnapshot(
    pieceId: int,
    source: Position,
    destination: Position,
    currentCell: Position,
    rowStep: int,
    colStep: int,
    directMove: bool,
    stepDurationMs: int,
    nextStepTimeMs: int,
    order: int)

  datatype JumpSnapshot = JumpSnapshot(pieceId: int, cell: Position, finishTimeMs: int)

  datatype MoveHistorySnapshot = MoveHistorySnapshot(
    completedAtMs: int,
    color: string,
    pieceKind: string,
    source: Position,
    destination: Position,
    wasCapture: bool,
    wasPromotion: bool,
    wasJump: bool,
    notation: string)

  datatype GameStateSnapshot = GameStateSnapshot(
    serverTimeMs: int,
    gameOver: bool,
    whiteScore: int,
    blackScore: int,
    whiteUsername: string,
    blackUsername: string,
    playersReady: bool,
    gameplayStartsAtEpochMs: int,
    pieces: seq<PieceSnapshot>,
    motions: seq<MotionSnapshot>,
    jumps: seq<JumpSnapshot>,
    whiteMoveHistory: seq<MoveHistorySnapshot>,
    blackMoveHistory: seq<MoveHistorySnapshot>)

  const EMPTY_SNAPSHOT := GameStateSnapshot(0, false, 0, 0, "", "", false, 0, [], [], [], [], [])

  datatype Message = Message(
    kind: MessageType,
    sequence: nat,
    source: Position,
    destination: Position,
    accepted: bool,
    reason: string,
    playerColor: string,
    reconnectToken: string,
    username: string,
    whiteUsername: string,
    blackUsername: string,
    secondsRemaining: int,
    createdAtMs: int,
    hasSnapshot: bool,
    snapshot: GameStateSnapshot)

  // ----- what the reader accepts

  predicate IsInt(n: int) {
    INT_MIN <= n <= INT_MAX
  }

  predicate IsLongLong(n: int) {
    LLONG_MIN <= n <= LLONG_MAX
  }

  predicate IsBoardPosition(p: Position) {
    0 <= p.row <= 7 && 0 <= p.col <= 7
  }

  predicate IsPositionOrUnused(p: Position) {
    p == Position(-1, -1) || IsBoardPosition(p)
  }

  predicate IsKindChar(c: char) {
    c in "KQRBNP"
  }

  predicate IsValidToken(t: string) {
    |t| == 2 && (t[0] == 'w' || t[0] == 'b') && IsKindChar(t[1])
  }

  predicate IsValidState(t: string) {
    t == "idle" || t == "moving" || t == "airborne" || t == "captured"
  }

  predicate IsValidColor(t: string) {
    t == "w" || t == "b"
  }

  predicate IsValidKind(t: string) {
    |t| == 1 && IsKindChar(t[0])
  }

  predicate ValidPiece(p: PieceSnapshot) {
    && 0 <= p.id <= INT_MAX && IsValidToken(p.token) && IsBoardPosition(p.position) && IsValidState(p.state)
    && 0 <= p.remainingCooldownMs <= p.totalCooldownMs <= LLONG_MAX
  }

  predicate ValidMotion(m: MotionSnapshot) {
    && 0 <= m.pieceId <= INT_MAX && 0 <= m.order <= INT_MAX
    && IsBoardPosition(m.source) && IsBoardPosition(m.destination) && IsBoardPosition(m.currentCell)
    && -1 <= m.rowStep <= 1 && -1 <= m.colStep <= 1
    && 0 <= m.stepDurationMs <= LLONG_MAX && 0 <= m.nextStepTimeMs <= LLONG_MAX
  }

  predicate ValidJump(j: JumpSnapshot) {
    0 <= j.pieceId <= INT_MAX && IsBoardPosition(j.cell) && 0 <= j.finishTimeMs <= LLONG_MAX
  }

  predicate ValidHistory(h: MoveHistorySnapshot) {
    && 0 <= h.completedAtMs <= LLONG_MAX && IsValidColor(h.color) && IsValidKind(h.pieceKind)
    && IsBoardPosition(h.source) && IsBoardPosition(h.destination)
  }

  predicate ValidSnapshot(s: GameStateSnapshot) {
    && 0 <= s.serverTimeMs <= LLONG_MAX && 0 <= s.gameplayStartsAtEpochMs <= LLONG_MAX
    && 0 <= s.whiteScore <= INT_MAX && 0 <= s.blackScore <= INT_MAX
    && (forall p :: p in s.pieces ==> ValidPiece(p))
    && (forall m :: m in s.motions ==> ValidMotion(m))
    && (forall j :: j in s.jumps ==> ValidJump(j))
    && (forall h :: h in s.whiteMoveHistory ==> ValidHistory(h))
    && (forall h :: h in s.blackMoveHistory ==> ValidHistory(h))
  }

  predicate ValidMessage(m: Message) {
    && m.sequence <= LLONG_MAX && IsPositionOrUnused(m.source) && IsPositionOrUnused(m.destination)
    && 0 <= m.secondsRemaining <= INT_MAX && 0 <= m.createdAtMs <= LLONG_MAX
    && (if m.hasSnapshot then ValidSnapshot(m.snapshot) else m.snapshot == EMPTY_SNAPSHOT)
  }

  // ----- what the writer accepts

  predicate EncodablePiece(p: PieceSnapshot) {
    Encodable(p.token) && Encodable(p.state)
  }

  predicate EncodableHistory(h: MoveHistorySnapshot) {
    Encodable(h.color) && Encodable(h.pieceKind) && Encodable(h.notation)
  }

  predicate EncodableSnapshot(s: GameStateSnapshot) {
    && Encodable(s.whiteUsername) && Encodable(s.blackUsername)
    && (forall p :: p in s.pieces ==> EncodablePiece(p))
    && (forall h :: h in s.whiteMoveHistory ==> EncodableHistory(h))
    && (forall h :: h in s.blackMoveHistory ==> EncodableHistory(h))
  }

  /** No text of the message holds an unsupported control character. */
  predicate EncodableMessage(m: Message) {
    && Encodable(m.reason) && Encodable(m.playerColor) && Encodable(m.reconnectToken) && Encodable(m.username)
    && Encodable(m.whiteUsername) && Encodable(m.blackUsername)
    && (m.hasSnapshot ==> EncodableSnapshot(m.snapshot))
  }

  // ----- writing

  function MessageTypeToString(t: MessageType): string {
    match t
    case MoveRequest => "move_request"
    case JumpRequest => "jump_request"
    case MoveAccepted => "move_accepted"
    case MoveRejected => "move_rejected"
    case PlayerAssigned => "player_assigned"
    case WaitingForOpponent => "waiting_for_opponent"
    case GameStarted => "game_started"
    case GameFull => "game_full"
    case InvalidUsername => "invalid_username"
    case ReconnectRequest => "reconnect_request"
    case Reconnecting => "reconnecting"
    case GameClosed => "game_closed"
    case GameStateUpdated => "game_state_updated"
    case GameOver => "game_over"
  }

  function MessageTypeFromString(t: string): Result<MessageType, Error> {
    if t == "move_request" then Ok(MoveRequest)
    else if t == "jump_request" then Ok(JumpRequest)
    else if t == "move_accepted" then Ok(MoveAccepted)
    else if t == "move_rejected" then Ok(MoveRejected)
    else if t == "player_assigned" then Ok(PlayerAssigned)
    else if t == "waiting_for_opponent" then Ok(WaitingForOpponent)
    else if t == "game_started" then Ok(GameStarted)
    else if t == "game_full" then Ok(GameFull)
    else if t == "invalid_username" then Ok(InvalidUsername)
    else if t == "reconnect_request" then Ok(ReconnectRequest)
    else if t == "reconnecting" then Ok(Reconnecting)
    else if t == "game_closed" then Ok(GameClosed)
    else if t == "game_state_updated" then Ok(GameStateUpdated)
    else if t == "game_over" then Ok(GameOver)
    else Err(UnsupportedType)
  }

  lemma MessageTypesAreDistinct(t: MessageType)
    ensures MessageTypeFromString(MessageTypeToString(t)) == Ok(t)
  {
  }

  function PositionFields(p: Position): seq<Field> {
    [Field("row", Number(p.row)), Field("col", Number(p.col))]
  }

  function PieceFields(p: PieceSnapshot): seq<Field> {
    [Field("id", Number(p.id)),
     Field("token", Text(p.token)),
     Field("position", Object(PositionFields(p.position))),
     Field("state", Text(p.state)),
     Field("hasMoved", Boolean(p.hasMoved)),
     Field("remainingCooldownMs", Number(p.remainingCooldownMs)),
     Field("totalCooldownMs", Number(p.totalCooldownMs))]
  }

  function MotionFields(m: MotionSnapshot): seq<Field> {
    [Field("pieceId", Number(m.pieceId)),
     Field("source", Object(PositionFields(m.source))),
     Field("destination", Object(PositionFields(m.destination))),
     Field("currentCell", Object(PositionFields(m.currentCell))),
     Field("rowStep", Number(m.rowStep)),
     Field("colStep", Number(m.colStep)),
     Field("directMove", Boolean(m.directMove)),
     Field("stepDurationMs", Number(m.stepDurationMs)),
     Field("nextStepTimeMs", Number(m.nextStepTimeMs)),
     Field("order", Number(m.order))]
  }

  function JumpFields(j: JumpSnapshot): seq<Field> {
    [Field("pieceId", Number(j.pieceId)),
     Field("cell", Object(PositionFields(j.cell))),
     Field("finishTimeMs", Number(j.finishTimeMs))]
  }

  function HistoryFields(h: MoveHistorySnapshot): seq<Field> {
    [Field("completedAtMs", Number(h.completedAtMs)),
     Field("color", Text(h.color)),
     Field("pieceKind", Text(h.pieceKind)),
     Field("source", Object(PositionFields(h.source))),
     Field("destination", Object(PositionFields(h.destination))),
     Field("wasCapture", Boolean(h.wasCapture)),
     Field("wasPromotion", Boolean(h.wasPromotion)),
     Field("wasJump", Boolean(h.wasJump)),
     Field("notation", Text(h.notation))]
  }

  function Objects<T>(xs: seq<T>, fields: T -> seq<Field>): (vs: seq<Value>)
    ensures |vs| == |xs| && forall i :: 0 <= i < |xs| ==> vs[i] == Object(fields(xs[i]))
  {
    if xs == [] then [] else [Object(fields(xs[0]))] + Objects(xs[1..], fields)
  }

  function SnapshotFields(s: GameStateSnapshot): seq<Field> {
    SummaryFields(s) + ArrayFields(s)
  }

  function SummaryFields(s: GameStateSnapshot): seq<Field> {
    [Field("serverTimeMs", Number(s.serverTimeMs)),
     Field("gameOver", Boolean(s.gameOver)),
     Field("whiteScore", Number(s.whiteScore)),
     Field("blackScore", Number(s.blackScore)),
     Field("whiteUsername", Text(s.whiteUsername)),
     Field("blackUsername", Text(s.blackUsername)),
     Field("playersReady", Boolean(s.playersReady)),
     Field("gameplayStartsAtEpochMs", Number(s.gameplayStartsAtEpochMs))]
  }

  function ArrayFields(s: GameStateSnapshot): seq<Field> {
    [Field("pieces", List(Objects(s.pieces, PieceFields))),
     Field("motions", List(Objects(s.motions, MotionFields))),
     Field("jumps", List(Objects(s.jumps, JumpFields))),
     Field("whiteMoveHistory", List(Objects(s.whiteMoveHistory, HistoryFields))),
     Field("blackMoveHistory", List(Objects(s.blackMoveHistory, HistoryFields)))]
  }

  function HeaderFields(m: Message): seq<Field> {
    [Field("version", Number(VERSION)),
     Field("type", Text(MessageTypeToString(m.kind))),
     Field("sequence", Number(m.sequence)),
     Field("source", Object(PositionFields(m.source))),
     Field("destination", Object(PositionFields(m.destination))),
     Field("accepted", Boolean(m.accepted)),
     Field("reason", Text(m.reason)),
     Field("playerColor", Text(m.playerColor)),
     Field("reconnectToken", Text(m.reconnectToken)),
     Field("username", Text(m.username)),
     Field("whiteUsername", Text(m.whiteUsername)),
     Field("blackUsername", Text(m.blackUsername)),
     Field("secondsRemaining", Number(m.secondsRemaining)),
     Field("createdAtMs", Number(m.createdAtMs)),
     Field("hasSnapshot", Boolean(m.hasSnapshot))]
  }

  function MessageFields(m: Message): seq<Field> {
    HeaderFields(m) + if m.hasSnapshot then [Field("snapshot", Object(SnapshotFields(m.snapshot)))] else []
  }

  function Serialize(m: Message): Result<string, Error> {
    if EncodableMessage(m) then Ok(Print(Object(MessageFields(m)))) else Err(UnsupportedControlCharacter)
  }

  // ----- reading

  function Check(condition: bool, error: Error): (r: Result<(), Error>)
    ensures r.Ok? <==> condition
  {
    if condition then Ok(()) else Err(error)
  }

  function ReadPosition(t: string, key: string, allowUnused: bool): (r: Result<Position, Error>)
    ensures r.Ok? ==> IsBoardPosition(r.value) || (allowUnused && r.value == Position(-1, -1))
  {
    var inner :- ReadObject(t, key);
    var row :- ReadInt(inner, "row");
    var col :- ReadInt(inner, "col");
    var p := Position(row, col);
    if allowUnused && row == -1 && col == -1 then Ok(p)
    else if !IsBoardPosition(p) then Err(OutsideTheBoard(key))
    else Ok(p)
  }

  function ReadPiece(t: string): (r: Result<PieceSnapshot, Error>)
    ensures r.Ok? ==> ValidPiece(r.value)
  {
    var id :- ReadInt(t, "id");
    var token :- ReadString(t, "token");
    var position :- ReadPosition(t, "position", false);
    var state :- ReadString(t, "state");
    var hasMoved :- ReadBool(t, "hasMoved");
    var remaining :- ReadSigned(t, "remainingCooldownMs");
    var total :- ReadSigned(t, "totalCooldownMs");
    var _ :- Check(id >= 0, InvalidPiece);
    var _ :- Check(IsValidToken(token), InvalidPiece);
    var _ :- Check(IsValidState(state), InvalidPiece);
    var _ :- Check(remaining >= 0, Negative("remainingCooldownMs"));
    var _ :- Check(total >= 0, Negative("totalCooldownMs"));
    var _ :- Check(remaining <= total, InvalidPiece);
    Ok(PieceSnapshot(id, token, position, state, hasMoved, remaining, total))
  }

  function ReadMotion(t: string): (r: Result<MotionSnapshot, Error>)
    ensures r.Ok? ==> ValidMotion(r.value)
  {
    var pieceId :- ReadInt(t, "pieceId");
    var source :- ReadPosition(t, "source", false);
    var destination :- ReadPosition(t, "destination", false);
    var currentCell :- ReadPosition(t, "currentCell", false);
    var rowStep :- ReadInt(t, "rowStep");
    var colStep :- ReadInt(t, "colStep");
    var directMove :- ReadBool(t, "directMove");
    var stepDurationMs :- ReadSigned(t, "stepDurationMs");
    var nextStepTimeMs :- ReadSigned(t, "nextStepTimeMs");
    var order :- ReadInt(t, "order");
    var _ :- Check(pieceId >= 0, InvalidMotion);
    var _ :- Check(-1 <= rowStep <= 1 && -1 <= colStep <= 1, InvalidMotion);
    var _ :- Check(stepDurationMs >= 0, Negative("stepDurationMs"));
    var _ :- Check(nextStepTimeMs >= 0, Negative("nextStepTimeMs"));
    var _ :- Check(order >= 0, InvalidMotion);
    Ok(MotionSnapshot(pieceId, source, destination, currentCell, rowStep, colStep, directMove, stepDurationMs, nextStepTimeMs, order))
  }

  function ReadJump(t: string): (r: Result<JumpSnapshot, Error>)
    ensures r.Ok? ==> ValidJump(r.value)
  {
    var pieceId :- ReadInt(t, "pieceId");
    var cell :- ReadPosition(t, "cell", false);
    var finishTimeMs :- ReadSigned(t, "finishTimeMs");
    var _ :- Check(pieceId >= 0, InvalidJump);
    var _ :- Check(finishTimeMs >= 0, Negative("finishTimeMs"));
    Ok(JumpSnapshot(pieceId, cell, finishTimeMs))
  }

  function ReadHistory(t: string): (r: Result<MoveHistorySnapshot, Error>)
    ensures r.Ok? ==> ValidHistory(r.value)
  {
    var completedAtMs :- ReadSigned(t, "completedAtMs");
    var color :- ReadString(t, "color");
    var pieceKind :- ReadString(t, "pieceKind");
    var source :- ReadPosition(t, "source", false);
    var destination :- ReadPosition(t, "destination", false);
    var wasCapture :- ReadBool(t, "wasCapture");
    var wasPromotion :- ReadBool(t, "wasPromotion");
    var wasJump :- ReadBool(t, "wasJump");
    var notation :- ReadString(t, "notation");
    var _ :- Check(completedAtMs >= 0, Negative("completedAtMs"));
    var _ :- Check(IsValidColor(color), InvalidHistory);
    var _ :- Check(IsValidKind(pieceKind), InvalidHistory);
    Ok(MoveHistorySnapshot(completedAtMs, color, pieceKind, source, destination, wasCapture, wasPromotion, wasJump, notation))
  }

  function ReadAll<T>(ts: seq<string>, read: string -> Result<T, Error>): (r: Result<seq<T>, Error>)
    ensures r.Ok? ==> |r.value| == |ts| && forall i :: 0 <= i < |ts| ==> read(ts[i]) == Ok(r.value[i])
  {
    if ts == [] then Ok([])
    else
      var first :- read(ts[0]);
      var rest :- ReadAll(ts[1..], read);
      Ok([first] + rest)
  }

  function ReadArrayOf<T>(t: string, key: string, read: string -> Result<T, Error>): (r: Result<seq<T>, Error>)
    ensures r.Ok? ==> forall x :: x in r.value ==> exists u :: read(u) == Ok(x)
  {
    var ts :- ReadObjectArray(t, key);
    ReadAll(ts, read)
  }

  function ReadSnapshot(t: string): (r: Result<GameStateSnapshot, Error>)
    ensures r.Ok? ==> ValidSnapshot(r.value)
  {
    var serverTimeMs :- ReadSigned(t, "serverTimeMs");
    var gameOver :- ReadBool(t, "gameOver");
    var whiteScore :- ReadInt(t, "whiteScore");
    var blackScore :- ReadInt(t, "blackScore");
    var whiteUsername :- ReadString(t, "whiteUsername");
    var blackUsername :- ReadString(t, "blackUsername");
    var playersReady :- ReadBool(t, "playersReady");
    var gameplayStartsAtEpochMs :- ReadSigned(t, "gameplayStartsAtEpochMs");
    var _ :- Check(serverTimeMs >= 0, Negative("serverTimeMs"));
    var _ :- Check(gameplayStartsAtEpochMs >= 0, Negative("gameplayStartsAtEpochMs"));
    var _ :- Check(whiteScore >= 0 && blackScore >= 0, InvalidScores);
    var pieces :- ReadArrayOf(t, "pieces", ReadPiece);
    var motions :- ReadArrayOf(t, "motions", ReadMotion);
    var jumps :- ReadArrayOf(t, "jumps", ReadJump);
    var whiteMoveHistory :- ReadArrayOf(t, "whiteMoveHistory", ReadHistory);
    var blackMoveHistory :- ReadArrayOf(t, "blackMoveHistory", ReadHistory);
    Ok(GameStateSnapshot(serverTimeMs, gameOver, whiteScore, blackScore, whiteUsername, blackUsername, playersReady,
                         gameplayStartsAtEpochMs, pieces, motions, jumps, whiteMoveHistory, blackMoveHistory))
  }

  function Deserialize(t: string): (r: Result<Message, Error>)
    ensures r.Ok? ==> ValidMessage(r.value)
  {
    if t == [] || t[0] != '{' || t[|t| - 1] != '}' then Err(InvalidMessage)
    else
      var version :- ReadSigned(t, "version");
      if version != VERSION then Err(UnsupportedVersion)
      else
        var typeText :- ReadString(t, "type");
        var kind :- MessageTypeFromString(typeText);
        var sequence :- ReadUnsigned(t, "sequence");
        var source :- ReadPosition(t, "source", true);
        var destination :- ReadPosition(t, "destination", true);
        var accepted :- ReadBool(t, "accepted");
        var reason :- ReadString(t, "reason");
        var playerColor :- ReadString(t, "playerColor");
        var reconnectToken :- ReadString(t, "reconnectToken");
        var username :- ReadString(t, "username");
        var whiteUsername :- ReadString(t, "whiteUsername");
        var blackUsername :- ReadString(t, "blackUsername");
        var secondsRemaining :- ReadInt(t, "secondsRemaining");
        var createdAtMs :- ReadSigned(t, "createdAtMs");
        var hasSnapshot :- ReadBool(t, "hasSnapshot");
        var _ :- Check(createdAtMs >= 0, Negative("createdAtMs"));
        var _ :- Check(secondsRemaining >= 0, Negative("secondsRemaining"));
        var snapshot :- if hasSnapshot then ReadEmbeddedSnapshot(t) else Ok(EMPTY_SNAPSHOT);
        Ok(Message(kind, sequence, source, destination, accepted, reason, playerColor, reconnectToken, username,
                   whiteUsername, blackUsername, secondsRemaining, createdAtMs, hasSnapshot, snapshot))
  }

  function ReadEmbeddedSnapshot(t: string): (r: Result<GameStateSnapshot, Error>)
    ensures r.Ok? ==> ValidSnapshot(r.value)
  {
    var inner :- ReadObject(t, "snapshot");
    ReadSnapshot(inner)
  }
}
