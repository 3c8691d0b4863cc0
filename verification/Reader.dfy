/** The readers of the protocol as they run: records filled field by field, vectors by loops over the texts of their objects. */
module Reader {
  import opened Wrappers
  import opened ChessTypes
  import J = Json
  import P = Protocol
  import S = Scanner
  import W = WireText
  import opened ProtocolRoundTrip

  method ReadPosition(json: string, key: string, allowUnused: bool) returns (r: Result<Position, J.Error>)
    ensures r == P.ReadPosition(json, key, allowUnused)
    ensures r.Ok? ==> P.IsBoardPosition(r.value) || (allowUnused && r.value == Position(-1, -1))
  {
    var inner :- S.ReadObject(json, key);
    var row :- S.ReadInt(inner, "row");
    var col :- S.ReadInt(inner, "col");
    var position := Position(row, col);
    if allowUnused && row == -1 && col == -1 {
      return Ok(position);
    }
    if !P.IsBoardPosition(position) {
      return Err(J.OutsideTheBoard(key));
    }
    return Ok(position);
  }

  method ReadPiece(t: string) returns (r: Result<P.PieceSnapshot, J.Error>)
    ensures r == P.ReadPiece(t)
  {
    hide J.ReadInt, J.ReadString, J.ReadBool, J.ReadSigned, P.ReadPosition;
    var id :- S.ReadInt(t, "id");
    var token :- S.ReadString(t, "token");
    var position :- ReadPosition(t, "position", false);
    var state :- S.ReadString(t, "state");
    var hasMoved :- S.ReadBool(t, "hasMoved");
    var remaining :- S.ReadSigned(t, "remainingCooldownMs");
    var total :- S.ReadSigned(t, "totalCooldownMs");
    if id < 0 || !P.IsValidToken(token) || !P.IsValidState(state) {
      return Err(J.InvalidPiece);
    }
    if remaining < 0 {
      return Err(J.Negative("remainingCooldownMs"));
    }
    if total < 0 {
      return Err(J.Negative("totalCooldownMs"));
    }
    if remaining > total {
      return Err(J.InvalidPiece);
    }
    return Ok(P.PieceSnapshot(id, token, position, state, hasMoved, remaining, total));
  }

  method ReadMotion(t: string) returns (r: Result<P.MotionSnapshot, J.Error>)
    ensures r == P.ReadMotion(t)
  {
    hide J.ReadInt, J.ReadString, J.ReadBool, J.ReadSigned, P.ReadPosition;
    var pieceId :- S.ReadInt(t, "pieceId");
    var source :- ReadPosition(t, "source", false);
    var destination :- ReadPosition(t, "destination", false);
    var currentCell :- ReadPosition(t, "currentCell", false);
    var rowStep :- S.ReadInt(t, "rowStep");
    var colStep :- S.ReadInt(t, "colStep");
    var directMove :- S.ReadBool(t, "directMove");
    var stepDurationMs :- S.ReadSigned(t, "stepDurationMs");
    var nextStepTimeMs :- S.ReadSigned(t, "nextStepTimeMs");
    var order :- S.ReadInt(t, "order");
    if pieceId < 0 || rowStep < -1 || rowStep > 1 || colStep < -1 || colStep > 1 {
      return Err(J.InvalidMotion);
    }
    if stepDurationMs < 0 {
      return Err(J.Negative("stepDurationMs"));
    }
    if nextStepTimeMs < 0 {
      return Err(J.Negative("nextStepTimeMs"));
    }
    if order < 0 {
      return Err(J.InvalidMotion);
    }
    return Ok(P.MotionSnapshot(pieceId, source, destination, currentCell, rowStep, colStep, directMove,
                               stepDurationMs, nextStepTimeMs, order));
  }

  method ReadJump(t: string) returns (r: Result<P.JumpSnapshot, J.Error>)
    ensures r == P.ReadJump(t)
  {
    hide J.ReadInt, J.ReadSigned, P.ReadPosition;
    var pieceId :- S.ReadInt(t, "pieceId");
    var cell :- ReadPosition(t, "cell", false);
    var finishTimeMs :- S.ReadSigned(t, "finishTimeMs");
    if pieceId < 0 {
      return Err(J.InvalidJump);
    }
    if finishTimeMs < 0 {
      return Err(J.Negative("finishTimeMs"));
    }
    return Ok(P.JumpSnapshot(pieceId, cell, finishTimeMs));
  }

  method ReadHistory(t: string) returns (r: Result<P.MoveHistorySnapshot, J.Error>)
    ensures r == P.ReadHistory(t)
  {
    hide J.ReadString, J.ReadBool, J.ReadSigned, P.ReadPosition;
    var completedAtMs :- S.ReadSigned(t, "completedAtMs");
    var color :- S.ReadString(t, "color");
    var pieceKind :- S.ReadString(t, "pieceKind");
    var source :- ReadPosition(t, "source", false);
    var destination :- ReadPosition(t, "destination", false);
    var wasCapture :- S.ReadBool(t, "wasCapture");
    var wasPromotion :- S.ReadBool(t, "wasPromotion");
    var wasJump :- S.ReadBool(t, "wasJump");
    var notation :- S.ReadString(t, "notation");
    if completedAtMs < 0 {
      return Err(J.Negative("completedAtMs"));
    }
    if !P.IsValidColor(color) || !P.IsValidKind(pieceKind) {
      return Err(J.InvalidHistory);
    }
    return Ok(P.MoveHistorySnapshot(completedAtMs, color, pieceKind, source, destination, wasCapture, wasPromotion, wasJump, notation));
  }

  // ----- vectors

  /** The first text that cannot be read decides. */
  lemma {:induction false} ReadingFails<T>(ts: seq<string>, read: string -> Result<T, J.Error>, xs: seq<T>)
    requires |xs| < |ts| && (forall k :: 0 <= k < |xs| ==> read(ts[k]) == Ok(xs[k])) && read(ts[|xs|]).Err?
    ensures P.ReadAll(ts, read) == Err(read(ts[|xs|]).error)
  {
    if xs != [] {
      assert read(ts[0]) == Ok(xs[0]);
      ReadingFails(ts[1..], read, xs[1..]);
    }
  }

  method ReadPieces(json: string, key: string) returns (r: Result<seq<P.PieceSnapshot>, J.Error>)
    ensures r == P.ReadArrayOf(json, key, P.ReadPiece)
  {
    hide P.ReadPiece, J.ReadObjectArray;
    var texts :- S.ReadObjectArray(json, key);
    var items: seq<P.PieceSnapshot> := [];
    for i := 0 to |texts|
      invariant |items| == i && forall k :: 0 <= k < i ==> P.ReadPiece(texts[k]) == Ok(items[k])
    {
      var item := ReadPiece(texts[i]);
      if item.Err? {
        ReadingFails(texts, P.ReadPiece, items);
        return Err(item.error);
      }
      items := items + [item.value];
    }
    ReadAllInverts(texts, P.ReadPiece, items);
    return Ok(items);
  }

  method ReadMotions(json: string, key: string) returns (r: Result<seq<P.MotionSnapshot>, J.Error>)
    ensures r == P.ReadArrayOf(json, key, P.ReadMotion)
  {
    hide P.ReadMotion, J.ReadObjectArray;
    var texts :- S.ReadObjectArray(json, key);
    var items: seq<P.MotionSnapshot> := [];
    for i := 0 to |texts|
      invariant |items| == i && forall k :: 0 <= k < i ==> P.ReadMotion(texts[k]) == Ok(items[k])
    {
      var item := ReadMotion(texts[i]);
      if item.Err? {
        ReadingFails(texts, P.ReadMotion, items);
        return Err(item.error);
      }
      items := items + [item.value];
    }
    ReadAllInverts(texts, P.ReadMotion, items);
    return Ok(items);
  }

  method ReadJumps(json: string, key: string) returns (r: Result<seq<P.JumpSnapshot>, J.Error>)
    ensures r == P.ReadArrayOf(json, key, P.ReadJump)
  {
    hide P.ReadJump, J.ReadObjectArray;
    var texts :- S.ReadObjectArray(json, key);
    var items: seq<P.JumpSnapshot> := [];
    for i := 0 to |texts|
      invariant |items| == i && forall k :: 0 <= k < i ==> P.ReadJump(texts[k]) == Ok(items[k])
    {
      var item := ReadJump(texts[i]);
      if item.Err? {
        ReadingFails(texts, P.ReadJump, items);
        return Err(item.error);
      }
      items := items + [item.value];
    }
    ReadAllInverts(texts, P.ReadJump, items);
    return Ok(items);
  }

  method ReadHistories(json: string, key: string) returns (r: Result<seq<P.MoveHistorySnapshot>, J.Error>)
    ensures r == P.ReadArrayOf(json, key, P.ReadHistory)
  {
    hide P.ReadHistory, J.ReadObjectArray;
    var texts :- S.ReadObjectArray(json, key);
    var items: seq<P.MoveHistorySnapshot> := [];
    for i := 0 to |texts|
      invariant |items| == i && forall k :: 0 <= k < i ==> P.ReadHistory(texts[k]) == Ok(items[k])
    {
      var item := ReadHistory(texts[i]);
      if item.Err? {
        ReadingFails(texts, P.ReadHistory, items);
        return Err(item.error);
      }
      items := items + [item.value];
    }
    ReadAllInverts(texts, P.ReadHistory, items);
    return Ok(items);
  }

  // ----- whole snapshots and messages

  method ReadSnapshot(t: string) returns (r: Result<P.GameStateSnapshot, J.Error>)
    ensures r == P.ReadSnapshot(t)
  {
    hide J.ReadInt, J.ReadString, J.ReadBool, J.ReadSigned, P.ReadArrayOf;
    var serverTimeMs :- S.ReadSigned(t, "serverTimeMs");
    var gameOver :- S.ReadBool(t, "gameOver");
    var whiteScore :- S.ReadInt(t, "whiteScore");
    var blackScore :- S.ReadInt(t, "blackScore");
    var whiteUsername :- S.ReadString(t, "whiteUsername");
    var blackUsername :- S.ReadString(t, "blackUsername");
    var playersReady :- S.ReadBool(t, "playersReady");
    var gameplayStartsAtEpochMs :- S.ReadSigned(t, "gameplayStartsAtEpochMs");
    if serverTimeMs < 0 {
      return Err(J.Negative("serverTimeMs"));
    }
    if gameplayStartsAtEpochMs < 0 {
      return Err(J.Negative("gameplayStartsAtEpochMs"));
    }
    if whiteScore < 0 || blackScore < 0 {
      return Err(J.InvalidScores);
    }
    var pieces :- ReadPieces(t, "pieces");
    var motions :- ReadMotions(t, "motions");
    var jumps :- ReadJumps(t, "jumps");
    var whiteMoveHistory :- ReadHistories(t, "whiteMoveHistory");
    var blackMoveHistory :- ReadHistories(t, "blackMoveHistory");
    return Ok(P.GameStateSnapshot(serverTimeMs, gameOver, whiteScore, blackScore, whiteUsername, blackUsername, playersReady,
                                  gameplayStartsAtEpochMs, pieces, motions, jumps, whiteMoveHistory, blackMoveHistory));
  }

  method ReadEmbeddedSnapshot(t: string) returns (r: Result<P.GameStateSnapshot, J.Error>)
    ensures r == P.ReadEmbeddedSnapshot(t)
  {
    hide P.ReadSnapshot, J.ReadObject;
    var inner :- S.ReadObject(t, "snapshot");
    r := ReadSnapshot(inner);
  }

  lemma WrittenIsRead(t: string)
    ensures forall m :: P.ValidMessage(m) && P.EncodableMessage(m) && t == W.MessageText(m) ==> P.Deserialize(t) == Ok(m)
  {
    hide P.ValidMessage, P.EncodableMessage, P.Serialize, P.Deserialize, W.MessageText;
    forall m | P.ValidMessage(m) && P.EncodableMessage(m) && t == W.MessageText(m) ensures P.Deserialize(t) == Ok(m) {
      W.WhatIsWritten(m);
      RoundTrip(m);
    }
  }

  /** The message a text stands for, or the first thing wrong with it. */
  method Deserialize(t: string) returns (r: Result<P.Message, J.Error>)
    ensures r == P.Deserialize(t)
    ensures r.Ok? ==> P.ValidMessage(r.value)
    ensures forall m :: P.ValidMessage(m) && P.EncodableMessage(m) && t == W.MessageText(m) ==> r == Ok(m)
  {
    WrittenIsRead(t);
    hide P.ValidMessage, P.EncodableMessage, W.MessageText;
    hide J.ReadInt, J.ReadString, J.ReadBool, J.ReadSigned, J.ReadUnsigned, P.ReadPosition, P.MessageTypeFromString, P.ReadEmbeddedSnapshot;
    if t == [] || t[0] != '{' || t[|t| - 1] != '}' {
      return Err(J.InvalidMessage);
    }
    var version :- S.ReadSigned(t, "version");
    if version != P.VERSION {
      return Err(J.UnsupportedVersion);
    }
    var typeText :- S.ReadString(t, "type");
    var kind :- P.MessageTypeFromString(typeText);
    var sequence :- S.ReadUnsigned(t, "sequence");
    var source :- ReadPosition(t, "source", true);
    var destination :- ReadPosition(t, "destination", true);
    var accepted :- S.ReadBool(t, "accepted");
    var reason :- S.ReadString(t, "reason");
    var playerColor :- S.ReadString(t, "playerColor");
    var reconnectToken :- S.ReadString(t, "reconnectToken");
    var username :- S.ReadString(t, "username");
    var whiteUsername :- S.ReadString(t, "whiteUsername");
    var blackUsername :- S.ReadString(t, "blackUsername");
    var secondsRemaining :- S.ReadInt(t, "secondsRemaining");
    var createdAtMs :- S.ReadSigned(t, "createdAtMs");
    var hasSnapshot :- S.ReadBool(t, "hasSnapshot");
    if createdAtMs < 0 {
      return Err(J.Negative("createdAtMs"));
    }
    if secondsRemaining < 0 {
      return Err(J.Negative("secondsRemaining"));
    }
    var snapshot := P.EMPTY_SNAPSHOT;
    if hasSnapshot {
      snapshot :- ReadEmbeddedSnapshot(t);
    }
    return Ok(P.Message(kind, sequence, source, destination, accepted, reason, playerColor, reconnectToken, username,
                        whiteUsername, blackUsername, secondsRemaining, createdAtMs, hasSnapshot, snapshot));
  }
}
