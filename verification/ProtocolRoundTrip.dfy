/** What is written is read back: the round trip of whole messages. */
module ProtocolRoundTrip {
  import opened Wrappers
  import opened ChessTypes
  import opened Json
  import opened JsonRoundTrip
  import opened Protocol

  // ----- fields by position

  predicate DistinctKeys(fs: seq<Field>) {
    forall i, j :: 0 <= i < j < |fs| ==> fs[i].key != fs[j].key
  }

  lemma {:induction false} LookupAt(fs: seq<Field>, i: nat)
    requires DistinctKeys(fs) && i < |fs|
    ensures Lookup(fs, fs[i].key) == Some(fs[i].value)
  {
    if i > 0 {
      LookupAt(fs[1..], i - 1);
    }
  }

  /** Every field of a printed object can be read under its key. */
  ghost predicate Carries(t: string, fs: seq<Field>) {
    forall i :: 0 <= i < |fs| ==> Has(t, fs[i].key, fs[i].value)
  }

  lemma PrintedObjectCarries(fs: seq<Field>)
    requires WellFormedFields(fs) && DistinctKeys(fs)
    ensures Carries(Print(Object(fs)), fs)
  {
    hide Has, Print, WellFormedFields;
    forall i | 0 <= i < |fs| ensures Has(Print(Object(fs)), fs[i].key, fs[i].value) {
      LookupAt(fs, i);
      PrintedFieldsAreFound(fs, fs[i].key);
    }
  }

  lemma CarriedInt(t: string, fs: seq<Field>, i: nat)
    requires Carries(t, fs) && i < |fs| && fs[i].value.Number? && IsLongLong(fs[i].value.n)
    ensures ReadSigned(t, fs[i].key) == Ok(fs[i].value.n)
    ensures IsInt(fs[i].value.n) ==> ReadInt(t, fs[i].key) == Ok(fs[i].value.n)
    ensures fs[i].value.n >= 0 ==> ReadUnsigned(t, fs[i].key) == Ok(fs[i].value.n)
  {
    hide Has, ReadSigned;
    assert Has(t, fs[i].key, fs[i].value);
    ReadsInteger(t, fs[i].key, fs[i].value.n);
  }

  lemma CarriedText(t: string, fs: seq<Field>, i: nat)
    requires Carries(t, fs) && i < |fs| && fs[i].value.Text?
    ensures ReadString(t, fs[i].key) == Ok(fs[i].value.t)
  {
    hide Has;
    ReadsText(t, fs[i].key, fs[i].value.t);
  }

  lemma CarriedBool(t: string, fs: seq<Field>, i: nat)
    requires Carries(t, fs) && i < |fs| && fs[i].value.Boolean?
    ensures ReadBool(t, fs[i].key) == Ok(fs[i].value.b)
  {
    hide Has;
    ReadsBoolean(t, fs[i].key, fs[i].value.b);
  }

  // ----- positions

  lemma PositionKeysArePlain()
    ensures Plain("row")
    ensures Plain("col")
  {
  }

  lemma PositionFieldsAreFine(p: Position)
    ensures WellFormedFields(PositionFields(p)) && DistinctKeys(PositionFields(p))
  {
    hide Plain;
    PositionKeysArePlain();
  }

  lemma PositionIsRead(t: string, p: Position)
    requires IsPositionOrUnused(p) && t == Print(Object(PositionFields(p)))
    ensures ReadInt(t, "row") == Ok(p.row) && ReadInt(t, "col") == Ok(p.col)
  {
    var fs := PositionFields(p);
    PositionFieldsAreFine(p);
    PrintedObjectCarries(fs);
    hide Carries, Print, ReadInt, ReadSigned;
    CarriedInt(t, fs, 0);
    CarriedInt(t, fs, 1);
  }

  lemma CarriedPosition(t: string, fs: seq<Field>, i: nat, p: Position, allowUnused: bool)
    requires Carries(t, fs) && i < |fs| && fs[i].value == Object(PositionFields(p))
    requires IsBoardPosition(p) || (allowUnused && p == Position(-1, -1))
    ensures ReadPosition(t, fs[i].key, allowUnused) == Ok(p)
  {
    hide Has, ReadInt, Print;
    assert Has(t, fs[i].key, fs[i].value);
    PositionFieldsAreFine(p);
    ReadsObject(t, fs[i].key, PositionFields(p));
    PositionIsRead(Print(Object(PositionFields(p))), p);
  }

  // ----- the parts of a snapshot

  lemma PieceKeysArePlain()
    ensures Plain("id")
    ensures Plain("token")
    ensures Plain("position")
    ensures Plain("state")
    ensures Plain("hasMoved")
    ensures Plain("remainingCooldownMs")
    ensures Plain("totalCooldownMs")
  {
  }

  lemma PieceFieldsAreFine(p: PieceSnapshot)
    ensures WellFormedFields(PieceFields(p)) && DistinctKeys(PieceFields(p))
  {
    hide Plain;
    PieceKeysArePlain();
    PositionFieldsAreFine(p.position);
  }

  lemma PieceIsRead(p: PieceSnapshot)
    requires ValidPiece(p)
    ensures ReadPiece(Print(Object(PieceFields(p)))) == Ok(p)
  {
    var fs := PieceFields(p);
    var t := Print(Object(fs));
    PieceFieldsAreFine(p);
    PrintedObjectCarries(fs);
    hide Carries, Print, WellFormedFields, DistinctKeys, ReadInt, ReadSigned, ReadString, ReadBool, ReadPosition;
    CarriedInt(t, fs, 0);
    CarriedText(t, fs, 1);
    CarriedPosition(t, fs, 2, p.position, false);
    CarriedText(t, fs, 3);
    CarriedBool(t, fs, 4);
    CarriedInt(t, fs, 5);
    CarriedInt(t, fs, 6);
  }

  lemma MotionKeysArePlain()
    ensures Plain("pieceId")
    ensures Plain("source")
    ensures Plain("destination")
    ensures Plain("currentCell")
    ensures Plain("rowStep")
    ensures Plain("colStep")
    ensures Plain("directMove")
    ensures Plain("stepDurationMs")
    ensures Plain("nextStepTimeMs")
    ensures Plain("order")
  {
  }

  lemma MotionFieldsAreFine(m: MotionSnapshot)
    ensures WellFormedFields(MotionFields(m)) && DistinctKeys(MotionFields(m))
  {
    hide Plain;
    MotionKeysArePlain();
    PositionFieldsAreFine(m.source);
    PositionFieldsAreFine(m.destination);
    PositionFieldsAreFine(m.currentCell);
  }

  lemma MotionCellsAreRead(t: string, m: MotionSnapshot)
    requires Carries(t, MotionFields(m)) && ValidMotion(m)
    ensures ReadPosition(t, "source", false) == Ok(m.source)
    ensures ReadPosition(t, "destination", false) == Ok(m.destination)
    ensures ReadPosition(t, "currentCell", false) == Ok(m.currentCell)
    ensures ReadBool(t, "directMove") == Ok(m.directMove)
  {
    hide Carries, ReadBool, ReadPosition;
    var fs := MotionFields(m);
    CarriedPosition(t, fs, 1, m.source, false);
    CarriedPosition(t, fs, 2, m.destination, false);
    CarriedPosition(t, fs, 3, m.currentCell, false);
    CarriedBool(t, fs, 6);
  }

  lemma MotionNumbersAreRead(t: string, m: MotionSnapshot)
    requires Carries(t, MotionFields(m)) && ValidMotion(m)
    ensures ReadInt(t, "pieceId") == Ok(m.pieceId)
    ensures ReadInt(t, "rowStep") == Ok(m.rowStep)
    ensures ReadInt(t, "colStep") == Ok(m.colStep)
    ensures ReadSigned(t, "stepDurationMs") == Ok(m.stepDurationMs)
    ensures ReadSigned(t, "nextStepTimeMs") == Ok(m.nextStepTimeMs)
    ensures ReadInt(t, "order") == Ok(m.order)
  {
    hide Carries, ReadInt, ReadSigned;
    var fs := MotionFields(m);
    CarriedInt(t, fs, 0);
    CarriedInt(t, fs, 4);
    CarriedInt(t, fs, 5);
    CarriedInt(t, fs, 7);
    CarriedInt(t, fs, 8);
    CarriedInt(t, fs, 9);
  }

  lemma MotionIsRead(m: MotionSnapshot)
    requires ValidMotion(m)
    ensures ReadMotion(Print(Object(MotionFields(m)))) == Ok(m)
  {
    hide Carries, Print, MotionFields, WellFormedFields, DistinctKeys, ReadInt, ReadSigned, ReadBool, ReadPosition;
    var t := Print(Object(MotionFields(m)));
    MotionFieldsAreFine(m);
    PrintedObjectCarries(MotionFields(m));
    MotionCellsAreRead(t, m);
    MotionNumbersAreRead(t, m);
  }

  lemma JumpKeysArePlain()
    ensures Plain("pieceId")
    ensures Plain("cell")
    ensures Plain("finishTimeMs")
  {
  }

  lemma JumpFieldsAreFine(j: JumpSnapshot)
    ensures WellFormedFields(JumpFields(j)) && DistinctKeys(JumpFields(j))
  {
    hide Plain;
    JumpKeysArePlain();
    PositionFieldsAreFine(j.cell);
  }

  lemma JumpIsRead(j: JumpSnapshot)
    requires ValidJump(j)
    ensures ReadJump(Print(Object(JumpFields(j)))) == Ok(j)
  {
    var fs := JumpFields(j);
    var t := Print(Object(fs));
    JumpFieldsAreFine(j);
    PrintedObjectCarries(fs);
    hide Carries, Print, WellFormedFields, DistinctKeys, ReadInt, ReadSigned, ReadString, ReadBool, ReadPosition;
    CarriedInt(t, fs, 0);
    CarriedPosition(t, fs, 1, j.cell, false);
    CarriedInt(t, fs, 2);
  }

  lemma HistoryKeysArePlain()
    ensures Plain("completedAtMs")
    ensures Plain("color")
    ensures Plain("pieceKind")
    ensures Plain("source")
    ensures Plain("destination")
    ensures Plain("wasCapture")
    ensures Plain("wasPromotion")
    ensures Plain("wasJump")
    ensures Plain("notation")
  {
  }

  lemma HistoryFieldsAreFine(h: MoveHistorySnapshot)
    ensures WellFormedFields(HistoryFields(h)) && DistinctKeys(HistoryFields(h))
  {
    hide Plain;
    HistoryKeysArePlain();
    PositionFieldsAreFine(h.source);
    PositionFieldsAreFine(h.destination);
  }

  lemma HistoryIsRead(h: MoveHistorySnapshot)
    requires ValidHistory(h)
    ensures ReadHistory(Print(Object(HistoryFields(h)))) == Ok(h)
  {
    var fs := HistoryFields(h);
    var t := Print(Object(fs));
    HistoryFieldsAreFine(h);
    PrintedObjectCarries(fs);
    hide Carries, Print, WellFormedFields, DistinctKeys, ReadInt, ReadSigned, ReadString, ReadBool, ReadPosition;
    CarriedInt(t, fs, 0);
    CarriedText(t, fs, 1);
    CarriedText(t, fs, 2);
    CarriedPosition(t, fs, 3, h.source, false);
    CarriedPosition(t, fs, 4, h.destination, false);
    CarriedBool(t, fs, 5);
    CarriedBool(t, fs, 6);
    CarriedBool(t, fs, 7);
    CarriedText(t, fs, 8);
  }

  // ----- arrays

  lemma {:induction false} ReadAllInverts<T>(ts: seq<string>, read: string -> Result<T, Error>, xs: seq<T>)
    requires |ts| == |xs| && forall i :: 0 <= i < |ts| ==> read(ts[i]) == Ok(xs[i])
    ensures ReadAll(ts, read) == Ok(xs)
  {
    if ts != [] {
      assert read(ts[0]) == Ok(xs[0]);
      ReadAllInverts(ts[1..], read, xs[1..]);
      assert [xs[0]] + xs[1..] == xs;
    }
  }

  /** An array is read back if each of its objects is. */
  lemma CarriedArray<T>(t: string, fs: seq<Field>, i: nat, xs: seq<T>, fields: T -> seq<Field>, read: string -> Result<T, Error>)
    requires Carries(t, fs) && i < |fs| && fs[i].value == List(Objects(xs, fields))
    requires forall x :: x in xs ==> WellFormedFields(fields(x)) && read(Print(Object(fields(x)))) == Ok(x)
    ensures ReadArrayOf(t, fs[i].key, read) == Ok(xs)
  {
    hide Has, Print;
    var vs := Objects(xs, fields);
    assert Has(t, fs[i].key, fs[i].value);
    assert forall k :: 0 <= k < |vs| ==> xs[k] in xs && WellFormed(vs[k]);
    ReadsObjectArray(t, fs[i].key, vs);
    ReadAllInverts(Texts(vs), read, xs);
  }

  // ----- snapshots

  lemma SnapshotScalarKeysArePlain()
    ensures Plain("serverTimeMs")
    ensures Plain("gameOver")
    ensures Plain("whiteScore")
    ensures Plain("blackScore")
  {
  }

  lemma SnapshotPlayerKeysArePlain()
    ensures Plain("whiteUsername")
    ensures Plain("blackUsername")
    ensures Plain("playersReady")
    ensures Plain("gameplayStartsAtEpochMs")
  {
  }

  lemma SnapshotListKeysArePlain()
    ensures Plain("pieces")
    ensures Plain("motions")
    ensures Plain("jumps")
    ensures Plain("whiteMoveHistory")
    ensures Plain("blackMoveHistory")
  {
  }

  lemma ListsAreWellFormed<T>(xs: seq<T>, fields: T -> seq<Field>)
    requires forall x :: x in xs ==> WellFormedFields(fields(x))
    ensures WellFormed(List(Objects(xs, fields)))
  {
    var vs := Objects(xs, fields);
    assert forall k :: 0 <= k < |vs| ==> xs[k] in xs && WellFormed(vs[k]);
  }

  lemma SnapshotListsAreFine(s: GameStateSnapshot)
    ensures WellFormed(List(Objects(s.pieces, PieceFields)))
    ensures WellFormed(List(Objects(s.motions, MotionFields)))
    ensures WellFormed(List(Objects(s.jumps, JumpFields)))
    ensures WellFormed(List(Objects(s.whiteMoveHistory, HistoryFields)))
    ensures WellFormed(List(Objects(s.blackMoveHistory, HistoryFields)))
  {
    hide WellFormed, WellFormedFields;
    forall p | p in s.pieces ensures WellFormedFields(PieceFields(p)) { PieceFieldsAreFine(p); }
    forall m | m in s.motions ensures WellFormedFields(MotionFields(m)) { MotionFieldsAreFine(m); }
    forall j | j in s.jumps ensures WellFormedFields(JumpFields(j)) { JumpFieldsAreFine(j); }
    forall h ensures WellFormedFields(HistoryFields(h)) { HistoryFieldsAreFine(h); }
    ListsAreWellFormed(s.pieces, PieceFields);
    ListsAreWellFormed(s.motions, MotionFields);
    ListsAreWellFormed(s.jumps, JumpFields);
    ListsAreWellFormed(s.whiteMoveHistory, HistoryFields);
    ListsAreWellFormed(s.blackMoveHistory, HistoryFields);
  }

  lemma SummaryFieldsAreFine(s: GameStateSnapshot)
    ensures WellFormedFields(SummaryFields(s))
  {
    hide Plain;
    SnapshotScalarKeysArePlain();
    SnapshotPlayerKeysArePlain();
  }

  lemma ArrayFieldsAreFine(s: GameStateSnapshot)
    ensures WellFormedFields(ArrayFields(s))
  {
    hide Plain, WellFormed;
    SnapshotListKeysArePlain();
    SnapshotListsAreFine(s);
  }

  lemma SummaryKeysAreDistinct(s: GameStateSnapshot)
    ensures DistinctKeys(SummaryFields(s)) && DistinctKeys(ArrayFields(s))
  {
  }

  lemma SummaryAndArrayKeysDiffer(s: GameStateSnapshot)
    ensures forall i, j :: 0 <= i < |SummaryFields(s)| && 0 <= j < |ArrayFields(s)| ==> SummaryFields(s)[i].key != ArrayFields(s)[j].key
  {
  }

  lemma SnapshotKeysAreDistinct(s: GameStateSnapshot)
    ensures DistinctKeys(SnapshotFields(s))
  {
    hide SummaryFields, ArrayFields;
    SummaryKeysAreDistinct(s);
    SummaryAndArrayKeysDiffer(s);
  }

  lemma SnapshotFieldsAreFine(s: GameStateSnapshot)
    ensures WellFormedFields(SnapshotFields(s)) && DistinctKeys(SnapshotFields(s))
  {
    SummaryFieldsAreFine(s);
    ArrayFieldsAreFine(s);
    SnapshotKeysAreDistinct(s);
    hide SummaryFields, ArrayFields, WellFormed, Plain, DistinctKeys;
  }

  lemma SnapshotNumbersAreRead(t: string, s: GameStateSnapshot)
    requires Carries(t, SnapshotFields(s)) && ValidSnapshot(s)
    ensures ReadSigned(t, "serverTimeMs") == Ok(s.serverTimeMs)
    ensures ReadInt(t, "whiteScore") == Ok(s.whiteScore)
    ensures ReadInt(t, "blackScore") == Ok(s.blackScore)
    ensures ReadSigned(t, "gameplayStartsAtEpochMs") == Ok(s.gameplayStartsAtEpochMs)
  {
    hide Carries, ReadInt, ReadSigned;
    var fs := SnapshotFields(s);
    CarriedInt(t, fs, 0);
    CarriedInt(t, fs, 2);
    CarriedInt(t, fs, 3);
    CarriedInt(t, fs, 7);
  }

  lemma SnapshotTextsAreRead(t: string, s: GameStateSnapshot)
    requires Carries(t, SnapshotFields(s))
    ensures ReadBool(t, "gameOver") == Ok(s.gameOver)
    ensures ReadString(t, "whiteUsername") == Ok(s.whiteUsername)
    ensures ReadString(t, "blackUsername") == Ok(s.blackUsername)
    ensures ReadBool(t, "playersReady") == Ok(s.playersReady)
  {
    hide Carries, ReadBool, ReadString;
    var fs := SnapshotFields(s);
    CarriedBool(t, fs, 1);
    CarriedText(t, fs, 4);
    CarriedText(t, fs, 5);
    CarriedBool(t, fs, 6);
  }

  lemma SnapshotPiecesAreRead(t: string, s: GameStateSnapshot)
    requires Carries(t, SnapshotFields(s)) && ValidSnapshot(s)
    ensures ReadArrayOf(t, "pieces", ReadPiece) == Ok(s.pieces)
  {
    hide Carries, WellFormedFields, ReadArrayOf, ReadPiece, Print;
    forall p | p in s.pieces
      ensures WellFormedFields(PieceFields(p)) && ReadPiece(Print(Object(PieceFields(p)))) == Ok(p)
    {
      PieceFieldsAreFine(p);
      PieceIsRead(p);
    }
    CarriedArray(t, SnapshotFields(s), 8, s.pieces, PieceFields, ReadPiece);
  }

  lemma SnapshotMotionsAreRead(t: string, s: GameStateSnapshot)
    requires Carries(t, SnapshotFields(s)) && ValidSnapshot(s)
    ensures ReadArrayOf(t, "motions", ReadMotion) == Ok(s.motions)
  {
    hide Carries, WellFormedFields, ReadArrayOf, ReadMotion, Print;
    forall m | m in s.motions
      ensures WellFormedFields(MotionFields(m)) && ReadMotion(Print(Object(MotionFields(m)))) == Ok(m)
    {
      MotionFieldsAreFine(m);
      MotionIsRead(m);
    }
    CarriedArray(t, SnapshotFields(s), 9, s.motions, MotionFields, ReadMotion);
  }

  lemma SnapshotJumpsAreRead(t: string, s: GameStateSnapshot)
    requires Carries(t, SnapshotFields(s)) && ValidSnapshot(s)
    ensures ReadArrayOf(t, "jumps", ReadJump) == Ok(s.jumps)
  {
    hide Carries, WellFormedFields, ReadArrayOf, ReadJump, Print;
    forall j | j in s.jumps
      ensures WellFormedFields(JumpFields(j)) && ReadJump(Print(Object(JumpFields(j)))) == Ok(j)
    {
      JumpFieldsAreFine(j);
      JumpIsRead(j);
    }
    CarriedArray(t, SnapshotFields(s), 10, s.jumps, JumpFields, ReadJump);
  }

  lemma SnapshotHistoriesAreRead(t: string, s: GameStateSnapshot)
    requires Carries(t, SnapshotFields(s)) && ValidSnapshot(s)
    ensures ReadArrayOf(t, "whiteMoveHistory", ReadHistory) == Ok(s.whiteMoveHistory)
    ensures ReadArrayOf(t, "blackMoveHistory", ReadHistory) == Ok(s.blackMoveHistory)
  {
    hide Carries, WellFormedFields, ReadArrayOf, ReadHistory, Print;
    forall h | h in s.whiteMoveHistory || h in s.blackMoveHistory
      ensures WellFormedFields(HistoryFields(h)) && ReadHistory(Print(Object(HistoryFields(h)))) == Ok(h)
    {
      HistoryFieldsAreFine(h);
      HistoryIsRead(h);
    }
    CarriedArray(t, SnapshotFields(s), 11, s.whiteMoveHistory, HistoryFields, ReadHistory);
    CarriedArray(t, SnapshotFields(s), 12, s.blackMoveHistory, HistoryFields, ReadHistory);
  }

  /** A valid snapshot is read back whole: scores, names, pieces, motions, jumps and both histories. */
  lemma SnapshotIsRead(s: GameStateSnapshot)
    requires ValidSnapshot(s)
    ensures ReadSnapshot(Print(Object(SnapshotFields(s)))) == Ok(s)
  {
    hide Carries, Print, SnapshotFields, WellFormedFields, DistinctKeys, ReadInt, ReadSigned, ReadBool, ReadString, ReadArrayOf;
    var t := Print(Object(SnapshotFields(s)));
    SnapshotFieldsAreFine(s);
    PrintedObjectCarries(SnapshotFields(s));
    SnapshotNumbersAreRead(t, s);
    SnapshotTextsAreRead(t, s);
    SnapshotPiecesAreRead(t, s);
    SnapshotMotionsAreRead(t, s);
    SnapshotJumpsAreRead(t, s);
    SnapshotHistoriesAreRead(t, s);
  }

  // ----- messages

  lemma FirstHeaderKeysArePlain()
    ensures Plain("version")
    ensures Plain("type")
    ensures Plain("sequence")
    ensures Plain("source")
    ensures Plain("destination")
    ensures Plain("accepted")
    ensures Plain("reason")
    ensures Plain("playerColor")
  {
  }

  lemma LastHeaderKeysArePlain()
    ensures Plain("reconnectToken")
    ensures Plain("username")
    ensures Plain("whiteUsername")
    ensures Plain("blackUsername")
    ensures Plain("secondsRemaining")
    ensures Plain("createdAtMs")
    ensures Plain("hasSnapshot")
  {
  }

  lemma HeaderFieldsAreFine(m: Message)
    ensures WellFormedFields(HeaderFields(m)) && DistinctKeys(HeaderFields(m))
  {
    hide Plain;
    FirstHeaderKeysArePlain();
    LastHeaderKeysArePlain();
    PositionFieldsAreFine(m.source);
    PositionFieldsAreFine(m.destination);
  }

  lemma MessageFieldsAreFine(m: Message)
    ensures WellFormedFields(MessageFields(m)) && DistinctKeys(MessageFields(m))
  {
    hide HeaderFields, SnapshotFields, Plain;
    HeaderFieldsAreFine(m);
    if m.hasSnapshot {
      SnapshotKeyIsPlain();
      SnapshotFieldsAreFine(m.snapshot);
      NoHeaderFieldIsTheSnapshot(m);
    }
  }

  lemma SnapshotKeyIsPlain()
    ensures Plain("snapshot")
  {
  }

  lemma NoHeaderFieldIsTheSnapshot(m: Message)
    ensures forall i :: 0 <= i < |HeaderFields(m)| ==> HeaderFields(m)[i].key != "snapshot"
  {
  }

  lemma HeaderNumbersAreRead(t: string, m: Message)
    requires Carries(t, HeaderFields(m)) && ValidMessage(m)
    ensures ReadSigned(t, "version") == Ok(VERSION)
    ensures ReadUnsigned(t, "sequence") == Ok(m.sequence)
    ensures ReadInt(t, "secondsRemaining") == Ok(m.secondsRemaining)
    ensures ReadSigned(t, "createdAtMs") == Ok(m.createdAtMs)
  {
    hide Carries, ReadInt, ReadSigned, ReadUnsigned;
    var fs := HeaderFields(m);
    CarriedInt(t, fs, 0);
    CarriedInt(t, fs, 2);
    CarriedInt(t, fs, 12);
    CarriedInt(t, fs, 13);
  }

  lemma HeaderTextsAreRead(t: string, m: Message)
    requires Carries(t, HeaderFields(m))
    ensures ReadString(t, "type") == Ok(MessageTypeToString(m.kind))
    ensures ReadString(t, "reason") == Ok(m.reason)
    ensures ReadString(t, "playerColor") == Ok(m.playerColor)
    ensures ReadString(t, "reconnectToken") == Ok(m.reconnectToken)
    ensures ReadString(t, "username") == Ok(m.username)
    ensures ReadString(t, "whiteUsername") == Ok(m.whiteUsername)
    ensures ReadString(t, "blackUsername") == Ok(m.blackUsername)
  {
    hide Carries, ReadString, MessageTypeToString;
    var fs := HeaderFields(m);
    CarriedText(t, fs, 1);
    CarriedText(t, fs, 6);
    CarriedText(t, fs, 7);
    CarriedText(t, fs, 8);
    CarriedText(t, fs, 9);
    CarriedText(t, fs, 10);
    CarriedText(t, fs, 11);
  }

  lemma HeaderCellsAreRead(t: string, m: Message)
    requires Carries(t, HeaderFields(m)) && ValidMessage(m)
    ensures ReadPosition(t, "source", true) == Ok(m.source)
    ensures ReadPosition(t, "destination", true) == Ok(m.destination)
    ensures ReadBool(t, "accepted") == Ok(m.accepted)
    ensures ReadBool(t, "hasSnapshot") == Ok(m.hasSnapshot)
  {
    hide Carries, ReadPosition, ReadBool;
    var fs := HeaderFields(m);
    CarriedPosition(t, fs, 3, m.source, true);
    CarriedPosition(t, fs, 4, m.destination, true);
    CarriedBool(t, fs, 5);
    CarriedBool(t, fs, 14);
  }

  lemma EmbeddedSnapshotIsRead(t: string, m: Message)
    requires Carries(t, MessageFields(m)) && m.hasSnapshot && ValidMessage(m)
    ensures ReadEmbeddedSnapshot(t) == Ok(m.snapshot)
  {
    hide Has, HeaderFields, SnapshotFields, WellFormedFields, ReadObject, ReadSnapshot, Print;
    var fs := MessageFields(m);
    assert fs[|fs| - 1] == Field("snapshot", Object(SnapshotFields(m.snapshot)));
    SnapshotFieldsAreFine(m.snapshot);
    ReadsObject(t, "snapshot", SnapshotFields(m.snapshot));
    SnapshotIsRead(m.snapshot);
  }

  lemma HeaderIsCarried(t: string, m: Message)
    requires Carries(t, MessageFields(m))
    ensures Carries(t, HeaderFields(m))
  {
    hide HeaderFields, Has;
    forall i | 0 <= i < |HeaderFields(m)| ensures Has(t, HeaderFields(m)[i].key, HeaderFields(m)[i].value) {
      assert MessageFields(m)[i] == HeaderFields(m)[i];
    }
  }

  lemma BracesSurroundObjects(fs: seq<Field>)
    ensures var t := Print(Object(fs)); |t| >= 2 && t[0] == '{' && t[|t| - 1] == '}'
  {
  }

  lemma RoundTrip(m: Message)
    requires ValidMessage(m) && EncodableMessage(m)
    ensures Serialize(m).Ok? && Deserialize(Serialize(m).value) == Ok(m)
  {
    hide Carries, Print, HeaderFields, MessageFields, ValidSnapshot, EncodableMessage, WellFormedFields, DistinctKeys, ReadInt,
         ReadSigned, ReadUnsigned, ReadBool, ReadString, ReadPosition, ReadEmbeddedSnapshot, MessageTypeToString, MessageTypeFromString;
    var t := Print(Object(MessageFields(m)));
    MessageFieldsAreFine(m);
    PrintedObjectCarries(MessageFields(m));
    BracesSurroundObjects(MessageFields(m));
    HeaderIsCarried(t, m);
    HeaderNumbersAreRead(t, m);
    HeaderTextsAreRead(t, m);
    HeaderCellsAreRead(t, m);
    MessageTypesAreDistinct(m.kind);
    if m.hasSnapshot {
      EmbeddedSnapshotIsRead(t, m);
    }
  }

  /** A message survives the wire exactly when it is valid and encodable: its numbers are in range, its positions,
      tokens, states, colours and kinds are known ones, no cooldown exceeds its total, a snapshot is present only if announced,
      and no text holds an unsupported control character. */
  lemma RoundTripExactly(m: Message)
    ensures (Serialize(m).Ok? && Deserialize(Serialize(m).value) == Ok(m)) <==> (ValidMessage(m) && EncodableMessage(m))
  {
    hide ValidMessage, EncodableMessage, Print, MessageFields, Deserialize;
    if ValidMessage(m) && EncodableMessage(m) {
      RoundTrip(m);
    }
  }

  /** A snapshot that is not announced is lost on the wire, and nothing else is. */
  lemma UnannouncedSnapshotIsLost(m: Message)
    requires !m.hasSnapshot && EncodableMessage(m) && ValidMessage(m.(snapshot := EMPTY_SNAPSHOT))
    ensures Serialize(m).Ok? && Deserialize(Serialize(m).value) == Ok(m.(snapshot := EMPTY_SNAPSHOT))
  {
    hide ValidMessage, Print, Deserialize;
    RoundTrip(m.(snapshot := EMPTY_SNAPSHOT));
    assert MessageFields(m) == MessageFields(m.(snapshot := EMPTY_SNAPSHOT));
  }

  /** Two valid messages with the same text are the same message. */
  lemma SerializeIsInjective(m: Message, n: Message)
    requires ValidMessage(m) && ValidMessage(n) && Serialize(m).Ok? && Serialize(m) == Serialize(n)
    ensures m == n
  {
    hide ValidMessage, Print, MessageFields, Deserialize;
    RoundTrip(m);
    RoundTrip(n);
  }
}
