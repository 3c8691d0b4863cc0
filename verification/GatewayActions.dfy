/** The actions of clients on their way through the gateway: it forwards the cells as it got them, and the server reads what it can. */
module GatewayActions {
  import opened Wrappers
  import opened ChessTypes
  import opened Decimal
  import opened Json
  import opened JsonRoundTrip
  import opened Protocol
  import opened ProtocolRoundTrip
  import opened WireText
  import M = Matches

  // ----- what the gateway takes for a cell

  function Keys(fs: seq<Field>): set<string> {
    set f | f in fs :: f.key
  }

  function Scalar(v: Value): M.Value {
    match v
    case Number(n) => M.Int(n)
    case Boolean(b) => M.Bool(b)
    case _ => M.Other
  }

  /** An object of a client's message as the gateway sees it. */
  function Received(fs: seq<Field>): M.Value {
    M.Object(map key | key in Keys(fs) && Lookup(fs, key).Some? :: Scalar(Lookup(fs, key).value))
  }

  lemma KeysAreLookedUp(fs: seq<Field>, key: string)
    ensures key in Keys(fs) <==> Lookup(fs, key).Some?
  {
    if Lookup(fs, key).Some? {
      var i :| 0 <= i < |fs| && fs[i] == Field(key, Lookup(fs, key).value);
      assert fs[i] in fs;
    }
    if key in Keys(fs) {
      var f :| f in fs && f.key == key;
      var i :| 0 <= i < |fs| && fs[i] == f;
      assert fs[i].key == key;
    }
  }

  predicate IsCoordinateValue(v: Option<Value>) {
    v.Some? && ((v.value.Number? && 0 <= v.value.n <= 7) || v.value.Boolean?)
  }

  /** A cell is an object whose row and column are integers from 0 to 7 or truth values, whatever else it holds. */
  lemma WhatPassesForACell(fs: seq<Field>)
    ensures M.IsCell(Received(fs)) <==> IsCoordinateValue(Lookup(fs, "row")) && IsCoordinateValue(Lookup(fs, "col"))
  {
    KeysAreLookedUp(fs, "row");
    KeysAreLookedUp(fs, "col");
    hide Lookup, Keys;
  }

  /** A sequence number is an integer from 1 on, and no truth value. */
  lemma WhatPassesForASequence(v: M.Value)
    ensures M.IsSequence(v) <==> v.Int? && v.n > 0
  {
  }

  // ----- what the server reads

  /** A cell whose row and column are both numbers. */
  predicate Numeric(fs: seq<Field>) {
    Lookup(fs, "row").Some? && Lookup(fs, "row").value.Number? && Lookup(fs, "col").Some? && Lookup(fs, "col").value.Number?
  }

  function CellIn(fs: seq<Field>): Position
    requires Numeric(fs)
  {
    Position(Lookup(fs, "row").value.n, Lookup(fs, "col").value.n)
  }

  lemma TruthIsNoNumber(t: string, key: string, b: bool)
    requires Has(t, key, Boolean(b))
    ensures ReadInt(t, key).Err?
  {
    var p := FindValue(t, key).value;
    AtChar(t, p, BoolText(b), 0);
    assert t[p] == 't' || t[p] == 'f';
  }

  lemma CoordinateIsRead(fs: seq<Field>, key: string)
    requires WellFormedFields(fs) && IsCoordinateValue(Lookup(fs, key))
    ensures var v := Lookup(fs, key).value;
            var r := ReadInt(Print(Object(fs)), key);
            if v.Number? then r == Ok(v.n) else r.Err?
  {
    hide Print, Has, WellFormedFields;
    PrintedFieldsAreFound(fs, key);
    match Lookup(fs, key).value
    case Number(n) => ReadsInteger(Print(Object(fs)), key, n);
    case Boolean(b) => TruthIsNoNumber(Print(Object(fs)), key, b);
  }

  lemma CellIsRead(t: string, key: string, fs: seq<Field>)
    requires Has(t, key, Object(fs)) && WellFormedFields(fs)
    requires IsCoordinateValue(Lookup(fs, "row")) && IsCoordinateValue(Lookup(fs, "col"))
    ensures if Numeric(fs) then ReadPosition(t, key, true) == Ok(CellIn(fs)) else ReadPosition(t, key, true).Err?
  {
    hide Print, Has, WellFormedFields, ReadInt;
    ReadsObject(t, key, fs);
    CoordinateIsRead(fs, "row");
    CoordinateIsRead(fs, "col");
  }

  const NOWHERE := Position(-1, -1)

  function ActionFields(kind: MessageType, sequence: nat, source: seq<Field>, destination: seq<Field>): seq<Field> {
    HeaderFields(FromGateway(kind, sequence, "", NOWHERE, NOWHERE))[3 := Field("source", Object(source))][4 := Field("destination", Object(destination))]
  }

  lemma ActionFieldsAreFine(kind: MessageType, sequence: nat, source: seq<Field>, destination: seq<Field>)
    requires WellFormedFields(source) && WellFormedFields(destination)
    ensures WellFormedFields(ActionFields(kind, sequence, source, destination)) && DistinctKeys(ActionFields(kind, sequence, source, destination))
  {
    hide Plain, MessageTypeToString;
    FirstHeaderKeysArePlain();
    LastHeaderKeysArePlain();
  }

  /** The text sent is the printed action. */
  lemma ActionSpelled(kind: MessageType, sequence: nat, source: seq<Field>, destination: seq<Field>)
    ensures Print(Object(ActionFields(kind, sequence, source, destination)))
         == GatewayText(TypeName(kind), sequence, "", Print(Object(source)), Print(Object(destination)))
  {
    var m := FromGateway(kind, sequence, "", NOWHERE, NOWHERE);
    EmptyTexts();
    hide IntText, Print, CellText, TypeName, Braced, Escape, Named;
    HeaderSpelled(m);
    var members := HeaderMembers(m)[3 := Named("source", Print(Object(source)))][4 := Named("destination", Print(Object(destination)))];
    assert members == [Named("version", "5"), Named("type", TypeText(kind)), Named("sequence", IntText(sequence)),
                       Named("source", Print(Object(source))), Named("destination", Print(Object(destination))),
                       Named("accepted", "false"), Named("reason", "\"\""), Named("playerColor", "\"\""),
                       Named("reconnectToken", "\"\""), Named("username", Quoted("")), Named("whiteUsername", "\"\""),
                       Named("blackUsername", "\"\""), Named("secondsRemaining", "0"), Named("createdAtMs", "0"), Named("hasSnapshot", "false")];
    ObjectSpelled(members, ActionFields(kind, sequence, source, destination));
  }

  lemma ActionHeaderIsRead(t: string, kind: MessageType, sequence: nat, source: seq<Field>, destination: seq<Field>)
    requires Carries(t, ActionFields(kind, sequence, source, destination))
    ensures ReadSigned(t, "version") == Ok(VERSION) && ReadString(t, "type") == Ok(MessageTypeToString(kind))
    ensures ReadUnsigned(t, "sequence") == if sequence <= LLONG_MAX then Ok(sequence) else Err(NotAnInteger("sequence"))
    ensures ReadInt(t, "secondsRemaining") == Ok(0) && ReadSigned(t, "createdAtMs") == Ok(0)
    ensures ReadBool(t, "accepted") == Ok(false) && ReadBool(t, "hasSnapshot") == Ok(false)
  {
    hide Has, ReadInt, ReadSigned, ReadString, ReadBool, MessageTypeToString;
    var fs := ActionFields(kind, sequence, source, destination);
    assert fs[2].key == "sequence";
    CarriedInt(t, fs, 0);
    CarriedText(t, fs, 1);
    ReadsInteger(t, "sequence", sequence);
    CarriedBool(t, fs, 5);
    CarriedInt(t, fs, 12);
    CarriedInt(t, fs, 13);
    CarriedBool(t, fs, 14);
  }

  lemma ActionCellsAreThere(t: string, kind: MessageType, sequence: nat, source: seq<Field>, destination: seq<Field>)
    requires Carries(t, ActionFields(kind, sequence, source, destination))
    ensures Has(t, "source", Object(source)) && Has(t, "destination", Object(destination))
  {
    hide Has, MessageTypeToString;
    var fs := ActionFields(kind, sequence, source, destination);
    assert fs[3] == Field("source", Object(source)) && fs[4] == Field("destination", Object(destination));
  }

  lemma ActionTextsAreRead(t: string, kind: MessageType, sequence: nat, source: seq<Field>, destination: seq<Field>)
    requires Carries(t, ActionFields(kind, sequence, source, destination))
    ensures ReadString(t, "reason") == Ok("") && ReadString(t, "playerColor") == Ok("") && ReadString(t, "reconnectToken") == Ok("")
    ensures ReadString(t, "username") == Ok("") && ReadString(t, "whiteUsername") == Ok("") && ReadString(t, "blackUsername") == Ok("")
  {
    hide Carries, ReadString, MessageTypeToString;
    var fs := ActionFields(kind, sequence, source, destination);
    CarriedText(t, fs, 6);
    CarriedText(t, fs, 7);
    CarriedText(t, fs, 8);
    CarriedText(t, fs, 9);
    CarriedText(t, fs, 10);
    CarriedText(t, fs, 11);
  }

  lemma ActionIsRead(t: string, kind: MessageType, sequence: nat, source: seq<Field>, destination: seq<Field>)
    requires Carries(t, ActionFields(kind, sequence, source, destination)) && |t| >= 2 && t[0] == '{' && t[|t| - 1] == '}'
    ensures var from, to := ReadPosition(t, "source", true), ReadPosition(t, "destination", true);
            && (Deserialize(t).Ok? <==> sequence <= LLONG_MAX && from.Ok? && to.Ok?)
            && (Deserialize(t).Ok? ==> Deserialize(t) == Ok(FromGateway(kind, sequence, "", from.value, to.value)))
  {
    hide Carries, Has, ActionFields, ReadInt, ReadSigned, ReadUnsigned, ReadString, ReadBool, ReadPosition, ReadEmbeddedSnapshot,
         MessageTypeToString, MessageTypeFromString;
    ActionHeaderIsRead(t, kind, sequence, source, destination);
    ActionTextsAreRead(t, kind, sequence, source, destination);
    MessageTypesAreDistinct(kind);
  }

  /** An action that the gateway accepts and forwards is read by the server as that action on those cells if and only if its
      coordinates are numbers and its sequence number fits 64 bits; a truth value that passes for a coordinate does not arrive. */
  lemma WhichActionsArrive(kind: MessageType, sequence: nat, source: seq<Field>, destination: seq<Field>)
    requires M.IsSequence(M.Int(sequence)) && M.IsCell(Received(source)) && M.IsCell(Received(destination))
    requires WellFormedFields(source) && WellFormedFields(destination)
    ensures var text := GatewayText(TypeName(kind), sequence, "", Print(Object(source)), Print(Object(destination)));
            && (Deserialize(text).Ok? <==> sequence < 0x8000_0000_0000_0000 && Numeric(source) && Numeric(destination))
            && (Deserialize(text).Ok? ==>
                  Deserialize(text) == Ok(FromGateway(kind, sequence, "", CellIn(source), CellIn(destination))))
  {
    var fs := ActionFields(kind, sequence, source, destination);
    var t := Print(Object(fs));
    WhatPassesForACell(source);
    WhatPassesForACell(destination);
    ActionFieldsAreFine(kind, sequence, source, destination);
    BracesSurroundObjects(fs);
    hide Print, Has, Carries, WellFormedFields, DistinctKeys, Lookup, GatewayText, M.IsCell, Received, ActionFields, IsCoordinateValue,
         Deserialize, ReadPosition, TypeName;
    ActionSpelled(kind, sequence, source, destination);
    PrintedObjectCarries(fs);
    ActionCellsAreThere(t, kind, sequence, source, destination);
    ActionIsRead(t, kind, sequence, source, destination);
    CellIsRead(t, "source", source);
    CellIsRead(t, "destination", destination);
  }

  lemma RowAndColumn(v: Value, w: Value)
    requires !v.Object? && !v.List? && !w.Object? && !w.List?
    ensures var fs := [Field("row", v), Field("col", w)];
            WellFormedFields(fs) && Lookup(fs, "row") == Some(v) && Lookup(fs, "col") == Some(w)
  {
    hide Plain;
    PositionKeysArePlain();
    var fs := [Field("row", v), Field("col", w)];
    assert fs[1..] == [Field("col", w)];
  }

  /** The client's {"row":true,"col":4}: the gateway takes it for a cell and its text is sent, but the server cannot read the move. */
  lemma ATruthfulRow()
    ensures var source := [Field("row", Boolean(true)), Field("col", Number(4))];
            var destination := [Field("row", Number(2)), Field("col", Number(4))];
            && M.IsCell(Received(source)) && M.IsCell(Received(destination))
            && Deserialize(GatewayText("move_request", 1, "", Print(Object(source)), Print(Object(destination)))).Err?
  {
    hide Print, GatewayText, Deserialize, Lookup, WellFormedFields, Received, M.IsCell;
    var source := [Field("row", Boolean(true)), Field("col", Number(4))];
    var destination := [Field("row", Number(2)), Field("col", Number(4))];
    RowAndColumn(Boolean(true), Number(4));
    RowAndColumn(Number(2), Number(4));
    WhatPassesForACell(source);
    WhatPassesForACell(destination);
    WhichActionsArrive(MoveRequest, 1, source, destination);
  }
}
