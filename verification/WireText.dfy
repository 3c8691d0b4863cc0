/** The messages as they stand on the wire, spelled out key by key, and the text that the gateway sends to the server. */
module WireText {
  import opened Wrappers
  import opened ChessTypes
  import opened Decimal
  import opened Json
  import opened Protocol
  import opened JsonRoundTrip
  import opened ProtocolRoundTrip

  // ----- objects and lists as text

  function Named(key: string, text: string): string {
    "\"" + key + "\":" + text
  }

  function CommaSeparated(parts: seq<string>): string {
    if parts == [] then "" else if |parts| == 1 then parts[0] else parts[0] + "," + CommaSeparated(parts[1..])
  }

  function Braced(members: seq<string>): string {
    "{" + CommaSeparated(members) + "}"
  }

  function Bracketed(items: seq<string>): string {
    "[" + CommaSeparated(items) + "]"
  }

  function Quoted(t: string): string {
    "\"" + Escape(t) + "\""
  }

  function TrueOrFalse(b: bool): string {
    if b then "true" else "false"
  }

  // ----- the messages

  function CellText(p: Position): string {
    Braced([Named("row", IntText(p.row)), Named("col", IntText(p.col))])
  }

  function PieceText(p: PieceSnapshot): string {
    Braced([Named("id", IntText(p.id)), Named("token", Quoted(p.token)), Named("position", CellText(p.position)),
            Named("state", Quoted(p.state)), Named("hasMoved", TrueOrFalse(p.hasMoved)),
            Named("remainingCooldownMs", IntText(p.remainingCooldownMs)), Named("totalCooldownMs", IntText(p.totalCooldownMs))])
  }

  function MotionText(m: MotionSnapshot): string {
    Braced([Named("pieceId", IntText(m.pieceId)), Named("source", CellText(m.source)), Named("destination", CellText(m.destination)),
            Named("currentCell", CellText(m.currentCell)), Named("rowStep", IntText(m.rowStep)), Named("colStep", IntText(m.colStep)),
            Named("directMove", TrueOrFalse(m.directMove)), Named("stepDurationMs", IntText(m.stepDurationMs)),
            Named("nextStepTimeMs", IntText(m.nextStepTimeMs)), Named("order", IntText(m.order))])
  }

  function JumpText(j: JumpSnapshot): string {
    Braced([Named("pieceId", IntText(j.pieceId)), Named("cell", CellText(j.cell)), Named("finishTimeMs", IntText(j.finishTimeMs))])
  }

  function HistoryText(h: MoveHistorySnapshot): string {
    Braced([Named("completedAtMs", IntText(h.completedAtMs)), Named("color", Quoted(h.color)), Named("pieceKind", Quoted(h.pieceKind)),
            Named("source", CellText(h.source)), Named("destination", CellText(h.destination)),
            Named("wasCapture", TrueOrFalse(h.wasCapture)), Named("wasPromotion", TrueOrFalse(h.wasPromotion)),
            Named("wasJump", TrueOrFalse(h.wasJump)), Named("notation", Quoted(h.notation))])
  }

  function Texts<T>(xs: seq<T>, text: T -> string): (ts: seq<string>)
    ensures |ts| == |xs| && forall i :: 0 <= i < |xs| ==> ts[i] == text(xs[i])
  {
    seq(|xs|, i requires 0 <= i < |xs| => text(xs[i]))
  }

  function SnapshotText(s: GameStateSnapshot): string {
    Braced(SummaryMembers(s) + ArrayMembers(s))
  }

  function SummaryMembers(s: GameStateSnapshot): seq<string> {
    [Named("serverTimeMs", IntText(s.serverTimeMs)), Named("gameOver", TrueOrFalse(s.gameOver)),
     Named("whiteScore", IntText(s.whiteScore)), Named("blackScore", IntText(s.blackScore)),
     Named("whiteUsername", Quoted(s.whiteUsername)), Named("blackUsername", Quoted(s.blackUsername)),
     Named("playersReady", TrueOrFalse(s.playersReady)),
     Named("gameplayStartsAtEpochMs", IntText(s.gameplayStartsAtEpochMs))]
  }

  function ArrayMembers(s: GameStateSnapshot): seq<string> {
    [Named("pieces", Bracketed(Texts(s.pieces, PieceText))), Named("motions", Bracketed(Texts(s.motions, MotionText))),
     Named("jumps", Bracketed(Texts(s.jumps, JumpText))),
     Named("whiteMoveHistory", Bracketed(Texts(s.whiteMoveHistory, HistoryText))),
     Named("blackMoveHistory", Bracketed(Texts(s.blackMoveHistory, HistoryText)))]
  }

  function TypeName(t: MessageType): string {
    match t
    case MoveRequest => "move_request"
    case JumpRequest => "jump_request"
    case MoveAccepted => "move_accepted"
    case MoveRejected => "move_rejected"
    case PlayerAssigned => "player_assigned"
    case WaitingForOpponent => "waiting_for_opponent"
    case GameStarted => "game_started"
    case GameFull => "game_full"
    case InvalidUsername => "invalid_username"
    case ReconnectRequest => "reconnect_request"
    case Reconnecting => "reconnecting"
    case GameClosed => "game_closed"
    case GameStateUpdated => "game_state_updated"
    case GameOver => "game_over"
  }

  function TypeText(t: MessageType): string {
    "\"" + TypeName(t) + "\""
  }

  function HeaderMembers(m: Message): seq<string> {
    [Named("version", "5"), Named("type", TypeText(m.kind)), Named("sequence", IntText(m.sequence)),
     Named("source", CellText(m.source)), Named("destination", CellText(m.destination)),
     Named("accepted", TrueOrFalse(m.accepted)), Named("reason", Quoted(m.reason)), Named("playerColor", Quoted(m.playerColor)),
     Named("reconnectToken", Quoted(m.reconnectToken)), Named("username", Quoted(m.username)),
     Named("whiteUsername", Quoted(m.whiteUsername)), Named("blackUsername", Quoted(m.blackUsername)),
     Named("secondsRemaining", IntText(m.secondsRemaining)), Named("createdAtMs", IntText(m.createdAtMs)),
     Named("hasSnapshot", TrueOrFalse(m.hasSnapshot))]
  }

  function MessageText(m: Message): string {
    Braced(HeaderMembers(m) + if m.hasSnapshot then [Named("snapshot", SnapshotText(m.snapshot))] else [])
  }

  /** What the gateway sends for a player: the name of the type, the number and the texts of the cells, and everything else empty. */
  function GatewayText(typeName: string, sequence: nat, username: string, source: string, destination: string): string {
    Braced([Named("version", "5"), Named("type", "\"" + typeName + "\""), Named("sequence", IntText(sequence)),
            Named("source", source), Named("destination", destination),
            Named("accepted", "false"), Named("reason", "\"\""), Named("playerColor", "\"\""),
            Named("reconnectToken", "\"\""), Named("username", Quoted(username)),
            Named("whiteUsername", "\"\""), Named("blackUsername", "\"\""),
            Named("secondsRemaining", "0"), Named("createdAtMs", "0"), Named("hasSnapshot", "false")])
  }

  // ----- printing writes just this

  ghost predicate Spells(members: seq<string>, fs: seq<Field>) {
    |members| == |fs| && forall i :: 0 <= i < |fs| ==> members[i] == Named(fs[i].key, Print(fs[i].value))
  }

  lemma {:induction false} MoreFieldsSpelled(members: seq<string>, fs: seq<Field>)
    requires Spells(members, fs)
    ensures MoreFields(fs) == if fs == [] then "" else "," + CommaSeparated(members)
  {
    hide Print;
    if fs != [] {
      MoreFieldsSpelled(members[1..], fs[1..]);
      if |fs| > 1 {
        Regrouped(",", members[0], ",", CommaSeparated(members[1..]));
      }
    }
  }

  lemma Regrouped(a: string, b: string, c: string, d: string)
    ensures a + b + (c + d) == a + (b + c + d)
  {
  }

  lemma FirstFieldSpelled(members: seq<string>, fs: seq<Field>)
    requires Spells(members, fs) && fs != []
    ensures PrintField(fs[0]) == members[0] && Spells(members[1..], fs[1..])
  {
  }

  lemma FieldsSpelled(members: seq<string>, fs: seq<Field>)
    requires Spells(members, fs)
    ensures PrintFields(fs) == CommaSeparated(members)
  {
    if fs != [] {
      FirstFieldSpelled(members, fs);
      hide PrintField, MoreFields, Spells, CommaSeparated;
      MoreFieldsSpelled(members[1..], fs[1..]);
      Joined(members);
    }
  }

  lemma Joined(parts: seq<string>)
    requires parts != []
    ensures CommaSeparated(parts) == parts[0] + if parts[1..] == [] then "" else "," + CommaSeparated(parts[1..])
  {
    if |parts| > 1 {
      var first, rest := parts[0], CommaSeparated(parts[1..]);
      assert first + "," + rest == first + ("," + rest);
    }
  }

  lemma ObjectSpelled(members: seq<string>, fs: seq<Field>)
    requires Spells(members, fs)
    ensures Print(Object(fs)) == Braced(members)
  {
    hide Spells, CommaSeparated;
    FieldsSpelled(members, fs);
  }

  lemma {:induction false} MoreItemsSpelled(items: seq<string>, vs: seq<Value>)
    requires |items| == |vs| && forall i :: 0 <= i < |vs| ==> items[i] == Print(vs[i])
    ensures MoreItems(vs) == if vs == [] then "" else "," + CommaSeparated(items)
  {
    hide Print;
    if vs != [] {
      MoreItemsSpelled(items[1..], vs[1..]);
      if |vs| > 1 {
        Regrouped(",", items[0], ",", CommaSeparated(items[1..]));
      }
    }
  }

  lemma ListSpelled(items: seq<string>, vs: seq<Value>)
    requires |items| == |vs| && forall i :: 0 <= i < |vs| ==> items[i] == Print(vs[i])
    ensures Print(List(vs)) == Bracketed(items)
  {
    if vs != [] {
      MoreItemsSpelled(items[1..], vs[1..]);
      var first, more := Print(vs[0]), CommaSeparated(items[1..]);
      assert first + ("," + more) == first + "," + more;
    }
  }

  lemma CellSpelled(p: Position)
    ensures Print(Object(PositionFields(p))) == CellText(p)
  {
    ObjectSpelled([Named("row", IntText(p.row)), Named("col", IntText(p.col))], PositionFields(p));
  }

  lemma PieceSpelled(p: PieceSnapshot)
    ensures Print(Object(PieceFields(p))) == PieceText(p)
  {
    CellSpelled(p.position);
    hide CellText, PositionFields;
    ObjectSpelled([Named("id", IntText(p.id)), Named("token", Quoted(p.token)), Named("position", CellText(p.position)),
                   Named("state", Quoted(p.state)), Named("hasMoved", TrueOrFalse(p.hasMoved)),
                   Named("remainingCooldownMs", IntText(p.remainingCooldownMs)), Named("totalCooldownMs", IntText(p.totalCooldownMs))],
                  PieceFields(p));
  }

  lemma MotionSpelled(m: MotionSnapshot)
    ensures Print(Object(MotionFields(m))) == MotionText(m)
  {
    CellSpelled(m.source);
    CellSpelled(m.destination);
    CellSpelled(m.currentCell);
    hide CellText, PositionFields;
    ObjectSpelled([Named("pieceId", IntText(m.pieceId)), Named("source", CellText(m.source)),
                   Named("destination", CellText(m.destination)), Named("currentCell", CellText(m.currentCell)),
                   Named("rowStep", IntText(m.rowStep)), Named("colStep", IntText(m.colStep)),
                   Named("directMove", TrueOrFalse(m.directMove)), Named("stepDurationMs", IntText(m.stepDurationMs)),
                   Named("nextStepTimeMs", IntText(m.nextStepTimeMs)), Named("order", IntText(m.order))],
                  MotionFields(m));
  }

  lemma JumpSpelled(j: JumpSnapshot)
    ensures Print(Object(JumpFields(j))) == JumpText(j)
  {
    CellSpelled(j.cell);
    hide CellText, PositionFields;
    ObjectSpelled([Named("pieceId", IntText(j.pieceId)), Named("cell", CellText(j.cell)), Named("finishTimeMs", IntText(j.finishTimeMs))],
                  JumpFields(j));
  }

  lemma HistorySpelled(h: MoveHistorySnapshot)
    ensures Print(Object(HistoryFields(h))) == HistoryText(h)
  {
    CellSpelled(h.source);
    CellSpelled(h.destination);
    hide CellText, PositionFields;
    ObjectSpelled([Named("completedAtMs", IntText(h.completedAtMs)), Named("color", Quoted(h.color)),
                   Named("pieceKind", Quoted(h.pieceKind)), Named("source", CellText(h.source)),
                   Named("destination", CellText(h.destination)), Named("wasCapture", TrueOrFalse(h.wasCapture)),
                   Named("wasPromotion", TrueOrFalse(h.wasPromotion)), Named("wasJump", TrueOrFalse(h.wasJump)),
                   Named("notation", Quoted(h.notation))],
                  HistoryFields(h));
  }

  lemma ObjectsSpelled<T>(xs: seq<T>, fields: T -> seq<Field>, text: T -> string)
    requires forall x :: x in xs ==> Print(Object(fields(x))) == text(x)
    ensures Print(List(Objects(xs, fields))) == Bracketed(Texts(xs, text))
  {
    hide Print, CommaSeparated;
    ListSpelled(Texts(xs, text), Objects(xs, fields));
  }

  lemma ArraysSpelled(s: GameStateSnapshot)
    ensures Print(List(Objects(s.pieces, PieceFields))) == Bracketed(Texts(s.pieces, PieceText))
    ensures Print(List(Objects(s.motions, MotionFields))) == Bracketed(Texts(s.motions, MotionText))
    ensures Print(List(Objects(s.jumps, JumpFields))) == Bracketed(Texts(s.jumps, JumpText))
    ensures Print(List(Objects(s.whiteMoveHistory, HistoryFields))) == Bracketed(Texts(s.whiteMoveHistory, HistoryText))
    ensures Print(List(Objects(s.blackMoveHistory, HistoryFields))) == Bracketed(Texts(s.blackMoveHistory, HistoryText))
  {
    hide Print, Objects, Texts, Bracketed, PieceFields, PieceText, MotionFields, MotionText, JumpFields, JumpText, HistoryFields, HistoryText;
    forall p: PieceSnapshot ensures Print(Object(PieceFields(p))) == PieceText(p) {
      PieceSpelled(p);
    }
    forall m: MotionSnapshot ensures Print(Object(MotionFields(m))) == MotionText(m) {
      MotionSpelled(m);
    }
    forall j: JumpSnapshot ensures Print(Object(JumpFields(j))) == JumpText(j) {
      JumpSpelled(j);
    }
    forall h: MoveHistorySnapshot ensures Print(Object(HistoryFields(h))) == HistoryText(h) {
      HistorySpelled(h);
    }
    ObjectsSpelled(s.pieces, PieceFields, PieceText);
    ObjectsSpelled(s.motions, MotionFields, MotionText);
    ObjectsSpelled(s.jumps, JumpFields, JumpText);
    ObjectsSpelled(s.whiteMoveHistory, HistoryFields, HistoryText);
    ObjectsSpelled(s.blackMoveHistory, HistoryFields, HistoryText);
  }

  lemma SummarySpelled(s: GameStateSnapshot)
    ensures Spells(SummaryMembers(s), SummaryFields(s))
  {
  }

  lemma ArrayMembersSpelled(s: GameStateSnapshot)
    ensures Spells(ArrayMembers(s), ArrayFields(s))
  {
    hide Print, Objects, Texts, Bracketed, PieceFields, PieceText, MotionFields, MotionText, JumpFields, JumpText, HistoryFields, HistoryText;
    ArraysSpelled(s);
  }

  lemma SnapshotSpelled(s: GameStateSnapshot)
    ensures Print(Object(SnapshotFields(s))) == SnapshotText(s)
  {
    hide Print, SummaryMembers, ArrayMembers, SummaryFields, ArrayFields, Named;
    SummarySpelled(s);
    ArrayMembersSpelled(s);
    ObjectSpelled(SummaryMembers(s) + ArrayMembers(s), SummaryFields(s) + ArrayFields(s));
  }

  lemma PlainRequests()
    ensures Plain("move_request") && Plain("jump_request") && Plain("reconnect_request") && Plain("reconnecting")
  {
  }

  lemma PlainAnswers()
    ensures Plain("move_accepted") && Plain("move_rejected") && Plain("invalid_username")
  {
  }

  lemma PlainNews()
    ensures Plain("player_assigned") && Plain("waiting_for_opponent") && Plain("game_started") && Plain("game_full")
  {
  }

  lemma PlainEndings()
    ensures Plain("game_closed") && Plain("game_state_updated") && Plain("game_over")
  {
  }

  lemma PlainTypes(t: MessageType)
    ensures Plain(MessageTypeToString(t))
  {
    hide Plain;
    PlainRequests();
    PlainAnswers();
    PlainNews();
    PlainEndings();
  }

  /** The type of a message is written as it stands. */
  lemma TypesAreTheirOwnEscape(t: MessageType)
    ensures Print(Text(MessageTypeToString(t))) == "\"" + MessageTypeToString(t) + "\""
  {
    hide Escape, Plain, MessageTypeToString;
    PlainTypes(t);
    PlainIsItsOwnEscape(MessageTypeToString(t));
  }

  lemma TypesSpelled(t: MessageType)
    ensures Print(Text(MessageTypeToString(t))) == TypeText(t)
  {
    hide Print;
    TypesAreTheirOwnEscape(t);
    assert TypeName(t) == MessageTypeToString(t);
  }

  lemma VersionSpelled()
    ensures Print(Number(VERSION)) == "5"
  {
  }

  lemma HeaderSpelled(m: Message)
    ensures Spells(HeaderMembers(m), HeaderFields(m))
  {
    VersionSpelled();
    TypesSpelled(m.kind);
    CellSpelled(m.source);
    CellSpelled(m.destination);
    hide CellText, PositionFields, TypeText, MessageTypeToString, VERSION, Named, Escape, IntText;
  }

  lemma WithSnapshotSpelled(m: Message)
    ensures Print(Object(MessageFields(m))) == MessageText(m)
  {
    hide HeaderMembers, HeaderFields, SnapshotFields, SnapshotText;
    HeaderSpelled(m);
    if m.hasSnapshot {
      SnapshotSpelled(m.snapshot);
      hide Print;
      var last := [Field("snapshot", Object(SnapshotFields(m.snapshot)))];
      assert Spells([Named("snapshot", SnapshotText(m.snapshot))], last);
      ObjectSpelled(HeaderMembers(m) + [Named("snapshot", SnapshotText(m.snapshot))], HeaderFields(m) + last);
    } else {
      hide Print;
      ObjectSpelled(HeaderMembers(m) + [], HeaderFields(m) + []);
    }
  }

  /** The text of a message, key by key; only unsupported control characters keep it from being written. */
  lemma WhatIsWritten(m: Message)
    ensures Serialize(m) == if EncodableMessage(m) then Ok(MessageText(m)) else Err(UnsupportedControlCharacter)
  {
    hide Print, MessageText;
    WithSnapshotSpelled(m);
  }

  // ----- what texts and numbers mean

  /** The characters that a backslash introduces in a string, section 7 of RFC 8259, without the hexadecimal form. */
  function EscapedCharacter(c: char): Option<char> {
    match c as int
    case 34 => Some(34 as char)
    case 92 => Some(92 as char)
    case 47 => Some(47 as char)
    case 98 => Some(8 as char)
    case 102 => Some(12 as char)
    case 110 => Some(10 as char)
    case 114 => Some(13 as char)
    case 116 => Some(9 as char)
    case _ => None
  }

  /** What stands between the quotes of a string according to section 7 of RFC 8259, if it may stand there. */
  function StringMeans(t: string): Option<string> {
    if t == [] then Some("")
    else if t[0] as int == 92 then
      if |t| == 1 || EscapedCharacter(t[1]).None? || StringMeans(t[2..]).None? then None
      else Some([EscapedCharacter(t[1]).value] + StringMeans(t[2..]).value)
    else if t[0] as int == 34 || t[0] as int < 32 || StringMeans(t[1..]).None? then None
    else Some([t[0]] + StringMeans(t[1..]).value)
  }

  lemma WrittenCharacterMeansIt(c: char, rest: string)
    ensures StringMeans(EscapeChar(c) + rest)
         == if CanEscape(c) && StringMeans(rest).Some? then Some([c] + StringMeans(rest).value) else None
  {
    var t := EscapeChar(c) + rest;
    if |EscapeChar(c)| == 2 {
      assert t[2..] == rest;
    } else {
      assert EscapeChar(c) == [c] && t[0] == c && t[1..] == rest;
    }
  }

  /** A written text is a string of JSON that means the text; a text that cannot be written would not be one. */
  lemma {:induction false} WrittenTextMeansIt(t: string)
    ensures StringMeans(Escape(t)) == if Encodable(t) then Some(t) else None
  {
    if t != [] {
      WrittenTextMeansIt(t[1..]);
      WrittenCharacterMeansIt(t[0], Escape(t[1..]));
      hide EscapeChar, CanEscape, EscapedCharacter;
      assert t == [t[0]] + t[1..];
      assert Encodable(t) <==> CanEscape(t[0]) && Encodable(t[1..]);
    }
  }

  /** Every escape of the string is one of those for quotes, backslashes, line feeds, carriage returns and tabs. */
  predicate KnownEscapesOnly(t: string) {
    if t == [] then true
    else if t[0] as int != 92 then KnownEscapesOnly(t[1..])
    else |t| > 1 && (t[1] as int == 34 || t[1] as int == 92 || t[1] as int == 110 || t[1] as int == 114 || t[1] as int == 116)
         && KnownEscapesOnly(t[2..])
  }

  /**
   * Any string of a JSON text, written by whomever: the reader takes it for what it means, and refuses it exactly if it holds
   * an escape other than those five, such as a hexadecimal one.
   */
  lemma {:induction false} StringsAreReadAsMeant(t: string, p: nat, end: nat, read: string)
    requires StringEnd(t, p, false) == Ok(end) && forall i :: p <= i < end && i < |t| ==> t[i] as int >= 32
    ensures p <= end < |t|
    ensures KnownEscapesOnly(t[p..end]) ==> StringMeans(t[p..end]).Some?
    ensures UnescapeFrom(t, p, false, read)
         == if KnownEscapesOnly(t[p..end]) then Ok(read + StringMeans(t[p..end]).value) else Err(InvalidEscape)
    decreases |t| - p
  {
    if t[p] == '"' {
      assert t[p..end] == [] && read + [] == read;
    } else if t[p] == '\\' {
      assert StringEnd(t, p, false) == StringEnd(t, p + 1, true);
      var known := Unescaped(t[p + 1]);
      StringsAreReadAsMeant(t, p + 2, end, if known.Some? then read + [known.value] else read);
      assert t[p..end][2..] == t[p + 2..end];
      EscapeIsKnown(t[p + 1]);
      if known.Some? && KnownEscapesOnly(t[p + 2..end]) {
        ReadOn(read, known.value, StringMeans(t[p + 2..end]).value);
      }
    } else {
      StringsAreReadAsMeant(t, p + 1, end, read + [t[p]]);
      assert t[p..end][1..] == t[p + 1..end];
      if KnownEscapesOnly(t[p + 1..end]) {
        ReadOn(read, t[p], StringMeans(t[p + 1..end]).value);
      }
    }
  }

  lemma ReadOn(read: string, c: char, rest: string)
    ensures read + [c] + rest == read + ([c] + rest)
  {
  }

  lemma EscapeIsKnown(c: char)
    ensures Unescaped(c).Some? <==> c as int == 34 || c as int == 92 || c as int == 110 || c as int == 114 || c as int == 116
    ensures Unescaped(c).Some? ==> EscapedCharacter(c) == Unescaped(c)
  {
  }

  /** Spaces, tabs, line ends and feeds are skipped, and nothing else. */
  lemma {:induction false} WhatIsSkipped(t: string, p: nat)
    ensures var q := SkipSpace(t, p);
            && p <= q
            && (forall i :: p <= i < q ==> i < |t| && (t[i] as int == 32 || 9 <= t[i] as int <= 13))
            && (q < |t| ==> t[q] as int != 32 && !(9 <= t[q] as int <= 13))
    decreases |t| - p
  {
    if p < |t| && IsSpace(t[p]) {
      WhatIsSkipped(t, p + 1);
    }
  }

  function TenTo(k: nat): (n: nat)
    ensures n > 0
  {
    if k == 0 then 1 else 10 * TenTo(k - 1)
  }

  /** The digit of n at the place of 10 to the k. */
  function DigitOf(n: nat, k: nat): nat {
    n / TenTo(k) % 10
  }

  lemma ShiftedPlace(n: nat, k: nat)
    ensures DigitOf(n / 10, k) == DigitOf(n, k + 1)
  {
    var p := TenTo(k);
    DividedTwice(n, p);
  }

  lemma DividedTwice(n: nat, p: nat)
    requires p > 0
    ensures n / 10 / p == n / (10 * p)
  {
    var q, r := n / 10, n % 10;
    var a, b := q / p, q % p;
    assert n == 10 * (a * p + b) + r;
    assert n == (10 * p) * a + (10 * b + r) && 0 <= 10 * b + r < 10 * p;
    QuotientIs(n, 10 * p, a, 10 * b + r);
  }

  lemma QuotientIs(n: nat, d: nat, q: nat, r: nat)
    requires n == d * q + r && r < d
    ensures n / d == q
  {
    var q', r' := n / d, n % d;
    assert n == d * q' + r';
    if q > q' {
      Multiples(d, q, q');
    } else if q < q' {
      Multiples(d, q', q);
    }
  }

  lemma Multiples(d: nat, more: nat, fewer: nat)
    requires more > fewer
    ensures d * more >= d * fewer + d
  {
    var k: nat := more - fewer - 1;
    assert d * more == d * fewer + d + d * k;
  }

  /** A numeral's last character stands for the ones, the one before it for the tens, and so on; it has no leading zero. */
  lemma {:induction false} NumeralsHavePlaces(n: nat)
    ensures n < TenTo(|NatText(n)|)
    ensures forall k :: 0 <= k < |NatText(n)| ==> NatText(n)[|NatText(n)| - 1 - k] as int == 48 + DigitOf(n, k)
    ensures n > 0 ==> NatText(n)[0] as int > 48
  {
    if n >= 10 {
      NumeralsHavePlaces(n / 10);
      var t, u := NatText(n), NatText(n / 10);
      forall k | 0 <= k < |t| ensures t[|t| - 1 - k] as int == 48 + DigitOf(n, k) {
        if k > 0 {
          ShiftedPlace(n, k - 1);
        }
      }
    }
  }

  lemma NumbersHaveSigns(n: int)
    ensures IntText(n) == if n < 0 then [45 as char] + IntText(-n) else NatText(n)
  {
  }

  // ----- which messages pass

  predicate WithinEightOrNowhere(p: Position) {
    WithinEight(p) || (p.row == -1 && p.col == -1)
  }

  /** A message without a snapshot survives the wire exactly when its cells are on the board or absent, its numbers fit the fields
      of the reader, and no text of it holds a control character other than tab, line feed and carriage return. */
  lemma WhichMessagesPass(m: Message)
    requires m.snapshot == EMPTY_SNAPSHOT && !m.hasSnapshot
    ensures (Serialize(m).Ok? && Deserialize(Serialize(m).value) == Ok(m)) <==>
            && m.sequence < 0x8000_0000_0000_0000 && WithinEightOrNowhere(m.source) && WithinEightOrNowhere(m.destination)
            && 0 <= m.secondsRemaining < 0x8000_0000 && 0 <= m.createdAtMs < 0x8000_0000_0000_0000
            && (forall t :: t in [m.reason, m.playerColor, m.reconnectToken, m.username, m.whiteUsername, m.blackUsername] ==>
                 forall i :: 0 <= i < |t| ==> t[i] as int >= 32 || t[i] as int == 9 || t[i] as int == 10 || t[i] as int == 13)
  {
    hide Serialize, Deserialize;
    RoundTripExactly(m);
    var ts := [m.reason, m.playerColor, m.reconnectToken, m.username, m.whiteUsername, m.blackUsername];
    forall t: string
      ensures Encodable(t) <==> forall i :: 0 <= i < |t| ==> t[i] as int >= 32 || t[i] as int == 9 || t[i] as int == 10 || t[i] as int == 13
    {
    }
    assert ts[0] == m.reason && ts[1] == m.playerColor && ts[2] == m.reconnectToken && ts[3] == m.username
      && ts[4] == m.whiteUsername && ts[5] == m.blackUsername;
    assert EncodableMessage(m) <==> forall t :: t in ts ==> Encodable(t);
  }

  predicate IsKindLetter(c: char) {
    c == 'K' || c == 'Q' || c == 'R' || c == 'B' || c == 'N' || c == 'P'
  }

  lemma KindLetters(c: char)
    ensures IsKindChar(c) <==> IsKindLetter(c)
  {
    var letters := "KQRBNP";
    assert letters[0] == 'K' && letters[1] == 'Q' && letters[2] == 'R' && letters[3] == 'B' && letters[4] == 'N' && letters[5] == 'P';
  }

  lemma WhichPiecesPass(p: PieceSnapshot)
    ensures ReadPiece(PieceText(p)) == Ok(p) <==>
            && 0 <= p.id < 0x8000_0000 && WithinEight(p.position)
            && |p.token| == 2 && (p.token[0] == 'w' || p.token[0] == 'b') && IsKindLetter(p.token[1])
            && (p.state == "idle" || p.state == "moving" || p.state == "airborne" || p.state == "captured")
            && 0 <= p.remainingCooldownMs <= p.totalCooldownMs < 0x8000_0000_0000_0000
  {
    hide ReadPiece, PieceText, IsKindChar, IsKindLetter, Print, PieceFields;
    PieceSpelled(p);
    if |p.token| == 2 {
      KindLetters(p.token[1]);
    }
    if ValidPiece(p) {
      PieceIsRead(p);
    }
  }

  lemma WhichMotionsPass(m: MotionSnapshot)
    ensures ReadMotion(MotionText(m)) == Ok(m) <==>
            && 0 <= m.pieceId < 0x8000_0000 && 0 <= m.order < 0x8000_0000
            && WithinEight(m.source) && WithinEight(m.destination) && WithinEight(m.currentCell)
            && -1 <= m.rowStep <= 1 && -1 <= m.colStep <= 1
            && 0 <= m.stepDurationMs < 0x8000_0000_0000_0000 && 0 <= m.nextStepTimeMs < 0x8000_0000_0000_0000
  {
    hide ReadMotion, MotionText, Print, MotionFields;
    MotionSpelled(m);
    if ValidMotion(m) {
      MotionIsRead(m);
    }
  }

  lemma WhichJumpsPass(j: JumpSnapshot)
    ensures ReadJump(JumpText(j)) == Ok(j) <==>
            0 <= j.pieceId < 0x8000_0000 && WithinEight(j.cell) && 0 <= j.finishTimeMs < 0x8000_0000_0000_0000
  {
    hide ReadJump, JumpText, Print, JumpFields;
    JumpSpelled(j);
    if ValidJump(j) {
      JumpIsRead(j);
    }
  }

  lemma WhichEntriesPass(h: MoveHistorySnapshot)
    ensures ReadHistory(HistoryText(h)) == Ok(h) <==>
            && 0 <= h.completedAtMs < 0x8000_0000_0000_0000 && (h.color == "w" || h.color == "b")
            && |h.pieceKind| == 1 && IsKindLetter(h.pieceKind[0]) && WithinEight(h.source) && WithinEight(h.destination)
  {
    hide ReadHistory, HistoryText, Print, HistoryFields, IsKindChar, IsKindLetter;
    HistorySpelled(h);
    if |h.pieceKind| == 1 {
      KindLetters(h.pieceKind[0]);
    }
    if ValidHistory(h) {
      HistoryIsRead(h);
    }
  }

  /** A snapshot is read whole exactly when each of its parts passes and its clock, start and scores are in range. */
  lemma WhichSnapshotsPass(s: GameStateSnapshot)
    ensures ReadSnapshot(SnapshotText(s)) == Ok(s) <==>
            && 0 <= s.serverTimeMs < 0x8000_0000_0000_0000 && 0 <= s.gameplayStartsAtEpochMs < 0x8000_0000_0000_0000
            && 0 <= s.whiteScore < 0x8000_0000 && 0 <= s.blackScore < 0x8000_0000
            && (forall p :: p in s.pieces ==> ReadPiece(PieceText(p)) == Ok(p))
            && (forall m :: m in s.motions ==> ReadMotion(MotionText(m)) == Ok(m))
            && (forall j :: j in s.jumps ==> ReadJump(JumpText(j)) == Ok(j))
            && (forall h :: h in s.whiteMoveHistory ==> ReadHistory(HistoryText(h)) == Ok(h))
            && (forall h :: h in s.blackMoveHistory ==> ReadHistory(HistoryText(h)) == Ok(h))
  {
    hide ReadPiece, ReadMotion, ReadJump, ReadHistory, ReadSnapshot, PieceText, MotionText, JumpText, HistoryText, SnapshotText, Print,
         PieceFields, MotionFields, JumpFields, HistoryFields, SnapshotFields, ValidPiece, ValidMotion, ValidJump, ValidHistory;
    SnapshotSpelled(s);
    forall p: PieceSnapshot ensures ReadPiece(PieceText(p)) == Ok(p) <==> ValidPiece(p) {
      PieceSpelled(p);
      if ValidPiece(p) { PieceIsRead(p); }
    }
    forall m: MotionSnapshot ensures ReadMotion(MotionText(m)) == Ok(m) <==> ValidMotion(m) {
      MotionSpelled(m);
      if ValidMotion(m) { MotionIsRead(m); }
    }
    forall j: JumpSnapshot ensures ReadJump(JumpText(j)) == Ok(j) <==> ValidJump(j) {
      JumpSpelled(j);
      if ValidJump(j) { JumpIsRead(j); }
    }
    forall h: MoveHistorySnapshot ensures ReadHistory(HistoryText(h)) == Ok(h) <==> ValidHistory(h) {
      HistorySpelled(h);
      if ValidHistory(h) { HistoryIsRead(h); }
    }
    if ValidSnapshot(s) {
      SnapshotIsRead(s);
    }
  }

  // ----- what the gateway sends

  /** Characters for which both sides write the same text: printable ASCII, tabs and line ends. */
  predicate Ascii(t: string) {
    forall i :: 0 <= i < |t| ==> ' ' <= t[i] <= '~' || t[i] == '\n' || t[i] == '\r' || t[i] == '\t'
  }

  function FromGateway(kind: MessageType, sequence: nat, username: string, source: Position, destination: Position): Message {
    Message(kind, sequence, source, destination, false, "", "", "", username, "", "", 0, 0, false, EMPTY_SNAPSHOT)
  }

  lemma EmptyTexts()
    ensures Quoted("") == "\"\"" && IntText(0) == "0"
  {
    assert Escape("") == "";
  }

  lemma GatewaySpelled(kind: MessageType, sequence: nat, username: string, source: Position, destination: Position)
    requires Ascii(username)
    ensures MessageText(FromGateway(kind, sequence, username, source, destination))
         == GatewayText(TypeName(kind), sequence, username, CellText(source), CellText(destination))
  {
    hide IntText, CellText, TypeName, Named, Braced, Escape, Ascii;
    EmptyTexts();
    var m := FromGateway(kind, sequence, username, source, destination);
    assert HeaderMembers(m) + [] == HeaderMembers(m);
  }

  /** Whatever the gateway sends is what the server's own writer would write for it, and is read as just that request. */
  lemma GatewayTextIsRead(kind: MessageType, sequence: nat, username: string, source: Position, destination: Position)
    requires Ascii(username) && IsPositionOrUnused(source) && IsPositionOrUnused(destination)
    ensures var m := FromGateway(kind, sequence, username, source, destination);
            var text := GatewayText(TypeName(kind), sequence, username, CellText(source), CellText(destination));
            Serialize(m) == Ok(text) && (Deserialize(text) == Ok(m) <==> sequence <= 9223372036854775807)
  {
    var m := FromGateway(kind, sequence, username, source, destination);
    GatewaySpelled(kind, sequence, username, source, destination);
    hide GatewayText, MessageText, Serialize, Deserialize, TypeName, Escape, IsPositionOrUnused, Ascii;
    WhatIsWritten(m);
    RoundTripExactly(m);
  }

  /** The gateway's text of a move is read as that move, with its number and its two cells. */
  lemma GatewayMoveIsAMove(sequence: nat, source: Position, destination: Position)
    requires 0 <= source.row <= 7 && 0 <= source.col <= 7 && 0 <= destination.row <= 7 && 0 <= destination.col <= 7
    requires sequence <= 9223372036854775807
    ensures Deserialize(GatewayText("move_request", sequence, "", CellText(source), CellText(destination)))
         == Ok(FromGateway(MoveRequest, sequence, "", source, destination))
  {
    hide GatewayText, Deserialize, Serialize;
    GatewayTextIsRead(MoveRequest, sequence, "", source, destination);
  }

  /** The gateway's text of a jump is read as a jump on the cell that it names twice. */
  lemma GatewayJumpIsAJump(sequence: nat, cell: Position)
    requires 0 <= cell.row <= 7 && 0 <= cell.col <= 7 && sequence <= 9223372036854775807
    ensures Deserialize(GatewayText("jump_request", sequence, "", CellText(cell), CellText(cell))) == Ok(FromGateway(JumpRequest, sequence, "", cell, cell))
  {
    hide GatewayText, Deserialize, Serialize;
    GatewayTextIsRead(JumpRequest, sequence, "", cell, cell);
  }

  /** The gateway's first text on a connection is read as a request to play under the name it carries. */
  lemma GatewayHelloIsRead(username: string)
    requires Ascii(username)
    ensures Deserialize(GatewayText("reconnect_request", 0, username, CellText(Position(-1, -1)), CellText(Position(-1, -1))))
         == Ok(FromGateway(ReconnectRequest, 0, username, Position(-1, -1), Position(-1, -1)))
  {
    hide GatewayText, Deserialize, Serialize, Ascii;
    GatewayTextIsRead(ReconnectRequest, 0, username, Position(-1, -1), Position(-1, -1));
  }
}
