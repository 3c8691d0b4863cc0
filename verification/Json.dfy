/** The text format of the wire protocol: values, their text, and the scanners that find them again. */
module Json {
  import opened Wrappers
  import opened Decimal

  datatype Value =
    | Number(n: int)
    | Boolean(b: bool)
    | Text(t: string)
    | Object(fields: seq<Field>)
    | List(items: seq<Value>)

  datatype Field = Field(key: string, value: Value)

  datatype Error =
    | UnsupportedControlCharacter
    | UnterminatedString
    | ExpectedObject
    | MissingField(key: string)
    | InvalidDelimiter
    | UnmatchedDelimiter
    | NotAnObject(key: string)
    | NotAnArray(key: string)
    | NotObjects(key: string)
    | InvalidArray(key: string)
    | TrailingComma(key: string)
    | NotAString(key: string)
    | InvalidEscape
    | NotAnInteger(key: string)
    | IntegerRange(key: string)
    | Negative(key: string)
    | NotABoolean(key: string)
    | OutsideTheBoard(key: string)
    | InvalidMessage
    | UnsupportedVersion
    | UnsupportedType
    | InvalidPiece
    | InvalidMotion
    | InvalidJump
    | InvalidHistory
    | InvalidScores

  // ----- printing

  function EscapeChar(c: char): string {
    match c
    case '\\' => "\\\\"
    case '"' => "\\\""
    case '\n' => "\\n"
    case '\r' => "\\r"
    case '\t' => "\\t"
    case _ => [c]
  }

  function Escape(t: string): string {
    if t == [] then [] else EscapeChar(t[0]) + Escape(t[1..])
  }

  predicate CanEscape(c: char) {
    c >= ' ' || c == '\n' || c == '\r' || c == '\t'
  }

  predicate Encodable(t: string) {
    forall i :: 0 <= i < |t| ==> CanEscape(t[i])
  }

  function BoolText(b: bool): string {
    if b then "true" else "false"
  }

  function Print(v: Value): (t: string)
    ensures t != []
    decreases v
  {
    match v
    case Number(n) => IntText(n)
    case Boolean(b) => BoolText(b)
    case Text(t) => "\"" + Escape(t) + "\""
    case Object(fs) => "{" + PrintFields(fs) + "}"
    case List(vs) => "[" + PrintItems(vs) + "]"
  }

  function PrintField(f: Field): string
    decreases f
  {
    "\"" + f.key + "\":" + Print(f.value)
  }

  function PrintFields(fs: seq<Field>): string
    decreases fs
  {
    if fs == [] then ""
    else PrintField(fs[0]) + MoreFields(fs[1..])
  }

  function MoreFields(fs: seq<Field>): string
    decreases fs
  {
    if fs == [] then "" else "," + PrintField(fs[0]) + MoreFields(fs[1..])
  }

  function PrintItems(vs: seq<Value>): string
    decreases vs
  {
    if vs == [] then "" else Print(vs[0]) + MoreItems(vs[1..])
  }

  function MoreItems(vs: seq<Value>): string
    decreases vs
  {
    if vs == [] then "" else "," + Print(vs[0]) + MoreItems(vs[1..])
  }

  // ----- scanning

  predicate IsSpace(c: char) {
    c == ' ' || 9 <= c as int <= 13
  }

  function SkipSpace(t: string, p: nat): (q: nat)
    ensures p <= q && (p <= |t| ==> q <= |t|)
    decreases |t| - p
  {
    if p < |t| && IsSpace(t[p]) then SkipSpace(t, p + 1) else p
  }

  /** The closing quote of the string whose content is being scanned at p. */
  function StringEnd(t: string, p: nat, escaped: bool): (r: Result<nat, Error>)
    ensures r.Ok? ==> p <= r.value < |t| && t[r.value] == '"'
    decreases |t| - p
  {
    if p >= |t| then Err(UnterminatedString)
    else if escaped then StringEnd(t, p + 1, false)
    else if t[p] == '\\' then StringEnd(t, p + 1, true)
    else if t[p] == '"' then Ok(p)
    else StringEnd(t, p + 1, false)
  }

  function FindStringEnd(t: string, start: nat): (r: Result<nat, Error>)
    ensures r.Ok? ==> start < r.value < |t| && t[r.value] == '"'
  {
    StringEnd(t, start + 1, false)
  }

  /** The key of a field whose value starts at the returned position, if a key string starts at p and ends at end. */
  function KeyAt(t: string, p: nat, end: nat, key: string): Option<nat>
    requires p < end < |t|
  {
    var after := SkipSpace(t, end + 1);
    if after < |t| && t[after] == ':' && t[p + 1..end] == key then Some(SkipSpace(t, after + 1)) else None
  }

  function FindValueFrom(t: string, key: string, p: nat, objectDepth: int, arrayDepth: int): (r: Result<nat, Error>)
    ensures r.Ok? ==> r.value <= |t|
    decreases |t| - p
  {
    if p + 1 >= |t| then Err(MissingField(key))
    else if t[p] == '"' then
      var end :- FindStringEnd(t, p);
      if objectDepth == 1 && arrayDepth == 0 && KeyAt(t, p, end, key).Some? then Ok(KeyAt(t, p, end, key).value)
      else FindValueFrom(t, key, end + 1, objectDepth, arrayDepth)
    else if t[p] == '{' then FindValueFrom(t, key, p + 1, objectDepth + 1, arrayDepth)
    else if t[p] == '}' then FindValueFrom(t, key, p + 1, objectDepth - 1, arrayDepth)
    else if t[p] == '[' then FindValueFrom(t, key, p + 1, objectDepth, arrayDepth + 1)
    else if t[p] == ']' then FindValueFrom(t, key, p + 1, objectDepth, arrayDepth - 1)
    else FindValueFrom(t, key, p + 1, objectDepth, arrayDepth)
  }

  /** Where the value of a top-level field starts. */
  function FindValue(t: string, key: string): (r: Result<nat, Error>)
    ensures r.Ok? ==> r.value <= |t|
  {
    if |t| < 2 || t[0] != '{' || t[|t| - 1] != '}' then Err(ExpectedObject)
    else FindValueFrom(t, key, 1, 1, 0)
  }

  function MatchFrom(t: string, p: nat, depth: int, opening: char, closing: char): (r: Result<nat, Error>)
    ensures r.Ok? ==> p <= r.value < |t| && t[r.value] == closing
    decreases |t| - p
  {
    if p >= |t| then Err(UnmatchedDelimiter)
    else if t[p] == '"' then
      var end :- FindStringEnd(t, p);
      MatchFrom(t, end + 1, depth, opening, closing)
    else if t[p] == opening then MatchFrom(t, p + 1, depth + 1, opening, closing)
    else if t[p] == closing then
      if depth - 1 == 0 then Ok(p) else MatchFrom(t, p + 1, depth - 1, opening, closing)
    else MatchFrom(t, p + 1, depth, opening, closing)
  }

  /** The delimiter that closes the one at start. */
  function FindMatchingDelimiter(t: string, start: nat, opening: char, closing: char): (r: Result<nat, Error>)
    ensures r.Ok? ==> start <= r.value < |t| && t[r.value] == closing
  {
    if start >= |t| || t[start] != opening then Err(InvalidDelimiter)
    else MatchFrom(t, start, 0, opening, closing)
  }

  // ----- reading

  function ReadObject(t: string, key: string): Result<string, Error> {
    var start :- FindValue(t, key);
    if start >= |t| || t[start] != '{' then Err(NotAnObject(key))
    else
      var end :- FindMatchingDelimiter(t, start, '{', '}');
      Ok(t[start..end + 1])
  }

  function ReadArray(t: string, key: string): (r: Result<string, Error>)
    ensures r.Ok? ==> |r.value| >= 1
  {
    var start :- FindValue(t, key);
    if start >= |t| || t[start] != '[' then Err(NotAnArray(key))
    else
      var end :- FindMatchingDelimiter(t, start, '[', ']');
      Ok(t[start..end + 1])
  }

  /** The objects of an array text from position p on; the text ends at last. */
  function ObjectsFrom(a: string, p: nat, key: string): Result<seq<string>, Error>
    requires |a| >= 1
    decreases |a| - p
  {
    if p >= |a| - 1 then Ok([])
    else if a[p] != '{' then Err(NotObjects(key))
    else
      var end :- FindMatchingDelimiter(a, p, '{', '}');
      var after := SkipSpace(a, end + 1);
      if after == |a| - 1 then Ok([a[p..end + 1]])
      else if after >= |a| || a[after] != ',' then Err(InvalidArray(key))
      else
        var next := SkipSpace(a, after + 1);
        if next == |a| - 1 then Err(TrailingComma(key))
        else
          var rest :- ObjectsFrom(a, next, key);
          Ok([a[p..end + 1]] + rest)
  }

  function ReadObjectArray(t: string, key: string): Result<seq<string>, Error> {
    var a :- ReadArray(t, key);
    ObjectsFrom(a, SkipSpace(a, 1), key)
  }

  function Unescaped(c: char): Option<char> {
    match c
    case '\\' => Some('\\')
    case '"' => Some('"')
    case 'n' => Some('\n')
    case 'r' => Some('\r')
    case 't' => Some('\t')
    case _ => None
  }

  /** The text of a string whose content is being read at p, appended to what has been read. */
  function UnescapeFrom(t: string, p: nat, escaped: bool, read: string): Result<string, Error>
    decreases |t| - p
  {
    if p >= |t| then Err(UnterminatedString)
    else if escaped then
      if Unescaped(t[p]).None? then Err(InvalidEscape)
      else UnescapeFrom(t, p + 1, false, read + [Unescaped(t[p]).value])
    else if t[p] == '\\' then UnescapeFrom(t, p + 1, true, read)
    else if t[p] == '"' then Ok(read)
    else UnescapeFrom(t, p + 1, false, read + [t[p]])
  }

  function ReadString(t: string, key: string): Result<string, Error> {
    var p :- FindValue(t, key);
    if p >= |t| || t[p] != '"' then Err(NotAString(key))
    else UnescapeFrom(t, p + 1, false, "")
  }

  predicate IsDigit(c: char) {
    '0' <= c <= '9'
  }

  function DigitsEnd(t: string, p: nat): (q: nat)
    ensures p <= q && (p <= |t| ==> q <= |t|)
    ensures forall i :: p <= i < q ==> i < |t| && IsDigit(t[i])
    decreases |t| - p
  {
    if p < |t| && IsDigit(t[p]) then DigitsEnd(t, p + 1) else p
  }

  predicate AllDigits(ds: string) {
    forall i :: 0 <= i < |ds| ==> IsDigit(ds[i])
  }

  function DigitsValue(ds: string): nat
    requires AllDigits(ds)
  {
    if ds == [] then 0
    else
      assert IsDigit(ds[|ds| - 1]);
      DigitsValue(ds[..|ds| - 1]) * 10 + (ds[|ds| - 1] as int - '0' as int)
  }

  const LLONG_MAX := 0x7FFF_FFFF_FFFF_FFFF
  const LLONG_MIN := -0x8000_0000_0000_0000
  const INT_MAX := 0x7FFF_FFFF
  const INT_MIN := -0x8000_0000

  /** A signed 64-bit decimal number at p, with the position after it. */
  function ParseLongLong(t: string, p: nat): (r: Option<(int, nat)>)
    ensures r.Some? ==> LLONG_MIN <= r.value.0 <= LLONG_MAX
    ensures r.Some? && p <= |t| ==> p < r.value.1 <= |t|
  {
    var a := SkipSpace(t, p);
    var negative := a < |t| && t[a] == '-';
    var b := if a < |t| && (t[a] == '-' || t[a] == '+') then a + 1 else a;
    var end := DigitsEnd(t, b);
    if end == b then None
    else
      assert AllDigits(t[b..end]);
      var magnitude: int := DigitsValue(t[b..end]);
      var value := if negative then -magnitude else magnitude;
      if LLONG_MIN <= value <= LLONG_MAX then Some((value, end)) else None
  }

  function ReadSigned(t: string, key: string): (r: Result<int, Error>)
    ensures r.Ok? ==> LLONG_MIN <= r.value <= LLONG_MAX
  {
    var p :- FindValue(t, key);
    var parsed := ParseLongLong(t, p);
    if parsed.None? then Err(NotAnInteger(key))
    else
      var after := SkipSpace(t, parsed.value.1);
      if after >= |t| || (t[after] != ',' && t[after] != '}' && t[after] != ']') then Err(NotAnInteger(key))
      else Ok(parsed.value.0)
  }

  function ReadInt(t: string, key: string): (r: Result<int, Error>)
    ensures r.Ok? ==> INT_MIN <= r.value <= INT_MAX
  {
    var value :- ReadSigned(t, key);
    if value < INT_MIN || value > INT_MAX then Err(IntegerRange(key)) else Ok(value)
  }

  function ReadUnsigned(t: string, key: string): (r: Result<int, Error>)
    ensures r.Ok? ==> 0 <= r.value <= LLONG_MAX
  {
    var value :- ReadSigned(t, key);
    if value < 0 then Err(Negative(key)) else Ok(value)
  }

  predicate StartsWith(t: string, p: nat, word: string) {
    p + |word| <= |t| && t[p..p + |word|] == word
  }

  function ReadBool(t: string, key: string): Result<bool, Error> {
    var p :- FindValue(t, key);
    if StartsWith(t, p, "true") then Ok(true)
    else if StartsWith(t, p, "false") then Ok(false)
    else Err(NotABoolean(key))
  }
}
