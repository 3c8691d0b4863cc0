/** Scanning printed values: whatever stands inside strings, objects and arrays, fields are found where they were printed. */
module JsonRoundTrip {
  import opened Wrappers
  import opened Decimal
  import opened Json

  // ----- fragments of a text

  ghost predicate At(t: string, p: nat, fragment: string) {
    p + |fragment| <= |t| && t[p..p + |fragment|] == fragment
  }

  lemma AtSplit(t: string, p: nat, a: string, b: string)
    requires At(t, p, a + b)
    ensures At(t, p, a) && At(t, p + |a|, b) && p + |a| + |b| <= |t|
  {
    assert t[p..p + |a + b|][..|a|] == a && t[p..p + |a + b|][|a|..] == b;
  }

  lemma AtWhole(t: string)
    ensures At(t, 0, t)
  {
  }

  lemma AtIs(t: string, p: nat, fragment: string)
    requires At(t, p, fragment)
    ensures p + |fragment| <= |t| && t[p..p + |fragment|] == fragment
  {
  }

  lemma AtChar(t: string, p: nat, fragment: string, i: nat)
    requires At(t, p, fragment) && i < |fragment|
    ensures p + |fragment| <= |t| && t[p + i] == fragment[i]
  {
    assert t[p..p + |fragment|][i] == fragment[i];
  }

  lemma BracketParts(t: string, p: nat, opening: char, inner: string, closing: char)
    requires At(t, p, [opening] + inner + [closing])
    ensures t[p] == opening && At(t, p + 1, inner)
    ensures p + 1 + |inner| < |t| && t[p + 1 + |inner|] == closing
  {
    hide At;
    assert [opening] + inner + [closing] == [opening] + (inner + [closing]);
    AtSplit(t, p, [opening], inner + [closing]);
    AtChar(t, p, [opening], 0);
    AtSplit(t, p + 1, inner, [closing]);
    AtChar(t, p + 1 + |inner|, [closing], 0);
  }

  // ----- strings

  lemma EscapedCharIsPassed(t: string, p: nat, c: char, read: string)
    requires At(t, p, EscapeChar(c))
    ensures var q := p + |EscapeChar(c)|;
            && StringEnd(t, p, false) == StringEnd(t, q, false)
            && UnescapeFrom(t, p, false, read) == UnescapeFrom(t, q, false, read + [c])
  {
    hide At;
    AtChar(t, p, EscapeChar(c), 0);
    if |EscapeChar(c)| == 2 {
      AtChar(t, p, EscapeChar(c), 1);
    }
  }

  /** Reading an escaped string gives the string back, whatever characters it holds, and ends at its closing quote. */
  lemma {:induction false} UnescapeInvertsEscape(t: string, p: nat, s: string, read: string)
    requires At(t, p, Escape(s)) && p + |Escape(s)| < |t| && t[p + |Escape(s)|] == '"'
    ensures UnescapeFrom(t, p, false, read) == Ok(read + s)
    ensures StringEnd(t, p, false) == Ok(p + |Escape(s)|)
    decreases s
  {
    hide At, EscapeChar;
    if s == [] {
      assert read + s == read;
    } else {
      AtSplit(t, p, EscapeChar(s[0]), Escape(s[1..]));
      EscapedCharIsPassed(t, p, s[0], read);
      UnescapeInvertsEscape(t, p + |EscapeChar(s[0])|, s[1..], read + [s[0]]);
      assert read + [s[0]] + s[1..] == read + s;
    }
  }

  /** A key that is printed as it stands. */
  predicate Plain(key: string) {
    forall i :: 0 <= i < |key| ==> key[i] != '\\' && key[i] != '"' && key[i] >= ' '
  }

  lemma {:induction false} PlainIsItsOwnEscape(key: string)
    requires Plain(key)
    ensures Escape(key) == key
  {
    if key != [] {
      PlainIsItsOwnEscape(key[1..]);
    }
  }

  // ----- numbers

  lemma {:induction false} NatTextIsDigits(n: nat)
    ensures AllDigits(NatText(n))
    ensures DigitsValue(NatText(n)) == n
  {
    if n >= 10 {
      NatTextIsDigits(n / 10);
      assert NatText(n)[..|NatText(n)| - 1] == NatText(n / 10);
    } else {
      assert NatText(n)[..0] == [];
    }
  }

  lemma {:induction false} DigitsEndAt(t: string, p: nat, ds: string)
    requires At(t, p, ds) && AllDigits(ds) && (p + |ds| < |t| ==> !IsDigit(t[p + |ds|]))
    ensures DigitsEnd(t, p) == p + |ds|
    decreases ds
  {
    hide At;
    if ds != [] {
      AtChar(t, p, ds, 0);
      assert ds == ds[..1] + ds[1..];
      AtSplit(t, p, ds[..1], ds[1..]);
      DigitsEndAt(t, p + 1, ds[1..]);
    }
  }

  lemma DigitsParse(t: string, p: nat, n: nat)
    requires At(t, p, NatText(n)) && p + |NatText(n)| < |t| && !IsDigit(t[p + |NatText(n)|])
    ensures var end := DigitsEnd(t, p);
            && end == p + |NatText(n)| && AllDigits(t[p..end]) && DigitsValue(t[p..end]) == n
            && p < end && IsDigit(t[p])
  {
    NatTextIsDigits(n);
    DigitsEndAt(t, p, NatText(n));
    AtChar(t, p, NatText(n), 0);
    assert IsDigit(NatText(n)[0]);
  }

  lemma NoSpaceHere(t: string, p: nat)
    requires p < |t| && !IsSpace(t[p])
    ensures SkipSpace(t, p) == p
  {
  }

  /** Parsing the text of a number gives the number back if it fits, and nothing if it does not. */
  lemma ParseInvertsIntText(t: string, p: nat, n: int)
    requires At(t, p, IntText(n)) && p + |IntText(n)| < |t| && !IsDigit(t[p + |IntText(n)|])
    ensures ParseLongLong(t, p) == if LLONG_MIN <= n <= LLONG_MAX then Some((n, p + |IntText(n)|)) else None
  {
    hide At, NatText, ParseLongLong;
    if n < 0 {
      AtSplit(t, p, "-", NatText(-n));
      AtChar(t, p, "-", 0);
      ParseInvertsNegative(t, p, -n);
    } else {
      ParseInvertsNatText(t, p, n);
    }
  }

  /** The sign and the digits apart. */
  lemma ParseInvertsNegative(t: string, p: nat, n: nat)
    requires p < |t| && t[p] == '-' && At(t, p + 1, NatText(n))
    requires p + 1 + |NatText(n)| < |t| && !IsDigit(t[p + 1 + |NatText(n)|])
    ensures ParseLongLong(t, p) == if LLONG_MIN <= -(n as int) then Some((-(n as int), p + 1 + |NatText(n)|)) else None
  {
    hide At, NatText, DigitsValue, DigitsEnd, AllDigits;
    NoSpaceHere(t, p);
    DigitsParse(t, p + 1, n);
  }

  lemma ParseInvertsNatText(t: string, p: nat, n: nat)
    requires At(t, p, NatText(n)) && p + |NatText(n)| < |t| && !IsDigit(t[p + |NatText(n)|])
    ensures ParseLongLong(t, p) == if n <= LLONG_MAX then Some((n as int, p + |NatText(n)|)) else None
  {
    hide At, NatText, DigitsValue, DigitsEnd, AllDigits;
    DigitsParse(t, p, n);
    NoSpaceHere(t, p);
  }

  // ----- well-formed values

  ghost predicate WellFormed(v: Value)
    decreases v
  {
    match v
    case Object(fs) => WellFormedFields(fs)
    case List(vs) => forall i :: 0 <= i < |vs| ==> WellFormed(vs[i])
    case _ => true
  }

  ghost predicate WellFormedFields(fs: seq<Field>)
    decreases fs
  {
    forall i :: 0 <= i < |fs| ==> Plain(fs[i].key) && WellFormed(fs[i].value)
  }

  /** Characters that end a printed value. */
  predicate Ends(c: char) {
    c == ',' || c == '}' || c == ']'
  }

  /** Characters the scanners pass over. */
  predicate Dull(c: char) {
    c != '"' && c != '{' && c != '}' && c != '[' && c != ']'
  }

  predicate AllDull(s: string) {
    forall i :: 0 <= i < |s| ==> Dull(s[i])
  }

  lemma IntTextIsDull(n: int)
    ensures AllDull(IntText(n))
  {
    NatTextIsDigits(if n < 0 then -n else n);
    assert forall c :: IsDigit(c) ==> Dull(c);
  }

  lemma {:induction false} FindPassesDull(t: string, key: string, p: nat, od: int, ad: int, s: string)
    requires At(t, p, s) && p + |s| < |t| && AllDull(s)
    ensures FindValueFrom(t, key, p, od, ad) == FindValueFrom(t, key, p + |s|, od, ad)
    decreases s
  {
    hide At;
    if s != [] {
      AtChar(t, p, s, 0);
      assert s == s[..1] + s[1..];
      AtSplit(t, p, s[..1], s[1..]);
      FindPassesDull(t, key, p + 1, od, ad, s[1..]);
    }
  }

  lemma {:induction false} MatchPassesDull(t: string, p: nat, depth: int, opening: char, closing: char, s: string)
    requires At(t, p, s) && AllDull(s) && !Dull(opening) && !Dull(closing)
    ensures MatchFrom(t, p, depth, opening, closing) == MatchFrom(t, p + |s|, depth, opening, closing)
    decreases s
  {
    hide At;
    if s != [] {
      AtChar(t, p, s, 0);
      assert s == s[..1] + s[1..];
      AtSplit(t, p, s[..1], s[1..]);
      MatchPassesDull(t, p + 1, depth, opening, closing, s[1..]);
    }
  }

  /** The quoted string at p ends where it was printed to end. */
  lemma QuotedStringEnds(t: string, p: nat, s: string)
    requires At(t, p, "\"" + Escape(s) + "\"")
    ensures FindStringEnd(t, p) == Ok(p + 1 + |Escape(s)|) && t[p] == '"' && At(t, p + 1, Escape(s))
  {
    hide At, StringEnd, UnescapeFrom;
    BracketParts(t, p, '"', Escape(s), '"');
    UnescapeInvertsEscape(t, p + 1, s, "");
  }

  // ----- passing over values

  lemma CommaParts(t: string, p: nat, a: string, b: string)
    requires At(t, p, "," + a + b)
    ensures t[p] == ',' && At(t, p + 1, a) && At(t, p + 1 + |a|, b)
  {
    hide At;
    assert "," + a + b == "," + (a + b);
    AtSplit(t, p, ",", a + b);
    AtChar(t, p, ",", 0);
    AtSplit(t, p + 1, a, b);
  }

  lemma MoreFieldsParts(t: string, p: nat, fs: seq<Field>)
    requires At(t, p, MoreFields(fs)) && p + |MoreFields(fs)| < |t| && t[p + |MoreFields(fs)|] == '}' && fs != []
    ensures var q := p + 1 + |PrintField(fs[0])|;
            && t[p] == ',' && At(t, p + 1, PrintField(fs[0])) && At(t, q, MoreFields(fs[1..]))
            && q + |MoreFields(fs[1..])| == p + |MoreFields(fs)| && Ends(t[q])
  {
    hide At;
    hide Print, PrintField;
    var rest := MoreFields(fs[1..]);
    CommaParts(t, p, PrintField(fs[0]), rest);
    MoreFieldsStart(t, p + 1 + |PrintField(fs[0])|, fs[1..]);
  }

  lemma MoreItemsParts(t: string, p: nat, vs: seq<Value>)
    requires At(t, p, MoreItems(vs)) && p + |MoreItems(vs)| < |t| && t[p + |MoreItems(vs)|] == ']' && vs != []
    ensures var q := p + 1 + |Print(vs[0])|;
            && t[p] == ',' && At(t, p + 1, Print(vs[0])) && At(t, q, MoreItems(vs[1..]))
            && q + |MoreItems(vs[1..])| == p + |MoreItems(vs)| && Ends(t[q]) && t[q] == (if |vs| == 1 then ']' else ',')
  {
    hide At;
    var rest := MoreItems(vs[1..]);
    assert MoreItems(vs) == "," + Print(vs[0]) + rest;
    CommaParts(t, p, Print(vs[0]), rest);
    MoreItemsStart(t, p + 1 + |Print(vs[0])|, vs[1..]);
  }

  lemma FindPassesText(t: string, key: string, p: nat, od: int, ad: int, s: string)
    requires At(t, p, Print(Text(s))) && p + |Print(Text(s))| < |t| && Ends(t[p + |Print(Text(s))|])
    ensures FindValueFrom(t, key, p, od, ad) == FindValueFrom(t, key, p + |Print(Text(s))|, od, ad)
  {
    hide At;
    QuotedStringEnds(t, p, s);
    assert SkipSpace(t, p + |Print(Text(s))|) == p + |Print(Text(s))|;
  }

  /** The search for a key passes over a value without being misled by its strings, objects or arrays. */
  lemma {:induction false} FindPassesValue(t: string, key: string, p: nat, od: int, ad: int, v: Value)
    requires WellFormed(v) && At(t, p, Print(v)) && p + |Print(v)| < |t| && Ends(t[p + |Print(v)|])
    requires od >= 1 && ad >= 0
    ensures FindValueFrom(t, key, p, od, ad) == FindValueFrom(t, key, p + |Print(v)|, od, ad)
    decreases v
  {
    hide At;
    match v
    case Number(n) =>
      IntTextIsDull(n);
      FindPassesDull(t, key, p, od, ad, IntText(n));
    case Boolean(b) =>
      FindPassesDull(t, key, p, od, ad, BoolText(b));
    case Text(s) =>
      FindPassesText(t, key, p, od, ad, s);
    case Object(fs) =>
      BracketParts(t, p, '{', PrintFields(fs), '}');
      FindPassesFields(t, key, p + 1, od + 1, ad, fs);
    case List(vs) =>
      BracketParts(t, p, '[', PrintItems(vs), ']');
      FindPassesItems(t, key, p + 1, od, ad + 1, vs);
  }

  lemma {:induction false} FindPassesField(t: string, key: string, p: nat, od: int, ad: int, f: Field)
    requires Plain(f.key) && WellFormed(f.value) && At(t, p, PrintField(f)) && p + |PrintField(f)| < |t| && Ends(t[p + |PrintField(f)|])
    requires (od >= 2 && ad >= 0) || (od >= 1 && ad >= 1)
    ensures FindValueFrom(t, key, p, od, ad) == FindValueFrom(t, key, p + |PrintField(f)|, od, ad)
    decreases f
  {
    hide At;
    FieldParts(t, p, f);
    var q := p + |f.key| + 2;
    assert FindValueFrom(t, key, p, od, ad) == FindValueFrom(t, key, q, od, ad);
    assert FindValueFrom(t, key, q, od, ad) == FindValueFrom(t, key, q + 1, od, ad);
    FindPassesValue(t, key, q + 1, od, ad, f.value);
  }

  lemma QuotedTextIs(t: string, p: nat, s: string)
    requires At(t, p, "\"" + Escape(s) + "\"") && Plain(s)
    ensures FindStringEnd(t, p) == Ok(p + 1 + |s|) && t[p] == '"' && t[p + 1..p + 1 + |s|] == s
  {
    hide At, FindStringEnd, Escape, Plain;
    PlainIsItsOwnEscape(s);
    QuotedStringEnds(t, p, s);
    AtIs(t, p + 1, s);
  }

  /** A printed field: its key string, a colon and its value. */
  lemma FieldParts(t: string, p: nat, f: Field)
    requires Plain(f.key) && At(t, p, PrintField(f))
    ensures var q := p + |f.key| + 2;
            && FindStringEnd(t, p) == Ok(q - 1) && t[p] == '"' && t[p + 1..q - 1] == f.key
            && q < |t| && t[q] == ':'
            && At(t, q + 1, Print(f.value)) && |PrintField(f)| == |f.key| + 3 + |Print(f.value)|
  {
    hide At, Print, FindStringEnd, Plain;
    PlainIsItsOwnEscape(f.key);
    assert PrintField(f) == "\"" + Escape(f.key) + "\"" + (":" + Print(f.value));
    AtSplit(t, p, "\"" + Escape(f.key) + "\"", ":" + Print(f.value));
    QuotedTextIs(t, p, f.key);
    AtSplit(t, p + |f.key| + 2, ":", Print(f.value));
    AtChar(t, p + |f.key| + 2, ":", 0);
  }

  lemma {:induction false} FindPassesFields(t: string, key: string, p: nat, od: int, ad: int, fs: seq<Field>)
    requires WellFormedFields(fs) && At(t, p, PrintFields(fs)) && p + |PrintFields(fs)| < |t| && t[p + |PrintFields(fs)|] == '}'
    requires (od >= 2 && ad >= 0) || (od >= 1 && ad >= 1)
    ensures FindValueFrom(t, key, p, od, ad) == FindValueFrom(t, key, p + |PrintFields(fs)|, od, ad)
    decreases fs
  {
    hide At;
    if fs != [] {
      hide PrintField;
      AtSplit(t, p, PrintField(fs[0]), MoreFields(fs[1..]));
      MoreFieldsStart(t, p + |PrintField(fs[0])|, fs[1..]);
      FindPassesField(t, key, p, od, ad, fs[0]);
      FindPassesMoreFields(t, key, p + |PrintField(fs[0])|, od, ad, fs[1..]);
    }
  }

  lemma MoreFieldsStart(t: string, p: nat, fs: seq<Field>)
    requires At(t, p, MoreFields(fs)) && p + |MoreFields(fs)| < |t| && t[p + |MoreFields(fs)|] == '}'
    ensures t[p] == if fs == [] then '}' else ','
  {
    hide At;
    if fs != [] {
      AtChar(t, p, MoreFields(fs), 0);
    }
  }

  lemma {:induction false} FindPassesMoreFields(t: string, key: string, p: nat, od: int, ad: int, fs: seq<Field>)
    requires WellFormedFields(fs) && At(t, p, MoreFields(fs)) && p + |MoreFields(fs)| < |t| && t[p + |MoreFields(fs)|] == '}'
    requires (od >= 2 && ad >= 0) || (od >= 1 && ad >= 1)
    ensures FindValueFrom(t, key, p, od, ad) == FindValueFrom(t, key, p + |MoreFields(fs)|, od, ad)
    decreases fs
  {
    hide At;
    if fs != [] {
      MoreFieldsParts(t, p, fs);
      FindPassesField(t, key, p + 1, od, ad, fs[0]);
      FindPassesMoreFields(t, key, p + 1 + |PrintField(fs[0])|, od, ad, fs[1..]);
    }
  }

  lemma MoreItemsStart(t: string, p: nat, vs: seq<Value>)
    requires At(t, p, MoreItems(vs)) && p + |MoreItems(vs)| < |t| && t[p + |MoreItems(vs)|] == ']'
    ensures t[p] == if vs == [] then ']' else ','
  {
    hide At;
    if vs != [] {
      AtChar(t, p, MoreItems(vs), 0);
    }
  }

  lemma {:induction false} FindPassesItems(t: string, key: string, p: nat, od: int, ad: int, vs: seq<Value>)
    requires (forall i :: 0 <= i < |vs| ==> WellFormed(vs[i])) && At(t, p, PrintItems(vs))
    requires p + |PrintItems(vs)| < |t| && t[p + |PrintItems(vs)|] == ']'
    requires od >= 1 && ad >= 1
    ensures FindValueFrom(t, key, p, od, ad) == FindValueFrom(t, key, p + |PrintItems(vs)|, od, ad)
    decreases vs
  {
    hide At;
    if vs != [] {
      AtSplit(t, p, Print(vs[0]), MoreItems(vs[1..]));
      MoreItemsStart(t, p + |Print(vs[0])|, vs[1..]);
      FindPassesValue(t, key, p, od, ad, vs[0]);
      FindPassesMoreItems(t, key, p + |Print(vs[0])|, od, ad, vs[1..]);
    }
  }

  lemma {:induction false} FindPassesMoreItems(t: string, key: string, p: nat, od: int, ad: int, vs: seq<Value>)
    requires (forall i :: 0 <= i < |vs| ==> WellFormed(vs[i])) && At(t, p, MoreItems(vs))
    requires p + |MoreItems(vs)| < |t| && t[p + |MoreItems(vs)|] == ']'
    requires od >= 1 && ad >= 1
    ensures FindValueFrom(t, key, p, od, ad) == FindValueFrom(t, key, p + |MoreItems(vs)|, od, ad)
    decreases vs
  {
    hide At;
    if vs != [] {
      hide Print;
      MoreItemsParts(t, p, vs);
      FindPassesValue(t, key, p + 1, od, ad, vs[0]);
      FindPassesMoreItems(t, key, p + 1 + |Print(vs[0])|, od, ad, vs[1..]);
    }
  }

  // ----- looking up a field

  function Lookup(fs: seq<Field>, key: string): (v: Option<Value>)
    ensures v.Some? ==> exists i :: 0 <= i < |fs| && fs[i] == Field(key, v.value)
    ensures v.None? <==> forall i :: 0 <= i < |fs| ==> fs[i].key != key
  {
    if fs == [] then None
    else if fs[0].key == key then Some(fs[0].value)
    else Lookup(fs[1..], key)
  }

  /** The text of v stands at p, and the character after it ends it. */
  ghost predicate Holds(t: string, p: nat, v: Value) {
    At(t, p, Print(v)) && p + |Print(v)| < |t| && Ends(t[p + |Print(v)|])
  }

  /** The outcome of a search agrees with the fields that were printed. */
  ghost predicate Finds(t: string, key: string, r: Result<nat, Error>, v: Option<Value>) {
    if v.None? then r == Err(MissingField(key)) else r.Ok? && Holds(t, r.value, v.value)
  }

  lemma ValuesDoNotStartWithSpace(v: Value)
    ensures !IsSpace(Print(v)[0])
  {
    if v.Number? {
      NatTextIsDigits(if v.n < 0 then -v.n else v.n);
      assert IsDigit(NatText(if v.n < 0 then -v.n else v.n)[0]);
    }
  }

  lemma FindMeetsField(t: string, key: string, p: nat, f: Field)
    requires Plain(f.key) && WellFormed(f.value) && At(t, p, PrintField(f))
    requires p + |PrintField(f)| < |t| && Ends(t[p + |PrintField(f)|])
    ensures var r := FindValueFrom(t, key, p, 1, 0);
            if f.key == key then r.Ok? && Holds(t, r.value, f.value)
            else r == FindValueFrom(t, key, p + |PrintField(f)|, 1, 0)
  {
    hide At;
    FieldParts(t, p, f);
    var q := p + |f.key| + 2;
    ValuesDoNotStartWithSpace(f.value);
    AtChar(t, q + 1, Print(f.value), 0);
    assert SkipSpace(t, q) == q && SkipSpace(t, q + 1) == q + 1;
    if f.key != key {
      assert FindValueFrom(t, key, p, 1, 0) == FindValueFrom(t, key, q, 1, 0);
      assert FindValueFrom(t, key, q, 1, 0) == FindValueFrom(t, key, q + 1, 1, 0);
      FindPassesValue(t, key, q + 1, 1, 0, f.value);
    }
  }

  lemma {:induction false} FindInMoreFields(t: string, key: string, p: nat, fs: seq<Field>)
    requires WellFormedFields(fs) && At(t, p, MoreFields(fs)) && p + |MoreFields(fs)| == |t| - 1 && t[|t| - 1] == '}'
    ensures Finds(t, key, FindValueFrom(t, key, p, 1, 0), Lookup(fs, key))
    decreases fs
  {
    hide At;
    hide PrintField, Holds;
    if fs != [] {
      MoreFieldsParts(t, p, fs);
      FindMeetsField(t, key, p + 1, fs[0]);
      FindInMoreFields(t, key, p + 1 + |PrintField(fs[0])|, fs[1..]);
    }
  }

  /** A printed object: its first field and the rest. */
  lemma ObjectParts(t: string, p: nat, fs: seq<Field>)
    requires At(t, p, Print(Object(fs)))
    ensures t[p] == '{' && At(t, p + 1, PrintFields(fs))
    ensures p + |Print(Object(fs))| <= |t| && t[p + |Print(Object(fs))| - 1] == '}'
    ensures |Print(Object(fs))| == |PrintFields(fs)| + 2
  {
    hide At;
    BracketParts(t, p, '{', PrintFields(fs), '}');
  }

  lemma FieldsParts(t: string, p: nat, fs: seq<Field>)
    requires At(t, p, PrintFields(fs)) && fs != [] && p + |PrintFields(fs)| < |t| && t[p + |PrintFields(fs)|] == '}'
    ensures var q := p + |PrintField(fs[0])|;
            && At(t, p, PrintField(fs[0])) && At(t, q, MoreFields(fs[1..])) && Ends(t[q])
            && q + |MoreFields(fs[1..])| == p + |PrintFields(fs)|
  {
    hide At;
    hide Print, PrintField;
    var rest := MoreFields(fs[1..]);
    AtSplit(t, p, PrintField(fs[0]), rest);
    MoreFieldsStart(t, p + |PrintField(fs[0])|, fs[1..]);
  }

  lemma FindInFields(t: string, key: string, fs: seq<Field>)
    requires WellFormedFields(fs) && At(t, 1, PrintFields(fs)) && 1 + |PrintFields(fs)| == |t| - 1 && t[|t| - 1] == '}'
    ensures Finds(t, key, FindValueFrom(t, key, 1, 1, 0), Lookup(fs, key))
  {
    hide At, Holds, PrintField;
    if fs != [] {
      FieldsParts(t, 1, fs);
      FindMeetsField(t, key, 1, fs[0]);
      FindInMoreFields(t, key, 1 + |PrintField(fs[0])|, fs[1..]);
    }
  }

  /** The scanner finds, of a printed object, the first field with the key, wherever the key's text may also occur;
      and it reports a missing field exactly when there is none. */
  lemma FindsEveryField(fs: seq<Field>, key: string)
    requires WellFormedFields(fs)
    ensures var t := Print(Object(fs)); Finds(t, key, FindValue(t, key), Lookup(fs, key))
  {
    hide At, FindValueFrom, Lookup, PrintFields;
    var t := Print(Object(fs));
    AtWhole(t);
    ObjectParts(t, 0, fs);
    FindInFields(t, key, fs);
  }

  // ----- matching delimiters

  predicate Pair(opening: char, closing: char) {
    (opening == '{' && closing == '}') || (opening == '[' && closing == ']')
  }

  lemma MatchPassesText(t: string, p: nat, depth: int, opening: char, closing: char, s: string)
    requires At(t, p, Print(Text(s)))
    ensures MatchFrom(t, p, depth, opening, closing) == MatchFrom(t, p + |Print(Text(s))|, depth, opening, closing)
  {
    hide At;
    QuotedStringEnds(t, p, s);
  }

  lemma MatchOpens(t: string, p: nat, depth: int, opening: char, closing: char)
    requires p < |t| && Pair(opening, closing) && (t[p] == '{' || t[p] == '[')
    ensures MatchFrom(t, p, depth, opening, closing)
         == MatchFrom(t, p + 1, if t[p] == opening then depth + 1 else depth, opening, closing)
  {
  }

  lemma MatchCloses(t: string, p: nat, depth: int, opening: char, closing: char)
    requires p < |t| && Pair(opening, closing) && (t[p] == '}' || t[p] == ']') && (t[p] == closing ==> depth >= 2)
    ensures MatchFrom(t, p, depth, opening, closing)
         == MatchFrom(t, p + 1, if t[p] == closing then depth - 1 else depth, opening, closing)
  {
    hide At;
  }

  /** The matching of brackets passes over a value with its depth unchanged. */
  lemma {:induction false} MatchPassesValue(t: string, p: nat, depth: int, opening: char, closing: char, v: Value)
    requires WellFormed(v) && At(t, p, Print(v)) && Pair(opening, closing) && depth >= 1
    ensures MatchFrom(t, p, depth, opening, closing) == MatchFrom(t, p + |Print(v)|, depth, opening, closing)
    decreases v
  {
    hide At;
    hide MatchFrom;
    match v
    case Number(n) =>
      IntTextIsDull(n);
      MatchPassesDull(t, p, depth, opening, closing, IntText(n));
    case Boolean(b) =>
      MatchPassesDull(t, p, depth, opening, closing, BoolText(b));
    case Text(s) =>
      MatchPassesText(t, p, depth, opening, closing, s);
    case Object(fs) =>
      MatchPassesObject(t, p, depth, opening, closing, fs);
    case List(vs) =>
      MatchPassesList(t, p, depth, opening, closing, vs);
  }

  lemma {:induction false} MatchPassesObject(t: string, p: nat, depth: int, opening: char, closing: char, fs: seq<Field>)
    requires WellFormedFields(fs) && At(t, p, Print(Object(fs))) && Pair(opening, closing) && depth >= 1
    ensures MatchFrom(t, p, depth, opening, closing) == MatchFrom(t, p + |Print(Object(fs))|, depth, opening, closing)
    decreases fs, 1
  {
    hide At;
    hide MatchFrom;
    var inner := if opening == '{' then depth + 1 else depth;
    ObjectParts(t, p, fs);
    MatchOpens(t, p, depth, opening, closing);
    MatchPassesFields(t, p + 1, inner, opening, closing, fs);
    MatchCloses(t, p + 1 + |PrintFields(fs)|, inner, opening, closing);
  }

  lemma {:induction false} MatchPassesList(t: string, p: nat, depth: int, opening: char, closing: char, vs: seq<Value>)
    requires (forall i :: 0 <= i < |vs| ==> WellFormed(vs[i])) && At(t, p, Print(List(vs))) && Pair(opening, closing) && depth >= 1
    ensures MatchFrom(t, p, depth, opening, closing) == MatchFrom(t, p + |Print(List(vs))|, depth, opening, closing)
    decreases vs, 1
  {
    hide At;
    hide MatchFrom;
    var inner := if opening == '[' then depth + 1 else depth;
    BracketParts(t, p, '[', PrintItems(vs), ']');
    MatchOpens(t, p, depth, opening, closing);
    MatchPassesItems(t, p + 1, inner, opening, closing, vs);
    MatchCloses(t, p + 1 + |PrintItems(vs)|, inner, opening, closing);
  }

  lemma {:induction false} MatchPassesField(t: string, p: nat, depth: int, opening: char, closing: char, f: Field)
    requires Plain(f.key) && WellFormed(f.value) && At(t, p, PrintField(f)) && Pair(opening, closing) && depth >= 1
    ensures MatchFrom(t, p, depth, opening, closing) == MatchFrom(t, p + |PrintField(f)|, depth, opening, closing)
    decreases f
  {
    hide At;
    FieldParts(t, p, f);
    var q := p + |f.key| + 2;
    assert MatchFrom(t, p, depth, opening, closing) == MatchFrom(t, q, depth, opening, closing);
    assert MatchFrom(t, q, depth, opening, closing) == MatchFrom(t, q + 1, depth, opening, closing);
    MatchPassesValue(t, q + 1, depth, opening, closing, f.value);
  }

  lemma {:induction false} MatchPassesFields(t: string, p: nat, depth: int, opening: char, closing: char, fs: seq<Field>)
    requires WellFormedFields(fs) && At(t, p, PrintFields(fs)) && Pair(opening, closing) && depth >= 1
    ensures MatchFrom(t, p, depth, opening, closing) == MatchFrom(t, p + |PrintFields(fs)|, depth, opening, closing)
    decreases fs, 0
  {
    hide At;
    if fs != [] {
      AtSplit(t, p, PrintField(fs[0]), MoreFields(fs[1..]));
      MatchPassesField(t, p, depth, opening, closing, fs[0]);
      MatchPassesMoreFields(t, p + |PrintField(fs[0])|, depth, opening, closing, fs[1..]);
    }
  }

  lemma {:induction false} MatchPassesMoreFields(t: string, p: nat, depth: int, opening: char, closing: char, fs: seq<Field>)
    requires WellFormedFields(fs) && At(t, p, MoreFields(fs)) && Pair(opening, closing) && depth >= 1
    ensures MatchFrom(t, p, depth, opening, closing) == MatchFrom(t, p + |MoreFields(fs)|, depth, opening, closing)
    decreases fs, 0
  {
    hide At;
    if fs != [] {
      hide PrintField;
      CommaParts(t, p, PrintField(fs[0]), MoreFields(fs[1..]));
      MatchPassesField(t, p + 1, depth, opening, closing, fs[0]);
      MatchPassesMoreFields(t, p + 1 + |PrintField(fs[0])|, depth, opening, closing, fs[1..]);
    }
  }

  lemma {:induction false} MatchPassesItems(t: string, p: nat, depth: int, opening: char, closing: char, vs: seq<Value>)
    requires (forall i :: 0 <= i < |vs| ==> WellFormed(vs[i])) && At(t, p, PrintItems(vs)) && Pair(opening, closing) && depth >= 1
    ensures MatchFrom(t, p, depth, opening, closing) == MatchFrom(t, p + |PrintItems(vs)|, depth, opening, closing)
    decreases vs, 0
  {
    hide At, Print, MatchFrom, MoreItems;
    if vs != [] {
      AtSplit(t, p, Print(vs[0]), MoreItems(vs[1..]));
      MatchPassesValue(t, p, depth, opening, closing, vs[0]);
      MatchPassesMoreItems(t, p + |Print(vs[0])|, depth, opening, closing, vs[1..]);
    }
  }

  lemma {:induction false} MatchPassesMoreItems(t: string, p: nat, depth: int, opening: char, closing: char, vs: seq<Value>)
    requires (forall i :: 0 <= i < |vs| ==> WellFormed(vs[i])) && At(t, p, MoreItems(vs)) && Pair(opening, closing) && depth >= 1
    ensures MatchFrom(t, p, depth, opening, closing) == MatchFrom(t, p + |MoreItems(vs)|, depth, opening, closing)
    decreases vs, 0
  {
    hide At;
    if vs != [] {
      hide Print;
      CommaParts(t, p, Print(vs[0]), MoreItems(vs[1..]));
      MatchPassesValue(t, p + 1, depth, opening, closing, vs[0]);
      MatchPassesMoreItems(t, p + 1 + |Print(vs[0])|, depth, opening, closing, vs[1..]);
    }
  }

  /** The bracket that opens a printed object is closed by the one that ends it. */
  lemma ObjectsAreMatched(t: string, p: nat, fs: seq<Field>)
    requires WellFormedFields(fs) && At(t, p, Print(Object(fs)))
    ensures FindMatchingDelimiter(t, p, '{', '}') == Ok(p + |Print(Object(fs))| - 1)
  {
    hide At;
    BracketParts(t, p, '{', PrintFields(fs), '}');
    MatchPassesFields(t, p + 1, 1, '{', '}', fs);
  }

  lemma ListsAreMatched(t: string, p: nat, vs: seq<Value>)
    requires (forall i :: 0 <= i < |vs| ==> WellFormed(vs[i])) && At(t, p, Print(List(vs)))
    ensures FindMatchingDelimiter(t, p, '[', ']') == Ok(p + |Print(List(vs))| - 1)
  {
    hide At;
    BracketParts(t, p, '[', PrintItems(vs), ']');
    MatchPassesItems(t, p + 1, 1, '[', ']', vs);
  }

  // ----- reading fields of printed objects

  /** The field `key` of a printed object has the value v. */
  ghost predicate Has(t: string, key: string, v: Value) {
    FindValue(t, key).Ok? && Holds(t, FindValue(t, key).value, v)
  }

  lemma PrintedFieldsAreFound(fs: seq<Field>, key: string)
    requires WellFormedFields(fs) && Lookup(fs, key).Some?
    ensures Has(Print(Object(fs)), key, Lookup(fs, key).value)
  {
    FindsEveryField(fs, key);
  }

  lemma ReadsInteger(t: string, key: string, n: int)
    requires Has(t, key, Number(n))
    ensures ReadSigned(t, key) == if LLONG_MIN <= n <= LLONG_MAX then Ok(n) else Err(NotAnInteger(key))
  {
    hide At;
    var p := FindValue(t, key).value;
    ParseInvertsIntText(t, p, n);
    assert SkipSpace(t, p + |IntText(n)|) == p + |IntText(n)|;
  }

  lemma ReadsText(t: string, key: string, s: string)
    requires Has(t, key, Text(s))
    ensures ReadString(t, key) == Ok(s)
  {
    hide At;
    var p := FindValue(t, key).value;
    BracketParts(t, p, '"', Escape(s), '"');
    UnescapeInvertsEscape(t, p + 1, s, "");
    assert "" + s == s;
  }

  lemma ReadsBoolean(t: string, key: string, b: bool)
    requires Has(t, key, Boolean(b))
    ensures ReadBool(t, key) == Ok(b)
  {
    var p := FindValue(t, key).value;
    AtChar(t, p, BoolText(b), 0);
    assert !b ==> t[p..p + 4][0] == 'f';
  }

  lemma ReadsObject(t: string, key: string, fs: seq<Field>)
    requires Has(t, key, Object(fs)) && WellFormedFields(fs)
    ensures ReadObject(t, key) == Ok(Print(Object(fs)))
  {
    var p := FindValue(t, key).value;
    ObjectsAreMatched(t, p, fs);
    AtChar(t, p, Print(Object(fs)), 0);
  }

  predicate AllObjects(vs: seq<Value>) {
    forall i :: 0 <= i < |vs| ==> vs[i].Object?
  }

  function Texts(vs: seq<Value>): (ts: seq<string>)
    ensures |ts| == |vs|
    ensures forall i :: 0 <= i < |vs| ==> ts[i] == Print(vs[i])
  {
    if vs == [] then [] else [Print(vs[0])] + Texts(vs[1..])
  }

  lemma ReadsOneObject(a: string, p: nat, v: Value)
    requires v.Object? && WellFormed(v) && At(a, p, Print(v)) && p + |Print(v)| < |a|
    ensures var after := p + |Print(v)|;
            && a[p] == '{' && FindMatchingDelimiter(a, p, '{', '}') == Ok(after - 1) && a[p..after] == Print(v)
  {
    ObjectsStartWithBrace(v);
    AtIs(a, p, Print(v));
    hide At, Print;
    AtChar(a, p, Print(v), 0);
    ObjectsAreMatched(a, p, v.fields);
  }

  /** An array text from an object on: the object, then the end of the array or a comma and more objects. */
  lemma {:induction false} ReadsObjectsFrom(a: string, p: nat, key: string, vs: seq<Value>)
    requires vs != [] && AllObjects(vs) && forall i :: 0 <= i < |vs| ==> WellFormed(vs[i])
    requires At(a, p, Print(vs[0])) && At(a, p + |Print(vs[0])|, MoreItems(vs[1..]))
    requires p + |Print(vs[0])| + |MoreItems(vs[1..])| == |a| - 1 && a[|a| - 1] == ']'
    ensures ObjectsFrom(a, p, key) == Ok(Texts(vs))
    decreases vs
  {
    hide At, Print, WellFormed, FindMatchingDelimiter;
    var after := p + |Print(vs[0])|;
    ReadsOneObject(a, p, vs[0]);
    MoreItemsStart(a, after, vs[1..]);
    if |vs| > 1 {
      var rest := vs[1..];
      CommaParts(a, after, Print(rest[0]), MoreItems(rest[1..]));
      ObjectsStartWithBrace(rest[0]);
      AtChar(a, after + 1, Print(rest[0]), 0);
      ReadsObjectsFrom(a, after + 1, key, rest);
      ObjectsGoOn(a, p, key, after);
    } else {
      assert vs[1..] == [];
      assert Texts(vs) == [Print(vs[0])];
    }
  }

  /** One turn of the loop over the objects of an array, when a comma and another object follow. */
  lemma ObjectsGoOn(a: string, p: nat, key: string, after: nat)
    requires p < after < |a| - 2 && a[p] == '{' && FindMatchingDelimiter(a, p, '{', '}') == Ok(after - 1)
    requires a[after] == ',' && a[after + 1] == '{' && ObjectsFrom(a, after + 1, key).Ok?
    ensures ObjectsFrom(a, p, key) == Ok([a[p..after]] + ObjectsFrom(a, after + 1, key).value)
  {
    assert SkipSpace(a, after) == after && SkipSpace(a, after + 1) == after + 1;
  }

  lemma ObjectsStartWithBrace(v: Value)
    requires v.Object?
    ensures Print(v)[0] == '{' && |Print(v)| >= 2
  {
  }

  lemma ReadsList(t: string, key: string, vs: seq<Value>)
    requires Has(t, key, List(vs)) && forall i :: 0 <= i < |vs| ==> WellFormed(vs[i])
    ensures ReadArray(t, key) == Ok(Print(List(vs)))
  {
    hide At;
    var p := FindValue(t, key).value;
    ListsAreMatched(t, p, vs);
    AtChar(t, p, Print(List(vs)), 0);
    AtIs(t, p, Print(List(vs)));
  }

  /** An array of objects is read back as the texts of its objects, in order. */
  lemma ReadsObjectArray(t: string, key: string, vs: seq<Value>)
    requires Has(t, key, List(vs)) && AllObjects(vs) && forall i :: 0 <= i < |vs| ==> WellFormed(vs[i])
    ensures ReadObjectArray(t, key) == Ok(Texts(vs))
  {
    hide At, Has, ReadArray, ObjectsFrom, Print;
    ReadsList(t, key, vs);
    ReadsListText(key, vs);
  }

  lemma ReadsListText(key: string, vs: seq<Value>)
    requires AllObjects(vs) && forall i :: 0 <= i < |vs| ==> WellFormed(vs[i])
    ensures var a := Print(List(vs)); ObjectsFrom(a, SkipSpace(a, 1), key) == Ok(Texts(vs))
  {
    var a := Print(List(vs));
    AtWhole(a);
    BracketParts(a, 0, '[', PrintItems(vs), ']');
    hide At, ObjectsFrom, PrintItems, SkipSpace;
    ReadsItems(a, key, vs);
  }

  lemma ReadsItems(a: string, key: string, vs: seq<Value>)
    requires AllObjects(vs) && forall i :: 0 <= i < |vs| ==> WellFormed(vs[i])
    requires At(a, 1, PrintItems(vs)) && 1 + |PrintItems(vs)| == |a| - 1 && a[|a| - 1] == ']'
    ensures ObjectsFrom(a, SkipSpace(a, 1), key) == Ok(Texts(vs))
  {
    hide At, Print;
    if vs != [] {
      AtSplit(a, 1, Print(vs[0]), MoreItems(vs[1..]));
      AtChar(a, 1, Print(vs[0]), 0);
      ObjectsStartWithBrace(vs[0]);
      ReadsObjectsFrom(a, 1, key, vs);
    }
  }
}
