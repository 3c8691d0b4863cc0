/** The writers of the protocol as they run: each appends to the output stream, and an unsupported character ends the writing. */
module Writer {
  import opened Wrappers
  import opened ChessTypes
  import opened Decimal
  import J = Json
  import P = Protocol
  import Scanner
  import W = WireText

  class OutputStream {
    var text: string

    constructor ()
      ensures text == ""
    {
      text := "";
    }

    method Put(t: string)
      modifies this
      ensures text == old(text) + t
    {
      text := text + t;
    }
  }

  // ----- texts under way

  function Label(first: bool, key: string): string {
    (if first then "{" else ",") + "\"" + key + "\":"
  }

  /** The text of an object after its first k fields. */
  function Begun(fs: seq<J.Field>, k: nat): string
    requires k <= |fs|
  {
    if k == 0 then "" else Begun(fs, k - 1) + Label(k == 1, fs[k - 1].key) + J.Print(fs[k - 1].value)
  }

  lemma {:induction false} MoreFieldsGrow(fs: seq<J.Field>, f: J.Field)
    ensures J.MoreFields(fs + [f]) == J.MoreFields(fs) + "," + J.PrintField(f)
  {
    hide J.PrintField;
    if fs == [] {
      assert fs + [f] == [f] && [f][1..] == [];
    } else {
      assert (fs + [f])[1..] == fs[1..] + [f];
      MoreFieldsGrow(fs[1..], f);
    }
  }

  lemma LabelledField(first: bool, f: J.Field)
    ensures Label(first, f.key) + J.Print(f.value) == (if first then "{" else ",") + J.PrintField(f)
  {
    hide J.Print;
  }

  /** One more field is one more label and value. */
  lemma BegunGrows(fs: seq<J.Field>, k: nat)
    requires 1 <= k <= |fs|
    ensures Begun(fs, k) == Begun(fs, k - 1) + ((if k == 1 then "{" else ",") + J.PrintField(fs[k - 1]))
  {
    LabelledField(k == 1, fs[k - 1]);
    hide J.Print, J.PrintField, Label;
    var before, head, value := Begun(fs, k - 1), Label(k == 1, fs[k - 1].key), J.Print(fs[k - 1].value);
    assert before + head + value == before + (head + value);
  }

  lemma PrintedGrows(fs: seq<J.Field>, k: nat)
    requires 2 <= k <= |fs|
    ensures J.PrintFields(fs[..k]) == J.PrintFields(fs[..k - 1]) + ("," + J.PrintField(fs[k - 1]))
  {
    hide J.PrintField, J.MoreFields;
    FirstStays(fs, k);
    FirstStays(fs, k - 1);
    OneMoreField(fs, k);
    MoreFieldsGrow(fs[..k - 1][1..], fs[k - 1]);
    var first, more, last := J.PrintField(fs[0]), J.MoreFields(fs[..k - 1][1..]), J.PrintField(fs[k - 1]);
    assert first + (more + "," + last) == first + more + ("," + last);
  }

  lemma OnePrinted(fs: seq<J.Field>)
    requires fs != []
    ensures Begun(fs, 1) == "{" + J.PrintFields(fs[..1])
  {
    BegunGrows(fs, 1);
    hide J.PrintField, J.Print;
    assert fs[..1][1..] == [] && fs[..1][0] == fs[0];
    assert Begun(fs, 0) == "";
  }

  lemma {:induction false} BegunIsPrinted(fs: seq<J.Field>, k: nat)
    requires 1 <= k <= |fs|
    ensures Begun(fs, k) == "{" + J.PrintFields(fs[..k])
  {
    hide J.PrintField, J.PrintFields, Begun;
    if k == 1 {
      OnePrinted(fs);
    } else {
      BegunIsPrinted(fs, k - 1);
      BegunGrows(fs, k);
      PrintedGrows(fs, k);
      var fields, last := J.PrintFields(fs[..k - 1]), "," + J.PrintField(fs[k - 1]);
      assert "{" + fields + last == "{" + (fields + last);
    }
  }

  lemma FirstStays(fs: seq<J.Field>, k: nat)
    requires 1 <= k <= |fs|
    ensures fs[..k][0] == fs[0]
  {
  }

  lemma OneMoreField(fs: seq<J.Field>, k: nat)
    requires 2 <= k <= |fs|
    ensures fs[..k][1..] == fs[..k - 1][1..] + [fs[k - 1]]
  {
  }

  lemma ClosedIsPrinted(fs: seq<J.Field>)
    requires fs != []
    ensures Begun(fs, |fs|) + "}" == J.Print(J.Object(fs))
  {
    BegunIsPrinted(fs, |fs|);
    assert fs[..|fs|] == fs;
  }

  /** The text of an array after its first k items. */
  function BegunItems(vs: seq<J.Value>, k: nat): string
    requires k <= |vs|
  {
    if k == 0 then "[" else BegunItems(vs, k - 1) + (if k == 1 then "" else ",") + J.Print(vs[k - 1])
  }

  lemma {:induction false} MoreItemsGrow(vs: seq<J.Value>, v: J.Value)
    ensures J.MoreItems(vs + [v]) == J.MoreItems(vs) + "," + J.Print(v)
  {
    hide J.Print;
    if vs == [] {
      assert vs + [v] == [v] && [v][1..] == [];
    } else {
      assert (vs + [v])[1..] == vs[1..] + [v];
      MoreItemsGrow(vs[1..], v);
    }
  }

  lemma {:induction false} BegunItemsArePrinted(vs: seq<J.Value>, k: nat)
    requires k <= |vs|
    ensures BegunItems(vs, k) == "[" + J.PrintItems(vs[..k])
  {
    hide J.Print;
    if k == 1 {
      assert vs[..1][1..] == [];
      assert BegunItems(vs, 0) == "[";
    } else if k > 1 {
      BegunItemsArePrinted(vs, k - 1);
      assert vs[..k - 1][0] == vs[0] && vs[..k][0] == vs[0];
      assert vs[..k][1..] == vs[..k - 1][1..] + [vs[k - 1]];
      MoreItemsGrow(vs[..k - 1][1..], vs[k - 1]);
    }
  }

  lemma ClosedItemsArePrinted(vs: seq<J.Value>)
    ensures BegunItems(vs, |vs|) + "]" == J.Print(J.List(vs))
  {
    BegunItemsArePrinted(vs, |vs|);
    assert vs[..|vs|] == vs;
  }

  lemma Regroup(a: string, b: string, c: string, d: string)
    ensures a + b + c + d == a + (b + c + d)
  {
  }

  /** A label and a value written after k fields make k + 1 fields. */
  lemma FieldAdded(before: string, fs: seq<J.Field>, k: nat)
    requires k < |fs|
    ensures before + Begun(fs, k) + Label(k == 0, fs[k].key) + J.Print(fs[k].value) == before + Begun(fs, k + 1)
  {
    hide J.Print, Label;
    Regroup(before, Begun(fs, k), Label(k == 0, fs[k].key), J.Print(fs[k].value));
  }

  // ----- single fields

  method PutLabel(out: OutputStream, first: bool, key: string)
    modifies out
    ensures out.text == old(out.text) + Label(first, key)
  {
    out.Put(if first then "{" else ",");
    out.Put("\"");
    out.Put(key);
    out.Put("\":");
  }

  /** Writes field k of an object whose first k fields stand behind `before`. */
  method PutNumber(out: OutputStream, n: int, ghost before: string, ghost fs: seq<J.Field>, k: nat, key: string)
    requires k < |fs| && fs[k] == J.Field(key, J.Number(n)) && out.text == before + Begun(fs, k)
    modifies out
    ensures out.text == before + Begun(fs, k + 1)
  {
    hide Begun, Label;
    FieldAdded(before, fs, k);
    PutLabel(out, k == 0, key);
    out.Put(IntText(n));
  }

  method PutBool(out: OutputStream, b: bool, ghost before: string, ghost fs: seq<J.Field>, k: nat, key: string)
    requires k < |fs| && fs[k] == J.Field(key, J.Boolean(b)) && out.text == before + Begun(fs, k)
    modifies out
    ensures out.text == before + Begun(fs, k + 1)
  {
    hide Begun, Label;
    FieldAdded(before, fs, k);
    PutLabel(out, k == 0, key);
    out.Put(if b then "true" else "false");
  }

  method PutQuoted(out: OutputStream, t: string)
    modifies out
    ensures out.text == old(out.text) + ("\"" + t + "\"")
  {
    out.Put("\"");
    out.Put(t);
    out.Put("\"");
  }

  method PutText(out: OutputStream, t: string, ghost before: string, ghost fs: seq<J.Field>, k: nat, key: string)
    returns (r: Result<(), J.Error>)
    requires k < |fs| && fs[k] == J.Field(key, J.Text(t)) && out.text == before + Begun(fs, k)
    modifies out
    ensures r == if J.Encodable(t) then Ok(()) else Err(J.UnsupportedControlCharacter)
    ensures r.Ok? ==> out.text == before + Begun(fs, k + 1)
  {
    hide Begun, Label, J.Escape;
    var escaped :- Scanner.EscapeJson(t);
    FieldAdded(before, fs, k);
    PutLabel(out, k == 0, key);
    PutQuoted(out, escaped);
    return Ok(());
  }

  method Close(out: OutputStream, ghost before: string, ghost fs: seq<J.Field>)
    requires fs != [] && out.text == before + Begun(fs, |fs|)
    modifies out
    ensures out.text == before + J.Print(J.Object(fs))
  {
    out.Put("}");
    ClosedIsPrinted(fs);
  }

  method WritePosition(out: OutputStream, p: Position)
    modifies out
    ensures out.text == old(out.text) + J.Print(J.Object(P.PositionFields(p)))
  {
    hide J.Print, Begun;
    ghost var before, fs := out.text, P.PositionFields(p);
    Start(before, fs);
    PutNumber(out, p.row, before, fs, 0, "row");
    PutNumber(out, p.col, before, fs, 1, "col");
    Close(out, before, fs);
  }

  lemma Start(before: string, fs: seq<J.Field>)
    ensures before + Begun(fs, 0) == before
  {
  }

  method PutPosition(out: OutputStream, p: Position, ghost before: string, ghost fs: seq<J.Field>, k: nat, key: string)
    requires k < |fs| && fs[k] == J.Field(key, J.Object(P.PositionFields(p))) && out.text == before + Begun(fs, k)
    modifies out
    ensures out.text == before + Begun(fs, k + 1)
  {
    hide J.Print, Begun, Label;
    FieldAdded(before, fs, k);
    PutLabel(out, k == 0, key);
    WritePosition(out, p);
  }

  // ----- the parts of a snapshot

  method WritePiece(out: OutputStream, p: P.PieceSnapshot) returns (r: Result<(), J.Error>)
    modifies out
    ensures r == if P.EncodablePiece(p) then Ok(()) else Err(J.UnsupportedControlCharacter)
    ensures r.Ok? ==> out.text == old(out.text) + J.Print(J.Object(P.PieceFields(p)))
  {
    hide J.Print, Begun;
    ghost var before, fs := out.text, P.PieceFields(p);
    Start(before, fs);
    PutNumber(out, p.id, before, fs, 0, "id");
    var _ :- PutText(out, p.token, before, fs, 1, "token");
    PutPosition(out, p.position, before, fs, 2, "position");
    var _ :- PutText(out, p.state, before, fs, 3, "state");
    PutBool(out, p.hasMoved, before, fs, 4, "hasMoved");
    PutNumber(out, p.remainingCooldownMs, before, fs, 5, "remainingCooldownMs");
    PutNumber(out, p.totalCooldownMs, before, fs, 6, "totalCooldownMs");
    Close(out, before, fs);
    return Ok(());
  }

  method WriteMotion(out: OutputStream, m: P.MotionSnapshot)
    modifies out
    ensures out.text == old(out.text) + J.Print(J.Object(P.MotionFields(m)))
  {
    hide J.Print, Begun;
    ghost var before, fs := out.text, P.MotionFields(m);
    Start(before, fs);
    PutNumber(out, m.pieceId, before, fs, 0, "pieceId");
    PutPosition(out, m.source, before, fs, 1, "source");
    PutPosition(out, m.destination, before, fs, 2, "destination");
    PutPosition(out, m.currentCell, before, fs, 3, "currentCell");
    PutNumber(out, m.rowStep, before, fs, 4, "rowStep");
    PutNumber(out, m.colStep, before, fs, 5, "colStep");
    PutBool(out, m.directMove, before, fs, 6, "directMove");
    PutNumber(out, m.stepDurationMs, before, fs, 7, "stepDurationMs");
    PutNumber(out, m.nextStepTimeMs, before, fs, 8, "nextStepTimeMs");
    PutNumber(out, m.order, before, fs, 9, "order");
    Close(out, before, fs);
  }

  method WriteJump(out: OutputStream, j: P.JumpSnapshot)
    modifies out
    ensures out.text == old(out.text) + J.Print(J.Object(P.JumpFields(j)))
  {
    hide J.Print, Begun;
    ghost var before, fs := out.text, P.JumpFields(j);
    Start(before, fs);
    PutNumber(out, j.pieceId, before, fs, 0, "pieceId");
    PutPosition(out, j.cell, before, fs, 1, "cell");
    PutNumber(out, j.finishTimeMs, before, fs, 2, "finishTimeMs");
    Close(out, before, fs);
  }

  method WriteHistory(out: OutputStream, h: P.MoveHistorySnapshot) returns (r: Result<(), J.Error>)
    modifies out
    ensures r == if P.EncodableHistory(h) then Ok(()) else Err(J.UnsupportedControlCharacter)
    ensures r.Ok? ==> out.text == old(out.text) + J.Print(J.Object(P.HistoryFields(h)))
  {
    hide J.Print, Begun;
    ghost var before, fs := out.text, P.HistoryFields(h);
    Start(before, fs);
    PutNumber(out, h.completedAtMs, before, fs, 0, "completedAtMs");
    var _ :- PutText(out, h.color, before, fs, 1, "color");
    var _ :- PutText(out, h.pieceKind, before, fs, 2, "pieceKind");
    PutPosition(out, h.source, before, fs, 3, "source");
    PutPosition(out, h.destination, before, fs, 4, "destination");
    PutBool(out, h.wasCapture, before, fs, 5, "wasCapture");
    PutBool(out, h.wasPromotion, before, fs, 6, "wasPromotion");
    PutBool(out, h.wasJump, before, fs, 7, "wasJump");
    var _ :- PutText(out, h.notation, before, fs, 8, "notation");
    Close(out, before, fs);
    return Ok(());
  }

  // ----- arrays

  lemma ItemsStart(before: string, vs: seq<J.Value>)
    ensures before + "[" == before + BegunItems(vs, 0)
  {
  }

  lemma NoComma(t: string)
    ensures t + "" == t
  {
  }

  lemma ItemAdded(before: string, vs: seq<J.Value>, k: nat)
    requires k < |vs|
    ensures before + BegunItems(vs, k) + (if k > 0 then "," else "") + J.Print(vs[k]) == before + BegunItems(vs, k + 1)
  {
    hide J.Print;
    Regroup(before, BegunItems(vs, k), if k > 0 then "," else "", J.Print(vs[k]));
  }

  lemma ItemsEnd(before: string, vs: seq<J.Value>)
    ensures before + BegunItems(vs, |vs|) + "]" == before + J.Print(J.List(vs))
  {
    ClosedItemsArePrinted(vs);
    hide J.Print, BegunItems;
    assert before + BegunItems(vs, |vs|) + "]" == before + (BegunItems(vs, |vs|) + "]");
  }

  method WritePieces(out: OutputStream, pieces: seq<P.PieceSnapshot>) returns (r: Result<(), J.Error>)
    modifies out
    ensures r == if forall x :: x in pieces ==> P.EncodablePiece(x) then Ok(()) else Err(J.UnsupportedControlCharacter)
    ensures r.Ok? ==> out.text == old(out.text) + J.Print(J.List(P.Objects(pieces, P.PieceFields)))
  {
    hide J.Print, BegunItems, P.EncodablePiece, P.Objects, P.PieceFields;
    ghost var before, vs := out.text, P.Objects(pieces, P.PieceFields);
    out.Put("[");
    ItemsStart(before, vs);
    for i := 0 to |pieces|
      invariant out.text == before + BegunItems(vs, i)
      invariant forall k :: 0 <= k < i ==> (var x := pieces[k]; P.EncodablePiece(x))
    {
      assert pieces[i] in pieces;
      ItemAdded(before, vs, i);
      if i > 0 {
        out.Put(",");
      } else {
        NoComma(out.text);
      }
      var _ :- WritePiece(out, pieces[i]);
    }
    out.Put("]");
    ItemsEnd(before, vs);
    return Ok(());
  }

  method WriteMotions(out: OutputStream, motions: seq<P.MotionSnapshot>)
    modifies out
    ensures out.text == old(out.text) + J.Print(J.List(P.Objects(motions, P.MotionFields)))
  {
    hide J.Print, BegunItems;
    ghost var before, vs := out.text, P.Objects(motions, P.MotionFields);
    out.Put("[");
    ItemsStart(before, vs);
    for i := 0 to |motions|
      invariant out.text == before + BegunItems(vs, i)
    {
      ItemAdded(before, vs, i);
      if i > 0 {
        out.Put(",");
      } else {
        NoComma(out.text);
      }
      WriteMotion(out, motions[i]);
    }
    out.Put("]");
    ItemsEnd(before, vs);
  }

  method WriteJumps(out: OutputStream, jumps: seq<P.JumpSnapshot>)
    modifies out
    ensures out.text == old(out.text) + J.Print(J.List(P.Objects(jumps, P.JumpFields)))
  {
    hide J.Print, BegunItems;
    ghost var before, vs := out.text, P.Objects(jumps, P.JumpFields);
    out.Put("[");
    ItemsStart(before, vs);
    for i := 0 to |jumps|
      invariant out.text == before + BegunItems(vs, i)
    {
      ItemAdded(before, vs, i);
      if i > 0 {
        out.Put(",");
      } else {
        NoComma(out.text);
      }
      WriteJump(out, jumps[i]);
    }
    out.Put("]");
    ItemsEnd(before, vs);
  }

  method WriteHistories(out: OutputStream, entries: seq<P.MoveHistorySnapshot>) returns (r: Result<(), J.Error>)
    modifies out
    ensures r == if forall x :: x in entries ==> P.EncodableHistory(x) then Ok(()) else Err(J.UnsupportedControlCharacter)
    ensures r.Ok? ==> out.text == old(out.text) + J.Print(J.List(P.Objects(entries, P.HistoryFields)))
  {
    hide J.Print, BegunItems, P.EncodableHistory, P.Objects, P.HistoryFields;
    ghost var before, vs := out.text, P.Objects(entries, P.HistoryFields);
    out.Put("[");
    ItemsStart(before, vs);
    for i := 0 to |entries|
      invariant out.text == before + BegunItems(vs, i)
      invariant forall k :: 0 <= k < i ==> (var x := entries[k]; P.EncodableHistory(x))
    {
      assert entries[i] in entries;
      ItemAdded(before, vs, i);
      if i > 0 {
        out.Put(",");
      } else {
        NoComma(out.text);
      }
      var _ :- WriteHistory(out, entries[i]);
    }
    out.Put("]");
    ItemsEnd(before, vs);
    return Ok(());
  }

  // ----- whole snapshots and messages

  method PutHistories(out: OutputStream, entries: seq<P.MoveHistorySnapshot>, ghost before: string, ghost fs: seq<J.Field>, k: nat, key: string)
    returns (r: Result<(), J.Error>)
    requires k < |fs| && fs[k] == J.Field(key, J.List(P.Objects(entries, P.HistoryFields))) && out.text == before + Begun(fs, k)
    modifies out
    ensures r == if forall x :: x in entries ==> P.EncodableHistory(x) then Ok(()) else Err(J.UnsupportedControlCharacter)
    ensures r.Ok? ==> out.text == before + Begun(fs, k + 1)
  {
    hide J.Print, Begun, Label, P.EncodableHistory;
    FieldAdded(before, fs, k);
    PutLabel(out, k == 0, key);
    r := WriteHistories(out, entries);
  }

  method PutPieces(out: OutputStream, pieces: seq<P.PieceSnapshot>, ghost before: string, ghost fs: seq<J.Field>, k: nat, key: string)
    returns (r: Result<(), J.Error>)
    requires k < |fs| && fs[k] == J.Field(key, J.List(P.Objects(pieces, P.PieceFields))) && out.text == before + Begun(fs, k)
    modifies out
    ensures r == if forall x :: x in pieces ==> P.EncodablePiece(x) then Ok(()) else Err(J.UnsupportedControlCharacter)
    ensures r.Ok? ==> out.text == before + Begun(fs, k + 1)
  {
    hide J.Print, Begun, Label, P.EncodablePiece;
    FieldAdded(before, fs, k);
    PutLabel(out, k == 0, key);
    r := WritePieces(out, pieces);
  }

  method PutClockwork(out: OutputStream, s: P.GameStateSnapshot, ghost before: string, ghost fs: seq<J.Field>)
    requires fs == P.SnapshotFields(s) && out.text == before + Begun(fs, 9)
    modifies out
    ensures out.text == before + Begun(fs, 11)
  {
    hide J.Print, Begun, Label;
    FieldAdded(before, fs, 9);
    PutLabel(out, false, "motions");
    WriteMotions(out, s.motions);
    FieldAdded(before, fs, 10);
    PutLabel(out, false, "jumps");
    WriteJumps(out, s.jumps);
  }

  lemma SummaryStandsFirst(s: P.GameStateSnapshot)
    ensures |P.SnapshotFields(s)| == 13 && forall k :: 0 <= k < 8 ==> P.SnapshotFields(s)[k] == P.SummaryFields(s)[k]
  {
  }

  method PutSummary(out: OutputStream, s: P.GameStateSnapshot, ghost before: string, ghost fs: seq<J.Field>) returns (r: Result<(), J.Error>)
    requires fs == P.SnapshotFields(s) && out.text == before
    modifies out
    ensures r == if J.Encodable(s.whiteUsername) && J.Encodable(s.blackUsername) then Ok(()) else Err(J.UnsupportedControlCharacter)
    ensures r.Ok? ==> out.text == before + Begun(fs, 8)
  {
    hide J.Print, Begun, Label, J.Encodable, P.SnapshotFields;
    SummaryStandsFirst(s);
    Start(before, fs);
    PutNumber(out, s.serverTimeMs, before, fs, 0, "serverTimeMs");
    PutBool(out, s.gameOver, before, fs, 1, "gameOver");
    PutNumber(out, s.whiteScore, before, fs, 2, "whiteScore");
    PutNumber(out, s.blackScore, before, fs, 3, "blackScore");
    var _ :- PutText(out, s.whiteUsername, before, fs, 4, "whiteUsername");
    var _ :- PutText(out, s.blackUsername, before, fs, 5, "blackUsername");
    PutBool(out, s.playersReady, before, fs, 6, "playersReady");
    PutNumber(out, s.gameplayStartsAtEpochMs, before, fs, 7, "gameplayStartsAtEpochMs");
    return Ok(());
  }

  method WriteSnapshot(out: OutputStream, s: P.GameStateSnapshot) returns (r: Result<(), J.Error>)
    modifies out
    ensures r == if P.EncodableSnapshot(s) then Ok(()) else Err(J.UnsupportedControlCharacter)
    ensures r.Ok? ==> out.text == old(out.text) + J.Print(J.Object(P.SnapshotFields(s)))
  {
    hide J.Print, Begun, J.Encodable, P.EncodablePiece, P.EncodableHistory, P.SummaryFields;
    ghost var before, fs := out.text, P.SnapshotFields(s);
    ArraysStandLast(s);
    var _ :- PutSummary(out, s, before, fs);
    var _ :- PutPieces(out, s.pieces, before, fs, 8, "pieces");
    PutClockwork(out, s, before, fs);
    var _ :- PutHistories(out, s.whiteMoveHistory, before, fs, 11, "whiteMoveHistory");
    var _ :- PutHistories(out, s.blackMoveHistory, before, fs, 12, "blackMoveHistory");
    Close(out, before, fs);
    return Ok(());
  }

  lemma ArraysStandLast(s: P.GameStateSnapshot)
    ensures |P.SnapshotFields(s)| == 13 && forall k :: 8 <= k < 13 ==> P.SnapshotFields(s)[k] == P.ArrayFields(s)[k - 8]
  {
  }

  method PutType(out: OutputStream, t: P.MessageType, ghost before: string, ghost fs: seq<J.Field>, k: nat, key: string)
    requires k < |fs| && fs[k] == J.Field(key, J.Text(P.MessageTypeToString(t))) && out.text == before + Begun(fs, k)
    modifies out
    ensures out.text == before + Begun(fs, k + 1)
  {
    hide J.Print, Begun, Label, P.MessageTypeToString;
    FieldAdded(before, fs, k);
    PutLabel(out, k == 0, key);
    PutQuoted(out, P.MessageTypeToString(t));
    W.TypesAreTheirOwnEscape(t);
  }

  lemma HeaderStandsFirst(m: P.Message)
    ensures |P.MessageFields(m)| >= 15 && forall k :: 0 <= k < 15 ==> P.MessageFields(m)[k] == P.HeaderFields(m)[k]
  {
    hide P.SnapshotFields;
  }

  method PutHeader(out: OutputStream, m: P.Message, ghost before: string, ghost fs: seq<J.Field>)
    requires fs == P.MessageFields(m) && out.text == before
    modifies out
    ensures out.text == before + Begun(fs, 6)
  {
    hide J.Print, Begun, Label, P.MessageTypeToString, P.MessageFields, P.PositionFields;
    HeaderStandsFirst(m);
    Start(before, fs);
    PutNumber(out, P.VERSION, before, fs, 0, "version");
    PutType(out, m.kind, before, fs, 1, "type");
    PutNumber(out, m.sequence, before, fs, 2, "sequence");
    PutAction(out, m, before, fs);
  }

  method PutAction(out: OutputStream, m: P.Message, ghost before: string, ghost fs: seq<J.Field>)
    requires fs == P.MessageFields(m) && out.text == before + Begun(fs, 3)
    modifies out
    ensures out.text == before + Begun(fs, 6)
  {
    hide J.Print, Begun, Label, P.MessageTypeToString, P.MessageFields, P.PositionFields;
    HeaderStandsFirst(m);
    PutPosition(out, m.source, before, fs, 3, "source");
    PutPosition(out, m.destination, before, fs, 4, "destination");
    PutBool(out, m.accepted, before, fs, 5, "accepted");
  }

  method PutTexts(out: OutputStream, m: P.Message, ghost before: string, ghost fs: seq<J.Field>) returns (r: Result<(), J.Error>)
    requires fs == P.MessageFields(m) && out.text == before + Begun(fs, 6)
    modifies out
    ensures r == if && J.Encodable(m.reason) && J.Encodable(m.playerColor) && J.Encodable(m.reconnectToken) && J.Encodable(m.username)
                    && J.Encodable(m.whiteUsername) && J.Encodable(m.blackUsername) then Ok(()) else Err(J.UnsupportedControlCharacter)
    ensures r.Ok? ==> out.text == before + Begun(fs, 12)
  {
    hide J.Print, Begun, Label, J.Encodable, P.MessageTypeToString, P.MessageFields;
    HeaderStandsFirst(m);
    var _ :- PutText(out, m.reason, before, fs, 6, "reason");
    var _ :- PutText(out, m.playerColor, before, fs, 7, "playerColor");
    var _ :- PutText(out, m.reconnectToken, before, fs, 8, "reconnectToken");
    var _ :- PutText(out, m.username, before, fs, 9, "username");
    var _ :- PutText(out, m.whiteUsername, before, fs, 10, "whiteUsername");
    var _ :- PutText(out, m.blackUsername, before, fs, 11, "blackUsername");
    return Ok(());
  }

  method PutRest(out: OutputStream, m: P.Message, ghost before: string, ghost fs: seq<J.Field>)
    requires fs == P.MessageFields(m) && out.text == before + Begun(fs, 12)
    modifies out
    ensures out.text == before + Begun(fs, 15)
  {
    hide J.Print, Begun, Label, P.MessageTypeToString, P.MessageFields;
    HeaderStandsFirst(m);
    PutNumber(out, m.secondsRemaining, before, fs, 12, "secondsRemaining");
    PutNumber(out, m.createdAtMs, before, fs, 13, "createdAtMs");
    PutBool(out, m.hasSnapshot, before, fs, 14, "hasSnapshot");
  }

  /** The text of a message, or an error if one of its texts cannot be written. */
  method Serialize(m: P.Message) returns (r: Result<string, J.Error>)
    ensures r == P.Serialize(m)
    ensures r == if P.EncodableMessage(m) then Ok(W.MessageText(m)) else Err(J.UnsupportedControlCharacter)
  {
    hide J.Print, Begun, Label, J.Encodable, P.EncodableSnapshot, P.HeaderFields, W.MessageText;
    W.WhatIsWritten(m);
    var out := new OutputStream();
    ghost var fs := P.MessageFields(m);
    HeaderHasFifteen(m);
    PutHeader(out, m, "", fs);
    var _ :- PutTexts(out, m, "", fs);
    PutRest(out, m, "", fs);
    if m.hasSnapshot {
      FieldAdded("", fs, 15);
      PutLabel(out, false, "snapshot");
      var _ :- WriteSnapshot(out, m.snapshot);
    }
    Close(out, "", fs);
    assert "" + J.Print(J.Object(fs)) == J.Print(J.Object(fs));
    return Ok(out.text);
  }

  lemma HeaderHasFifteen(m: P.Message)
    ensures |P.HeaderFields(m)| == 15
  {
  }
}
