/** The scanners and readers of the protocol as they run: cursors, depth counters and growing strings. */
module Scanner {
  import opened Wrappers
  import opened ChessTypes
  import J = Json
  import P = Protocol

  method SkipWhitespace(text: string, start: nat) returns (position: nat)
    ensures position == J.SkipSpace(text, start)
  {
    position := start;
    while position < |text| && J.IsSpace(text[position])
      invariant J.SkipSpace(text, start) == J.SkipSpace(text, position)
    {
      position := position + 1;
    }
  }

  /** Escaping goes on one character after what has been escaped. */
  lemma EscapeStep(value: string, i: nat, result: string)
    requires i < |value| && J.Escape(value) == result + J.Escape(value[i..])
    ensures J.Escape(value) == result + J.EscapeChar(value[i]) + J.Escape(value[i + 1..])
  {
    hide J.EscapeChar;
    var rest := value[i..];
    assert rest[1..] == value[i + 1..];
    assert J.Escape(rest) == J.EscapeChar(rest[0]) + J.Escape(rest[1..]);
    Regroup(result, J.EscapeChar(value[i]), J.Escape(value[i + 1..]));
  }

  lemma Regroup(a: string, b: string, c: string)
    ensures a + b + c == a + (b + c)
  {
  }

  /** Either the whole text escaped, or an error at the first unsupported control character. */
  method EscapeJson(value: string) returns (r: Result<string, J.Error>)
    ensures r == if J.Encodable(value) then Ok(J.Escape(value)) else Err(J.UnsupportedControlCharacter)
  {
    hide J.Escape;
    var result := "";
    var i := 0;
    EscapeStart(value);
    while i < |value|
      invariant 0 <= i <= |value|
      invariant forall k :: 0 <= k < i ==> J.CanEscape(value[k])
      invariant J.Escape(value) == result + J.Escape(value[i..])
    {
      EscapeStep(value, i, result);
      var character := value[i];
      match character {
        case '\\' => result := result + "\\\\";
        case '"' => result := result + "\\\"";
        case '\n' => result := result + "\\n";
        case '\r' => result := result + "\\r";
        case '\t' => result := result + "\\t";
        case _ =>
          if character < ' ' {
            return Err(J.UnsupportedControlCharacter);
          }
          result := result + [character];
      }
      i := i + 1;
    }
    EscapeEnd(value, result);
    return Ok(result);
  }

  lemma EscapeStart(value: string)
    ensures J.Escape(value) == "" + J.Escape(value[0..])
  {
    assert value[0..] == value;
  }

  lemma EscapeEnd(value: string, result: string)
    requires J.Escape(value) == result + J.Escape(value[|value|..])
    ensures J.Escape(value) == result
  {
  }

  method FindStringEnd(text: string, start: nat) returns (r: Result<nat, J.Error>)
    ensures r == J.FindStringEnd(text, start)
  {
    var escaped := false;
    var position := start + 1;
    while position < |text|
      invariant start + 1 <= position
      invariant J.FindStringEnd(text, start) == J.StringEnd(text, position, escaped)
    {
      var character := text[position];
      if escaped {
        escaped := false;
      } else if character == '\\' {
        escaped := true;
      } else if character == '"' {
        return Ok(position);
      }
      position := position + 1;
    }
    return Err(J.UnterminatedString);
  }

  /** One pass over the text with two depth counters; it stops at the first top-level string that equals the key and has a colon after it. */
  method FindValue(json: string, key: string) returns (r: Result<nat, J.Error>)
    ensures r == J.FindValue(json, key)
  {
    if |json| < 2 || json[0] != '{' || json[|json| - 1] != '}' {
      return Err(J.ExpectedObject);
    }
    var objectDepth, arrayDepth := 1, 0;
    var position := 1;
    while position + 1 < |json|
      invariant 1 <= position
      invariant J.FindValue(json, key) == J.FindValueFrom(json, key, position, objectDepth, arrayDepth)
      decreases |json| - position
    {
      var character := json[position];
      if character == '"' {
        var end :- FindStringEnd(json, position);
        if objectDepth == 1 && arrayDepth == 0 {
          var after := SkipWhitespace(json, end + 1);
          if after < |json| && json[after] == ':' && json[position + 1..end] == key {
            after := SkipWhitespace(json, after + 1);
            return Ok(after);
          }
        }
        position := end;
      } else if character == '{' {
        objectDepth := objectDepth + 1;
      } else if character == '}' {
        objectDepth := objectDepth - 1;
      } else if character == '[' {
        arrayDepth := arrayDepth + 1;
      } else if character == ']' {
        arrayDepth := arrayDepth - 1;
      }
      position := position + 1;
    }
    return Err(J.MissingField(key));
  }

  method FindMatchingDelimiter(text: string, start: nat, opening: char, closing: char) returns (r: Result<nat, J.Error>)
    ensures r == J.FindMatchingDelimiter(text, start, opening, closing)
  {
    if start >= |text| || text[start] != opening {
      return Err(J.InvalidDelimiter);
    }
    var depth := 0;
    var position := start;
    while position < |text|
      invariant J.FindMatchingDelimiter(text, start, opening, closing) == J.MatchFrom(text, position, depth, opening, closing)
      decreases |text| - position
    {
      var character := text[position];
      if character == '"' {
        position :- FindStringEnd(text, position);
      } else if character == opening {
        depth := depth + 1;
      } else if character == closing {
        depth := depth - 1;
        if depth == 0 {
          return Ok(position);
        }
      }
      position := position + 1;
    }
    return Err(J.UnmatchedDelimiter);
  }

  method ReadObject(json: string, key: string) returns (r: Result<string, J.Error>)
    ensures r == J.ReadObject(json, key)
  {
    var start :- FindValue(json, key);
    if start >= |json| || json[start] != '{' {
      return Err(J.NotAnObject(key));
    }
    var end :- FindMatchingDelimiter(json, start, '{', '}');
    return Ok(json[start..end + 1]);
  }

  method ReadArray(json: string, key: string) returns (r: Result<string, J.Error>)
    ensures r == J.ReadArray(json, key)
  {
    var start :- FindValue(json, key);
    if start >= |json| || json[start] != '[' {
      return Err(J.NotAnArray(key));
    }
    var end :- FindMatchingDelimiter(json, start, '[', ']');
    return Ok(json[start..end + 1]);
  }

  /** What the spec still has to read, put after the objects already read. */
  ghost function Prefixed(objects: seq<string>, rest: Result<seq<string>, J.Error>): Result<seq<string>, J.Error> {
    if rest.Ok? then Ok(objects + rest.value) else rest
  }

  lemma NothingBefore(rest: Result<seq<string>, J.Error>)
    ensures Prefixed([], rest) == rest
  {
    assert rest.Ok? ==> [] + rest.value == rest.value;
  }

  /** One turn of the loop that reads an object and goes on behind the next comma. */
  lemma OneMoreObject(a: string, position: nat, key: string, end: nat, next: nat, objects: seq<string>)
    requires position < |a| - 1 && a[position] == '{' && J.FindMatchingDelimiter(a, position, '{', '}') == Ok(end)
    requires var after := J.SkipSpace(a, end + 1);
             after != |a| - 1 && after < |a| && a[after] == ',' && next == J.SkipSpace(a, after + 1) && next != |a| - 1
    ensures Prefixed(objects, J.ObjectsFrom(a, position, key)) == Prefixed(objects + [a[position..end + 1]], J.ObjectsFrom(a, next, key))
  {
    hide J.FindMatchingDelimiter, J.SkipSpace;
    var rest := J.ObjectsFrom(a, next, key);
    assert rest.Ok? ==> objects + ([a[position..end + 1]] + rest.value) == objects + [a[position..end + 1]] + rest.value;
  }

  /** The objects of an array in order; a trailing comma, a missing comma or an item that is no object is an error. */
  method ReadObjectArray(json: string, key: string) returns (r: Result<seq<string>, J.Error>)
    ensures r == J.ReadObjectArray(json, key)
  {
    var array_ :- ReadArray(json, key);
    var position := SkipWhitespace(array_, 1);
    r := CollectObjects(array_, position, key);
  }

  method CollectObjects(array_: string, start: nat, key: string) returns (r: Result<seq<string>, J.Error>)
    requires |array_| >= 1
    ensures r == J.ObjectsFrom(array_, start, key)
  {
    hide J.FindMatchingDelimiter, J.SkipSpace;
    var objects: seq<string> := [];
    var position := start;
    NothingBefore(J.ObjectsFrom(array_, start, key));
    while position < |array_| - 1
      invariant J.ObjectsFrom(array_, start, key) == Prefixed(objects, J.ObjectsFrom(array_, position, key))
      decreases |array_| - position
    {
      if array_[position] != '{' {
        return Err(J.NotObjects(key));
      }
      var end :- FindMatchingDelimiter(array_, position, '{', '}');
      var after := SkipWhitespace(array_, end + 1);
      if after == |array_| - 1 {
        return Ok(objects + [array_[position..end + 1]]);
      }
      if after >= |array_| || array_[after] != ',' {
        return Err(J.InvalidArray(key));
      }
      var next := SkipWhitespace(array_, after + 1);
      if next == |array_| - 1 {
        return Err(J.TrailingComma(key));
      }
      OneMoreObject(array_, position, key, end, next, objects);
      objects := objects + [array_[position..end + 1]];
      position := next;
    }
    assert objects + [] == objects;
    return Ok(objects);
  }

  method ReadString(json: string, key: string) returns (r: Result<string, J.Error>)
    ensures r == J.ReadString(json, key)
  {
    var position :- FindValue(json, key);
    if position >= |json| || json[position] != '"' {
      return Err(J.NotAString(key));
    }
    var result := "";
    var escaped := false;
    position := position + 1;
    while position < |json|
      invariant J.ReadString(json, key) == J.UnescapeFrom(json, position, escaped, result)
    {
      var character := json[position];
      if escaped {
        match character {
          case '\\' => result := result + ['\\'];
          case '"' => result := result + ['"'];
          case 'n' => result := result + ['\n'];
          case 'r' => result := result + ['\r'];
          case 't' => result := result + ['\t'];
          case _ => return Err(J.InvalidEscape);
        }
        escaped := false;
      } else if character == '\\' {
        escaped := true;
      } else if character == '"' {
        return Ok(result);
      } else {
        result := result + [character];
      }
      position := position + 1;
    }
    return Err(J.UnterminatedString);
  }

  method ReadSigned(json: string, key: string) returns (r: Result<int, J.Error>)
    ensures r == J.ReadSigned(json, key)
  {
    var position :- FindValue(json, key);
    var parsed := J.ParseLongLong(json, position);
    if parsed.None? {
      return Err(J.NotAnInteger(key));
    }
    var after := SkipWhitespace(json, parsed.value.1);
    if after >= |json| || (json[after] != ',' && json[after] != '}' && json[after] != ']') {
      return Err(J.NotAnInteger(key));
    }
    return Ok(parsed.value.0);
  }

  method ReadInt(json: string, key: string) returns (r: Result<int, J.Error>)
    ensures r == J.ReadInt(json, key)
  {
    var value :- ReadSigned(json, key);
    if value < J.INT_MIN || value > J.INT_MAX {
      return Err(J.IntegerRange(key));
    }
    return Ok(value);
  }

  method ReadUnsigned(json: string, key: string) returns (r: Result<int, J.Error>)
    ensures r == J.ReadUnsigned(json, key)
  {
    var value :- ReadSigned(json, key);
    if value < 0 {
      return Err(J.Negative(key));
    }
    return Ok(value);
  }

  method ReadBool(json: string, key: string) returns (r: Result<bool, J.Error>)
    ensures r == J.ReadBool(json, key)
  {
    var position :- FindValue(json, key);
    if J.StartsWith(json, position, "true") {
      return Ok(true);
    }
    if J.StartsWith(json, position, "false") {
      return Ok(false);
    }
    return Err(J.NotABoolean(key));
  }
}
