/** The JSON reader: what it accepts, as functions on the text still to be read, and the
    recursive-descent parser over a cursor that computes exactly those functions. */
module MiniJson {
  import opened Text

  /** A fractional number is kept as its token. */
  datatype Value =
    | Null
    | Bool(b: bool)
    | Int(n: int)
    | Double(token: string)
    | Str(s: string)
    | Array(items: seq<Value>)
    | Object(fields: map<string, Value>)

  /** What was read, and the text that follows it. */
  type Parsed<+T> = Result<(T, string)>

  predicate IsSpace(c: char) { c == ' ' || 9 <= c as int <= 13 }

  function SkipWs(s: string): (r: string)
    ensures |r| <= |s| && (r != "" ==> !IsSpace(r[0]))
  {
    if s != "" && IsSpace(s[0]) then SkipWs(s[1..]) else s
  }

  predicate StartsWith(s: string, c: char) { s != "" && s[0] == c }

  function Expect(c: char, s: string): (r: Result<string>)
    ensures r.Ok? ==> |r.value| < |s|
  {
    var t := SkipWs(s);
    if StartsWith(t, c) then Ok(t[1..]) else Error("unexpected json character")
  }

  function Unescaped(c: char): Result<char> {
    match c
    case '\\' => Ok('\\')
    case '\"' => Ok('\"')
    case 'n' => Ok('\n')
    case 'r' => Ok('\r')
    case 't' => Ok('\t')
    case _ => Error("unsupported json escape")
  }

  /** The rest of a string, after `out` has been read. */
  function StringRest(s: string, out: string): (r: Parsed<string>)
    ensures r.Ok? ==> |r.value.1| < |s|
    decreases |s|
  {
    if s == "" then Error("unterminated json string")
    else if s[0] == '\"' then Ok((out, s[1..]))
    else if s[0] != '\\' then StringRest(s[1..], out + [s[0]])
    else if |s| == 1 then Error("unterminated json string")
    else
      var c :- Unescaped(s[1]);
      StringRest(s[2..], out + [c])
  }

  function ParseString(s: string): (r: Parsed<string>)
    ensures r.Ok? ==> |r.value.1| < |s|
  {
    var body :- Expect('\"', s);
    StringRest(body, "")
  }

  /** How many digits stand at the front. */
  function Digits(s: string): (n: nat)
    ensures n <= |s|
  {
    if s != "" && IsDigit(s[0]) then 1 + Digits(s[1..]) else 0
  }

  /** The length of a number: a sign, digits, and perhaps a point with more digits. */
  function NumberLength(s: string): (n: nat)
    requires s != "" && (s[0] == '-' || IsDigit(s[0]))
    ensures 0 < n <= |s|
  {
    var sign := if s[0] == '-' then 1 else 0;
    var whole := sign + Digits(s[sign..]);
    if whole < |s| && s[whole] == '.' then whole + 1 + Digits(s[whole + 1..]) else whole
  }

  /** `std::stoll` and `std::stod` refuse a token without digits; `stoll` also one out of range. */
  function Number(token: string): Result<Value> {
    var digits := DigitPrefix(if StartsWith(token, '-') then token[1..] else token).0;
    if '.' in token then
      if exists c <- token :: IsDigit(c) then Ok(Double(token)) else Error("stod")
    else if digits == "" then Error("stoll")
    else if StartsWith(token, '-') then
      var magnitude: int := Decimal(digits);
      if magnitude > TWO_63 then Error("stoll") else Ok(Int(-magnitude))
    else if Decimal(digits) >= TWO_63 then Error("stoll")
    else Ok(Int(Decimal(digits)))
  }

  function ParseNumber(s: string): (r: Parsed<Value>)
    requires s != "" && (s[0] == '-' || IsDigit(s[0]))
    ensures r.Ok? ==> |r.value.1| < |s|
  {
    var n := NumberLength(s);
    var value :- Number(s[..n]);
    Ok((value, s[n..]))
  }

  function ParseWord(s: string, word: string, value: Value): (r: Parsed<Value>)
    requires word != ""
    ensures r.Ok? ==> |r.value.1| < |s|
  {
    if word <= s then Ok((value, s[|word|..])) else Error("invalid json word")
  }

  function ParseBool(s: string): (r: Parsed<Value>)
    ensures r.Ok? ==> |r.value.1| < |s|
  {
    if "true" <= s then ParseWord(s, "true", Bool(true)) else ParseWord(s, "false", Bool(false))
  }

  function ParseValue(s: string): (r: Parsed<Value>)
    ensures r.Ok? ==> |r.value.1| < |s|
    decreases |s|, 0
  {
    var t := SkipWs(s);
    if t == "" then Error("unexpected end of json")
    else if t[0] == '{' then
      var u := SkipWs(t[1..]);
      if StartsWith(u, '}') then Ok((Object(map[]), u[1..])) else ParseMembers(u, map[])
    else if t[0] == '[' then
      var u := SkipWs(t[1..]);
      if StartsWith(u, ']') then Ok((Array([]), u[1..])) else ParseItems(u, [])
    else if t[0] == '\"' then
      var (text, rest) :- ParseString(t);
      Ok((Str(text), rest))
    else if t[0] == 't' || t[0] == 'f' then ParseBool(t)
    else if t[0] == 'n' then ParseWord(t, "null", Null)
    else if t[0] == '-' || IsDigit(t[0]) then ParseNumber(t)
    else Error("unsupported json token")
  }

  /** The rest of an array, after some items. */
  function ParseItems(s: string, items: seq<Value>): (r: Parsed<Value>)
    ensures r.Ok? ==> |r.value.1| < |s|
    decreases |s|, 1
  {
    var (value, rest) :- ParseValue(s);
    var t := SkipWs(rest);
    if StartsWith(t, ']') then Ok((Array(items + [value]), t[1..]))
    else
      var u :- Expect(',', t);
      ParseItems(u, items + [value])
  }

  /** One member added to an object; the first member of a name wins. */
  function ParseMember(s: string, fields: map<string, Value>): (r: Parsed<map<string, Value>>)
    ensures r.Ok? ==> |r.value.1| < |s|
    decreases |s|, 1
  {
    var (key, afterKey) :- ParseString(s);
    var afterColon :- Expect(':', afterKey);
    var (value, rest) :- ParseValue(afterColon);
    Ok((if key in fields then fields else fields[key := value], rest))
  }

  /** The rest of an object, after some members. */
  function ParseMembers(s: string, fields: map<string, Value>): (r: Parsed<Value>)
    ensures r.Ok? ==> |r.value.1| < |s|
    decreases |s|, 2
  {
    var (more, rest) :- ParseMember(s, fields);
    var t := SkipWs(rest);
    if StartsWith(t, '}') then Ok((Object(more), t[1..]))
    else
      var u :- Expect(',', t);
      ParseMembers(u, more)
  }

  lemma ObjectOpens(s: string)
    requires StartsWith(s, '{')
    ensures ParseValue(s) == var u := SkipWs(s[1..]);
                             if StartsWith(u, '}') then Ok((Object(map[]), u[1..])) else ParseMembers(u, map[])
  {
  }

  lemma ArrayOpens(s: string)
    requires StartsWith(s, '[')
    ensures ParseValue(s) == var u := SkipWs(s[1..]);
                             if StartsWith(u, ']') then Ok((Array([]), u[1..])) else ParseItems(u, [])
  {
  }

  function Parse(text: string): Result<Value> {
    var (value, rest) :- ParseValue(text);
    if SkipWs(rest) == "" then Ok(value) else Error("unexpected trailing json content")
  }

  // ---------------------------------------------------------------------------
  // The parser

  /** The outcome of a method that had `spec` to read and left `rest`. */
  predicate Reads<T(==)>(r: Result<T>, rest: string, spec: Parsed<T>) {
    if spec.Ok? then r == Ok(spec.value.0) && rest == spec.value.1 else r.Error?
  }

  lemma SliceOfRest(text: string, cursor: nat, k: nat)
    requires cursor <= |text| && k <= |text| - cursor
    ensures text[cursor..][k..] == text[cursor + k..]
  {
  }

  class Parser {
    const text: string
    var cursor: nat

    constructor (text: string)
      ensures this.text == text && cursor == 0
    {
      this.text := text;
      cursor := 0;
    }

    predicate Valid()
      reads this
    {
      cursor <= |text|
    }

    function Rest(): string
      requires Valid()
      reads this
    {
      text[cursor..]
    }

    method SkipSpaces()
      requires Valid()
      modifies this`cursor
      ensures Valid() && old(cursor) <= cursor && Rest() == SkipWs(old(Rest()))
    {
      while cursor < |text| && IsSpace(text[cursor])
        invariant Valid() && old(cursor) <= cursor && SkipWs(Rest()) == SkipWs(old(Rest()))
        decreases |text| - cursor
      {
        SliceOfRest(text, cursor, 1);
        cursor := cursor + 1;
      }
    }

    method ExpectChar(ch: char) returns (ok: bool)
      requires Valid()
      modifies this`cursor
      ensures Valid() && old(cursor) <= cursor
      ensures ok == Expect(ch, old(Rest())).Ok?
      ensures ok ==> old(cursor) < cursor && Rest() == Expect(ch, old(Rest())).value
    {
      SkipSpaces();
      if cursor >= |text| || text[cursor] != ch {
        return false;
      }
      SliceOfRest(text, cursor, 1);
      cursor := cursor + 1;
      ok := true;
    }

    method ReadString() returns (r: Result<string>)
      requires Valid()
      modifies this`cursor
      ensures Valid() && old(cursor) <= cursor
      ensures Reads(r, Rest(), ParseString(old(Rest())))
      ensures r.Ok? ==> old(cursor) < cursor
    {
      ghost var spec := ParseString(Rest());
      var open := ExpectChar('\"');
      if !open {
        return Error("unexpected json character");
      }
      var out := "";
      var escaped := false;
      ghost var start := cursor;
      while cursor < |text|
        invariant Valid() && start <= cursor
        invariant escaped ==> start < cursor && text[cursor - 1] == '\\'
        invariant StringRest(text[if escaped then cursor - 1 else cursor..], out) == spec
        decreases |text| - cursor
      {
        var ch := text[cursor];
        SliceOfRest(text, cursor, 1);
        if escaped { SliceOfRest(text, cursor - 1, 2); }
        cursor := cursor + 1;
        if !escaped {
          if ch == '\\' {
            escaped := true;
          } else if ch == '\"' {
            return Ok(out);
          } else {
            out := out + [ch];
          }
        } else {
          var c := Unescaped(ch);
          if c.Error? {
            return Error(c.message);
          }
          out := out + [c.value];
          escaped := false;
        }
      }
      r := Error("unterminated json string");
    }

    method SkipDigits()
      requires Valid()
      modifies this`cursor
      ensures Valid() && cursor == old(cursor) + Digits(old(Rest()))
    {
      while cursor < |text| && IsDigit(text[cursor])
        invariant Valid() && cursor + Digits(Rest()) == old(cursor) + Digits(old(Rest()))
        decreases |text| - cursor
      {
        SliceOfRest(text, cursor, 1);
        cursor := cursor + 1;
      }
    }

    method SkipNumber()
      requires Valid() && cursor < |text| && (text[cursor] == '-' || IsDigit(text[cursor]))
      modifies this`cursor
      ensures Valid() && cursor == old(cursor) + NumberLength(old(Rest()))
    {
      hide Digits;
      ghost var start := cursor;
      if text[cursor] == '-' {
        SliceOfRest(text, start, 1);
        cursor := cursor + 1;
      }
      SkipDigits();
      ghost var whole := cursor - start;
      if cursor < |text| && text[cursor] == '.' {
        SliceOfRest(text, start, whole + 1);
        cursor := cursor + 1;
        SkipDigits();
      }
    }

    method ReadNumber() returns (r: Result<Value>)
      requires Valid() && cursor < |text| && (text[cursor] == '-' || IsDigit(text[cursor]))
      modifies this`cursor
      ensures Valid() && old(cursor) < cursor
      ensures Reads(r, Rest(), ParseNumber(old(Rest())))
    {
      hide NumberLength, Number;
      var start := cursor;
      ghost var n := NumberLength(Rest());
      SkipNumber();
      assert text[start..cursor] == text[start..][..n];
      SliceOfRest(text, start, n);
      r := Number(text[start..cursor]);
    }

    method ReadWord(word: string, value: Value) returns (r: Result<Value>)
      requires Valid() && word != ""
      modifies this`cursor
      ensures Valid() && old(cursor) <= cursor && (r.Ok? ==> old(cursor) < cursor)
      ensures Reads(r, Rest(), ParseWord(old(Rest()), word, value))
    {
      if |word| > |text| - cursor || text[cursor..cursor + |word|] != word {
        return Error("invalid json word");
      }
      SliceOfRest(text, cursor, |word|);
      cursor := cursor + |word|;
      r := Ok(value);
    }

    method ReadValue() returns (r: Result<Value>)
      requires Valid()
      modifies this`cursor
      ensures Valid() && old(cursor) <= cursor
      ensures Reads(r, Rest(), ParseValue(old(Rest())))
      decreases |text| - cursor, 1
    {
      SkipSpaces();
      if cursor >= |text| {
        return Error("unexpected end of json");
      }
      var ch := text[cursor];
      if ch == '{' {
        r := ReadObject();
      } else if ch == '[' {
        r := ReadArray();
      } else if ch == '\"' {
        var s := ReadString();
        r := if s.Ok? then Ok(Str(s.value)) else Error(s.message);
      } else if ch == 't' || ch == 'f' {
        if "true" <= text[cursor..] {
          r := ReadWord("true", Bool(true));
        } else {
          r := ReadWord("false", Bool(false));
        }
      } else if ch == 'n' {
        r := ReadWord("null", Null);
      } else if ch == '-' || IsDigit(ch) {
        r := ReadNumber();
      } else {
        r := Error("unsupported json token");
      }
    }

    /** White space, and the closing bracket if it is there. */
    method Closes(close: char) returns (closed: bool)
      requires Valid()
      modifies this`cursor
      ensures Valid() && old(cursor) <= cursor
      ensures var t := SkipWs(old(Rest())); closed == StartsWith(t, close) && Rest() == if closed then t[1..] else t
    {
      SkipSpaces();
      closed := cursor < |text| && text[cursor] == close;
      if closed {
        SliceOfRest(text, cursor, 1);
        cursor := cursor + 1;
      }
    }

    method ReadArray() returns (r: Result<Value>)
      requires Valid() && cursor < |text| && text[cursor] == '['
      modifies this`cursor
      ensures Valid() && old(cursor) <= cursor
      ensures Reads(r, Rest(), ParseValue(old(Rest())))
      decreases |text| - cursor, 0
    {
      hide ParseValue;
      ArrayOpens(Rest());
      ghost var spec := ParseValue(Rest());
      var open := ExpectChar('[');
      var closed := Closes(']');
      if closed {
        return Ok(Array([]));
      }
      var items := [];
      while true
        invariant Valid() && old(cursor) < cursor && ParseItems(Rest(), items) == spec
        decreases |text| - cursor
      {
        var value := ReadValue();
        if value.Error? {
          return value;
        }
        items := items + [value.value];
        closed := Closes(']');
        if closed {
          return Ok(Array(items));
        }
        var comma := ExpectChar(',');
        if !comma {
          return Error("unexpected json character");
        }
      }
    }

    method ReadMember(fields: map<string, Value>) returns (r: Result<map<string, Value>>)
      requires Valid()
      modifies this`cursor
      ensures Valid() && old(cursor) <= cursor
      ensures Reads(r, Rest(), ParseMember(old(Rest()), fields))
      decreases |text| - cursor, 2
    {
      hide ParseString, ParseValue, SkipWs;
      var key := ReadString();
      if key.Error? {
        return Error(key.message);
      }
      var colon := ExpectChar(':');
      if !colon {
        return Error("unexpected json character");
      }
      var value := ReadValue();
      if value.Error? {
        return Error(value.message);
      }
      r := Ok(if key.value in fields then fields else fields[key.value := value.value]);
    }

    method ReadObject() returns (r: Result<Value>)
      requires Valid() && cursor < |text| && text[cursor] == '{'
      modifies this`cursor
      ensures Valid() && old(cursor) <= cursor
      ensures Reads(r, Rest(), ParseValue(old(Rest())))
      decreases |text| - cursor, 0
    {
      hide ParseValue, ParseMember;
      ObjectOpens(Rest());
      ghost var spec := ParseValue(Rest());
      var open := ExpectChar('{');
      var closed := Closes('}');
      if closed {
        return Ok(Object(map[]));
      }
      var fields: map<string, Value> := map[];
      while true
        invariant Valid() && old(cursor) < cursor && ParseMembers(Rest(), fields) == spec
        decreases |text| - cursor
      {
        var member := ReadMember(fields);
        if member.Error? {
          return Error(member.message);
        }
        fields := member.value;
        closed := Closes('}');
        if closed {
          return Ok(Object(fields));
        }
        var comma := ExpectChar(',');
        if !comma {
          return Error("unexpected json character");
        }
      }
    }

    method ExpectFinished() returns (ok: bool)
      requires Valid()
      modifies this`cursor
      ensures Valid() && ok == (SkipWs(old(Rest())) == "")
    {
      SkipSpaces();
      ok := cursor == |text|;
    }
  }

  /** Reading a whole text ends on every input, with the value the functions describe or an error. */
  method ParseText(text: string) returns (r: Result<Value>)
    ensures var spec := Parse(text); if spec.Ok? then r == spec else r.Error?
  {
    var parser := new Parser(text);
    assert text[0..] == text;
    r := parser.ReadValue();
    if r.Ok? {
      var finished := parser.ExpectFinished();
      if !finished {
        return Error("unexpected trailing json content");
      }
    }
  }
}
