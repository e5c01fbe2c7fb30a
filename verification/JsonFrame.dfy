/** JSON lines: one object per line, with the two string fields `kind` and `payload`. */
module JsonFrame {
  import opened Text
  import opened Reassembly
  import opened FrameCodec

  function EscapedChar(c: char): string {
    match c
    case '\\' => "\\\\"
    case '\"' => "\\\""
    case '\n' => "\\n"
    case '\r' => "\\r"
    case '\t' => "\\t"
    case _ => [c]
  }

  function Escaped(s: string): string {
    if s == "" then "" else EscapedChar(s[0]) + Escaped(s[1..])
  }

  function UnescapedChar(c: char): Result<char> {
    match c
    case '\\' => Ok('\\')
    case '\"' => Ok('\"')
    case 'n' => Ok('\n')
    case 'r' => Ok('\r')
    case 't' => Ok('\t')
    case _ => Error("unsupported json escape")
  }

  function Unescaped(s: string): Result<string> {
    if s == "" then Ok("")
    else if s[0] != '\\' then
      var rest :- Unescaped(s[1..]);
      Ok([s[0]] + rest)
    else if |s| == 1 then Error("dangling json escape")
    else
      var c :- UnescapedChar(s[1]);
      var rest :- Unescaped(s[2..]);
      Ok([c] + rest)
  }

  /** The text up to the next unescaped quote, escapes included. */
  function RawField(s: string): string {
    if s == "" || s[0] == '\"' then ""
    else if s[0] != '\\' then [s[0]] + RawField(s[1..])
    else if |s| == 1 then ""
    else ['\\', s[1]] + RawField(s[2..])
  }

  function Needle(key: string): string { "\"" + key + "\":\"" }

  function ExtractField(frame: string, key: string): Result<string> {
    match Find(frame, Needle(key), 0)
    case None => Error("missing json key")
    case Some(start) => Unescaped(RawField(frame[start + |Needle(key)|..]))
  }

  function EncodeJson(f: Frame): string {
    "{" + Needle("kind") + Escaped(f.kind) + "\"," + Needle("payload") + Escaped(f.payload) + "\"}"
  }

  function DecodeJson(frame: string): Result<Frame> {
    var kind :- ExtractField(frame, "kind");
    var payload :- ExtractField(frame, "payload");
    Ok(Frame(kind, payload))
  }

  // ---------------------------------------------------------------------------
  // The loops of the codec

  method EscapeLoop(input: string) returns (escaped: string)
    ensures escaped == Escaped(input)
  {
    escaped := "";
    for i := 0 to |input|
      invariant escaped + Escaped(input[i..]) == Escaped(input)
    {
      escaped := escaped + EscapedChar(input[i]);
    }
    assert input[|input|..] == "";
  }

  method UnescapeLoop(input: string) returns (r: Result<string>)
    ensures r == Unescaped(input)
  {
    var out := "";
    var escaped := false;
    var i := 0;
    PrependNothing(Unescaped(input));
    assert input[0..] == input;
    while i < |input|
      invariant 0 <= i <= |input|
      invariant escaped ==> i > 0 && input[i - 1] == '\\'
      invariant Unescaped(input) == Prepend(out, Unescaped(input[if escaped then i - 1 else i..]))
    {
      var ch := input[i];
      i := i + 1;
      if !escaped {
        if ch == '\\' {
          escaped := true;
        } else {
          assert input[i - 1..][1..] == input[i..];
          PrependMore(out, ch, Unescaped(input[i..]));
          out := out + [ch];
        }
      } else {
        assert input[i - 2..][2..] == input[i..];
        var c := UnescapedChar(ch);
        if c.Error? {
          return Error(c.message);
        }
        PrependMore(out, c.value, Unescaped(input[i..]));
        out := out + [c.value];
        escaped := false;
      }
    }
    if escaped {
      return Error("dangling json escape");
    }
    assert input[i..] == "" && out + "" == out;
    return Ok(out);
  }

  function Prepend(front: string, r: Result<string>): Result<string> {
    match r
    case Ok(rest) => Ok(front + rest)
    case Error(message) => Error(message)
  }

  lemma PrependNothing(r: Result<string>)
    ensures Prepend("", r) == r
  {
    if r.Ok? { assert "" + r.value == r.value; }
  }

  lemma PrependMore(front: string, c: char, r: Result<string>)
    ensures Prepend(front + [c], r) == Prepend(front, Prepend([c], r))
  {
    if r.Ok? { assert front + [c] + r.value == front + ([c] + r.value); }
  }

  method RawFieldLoop(frame: string, start: nat) returns (raw: string)
    requires start <= |frame|
    ensures raw == RawField(frame[start..])
  {
    var pos := start;
    raw := "";
    var escaped := false;
    while pos < |frame|
      invariant start <= pos <= |frame|
      invariant escaped ==> pos > start && frame[pos - 1] == '\\'
      invariant raw + RawField(frame[if escaped then pos - 1 else pos..]) == RawField(frame[start..])
    {
      var ch := frame[pos];
      pos := pos + 1;
      if escaped {
        raw := raw + ['\\', ch];
        escaped := false;
      } else if ch == '\\' {
        escaped := true;
      } else if ch == '\"' {
        break;
      } else {
        raw := raw + [ch];
      }
    }
  }

  // ---------------------------------------------------------------------------
  // Round trip

  lemma EscapedCharShape(c: char)
    ensures var e := EscapedChar(c);
            || (e == [c] && c !in {'\\', '\"', '\n'})
            || (|e| == 2 && e[0] == '\\' && e[1] != '\n' && UnescapedChar(e[1]) == Ok(c))
  {
  }

  lemma {:induction false} UnescapeEscaped(s: string)
    ensures Unescaped(Escaped(s)) == Ok(s)
  {
    hide EscapedChar, UnescapedChar;
    if s != "" {
      EscapedCharShape(s[0]);
      UnescapeEscaped(s[1..]);
      var e, tail := EscapedChar(s[0]), Escaped(s[1..]);
      assert (e + tail)[|e|..] == tail;
      assert [s[0]] + s[1..] == s;
    }
  }

  /** Reading an escaped text stops exactly at the quote that closes it. */
  lemma {:induction false} RawFieldOfEscaped(s: string, rest: string)
    ensures RawField(Escaped(s) + "\"" + rest) == Escaped(s)
  {
    hide EscapedChar;
    if s == "" {
      assert Escaped(s) + "\"" + rest == "\"" + rest;
    } else {
      EscapedCharShape(s[0]);
      var e, tail := EscapedChar(s[0]), Escaped(s[1..]);
      RawFieldOfEscaped(s[1..], rest);
      assert Escaped(s) + "\"" + rest == e + (tail + "\"" + rest);
      assert (e + (tail + "\"" + rest))[|e|..] == tail + "\"" + rest;
    }
  }

  /** In an escaped text every quote follows a backslash, and there is no newline. */
  lemma {:induction false} EscapedQuotes(s: string)
    ensures forall i :: 0 <= i < |Escaped(s)| && Escaped(s)[i] == '\"' ==> i > 0 && Escaped(s)[i - 1] == '\\'
    ensures '\n' !in Escaped(s)
  {
    if s != "" {
      EscapedQuotes(s[1..]);
    }
  }

  const OPENING := "{\"kind\":\""
  const MIDDLE := "\",\"payload\":\""

  lemma FrameIsLaidOut(f: Frame)
    ensures var s, e := EncodeJson(f), Escaped(f.kind);
            && |OPENING| == 9 && |MIDDLE| == 13 && |s| == 24 + |e| + |Escaped(f.payload)|
            && s[..9] == OPENING && s[9..9 + |e|] == e && s[9 + |e|..22 + |e|] == MIDDLE
            && s[22 + |e|..] == Escaped(f.payload) + "\"" + "}"
            && s[9..] == e + "\"" + s[10 + |e|..]
  {
    hide Escaped;
    var e := Escaped(f.kind);
    assert "{" + Needle("kind") == OPENING;
    assert "\"," + Needle("payload") == MIDDLE;
    assert EncodeJson(f) == OPENING + e + MIDDLE + (Escaped(f.payload) + "\"" + "}");
  }

  lemma KindComesFirst(f: Frame)
    ensures Find(EncodeJson(f), Needle("kind"), 0) == Some(1)
  {
    hide Escaped, EncodeJson;
    FrameIsLaidOut(f);
    var s := EncodeJson(f);
    assert s[1..9] == OPENING[1..] == Needle("kind");
    assert s[0] == s[..9][0];
    FindFirst(s, Needle("kind"), 1);
  }

  /** The payload field is found where it was written, whatever the kind contains: an earlier
      match would need, eight characters on, a quote after a `d` and before a colon, but up to there
      every quote is escaped, or closes the kind and is followed by a comma. */
  lemma PayloadIsFound(f: Frame)
    ensures Find(EncodeJson(f), Needle("payload"), 0) == Some(11 + |Escaped(f.kind)|)
  {
    hide Escaped, EncodeJson;
    FrameIsLaidOut(f);
    EscapedQuotes(f.kind);
    var s, e, needle := EncodeJson(f), Escaped(f.kind), Needle("payload");
    var p := 11 + |e|;
    assert s[p..p + 11] == MIDDLE[2..] == needle;
    forall j | 0 <= j < p ensures !OccursAt(s, needle, j) {
      NoEarlierMatch(s, e, j);
      NeedleShape(s, j);
    }
    FindFirst(s, needle, p);
  }

  lemma NeedleShape(s: string, j: nat)
    ensures OccursAt(s, Needle("payload"), j) ==>
              j + 11 <= |s| && s[j] == '\"' && s[j + 1] == 'p' && s[j + 7] == 'd' && s[j + 8] == '\"' && s[j + 9] == ':'
  {
    var n := Needle("payload");
    assert |n| == 11 && n[0] == '\"' && n[1] == 'p' && n[7] == 'd' && n[8] == '\"' && n[9] == ':';
    assert OccursAt(s, n, j) ==> forall i :: 0 <= i < 11 ==> s[j + i] == n[i];
  }

  lemma NoEarlierMatch(s: string, e: string, j: nat)
    requires |s| >= 22 + |e| && s[..9] == OPENING && s[9..9 + |e|] == e && s[9 + |e|..22 + |e|] == MIDDLE
    requires forall i :: 0 <= i < |e| && e[i] == '\"' ==> i > 0 && e[i - 1] == '\\'
    requires j < 11 + |e|
    ensures !(s[j] == '\"' && s[j + 1] == 'p' && s[j + 7] == 'd' && s[j + 8] == '\"' && s[j + 9] == ':')
  {
    var m, q := 9 + |e|, j + 8;
    assert forall i :: 0 <= i < 9 ==> s[i] == OPENING[i];
    assert forall i :: 9 <= i < m ==> s[i] == e[i - 9];
    assert forall i :: m <= i < m + 13 ==> s[i] == MIDDLE[i - m];
    if j >= 8 && q < m && s[q] == '\"' {
      assert s[q - 1] == e[q - 10] == '\\';
    }
  }

  /** The JSON frame round trip, for all kinds and payloads. */
  lemma JsonRoundTrip(f: Frame)
    ensures DecodeJson(EncodeJson(f)) == Ok(f)
  {
    hide Escaped, RawField, Unescaped, Find, EncodeJson;
    var s, e := EncodeJson(f), Escaped(f.kind);
    FrameIsLaidOut(f);
    KindComesFirst(f);
    PayloadIsFound(f);
    RawFieldOfEscaped(f.kind, s[10 + |e|..]);
    RawFieldOfEscaped(f.payload, "}");
    UnescapeEscaped(f.kind);
    UnescapeEscaped(f.payload);
  }

  /** A frame fits on one line. */
  lemma JsonIsOneLine(f: Frame)
    ensures '\n' !in EncodeJson(f)
  {
    hide Escaped;
    EscapedQuotes(f.kind);
    EscapedQuotes(f.payload);
  }

  // ---------------------------------------------------------------------------
  // Lines

  function NextLine(buffer: string): Parse<string> {
    match Find(buffer, "\n", 0)
    case None => NeedMore
    case Some(at) => Got(buffer[..at], buffer[at + 1..])
  }

  function Line(text: string): string { text + "\n" }

  lemma NewlineAt(b: string, at: nat)
    requires at < |b| && b[at] == '\n' && '\n' !in b[..at]
    ensures NextLine(b) == Got(b[..at], b[at + 1..])
  {
    OccursChar(b, '\n');
    assert forall j :: 0 <= j < at ==> b[j] == b[..at][j];
    FindFirst(b, "\n", at);
  }

  lemma NoNewline(b: string)
    requires '\n' !in b
    ensures NextLine(b) == NeedMore
  {
    OccursChar(b, '\n');
  }

  lemma LinesAreIncremental()
    ensures Incremental(NextLine) && !NextLine("").Got?
  {
    forall b: string, c: string {:trigger NextLine(b + c)} | NextLine(b).Got?
      ensures NextLine(b + c) == Got(NextLine(b).message, NextLine(b).rest + c)
    {
      OccursChar(b, '\n');
      var at := Find(b, "\n", 0).value;
      assert (b + c)[..at] == b[..at] && (b + c)[at + 1..] == b[at + 1..] + c;
      NewlineAt(b + c, at);
    }
  }

  lemma LineInverts(text: string)
    requires '\n' !in text
    ensures Inverts(NextLine, Line, text)
  {
    forall rest: string {:trigger Line(text) + rest} ensures NextLine(Line(text) + rest) == Got(text, rest) {
      var s := Line(text) + rest;
      assert s[..|text|] == text && s[|text| + 1..] == rest;
      NewlineAt(s, |text|);
    }
  }

  function Encodings(frames: seq<Frame>): (lines: seq<string>)
    ensures |lines| == |frames| && forall i :: 0 <= i < |frames| ==> lines[i] == EncodeJson(frames[i])
  {
    seq(|frames|, i requires 0 <= i < |frames| => EncodeJson(frames[i]))
  }

  /** A stream of JSON lines, cut into any chunks, is received as exactly the lines sent, each of
      which decodes to the frame it came from. */
  lemma JsonStreamIsReassembled(frames: seq<Frame>, tail: string, chunks: seq<string>)
    requires '\n' !in tail && Concat(chunks) == Stream(Line, Encodings(frames)) + tail
    ensures Receive(NextLine, "", chunks) == (Encodings(frames), tail)
    ensures forall i :: 0 <= i < |frames| ==> DecodeJson(Encodings(frames)[i]) == Ok(frames[i])
  {
    hide EncodeJson, DecodeJson;
    LinesAreIncremental();
    NoNewline(tail);
    var lines := Encodings(frames);
    forall i | 0 <= i < |frames| ensures '\n' !in lines[i] && DecodeJson(lines[i]) == Ok(frames[i]) {
      JsonRoundTrip(frames[i]);
      JsonIsOneLine(frames[i]);
    }
    forall line <- lines ensures Inverts(NextLine, Line, line) { LineInverts(line); }
    StreamIsReassembled(NextLine, Line, lines, tail, chunks);
  }
}
