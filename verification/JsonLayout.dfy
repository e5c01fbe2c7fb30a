/** JSON as the writers print it: a document with its own line breaks and indentation, and the
    proof that the reader gives its meaning back. */
module JsonLayout {
  import opened Text
  import opened MiniJson

  /** `Raw` text is printed as it is, `Quoted` text is escaped. `first` stands before the first
      item or member, a comma and `next` before every other, and `close` before the end. */
  datatype Layout =
    | Number(n: int)
    | Raw(s: string)
    | Quoted(s: string)
    | List(items: seq<Layout>, first: string, next: string, close: string)
    | Record(members: seq<Member>, first: string, next: string, close: string)
  datatype Member = Member(key: string, value: Layout)

  function EscapedChar(c: char): string {
    match c
    case '\\' => "\\\\"
    case '\"' => "\\\""
    case '\n' => "\\n"
    case _ => [c]
  }

  /** The writers escape backslash, quote and newline, and nothing else. */
  function Escape(s: string): string {
    if s == "" then "" else EscapedChar(s[0]) + Escape(s[1..])
  }

  /** The text of a document with `post` after it. */
  function Print(l: Layout, post: string): string
    decreases l, 0
  {
    match l
    case Number(n) => IntText(n) + post
    case Raw(s) => "\"" + (s + ("\"" + post))
    case Quoted(s) => "\"" + (Escape(s) + ("\"" + post))
    case List(items, first, next, close) => "[" + PrintItems(items, first, next, close + ("]" + post))
    case Record(members, first, next, close) => "{" + PrintMembers(members, first, next, close + ("}" + post))
  }

  function PrintItems(items: seq<Layout>, gap: string, next: string, post: string): string
    decreases items, |items|
  {
    if items == [] then post else gap + Print(items[0], PrintItems(items[1..], "," + next, next, post))
  }

  function PrintMembers(members: seq<Member>, gap: string, next: string, post: string): string
    decreases members, |members|
  {
    if members == [] then post
    else
      var rest := PrintMembers(members[1..], "," + next, next, post);
      gap + ("\"" + (members[0].key + ("\"" + (": " + Print(members[0].value, rest)))))
  }

  function Meaning(l: Layout): Value
    decreases l, 0
  {
    match l
    case Number(n) => Int(n)
    case Raw(s) => Str(s)
    case Quoted(s) => Str(s)
    case List(items, _, _, _) => Array(Meanings(items))
    case Record(members, _, _, _) => Object(Named(members, map[]))
  }

  function Meanings(items: seq<Layout>): (r: seq<Value>)
    ensures |r| == |items|
    decreases items, |items|
  {
    if items == [] then [] else [Meaning(items[0])] + Meanings(items[1..])
  }

  function Named(members: seq<Member>, fields: map<string, Value>): map<string, Value>
    decreases members, |members|
  {
    if members == [] then fields
    else
      var m := members[0];
      Named(members[1..], if m.key in fields then fields else fields[m.key := Meaning(m.value)])
  }

  predicate Spaces(s: string) { forall c <- s :: IsSpace(c) }

  /** Text that reads the same without escapes. */
  predicate Plain(s: string) { '\\' !in s && '\"' !in s }

  /** Gaps are white space, raw texts and keys are plain, and numbers fit the reader's 64 bits. */
  predicate Readable(l: Layout)
    decreases l, 0
  {
    match l
    case Number(n) => -TWO_63 <= n < TWO_63
    case Raw(s) => Plain(s)
    case Quoted(_) => true
    case List(items, first, next, close) =>
      Spaces(first) && Spaces(next) && Spaces(close) && forall i :: 0 <= i < |items| ==> Readable(items[i])
    case Record(members, first, next, close) =>
      && Spaces(first) && Spaces(next) && Spaces(close)
      && forall i :: 0 <= i < |members| ==> Plain(members[i].key) && Readable(members[i].value)
  }

  /** What may follow a number: nothing that would prolong it. */
  predicate Ends(post: string) { post != "" ==> !IsDigit(post[0]) && post[0] != '.' }

  // ---------------------------------------------------------------------------
  // Tokens

  lemma {:induction false} SpacesAreSkipped(gap: string, s: string)
    requires Spaces(gap) && (s != "" ==> !IsSpace(s[0]))
    ensures SkipWs(gap + s) == s
  {
    if gap == "" {
      assert gap + s == s;
    } else {
      assert (gap + s)[1..] == gap[1..] + s;
      SpacesAreSkipped(gap[1..], s);
    }
  }

  lemma {:induction false} PlainIsRead(s: string, out: string, post: string)
    requires Plain(s)
    ensures StringRest(s + ("\"" + post), out) == Ok((out + s, post))
    decreases |s|
  {
    var text := s + ("\"" + post);
    if s == "" {
      assert text == "\"" + post && out + s == out && text[1..] == post;
    } else {
      assert text[1..] == s[1..] + ("\"" + post) && s[0] in s;
      PlainIsRead(s[1..], out + [s[0]], post);
      assert out + [s[0]] + s[1..] == out + s;
    }
  }

  lemma EscapedCharIsRead(c: char, out: string, rest: string)
    ensures StringRest(EscapedChar(c) + rest, out) == StringRest(rest, out + [c])
  {
    var text := EscapedChar(c) + rest;
    assert text[|EscapedChar(c)|..] == rest;
    if c in {'\\', '\"', '\n'} {
      assert text[0] == '\\' && Unescaped(text[1]) == Ok(c);
    }
  }

  lemma {:induction false} EscapedIsRead(s: string, out: string, post: string)
    ensures StringRest(Escape(s) + ("\"" + post), out) == Ok((out + s, post))
    decreases |s|
  {
    hide StringRest, EscapedChar;
    var tail := "\"" + post;
    if s == "" {
      assert Escape(s) + tail == tail && out + s == out;
      QuoteCloses(out, post);
    } else {
      var c, rest := s[0], Escape(s[1..]) + tail;
      assert Escape(s) + tail == EscapedChar(c) + rest;
      EscapedCharIsRead(c, out, rest);
      EscapedIsRead(s[1..], out + [c], post);
      assert out + [c] + s[1..] == out + s;
    }
  }

  lemma QuoteCloses(out: string, post: string)
    ensures StringRest("\"" + post, out) == Ok((out, post))
  {
    assert ("\"" + post)[1..] == post;
  }

  lemma {:induction false} DigitsAreCounted(d: string, rest: string)
    requires (forall c <- d :: IsDigit(c)) && (rest != "" ==> !IsDigit(rest[0]))
    ensures Digits(d + rest) == |d|
  {
    if d == "" {
      assert d + rest == rest;
    } else {
      assert (d + rest)[1..] == d[1..] + rest;
      DigitsAreCounted(d[1..], rest);
    }
  }

  lemma NumberIsRead(n: int, post: string)
    requires -TWO_63 <= n < TWO_63 && Ends(post)
    ensures var s := IntText(n) + post;
            && s != "" && !IsSpace(s[0]) && (s[0] == '-' || IsDigit(s[0])) && ParseNumber(s) == Ok((Int(n), post))
  {
    hide NatText, Digits, Decimal, DigitPrefix;
    var token := IntText(n);
    var s := token + post;
    var digits := NatText(if n < 0 then -n else n);
    assert digits[0] in digits;
    DigitsAreCounted(digits, post);
    assert n < 0 ==> token == "-" + digits && token[1..] == digits && s[1..] == token[1..] + post;
    assert n >= 0 ==> s[0..] == digits + post;
    assert NumberLength(s) == |token|;
    assert s[..|token|] == token && s[|token|..] == post;
    TokenIsNumber(n);
  }

  lemma TokenIsNumber(n: int)
    requires -TWO_63 <= n < TWO_63
    ensures MiniJson.Number(IntText(n)) == Ok(Int(n))
  {
    hide NatText, Decimal, DigitPrefix;
    var token := IntText(n);
    var magnitude := if n < 0 then -n else n;
    DecimalOfNatText(magnitude);
    DigitPrefixOfDigits(NatText(magnitude), "");
    assert NatText(magnitude) + "" == NatText(magnitude) && NatText(magnitude)[0] in NatText(magnitude);
    assert n < 0 ==> token[1..] == NatText(magnitude);
  }

  // ---------------------------------------------------------------------------
  // Documents

  lemma ShortGaps()
    ensures Spaces("") && Spaces(" ")
  {
  }

  lemma FirstChar(l: Layout, post: string)
    ensures var s := Print(l, post); s != "" && !IsSpace(s[0])
  {
    hide NatText;
    if l.Number? {
      var digits := NatText(if l.n < 0 then -l.n else l.n);
      assert digits[0] in digits;
    }
  }

  /** Reading a printed document, with white space before it, gives its meaning and stops after it. */
  lemma {:induction false} PrintedIsRead(l: Layout, gap: string, post: string)
    requires Readable(l) && Spaces(gap) && Ends(post)
    ensures ParseValue(gap + Print(l, post)) == Ok((Meaning(l), post))
    decreases l, 0
  {
    hide StringRest, ParseNumber, SkipWs, Escape, IntText, PrintItems, PrintMembers, ParseItems, ParseMembers, Spaces;
    var s := Print(l, post);
    FirstChar(l, post);
    SpacesAreSkipped(gap, s);
    match l
    case Number(n) =>
      NumberIsRead(n, post);
    case Raw(t) =>
      QuoteOpens(t + ("\"" + post));
      PlainIsRead(t, "", post);
      assert "" + t == t;
    case Quoted(t) =>
      QuoteOpens(Escape(t) + ("\"" + post));
      EscapedIsRead(t, "", post);
      assert "" + t == t;
    case List(items, first, next, close) =>
      ListIsRead(items, first, next, close, post);
      assert s[1..] == PrintItems(items, first, next, close + ("]" + post));
    case Record(members, first, next, close) =>
      RecordIsRead(members, first, next, close, post);
      assert s[1..] == PrintMembers(members, first, next, close + ("}" + post));
  }

  lemma QuoteOpens(rest: string)
    ensures Expect('\"', "\"" + rest) == Ok(rest)
  {
    assert ("\"" + rest)[1..] == rest;
  }

  lemma {:induction false} ListIsRead(items: seq<Layout>, first: string, next: string, close: string, post: string)
    requires forall i :: 0 <= i < |items| ==> Readable(items[i])
    requires Spaces(first) && Spaces(next) && Spaces(close)
    ensures var u := SkipWs(PrintItems(items, first, next, close + ("]" + post)));
            if items == [] then StartsWith(u, ']') && u[1..] == post
            else !StartsWith(u, ']') && ParseItems(u, []) == Ok((Array(Meanings(items)), post))
    decreases items, |items| + 1
  {
    hide ParseItems, Print, SkipWs, Meaning, Spaces;
    var tail := close + ("]" + post);
    if items == [] {
      SpacesAreSkipped(close, "]" + post);
    } else {
      var rest := PrintItems(items[1..], "," + next, next, tail);
      FirstChar(items[0], rest);
      SpacesAreSkipped(first, Print(items[0], rest));
      FirstIsNoBracket(items[0], rest);
      ShortGaps();
      ItemsAreRead(items, [], "", next, close, post);
      assert "" + Print(items[0], rest) == Print(items[0], rest);
      assert [] + Meanings(items) == Meanings(items);
    }
  }

  lemma FirstIsNoBracket(l: Layout, post: string)
    ensures !StartsWith(Print(l, post), ']')
  {
    hide NatText;
    if l.Number? {
      var digits := NatText(if l.n < 0 then -l.n else l.n);
      assert digits[0] in digits;
    }
  }

  lemma TailEnds(close: string, end: char, post: string)
    requires Spaces(close) && end in {']', '}'}
    ensures Ends(close + ([end] + post)) && SkipWs(close + ([end] + post)) == [end] + post
  {
    SpacesAreSkipped(close, [end] + post);
    assert close != "" ==> close[0] in close;
  }

  /** A comma that opens the gap is the comma that separates. */
  lemma CommaSeparates(gap: string, rest: string)
    ensures var s := ("," + gap) + rest;
            Ends(s) && SkipWs(s) == s && Expect(',', s) == Ok(gap + rest)
  {
    var s := ("," + gap) + rest;
    assert s[1..] == gap + rest;
  }

  lemma {:induction false} ItemsAreRead(items: seq<Layout>, acc: seq<Value>, gap: string, next: string,
                                        close: string, post: string)
    requires items != [] && forall i :: 0 <= i < |items| ==> Readable(items[i])
    requires Spaces(gap) && Spaces(next) && Spaces(close)
    ensures ParseItems(PrintItems(items, gap, next, close + ("]" + post)), acc) == Ok((Array(acc + Meanings(items)), post))
    decreases items, |items|
  {
    hide Print, SkipWs, Meaning, ParseValue, Spaces, Ends, Expect;
    var tail := close + ("]" + post);
    var rest := PrintItems(items[1..], "," + next, next, tail);
    var more := acc + [Meaning(items[0])];
    if |items| == 1 {
      TailEnds(close, ']', post);
      PrintedIsRead(items[0], gap, rest);
      assert acc + Meanings(items) == more;
    } else {
      CommaSeparates(next, Print(items[1], PrintItems(items[1..][1..], "," + next, next, tail)));
      PrintedIsRead(items[0], gap, rest);
      ItemsAreRead(items[1..], more, next, next, close, post);
      assert more + Meanings(items[1..]) == acc + Meanings(items);
    }
  }

  lemma {:induction false} RecordIsRead(members: seq<Member>, first: string, next: string, close: string, post: string)
    requires forall i :: 0 <= i < |members| ==> Plain(members[i].key) && Readable(members[i].value)
    requires Spaces(first) && Spaces(next) && Spaces(close)
    ensures var u := SkipWs(PrintMembers(members, first, next, close + ("}" + post)));
            if members == [] then StartsWith(u, '}') && u[1..] == post
            else !StartsWith(u, '}') && ParseMembers(u, map[]) == Ok((Object(Named(members, map[])), post))
    decreases members, |members| + 1
  {
    hide ParseMembers, Print, SkipWs, Meaning, Spaces, Plain;
    var tail := close + ("}" + post);
    if members == [] {
      SpacesAreSkipped(close, "}" + post);
    } else {
      var u := PrintMembers(members, "", next, tail);
      var rest := PrintMembers(members[1..], "," + next, next, tail);
      var body := "\"" + (members[0].key + ("\"" + (": " + Print(members[0].value, rest))));
      assert u == body && !IsSpace(body[0]);
      ShortGaps();
      SpacesAreSkipped(first, body);
      MembersAreRead(members, map[], "", next, close, post);
    }
  }

  lemma KeyIsRead(gap: string, key: string, rest: string)
    requires Spaces(gap) && Plain(key)
    ensures ParseString(gap + ("\"" + (key + ("\"" + rest)))) == Ok((key, rest))
  {
    hide Spaces, Plain;
    var quoted := "\"" + (key + ("\"" + rest));
    SpacesAreSkipped(gap, quoted);
    assert quoted[1..] == key + ("\"" + rest);
    PlainIsRead(key, "", rest);
    assert "" + key == key;
  }

  lemma ColonIsRead(rest: string)
    ensures Expect(':', ": " + rest) == Ok(" " + rest)
  {
    assert (": " + rest)[1..] == " " + rest;
  }

  lemma {:induction false} MembersAreRead(
      members: seq<Member>, fields: map<string, Value>, gap: string, next: string, close: string, post: string)
    requires members != [] && forall i :: 0 <= i < |members| ==> Plain(members[i].key) && Readable(members[i].value)
    requires Spaces(gap) && Spaces(next) && Spaces(close)
    ensures ParseMembers(PrintMembers(members, gap, next, close + ("}" + post)), fields) == Ok((Object(Named(members, fields)), post))
    decreases members, |members|
  {
    hide Print, SkipWs, Meaning, ParseValue, ParseString, Spaces, Ends, Expect, Plain;
    var m, tail := members[0], close + ("}" + post);
    var rest := PrintMembers(members[1..], "," + next, next, tail);
    var more := if m.key in fields then fields else fields[m.key := Meaning(m.value)];
    KeyIsRead(gap, m.key, ": " + Print(m.value, rest));
    ColonIsRead(Print(m.value, rest));
    ShortGaps();
    if |members| == 1 {
      TailEnds(close, '}', post);
      PrintedIsRead(m.value, " ", rest);
    } else {
      var n := members[1];
      var after := PrintMembers(members[1..][1..], "," + next, next, tail);
      CommaSeparates(next, "\"" + (n.key + ("\"" + (": " + Print(n.value, after)))));
      PrintedIsRead(m.value, " ", rest);
      MembersAreRead(members[1..], more, next, next, close, post);
    }
  }

  /** A text is skipped entirely exactly if it is white space. */
  lemma {:induction false} SkippedExactlyIfSpaces(s: string)
    ensures SkipWs(s) == "" <==> Spaces(s)
  {
    if s != "" {
      SkippedExactlyIfSpaces(s[1..]);
      assert s == [s[0]] + s[1..];
    }
  }

  /** Reading back a whole printed document gives its meaning if nothing or white space follows; a text with
      anything else behind it is refused. */
  lemma DocumentRoundTrip(l: Layout, post: string)
    requires Readable(l) && Ends(post)
    ensures Parse(Print(l, post)) == if Spaces(post) then Ok(Meaning(l)) else Error("unexpected trailing json content")
  {
    hide ParseValue, Print, Meaning, Readable;
    PrintedIsRead(l, "", post);
    assert "" + Print(l, post) == Print(l, post);
    SkippedExactlyIfSpaces(post);
  }
}
