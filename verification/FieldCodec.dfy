/** The `key=value;key=value` text of payloads, with percent-encoded values. */
module FieldCodec {
  import opened Text

  // ---------------------------------------------------------------------------
  // Values

  function HexDigit(d: nat): char
    requires d < 16
  {
    if d < 10 then '0' + d as char else 'A' + (d - 10) as char
  }

  function HexValue(c: char): Result<nat> {
    if '0' <= c <= '9' then Ok((c - '0') as nat)
    else if 'A' <= c <= 'F' then Ok(10 + (c - 'A') as nat)
    else if 'a' <= c <= 'f' then Ok(10 + (c - 'a') as nat)
    else Error("invalid percent-encoding")
  }

  predicate Reserved(c: char) { c == '%' || c == ';' || c == '=' || c as int < 0x20 }

  function EncodedChar(c: char): string {
    if Reserved(c) then ['%', HexDigit(c as int / 16), HexDigit(c as int % 16)] else [c]
  }

  function EncodeValue(value: string): string {
    if value == "" then "" else EncodedChar(value[0]) + EncodeValue(value[1..])
  }

  function DecodeValue(s: string): Result<string> {
    if s == "" then Ok("")
    else if s[0] == '%' && |s| > 2 then
      var high :- HexValue(s[1]);
      var low :- HexValue(s[2]);
      var rest :- DecodeValue(s[3..]);
      Ok([(16 * high + low) as char] + rest)
    else
      var rest :- DecodeValue(s[1..]);
      Ok([s[0]] + rest)
  }

  lemma HexRoundTrip(d: nat)
    requires d < 16
    ensures HexValue(HexDigit(d)) == Ok(d) && HexDigit(d) !in {';', '='}
  {
  }

  lemma ReservedCharRoundTrip(c: char)
    requires Reserved(c)
    ensures var e := EncodedChar(c);
            && |e| == 3 && e[0] == '%' && e[1] !in {';', '='} && e[2] !in {';', '='}
            && HexValue(e[1]).Ok? && HexValue(e[2]).Ok?
            && (16 * HexValue(e[1]).value + HexValue(e[2]).value) as char == c
  {
    HexRoundTrip(c as int / 16);
    HexRoundTrip(c as int % 16);
    hide HexValue, HexDigit;
  }

  /** Decoding an encoded value gives the value back, and the encoding holds no separator. */
  lemma {:induction false} ValueRoundTrip(value: string)
    ensures DecodeValue(EncodeValue(value)) == Ok(value)
    ensures ';' !in EncodeValue(value) && '=' !in EncodeValue(value)
  {
    hide HexValue, EncodedChar;
    if value != "" {
      var c, rest := value[0], EncodeValue(value[1..]);
      ValueRoundTrip(value[1..]);
      assert [c] + value[1..] == value;
      assert EncodedChar(c) == [c] || Reserved(c) by { PlainChar(c); }
      if Reserved(c) {
        ReservedCharRoundTrip(c);
        assert (EncodedChar(c) + rest)[3..] == rest;
      } else {
        PlainChar(c);
        assert ([c] + rest)[1..] == rest;
      }
    }
  }

  lemma PlainChar(c: char)
    ensures !Reserved(c) ==> EncodedChar(c) == [c] && c !in {'%', ';', '='}
  {
  }

  const UPPER := "0123456789ABCDEF"
  const LOWER := "0123456789abcdef"

  /** The text of a character: itself, or a percent sign and its code in upper-case hexadecimal digits; the
      reader takes lower-case ones as well. No control character is left. */
  lemma CharIsHex(c: char, s: string)
    requires c as int < 256
    ensures Reserved(c) <==> c in {'%', ';', '='} || c as int < 32
    ensures EncodeValue([c]) == if Reserved(c) then ['%', UPPER[c as int / 16], UPPER[c as int % 16]] else [c]
    ensures DecodeValue(s).Ok? ==>
              && DecodeValue(['%', UPPER[c as int / 16], UPPER[c as int % 16]] + s) == Ok([c] + DecodeValue(s).value)
              && DecodeValue(['%', LOWER[c as int / 16], LOWER[c as int % 16]] + s) == Ok([c] + DecodeValue(s).value)
  {
    DigitIsHex(c as int / 16);
    DigitIsHex(c as int % 16);
    assert EncodeValue([c][1..]) == "";
    var upper, lower := ['%', UPPER[c as int / 16], UPPER[c as int % 16]], ['%', LOWER[c as int / 16], LOWER[c as int % 16]];
    assert (upper + s)[3..] == s && (lower + s)[3..] == s;
    hide HexDigit, HexValue;
  }

  lemma DigitIsHex(d: nat)
    requires d < 16
    ensures HexDigit(d) == UPPER[d] && HexValue(UPPER[d]) == Ok(d) && HexValue(LOWER[d]) == Ok(d)
  {
  }

  method EncodeLoop(value: string) returns (encoded: string)
    ensures encoded == EncodeValue(value)
  {
    encoded := "";
    for i := 0 to |value|
      invariant encoded + EncodeValue(value[i..]) == EncodeValue(value)
    {
      encoded := encoded + EncodedChar(value[i]);
    }
    assert value[|value|..] == "";
  }

  // ---------------------------------------------------------------------------
  // Fields

  datatype Pair = Pair(key: string, value: string)

  function JoinFields(fields: seq<Pair>): string {
    if fields == [] then ""
    else
      var first := fields[0].key + "=" + EncodeValue(fields[0].value);
      if |fields| == 1 then first else first + ";" + JoinFields(fields[1..])
  }

  function Split(text: string, delim: char): seq<string>
    decreases |text|
  {
    match Find(text, [delim], 0)
    case None => [text]
    case Some(at) => [text[..at]] + Split(text[at + 1..], delim)
  }

  type FieldMap = map<string, string>

  /** One part of the wire text; the first field of a name wins. */
  function AddField(part: string, fields: FieldMap): Result<FieldMap> {
    if part == "" then Ok(fields)
    else match Find(part, "=", 0)
         case None => Error("invalid wire field: missing '='")
         case Some(at) =>
           var value :- DecodeValue(part[at + 1..]);
           Ok(if part[..at] in fields then fields else fields[part[..at] := value])
  }

  function AddParts(parts: seq<string>, fields: FieldMap): Result<FieldMap> {
    if parts == [] then Ok(fields)
    else
      var more :- AddField(parts[0], fields);
      AddParts(parts[1..], more)
  }

  function ParseFields(wire: string): Result<FieldMap> { AddParts(Split(wire, ';'), map[]) }

  function AddPairs(pairs: seq<Pair>, fields: FieldMap): FieldMap {
    if pairs == [] then fields
    else AddPairs(pairs[1..], if pairs[0].key in fields then fields else fields[pairs[0].key := pairs[0].value])
  }

  predicate PlainKey(key: string) { ';' !in key && '=' !in key }

  lemma SplitFront(front: string, rest: string, delim: char)
    requires delim !in front
    ensures Split(front, delim) == [front]
    ensures Split(front + [delim] + rest, delim) == [front] + Split(rest, delim)
  {
    OccursChar(front, delim);
    var s := front + [delim] + rest;
    OccursChar(s, delim);
    assert forall j :: 0 <= j < |front| ==> s[j] == front[j];
    assert s[|front|] == delim;
    FindFirst(s, [delim], |front|);
    assert s[..|front|] == front && s[|front| + 1..] == rest;
  }

  lemma FieldRoundTrip(p: Pair, fields: FieldMap)
    requires PlainKey(p.key)
    ensures var part := p.key + "=" + EncodeValue(p.value);
            ';' !in part && AddField(part, fields) == Ok(if p.key in fields then fields else fields[p.key := p.value])
  {
    hide EncodeValue, DecodeValue;
    ValueRoundTrip(p.value);
    var part := p.key + "=" + EncodeValue(p.value);
    OccursChar(part, '=');
    assert forall j :: 0 <= j < |p.key| ==> part[j] == p.key[j];
    assert part[|p.key|] == '=';
    FindFirst(part, "=", |p.key|);
    assert part[..|p.key|] == p.key && part[|p.key| + 1..] == EncodeValue(p.value);
  }

  /** Parsing joined fields gives every value back under its key, the first one where keys repeat. */
  lemma {:induction false} FieldsRoundTrip(pairs: seq<Pair>, fields: FieldMap)
    requires forall p <- pairs :: PlainKey(p.key)
    ensures AddParts(Split(JoinFields(pairs), ';'), fields) == Ok(AddPairs(pairs, fields))
    decreases |pairs|
  {
    hide EncodeValue, AddField, Split;
    if pairs == [] {
      SplitFront("", "", ';');
      assert AddField("", fields) == Ok(fields) by { EmptyPart(fields); }
    } else {
      var p := pairs[0];
      var part := p.key + "=" + EncodeValue(p.value);
      assert p in pairs && forall q <- pairs[1..] :: q in pairs;
      FieldRoundTrip(p, fields);
      var more := if p.key in fields then fields else fields[p.key := p.value];
      if |pairs| == 1 {
        SplitFront(part, "", ';');
      } else {
        SplitFront(part, JoinFields(pairs[1..]), ';');
        FieldsRoundTrip(pairs[1..], more);
        var rest := Split(JoinFields(pairs[1..]), ';');
        assert ([part] + rest)[1..] == rest;
      }
    }
  }

  lemma EmptyPart(fields: FieldMap)
    ensures AddField("", fields) == Ok(fields)
  {
  }

  /** Looking up a key that occurs once finds its value. */
  lemma {:induction false} LookupPair(pairs: seq<Pair>, fields: FieldMap, i: nat)
    requires i < |pairs| && pairs[i].key !in fields
    requires forall j :: 0 <= j < i ==> pairs[j].key != pairs[i].key
    ensures pairs[i].key in AddPairs(pairs, fields) && AddPairs(pairs, fields)[pairs[i].key] == pairs[i].value
    decreases |pairs|
  {
    var more := if pairs[0].key in fields then fields else fields[pairs[0].key := pairs[0].value];
    if i == 0 {
      AddedStays(pairs[1..], more, pairs[0].key);
    } else {
      assert pairs[1..][i - 1] == pairs[i];
      LookupPair(pairs[1..], more, i - 1);
    }
  }

  lemma {:induction false} AddedStays(pairs: seq<Pair>, fields: FieldMap, key: string)
    requires key in fields
    ensures key in AddPairs(pairs, fields) && AddPairs(pairs, fields)[key] == fields[key]
    decreases |pairs|
  {
    if pairs != [] {
      AddedStays(pairs[1..], if pairs[0].key in fields then fields else fields[pairs[0].key := pairs[0].value], key);
    }
  }

  // ---------------------------------------------------------------------------
  // The loops of the codec

  method SplitLoop(text: string, delim: char) returns (parts: seq<string>)
    ensures parts == Split(text, delim)
  {
    parts := [];
    var start := 0;
    assert text[0..] == text && [] + Split(text, delim) == Split(text, delim);
    while true
      invariant 0 <= start <= |text|
      invariant parts + Split(text[start..], delim) == Split(text, delim)
      decreases |text| - start
    {
      var end := Find(text[start..], [delim], 0);
      if end.None? {
        parts := parts + [text[start..]];
        break;
      }
      var rest := text[start..];
      var after := start + end.value + 1;
      assert rest[end.value + 1..] == text[after..] && rest[..end.value] == text[start..start + end.value];
      assert parts + ([rest[..end.value]] + Split(text[after..], delim)) == parts + [rest[..end.value]] + Split(text[after..], delim);
      parts := parts + [text[start..start + end.value]];
      start := after;
    }
  }

  method ParseFieldsLoop(wire: string) returns (r: Result<FieldMap>)
    ensures r == ParseFields(wire)
  {
    var parts := SplitLoop(wire, ';');
    var fields: FieldMap := map[];
    assert parts[0..] == parts;
    for i := 0 to |parts|
      invariant AddParts(parts[i..], fields) == ParseFields(wire)
    {
      assert parts[i..][1..] == parts[i + 1..];
      var more := AddField(parts[i], fields);
      if more.Error? {
        return more;
      }
      fields := more.value;
    }
    r := Ok(fields);
  }
}
