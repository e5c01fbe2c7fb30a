/** Optional values, results, and the text helpers shared by the wire and artifact formats.
    A byte string is a `string`; no definition here depends on characters being below 256. */
module Text {

  datatype Option<+T> = None | Some(value: T)

  /** `Error` stands for a thrown `std::runtime_error`. */
  datatype Result<+T> = Ok(value: T) | Error(message: string) {
    predicate IsFailure() { Error? }
    function PropagateFailure<U>(): Result<U>
      requires Error?
    {
      Error(message)
    }
    function Extract(): T
      requires Ok?
    {
      value
    }
  }

  const TWO_31 := 0x8000_0000
  const TWO_32: nat := 0x1_0000_0000
  const TWO_63 := 0x8000_0000_0000_0000
  const TWO_64: nat := 0x1_0000_0000_0000_0000

  // ---------------------------------------------------------------------------
  // Searching

  predicate OccursAt(s: string, p: string, i: nat) {
    i + |p| <= |s| && s[i..i + |p|] == p
  }

  /** `text.find(p) != npos` */
  predicate Contains(s: string, p: string) {
    exists i :: 0 <= i <= |s| && OccursAt(s, p, i)
  }

  /** `text.find(p, from)`: the leftmost occurrence. */
  function Find(s: string, p: string, from: nat): (r: Option<nat>)
    ensures r.Some? ==> from <= r.value && OccursAt(s, p, r.value)
    ensures r.Some? ==> forall j :: from <= j < r.value ==> !OccursAt(s, p, j)
    ensures r.None? ==> forall j :: from <= j ==> !OccursAt(s, p, j)
    decreases |s| - from
  {
    if from + |p| > |s| then None
    else if OccursAt(s, p, from) then Some(from)
    else if from == |s| then None
    else Find(s, p, from + 1)
  }

  lemma FindFirst(s: string, p: string, i: nat)
    requires OccursAt(s, p, i) && forall j :: 0 <= j < i ==> !OccursAt(s, p, j)
    ensures Find(s, p, 0) == Some(i)
  {
  }

  lemma OccursChar(s: string, c: char)
    ensures forall i: nat :: OccursAt(s, [c], i) <==> i < |s| && s[i] == c
  {
    forall i: nat ensures OccursAt(s, [c], i) <==> i < |s| && s[i] == c {
      if i < |s| { assert s[i..i + 1] == [s[i]]; }
    }
  }

  // ---------------------------------------------------------------------------
  // Sentences made of words

  function Sentence(words: seq<string>): string {
    if |words| == 0 then ""
    else if |words| == 1 then words[0]
    else words[0] + " " + Sentence(words[1..])
  }

  /** A pattern without spaces occurs in a sentence only inside one of its words. */
  lemma {:induction false} PatternIsInsideAWord(words: seq<string>, p: string)
    requires p != "" && ' ' !in p && Contains(Sentence(words), p)
    ensures exists k :: 0 <= k < |words| && Contains(words[k], p)
  {
    var s := Sentence(words);
    var i :| 0 <= i <= |s| && OccursAt(s, p, i);
    if |words| == 1 {
      assert Contains(words[0], p);
    } else if |words| > 1 {
      var w, rest := words[0], Sentence(words[1..]);
      assert s[|w|] == ' ' && forall k :: 0 <= k < |p| ==> p[k] == s[i + k];
      if i + |p| <= |w| {
        assert OccursAt(w, p, i);
        assert Contains(w, p);
      } else if i > |w| {
        var j := i - |w| - 1;
        assert rest[j..j + |p|] == s[i..i + |p|];
        assert OccursAt(rest, p, j);
        PatternIsInsideAWord(words[1..], p);
        var k :| 0 <= k < |words[1..]| && Contains(words[1..][k], p);
        assert words[k + 1] == words[1..][k];
      } else {
        assert false;
      }
    }
  }

  // ---------------------------------------------------------------------------
  // Decimal numbers

  predicate IsDigit(c: char) { '0' <= c <= '9' }
  function DigitChar(d: nat): char
    requires d < 10
  {
    '0' + d as char
  }
  function DigitValue(c: char): nat
    requires IsDigit(c)
  {
    (c - '0') as nat
  }

  /** `std::to_string` */
  function NatText(n: nat): (s: string)
    ensures s != "" && forall c <- s :: IsDigit(c)
  {
    if n < 10 then [DigitChar(n)] else NatText(n / 10) + [DigitChar(n % 10)]
  }

  function IntText(n: int): string {
    if n < 0 then "-" + NatText(-n) else NatText(n)
  }

  /** The digits at the front of a text, and what follows them. */
  function DigitPrefix(s: string): (r: (string, string))
    ensures r.0 + r.1 == s && (forall c <- r.0 :: IsDigit(c)) && (r.1 != "" ==> !IsDigit(r.1[0]))
  {
    if s == "" || !IsDigit(s[0]) then ("", s)
    else
      var (d, rest) := DigitPrefix(s[1..]);
      ([s[0]] + d, rest)
  }

  function Decimal(digits: string): nat
    requires forall c <- digits :: IsDigit(c)
  {
    if digits == "" then 0
    else 10 * Decimal(digits[..|digits| - 1]) + DigitValue(digits[|digits| - 1])
  }

  lemma {:induction false} DecimalOfNatText(n: nat)
    ensures Decimal(NatText(n)) == n
  {
    if n >= 10 {
      DecimalOfNatText(n / 10);
      assert NatText(n)[..|NatText(n)| - 1] == NatText(n / 10);
    }
  }

  lemma {:induction false} DigitPrefixOfDigits(d: string, rest: string)
    requires (forall c <- d :: IsDigit(c)) && (rest != "" ==> !IsDigit(rest[0]))
    ensures DigitPrefix(d + rest) == (d, rest)
  {
    if d == "" {
      assert d + rest == rest;
    } else {
      assert (d + rest)[1..] == d[1..] + rest;
      DigitPrefixOfDigits(d[1..], rest);
      assert [d[0]] + d[1..] == d;
    }
  }
}
