/** Framing on the command connection: length-prefixed binary frames and JSON lines. */
module FrameCodec {
  import opened Text
  import opened Reassembly

  datatype Frame = Frame(kind: string, payload: string)

  // ---------------------------------------------------------------------------
  // Binary frames. All sizes and offsets are 32-bit and wrap around.

  function Wrap(n: nat): nat { n % TWO_32 }

  lemma WrapSmall(n: nat)
    ensures n < TWO_32 ==> Wrap(n) == n
  {
  }

  function Byte(c: char): nat { c as int % 256 }

  /** Most significant byte first. */
  function U32Text(v: nat): string {
    var a := v / 256;
    var b := a / 256;
    var c := b / 256;
    [(c % 256) as char, (b % 256) as char, (a % 256) as char, (v % 256) as char]
  }

  function ReadU32(s: string, at: nat): nat
    requires at + 4 <= |s|
  {
    ((Byte(s[at]) * 256 + Byte(s[at + 1])) * 256 + Byte(s[at + 2])) * 256 + Byte(s[at + 3])
  }

  lemma U32TextValue(v: nat)
    requires v < TWO_32
    ensures ReadU32(U32Text(v), 0) == v
  {
    var a := v / 256;
    var b := a / 256;
    var c := b / 256;
    hide Byte;
    assert c < 256;
  }

  lemma ReadU32Within(s: string, at: nat, t: string)
    requires at + 4 <= |s| && |t| == 4 && s[at..at + 4] == t
    ensures ReadU32(s, at) == ReadU32(t, 0)
  {
    hide Byte;
    assert forall i :: 0 <= i < 4 ==> s[at + i] == t[i];
  }

  function EncodeBinary(f: Frame): string {
    U32Text(Wrap(|f.kind|)) + f.kind + U32Text(Wrap(|f.payload|)) + f.payload
  }

  /** `decode_binary_frame`. Reading outside the frame is a fault. */
  function DecodeBinary(frame: string): Result<Frame> {
    if |frame| < 4 then Error("binary frame too short")
    else
      var kindSize := ReadU32(frame, 0);
      var offset := Wrap(4 + kindSize);
      if offset + 4 > |frame| then Error("binary frame too short")
      else
        var payloadSize := ReadU32(frame, offset);
        var begin := Wrap(offset + 4);
        if begin + payloadSize > |frame| then Error("binary frame truncated")
        else if 4 + kindSize > |frame| then Error("kind outside the frame")
        else Ok(Frame(frame[4..4 + kindSize], frame[begin..begin + payloadSize]))
  }

  /** The decision of `try_decode_binary_frame` on a buffer. */
  function NextBinary(buffer: string): Parse<Frame> {
    if |buffer| < 8 then NeedMore
    else
      var offset := Wrap(4 + ReadU32(buffer, 0));
      if Wrap(offset + 4) > |buffer| then NeedMore
      else if offset + 4 > |buffer| then Fault
      else
        var size := Wrap(offset + 4 + ReadU32(buffer, offset));
        if size > |buffer| then NeedMore
        else match DecodeBinary(buffer[..size])
             case Ok(frame) => Got(frame, buffer[size..])
             case Error(_) => Fault
  }

  lemma BinaryIsIncremental()
    ensures Incremental(NextBinary) && !NextBinary("").Got?
  {
    forall b: string, c: string {:trigger NextBinary(b + c)} | NextBinary(b).Got?
      ensures NextBinary(b + c) == Got(NextBinary(b).message, NextBinary(b).rest + c)
    {
      GotIsStable(b, c);
    }
    forall b: string | NextBinary(b).Got? ensures |NextBinary(b).rest| < |b| {
      hide ReadU32, Wrap;
    }
  }

  lemma GotIsStable(b: string, c: string)
    requires NextBinary(b).Got?
    ensures NextBinary(b + c) == Got(NextBinary(b).message, NextBinary(b).rest + c)
  {
    hide ReadU32, Wrap, DecodeBinary;
    var offset := Wrap(4 + ReadU32(b, 0));
    assert (b + c)[0..4] == b[0..4] && (b + c)[offset..offset + 4] == b[offset..offset + 4];
    ReadU32Within(b, 0, b[0..4]);
    ReadU32Within(b + c, 0, b[0..4]);
    ReadU32Within(b, offset, b[offset..offset + 4]);
    ReadU32Within(b + c, offset, b[offset..offset + 4]);
    var size := Wrap(offset + 4 + ReadU32(b, offset));
    assert (b + c)[..size] == b[..size] && (b + c)[size..] == b[size..] + c;
  }

  /** A faulty header stays one as long as fewer than 2^32 bytes have come. */
  lemma BinaryFaultsStay()
    ensures FaultsStay(NextBinary, TWO_32)
  {
    hide NextBinary;
    forall b: string, c: string {:trigger NextBinary(b + c)} | NextBinary(b).Fault? && |b + c| < TWO_32
      ensures NextBinary(b + c).Fault?
    {
      FaultIsStable(b, c);
    }
  }

  lemma FaultIsStable(b: string, c: string)
    requires NextBinary(b).Fault? && |b + c| < TWO_32
    ensures NextBinary(b + c).Fault?
  {
    hide ReadU32, Wrap, DecodeBinary;
    var offset := Wrap(4 + ReadU32(b, 0));
    assert (b + c)[0..4] == b[0..4];
    ReadU32Within(b, 0, b[0..4]);
    ReadU32Within(b + c, 0, b[0..4]);
    WrapStep(offset);
    if offset + 4 <= |b| {
      assert (b + c)[offset..offset + 4] == b[offset..offset + 4];
      ReadU32Within(b, offset, b[offset..offset + 4]);
      ReadU32Within(b + c, offset, b[offset..offset + 4]);
      var size := Wrap(offset + 4 + ReadU32(b, offset));
      assert (b + c)[..size] == b[..size];
    }
  }

  lemma WrapStep(offset: nat)
    ensures offset < TWO_32 && Wrap(offset + 4) < offset + 4 ==> offset + 4 >= TWO_32
  {
  }

  /** Frames whose total size fits the 32-bit sizes. */
  predicate Fits(f: Frame) { 8 + |f.kind| + |f.payload| < TWO_32 }

  /** Where the parts of an encoded frame lie. */
  predicate LaidOut(s: string, f: Frame) {
    var k, p := |f.kind|, |f.payload|;
    && 8 + k + p <= |s| && ReadU32(s, 0) == k && ReadU32(s, 4 + k) == p
    && s[4..4 + k] == f.kind && s[8 + k..8 + k + p] == f.payload
  }

  lemma EncodedIsLaidOut(f: Frame, rest: string)
    requires Fits(f)
    ensures LaidOut(EncodeBinary(f) + rest, f) && |EncodeBinary(f)| == 8 + |f.kind| + |f.payload|
  {
    var k, p := |f.kind|, |f.payload|;
    WrapSmall(k);
    WrapSmall(p);
    U32TextValue(k);
    U32TextValue(p);
    hide ReadU32, U32Text, Wrap;
    var s := EncodeBinary(f) + rest;
    assert s[0..4] == U32Text(k) && s[4 + k..8 + k] == U32Text(p);
    ReadU32Within(s, 0, U32Text(k));
    ReadU32Within(s, 4 + k, U32Text(p));
  }

  lemma LaidOutDecodes(s: string, f: Frame)
    requires Fits(f) && LaidOut(s, f)
    ensures DecodeBinary(s) == Ok(f)
  {
    WrapSmall(4 + |f.kind|);
    WrapSmall(8 + |f.kind|);
    hide ReadU32, Wrap;
  }

  /** A number in four bytes from some position on, the most significant first. */
  predicate BigEndianAt(s: string, at: nat, n: nat) {
    && at + 4 <= |s| && (forall i :: at <= i < at + 4 ==> (s[i] as int) < 256)
    && n == 16777216 * s[at] as int + 65536 * s[at + 1] as int + 256 * s[at + 2] as int + s[at + 3] as int
  }

  lemma NumberIsBigEndian(s: string, at: nat, n: nat)
    requires n < TWO_32 && at + 4 <= |s| && s[at..at + 4] == U32Text(n)
    ensures BigEndianAt(s, at, n)
  {
    var a := n / 256;
    var b := a / 256;
    var c := b / 256;
    assert forall i :: 0 <= i < 4 ==> s[at + i] == U32Text(n)[i];
    assert c < 256;
  }

  /** On the wire: the length of the kind, the kind, the length of the payload, the payload. */
  lemma BinaryLayout(f: Frame)
    requires Fits(f)
    ensures var e, n := EncodeBinary(f), |f.kind|;
            && |e| == 8 + n + |f.payload| && e[4..4 + n] == f.kind && e[8 + n..] == f.payload
            && BigEndianAt(e, 0, n) && BigEndianAt(e, 4 + n, |f.payload|)
  {
    hide U32Text, BigEndianAt, ReadU32;
    var e, n := EncodeBinary(f), |f.kind|;
    SizesAreFourBytes(n, |f.payload|);
    assert e[0..4] == U32Text(n) && e[4 + n..8 + n] == U32Text(|f.payload|);
    NumberIsBigEndian(e, 0, n);
    NumberIsBigEndian(e, 4 + n, |f.payload|);
  }

  lemma SizesAreFourBytes(n: nat, k: nat)
    requires n < TWO_32 && k < TWO_32
    ensures Wrap(n) == n && Wrap(k) == k && |U32Text(n)| == |U32Text(k)| == 4
  {
    WrapSmall(n);
    WrapSmall(k);
  }

  /** Decoding what was encoded gives the frame back and leaves the following bytes. */
  lemma BinaryRoundTrip(f: Frame, rest: string)
    requires Fits(f)
    ensures NextBinary(EncodeBinary(f) + rest) == Got(f, rest)
    ensures DecodeBinary(EncodeBinary(f)) == Ok(f)
  {
    hide ReadU32, Wrap, EncodeBinary, DecodeBinary;
    var e := EncodeBinary(f);
    EncodedIsLaidOut(f, rest);
    EncodedIsLaidOut(f, "");
    assert e + "" == e;
    LaidOutDecodes(e, f);
    WrapSmall(4 + |f.kind|);
    WrapSmall(8 + |f.kind|);
    WrapSmall(8 + |f.kind| + |f.payload|);
    assert (e + rest)[..|e|] == e && (e + rest)[|e|..] == rest;
  }

  /** On a proper prefix of a frame the decoder waits. */
  lemma BinaryPrefixWaits(f: Frame, n: nat)
    requires Fits(f) && n < |EncodeBinary(f)|
    ensures NextBinary(EncodeBinary(f)[..n]) == NeedMore
  {
    hide ReadU32, Wrap, EncodeBinary, DecodeBinary;
    var e, k := EncodeBinary(f), |f.kind|;
    EncodedIsLaidOut(f, "");
    assert e + "" == e;
    WrapSmall(4 + k);
    WrapSmall(8 + k);
    WrapSmall(8 + k + |f.payload|);
    var p := e[..n];
    if n >= 8 {
      assert p[0..4] == e[0..4];
      ReadU32Within(p, 0, e[0..4]);
      ReadU32Within(e, 0, e[0..4]);
      if 8 + k <= n {
        assert p[4 + k..8 + k] == e[4 + k..8 + k];
        ReadU32Within(p, 4 + k, e[4 + k..8 + k]);
        ReadU32Within(e, 4 + k, e[4 + k..8 + k]);
      }
    }
  }

  /** The beginning of a further frame. */
  ghost predicate Unfinished(tail: string) {
    exists f: Frame :: Fits(f) && tail < EncodeBinary(f)
  }

  lemma UnfinishedWaits(tail: string, m: nat)
    requires Unfinished(tail) && m <= |tail|
    ensures NextBinary(tail[..m]).NeedMore?
  {
    hide NextBinary, EncodeBinary, Fits;
    var f: Frame :| Fits(f) && tail < EncodeBinary(f);
    assert tail[..m] == EncodeBinary(f)[..m];
    BinaryPrefixWaits(f, m);
  }
}
