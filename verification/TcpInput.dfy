/** The receiving side of the command connection: a buffer that chunks are appended to and
    frames are cut from. */
module TcpInput {
  import opened Reassembly
  import opened FrameCodec

  class TcpInput {
    var buffer: string

    constructor ()
      ensures buffer == ""
    {
      buffer := "";
    }

    method Append(chunks: seq<string>)
      modifies this
      ensures buffer == old(buffer) + Concat(chunks)
    {
      var i := 0;
      assert chunks[0..] == chunks;
      while i < |chunks|
        invariant 0 <= i <= |chunks|
        invariant buffer + Concat(chunks[i..]) == old(buffer) + Concat(chunks)
      {
        assert chunks[i..][1..] == chunks[i + 1..];
        buffer := buffer + chunks[i];
        i := i + 1;
      }
    }

    /** Takes one binary frame off the buffer, if a whole one is there; reading outside the buffer
        throws. */
    method TryDecodeBinaryFrame() returns (r: Outcome)
      modifies this
      ensures match NextBinary(old(buffer))
              case Got(f, rest) => r == Decoded(f) && buffer == rest
              case NeedMore => r == Waiting && buffer == old(buffer)
              case Fault => r == Faulted && buffer == old(buffer)
      ensures forall f: Frame :: Fits(f) && EncodeBinary(f) <= old(buffer) ==>
                r == Decoded(f) && old(buffer) == EncodeBinary(f) + buffer
      ensures Unfinished(old(buffer)) ==> r == Waiting && buffer == old(buffer)
    {
      hide ReadU32, Wrap, DecodeBinary, EncodeBinary, Unfinished, Fits;
      BufferIsUnderstood(buffer);
      if |buffer| < 8 {
        return Waiting;
      }
      var kindSize := ReadU32(buffer, 0);
      var payloadSizeOffset := Wrap(4 + kindSize);
      if Wrap(payloadSizeOffset + 4) > |buffer| {
        return Waiting;
      }
      if payloadSizeOffset + 4 > |buffer| {
        return Faulted;
      }
      var payloadSize := ReadU32(buffer, payloadSizeOffset);
      var frameSize := Wrap(payloadSizeOffset + 4 + payloadSize);
      if frameSize > |buffer| {
        return Waiting;
      }
      var decoded := DecodeBinary(buffer[..frameSize]);
      if decoded.Error? {
        return Faulted;
      }
      buffer := buffer[frameSize..];
      return Decoded(decoded.value);
    }
  }

  datatype Outcome = Decoded(frame: Frame) | Waiting | Faulted

  /** A whole frame at the front is found; the beginning of one makes the decoder wait. */
  lemma BufferIsUnderstood(buffer: string)
    ensures forall f: Frame :: Fits(f) && EncodeBinary(f) <= buffer ==> NextBinary(buffer) == Got(f, buffer[|EncodeBinary(f)|..])
    ensures forall f: Frame :: Fits(f) && EncodeBinary(f) <= buffer ==> buffer == EncodeBinary(f) + buffer[|EncodeBinary(f)|..]
    ensures Unfinished(buffer) ==> NextBinary(buffer) == NeedMore
  {
    hide NextBinary, EncodeBinary, Fits;
    forall f: Frame | Fits(f) && EncodeBinary(f) <= buffer
      ensures NextBinary(buffer) == Got(f, buffer[|EncodeBinary(f)|..])
    {
      assert EncodeBinary(f) + buffer[|EncodeBinary(f)|..] == buffer;
      BinaryRoundTrip(f, buffer[|EncodeBinary(f)|..]);
    }
    if Unfinished(buffer) {
      UnfinishedWaits(buffer, |buffer|);
      assert buffer[..|buffer|] == buffer;
    }
  }

  /** What arrives over two passes is what arrives in one. */
  lemma PassesAdd(buffer: string, first: seq<string>, second: seq<string>)
    ensures var one := Drain(NextBinary, buffer + Concat(first));
            var two := Drain(NextBinary, one.1 + Concat(second));
            Drain(NextBinary, buffer + Concat(first + second)) == (one.0 + two.0, two.1)
  {
    hide NextBinary, Drain, Concat, Incremental;
    BinaryIsIncremental();
    DrainAppend(NextBinary, buffer + Concat(first), Concat(second));
    ConcatAppend(first, second);
    assert buffer + Concat(first) + Concat(second) == buffer + Concat(first + second);
  }

  lemma {:induction false} ConcatAppend(a: seq<string>, b: seq<string>)
    ensures Concat(a + b) == Concat(a) + Concat(b)
    decreases |a|
  {
    if a == [] {
      assert a + b == b;
    } else {
      assert (a + b)[1..] == a[1..] + b;
      ConcatAppend(a[1..], b);
    }
  }

  lemma BinaryInverts(f: Frame)
    requires Fits(f)
    ensures Inverts(NextBinary, EncodeBinary, f)
  {
    hide NextBinary, EncodeBinary;
    forall rest: string {:trigger EncodeBinary(f) + rest} ensures NextBinary(EncodeBinary(f) + rest) == Got(f, rest) {
      BinaryRoundTrip(f, rest);
    }
  }

  /** Any list of frames, encoded, concatenated and cut into any chunks, is received in order, and
      the beginning of a further frame stays in the buffer. */
  lemma BinaryStreamIsReassembled(frames: seq<Frame>, last: Frame, n: nat, chunks: seq<string>)
    requires Fits(last) && n < |EncodeBinary(last)| && forall f <- frames :: Fits(f)
    requires Concat(chunks) == Stream(EncodeBinary, frames) + EncodeBinary(last)[..n]
    ensures Receive(NextBinary, "", chunks) == (frames, EncodeBinary(last)[..n])
  {
    hide NextBinary, EncodeBinary, Incremental, Inverts, Receive, Stream, Concat;
    BinaryIsIncremental();
    BinaryPrefixWaits(last, n);
    forall f <- frames ensures Inverts(NextBinary, EncodeBinary, f) {
      BinaryInverts(f);
    }
    StreamIsReassembled(NextBinary, EncodeBinary, frames, EncodeBinary(last)[..n], chunks);
  }
}
