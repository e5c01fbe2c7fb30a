/** Cutting a byte stream into messages, whatever the sizes of the chunks it arrives in. */
module Reassembly {

  /** What a decoder makes of the front of a buffer. `Fault` stands for a thrown exception. */
  datatype Parse<+M> = NeedMore | Fault | Got(message: M, rest: string)

  /** A decoder consumes something for every message, and later bytes never change a message. */
  ghost predicate Incremental<M(!new)>(next: string -> Parse<M>) {
    && (forall b {:trigger next(b)} :: next(b).Got? ==> |next(b).rest| < |b|)
    && (forall b, c {:trigger next(b + c)} :: next(b).Got? ==> next(b + c) == Got(next(b).message, next(b).rest + c))
  }

  /** More bytes do not repair a faulty header, as long as there are fewer than `limit`. */
  ghost predicate FaultsStay<M(!new)>(next: string -> Parse<M>, limit: nat) {
    forall b, c {:trigger next(b + c)} :: next(b).Fault? && |b + c| < limit ==> next(b + c).Fault?
  }

  /** Decodes until the decoder stops: the messages, and what stays in the buffer. */
  function Drain<M>(next: string -> Parse<M>, buffer: string): (seq<M>, string)
    decreases |buffer|
  {
    var p := next(buffer);
    if !p.Got? || |p.rest| >= |buffer| then ([], buffer)
    else
      var (messages, rest) := Drain(next, p.rest);
      ([p.message] + messages, rest)
  }

  /** Appends one chunk after another, draining after each. */
  function Receive<M>(next: string -> Parse<M>, buffer: string, chunks: seq<string>): (seq<M>, string)
    decreases |chunks|
  {
    if chunks == [] then ([], buffer)
    else
      var (first, kept) := Drain(next, buffer + chunks[0]);
      var (more, rest) := Receive(next, kept, chunks[1..]);
      (first + more, rest)
  }

  function Concat(chunks: seq<string>): string {
    if chunks == [] then "" else chunks[0] + Concat(chunks[1..])
  }

  lemma {:induction false} DrainStops<M(!new)>(next: string -> Parse<M>, b: string)
    requires Incremental(next)
    ensures !next(Drain(next, b).1).Got?
    decreases |b|
  {
    if next(b).Got? { DrainStops(next, next(b).rest); }
  }

  lemma {:induction false} DrainAppend<M(!new)>(next: string -> Parse<M>, b: string, c: string)
    requires Incremental(next)
    ensures var (m, r) := Drain(next, b); var (m', r') := Drain(next, r + c); Drain(next, b + c) == (m + m', r')
    decreases |b|
  {
    var p := next(b);
    if p.Got? {
      DrainAppend(next, p.rest, c);
      assert next(b + c) == Got(p.message, p.rest + c);
      var (m, r) := Drain(next, p.rest);
      var (m', r') := Drain(next, r + c);
      assert [p.message] + (m + m') == [p.message] + m + m';
    } else {
      assert Drain(next, b) == ([], b);
      assert forall m: seq<M> :: [] + m == m;
    }
  }

  /** Chunking never matters: any byte stream, well formed or not, gives the same messages and the
      same left-over bytes however it is cut. */
  lemma {:induction false} ChunkingIsInvisible<M(!new)>(next: string -> Parse<M>, buffer: string, chunks: seq<string>)
    requires Incremental(next) && !next(buffer).Got?
    ensures Receive(next, buffer, chunks) == Drain(next, buffer + Concat(chunks))
    decreases |chunks|
  {
    if chunks == [] {
      assert buffer + Concat(chunks) == buffer;
    } else {
      var (first, kept) := Drain(next, buffer + chunks[0]);
      DrainStops(next, buffer + chunks[0]);
      ChunkingIsInvisible(next, kept, chunks[1..]);
      DrainAppend(next, buffer + chunks[0], Concat(chunks[1..]));
      assert buffer + chunks[0] + Concat(chunks[1..]) == buffer + Concat(chunks);
    }
  }

  /** The stream of a list of messages under an encoding. */
  function Stream<M>(encode: M -> string, messages: seq<M>): string {
    if messages == [] then "" else encode(messages[0]) + Stream(encode, messages[1..])
  }

  ghost predicate Inverts<M(!new)>(next: string -> Parse<M>, encode: M -> string, m: M) {
    forall rest {:trigger encode(m) + rest} :: next(encode(m) + rest) == Got(m, rest)
  }

  /** A stream of encoded messages, received in any chunks, yields exactly those messages in order;
      an incomplete tail is kept. */
  lemma {:induction false} StreamIsReassembled<M(!new)>(next: string -> Parse<M>, encode: M -> string,
                                                      messages: seq<M>, tail: string, chunks: seq<string>)
    requires Incremental(next) && !next("").Got? && !next(tail).Got?
    requires forall m <- messages :: Inverts(next, encode, m)
    requires Concat(chunks) == Stream(encode, messages) + tail
    ensures Receive(next, "", chunks) == (messages, tail)
  {
    ChunkingIsInvisible(next, "", chunks);
    assert "" + Concat(chunks) == Concat(chunks);
    DrainStream(next, encode, messages, tail);
  }

  lemma {:induction false} DrainStream<M(!new)>(next: string -> Parse<M>, encode: M -> string, messages: seq<M>,
                                                tail: string)
    requires Incremental(next) && !next(tail).Got?
    requires forall m <- messages :: Inverts(next, encode, m)
    ensures Drain(next, Stream(encode, messages) + tail) == (messages, tail)
    decreases |messages|
  {
    if messages == [] {
      assert Stream(encode, messages) + tail == tail;
    } else {
      var rest := Stream(encode, messages[1..]) + tail;
      assert messages[0] in messages && forall m <- messages[1..] :: m in messages;
      assert Stream(encode, messages) + tail == encode(messages[0]) + rest;
      DrainStream(next, encode, messages[1..], tail);
      assert Inverts(next, encode, messages[0]);
      assert next(encode(messages[0]) + rest) == Got(messages[0], rest);
      assert [messages[0]] + messages[1..] == messages;
    }
  }
}
