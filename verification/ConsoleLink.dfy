/** From the bytes of the command connection to the server: frames are cut from the buffer and obeyed one
    by one, and the bytes mean the same in whatever pieces and passes they arrive. */
module ConsoleLink {
  import opened Text
  import opened SessionTypes
  import opened Reassembly
  import opened FrameCodec
  import opened JsonFrame
  import opened LiveServer
  import opened LiveRuns
  import opened ConsoleMessages
  import TcpInput

  /** The server, the bytes still buffered, and whether decoding threw: the poll loop does not catch
      that, and the program ends. */
  datatype Link = Link(server: Server, buffer: string, failed: bool)

  /** The request a line makes, if it is not empty. */
  function LineRequest(line: string): Option<Request> {
    if line == "" then None
    else match DecodeJson(line)
         case Ok(frame) => Some(RequestOf(frame))
         case Error(message) => Some(Unreadable(message))
  }

  function FrameRequest(frame: Frame): Option<Request> { Some(RequestOf(frame)) }

  function Obey(v: Server, request: Option<Request>): Server {
    hide OnRequest;
    if request.None? then v else OnRequest(v, request.value)
  }

  /** Decodes and obeys until the decoder stops. A console that leaves takes the buffer with it. */
  function Pump<M>(next: string -> Parse<M>, request: M -> Option<Request>, v: Server, buffer: string): Link
    decreases |buffer|
  {
    hide Obey;
    var p := next(buffer);
    if p.Fault? then Link(v, buffer, true)
    else if p.NeedMore? || |p.rest| >= |buffer| then Link(v, buffer, false)
    else
      var t := Obey(v, request(p.message));
      Pump(next, request, t, if t.console then p.rest else "")
  }

  const CLOSED := "tcp command connection closed"

  /** One turn of the receive loop: everything that has arrived is appended and decoded. When the
      console has closed the connection, the buffer is dropped first. */
  function Pass<M>(next: string -> Parse<M>, request: M -> Option<Request>, link: Link, arrived: string,
                   closed: bool): Link {
    if link.failed || !link.server.console then link
    else if closed then Link(CloseConsole(link.server, CLOSED), "", false)
    else Pump(next, request, link.server, link.buffer + arrived)
  }

  function Passes<M>(next: string -> Parse<M>, request: M -> Option<Request>, link: Link, arrivals: seq<string>): Link
    decreases |arrivals|
  {
    hide Pass;
    if arrivals == [] then link
    else Passes(next, request, Pass(next, request, link, arrivals[0], false), arrivals[1..])
  }

  // ---------------------------------------------------------------------------
  // Any bytes

  /** The same server, the same failure, and the same bytes left over. */
  ghost predicate SameOutcome(a: Link, b: Link) {
    a.server == b.server && a.failed == b.failed && (!a.failed ==> a.buffer == b.buffer)
  }

  lemma {:induction false} PumpAppend<M(!new)>(next: string -> Parse<M>, request: M -> Option<Request>, v: Server,
                                             b: string, c: string, limit: nat)
    requires Incremental(next) && next("").NeedMore? && FaultsStay(next, limit) && |b + c| < limit && v.console
    ensures SameOutcome(Pass(next, request, Pump(next, request, v, b), c, false), Pump(next, request, v, b + c))
    ensures var link := Pump(next, request, v, b);
            (link.failed || next(link.buffer).NeedMore?) && (!link.server.console ==> link.buffer == "")
            && |link.buffer| <= |b|
    decreases |b|
  {
    hide Obey;
    var p := next(b);
    if p.Got? {
      assert next(b + c) == Got(p.message, p.rest + c);
      var t := Obey(v, request(p.message));
      if t.console {
        PumpAppend(next, request, t, p.rest, c, limit);
      }
    }
  }

  /** Any bytes, well formed or not, in any pieces: the same frames are obeyed, with the same effect
      on the server, as if everything had arrived at once. */
  lemma {:induction false} ArrivalsAreOneStream<M(!new)>(next: string -> Parse<M>, request: M -> Option<Request>,
                                                       link: Link, arrivals: seq<string>, limit: nat)
    requires Incremental(next) && next("").NeedMore? && FaultsStay(next, limit)
    requires !link.failed && next(link.buffer).NeedMore? && |link.buffer + Concat(arrivals)| < limit
    ensures SameOutcome(Passes(next, request, link, arrivals), Pass(next, request, link, Concat(arrivals), false))
    decreases |arrivals|
  {
    hide Pump;
    if !link.server.console {
      SilentWhenClosed(next, request, link, arrivals);
    } else if arrivals == [] {
      assert link.buffer + Concat(arrivals) == link.buffer;
      PumpWaits(next, request, link.server, link.buffer);
    } else {
      var first, more := arrivals[0], arrivals[1..];
      var u := Pass(next, request, link, first, false);
      assert link.buffer + first + Concat(more) == link.buffer + Concat(arrivals);
      PumpAppend(next, request, link.server, link.buffer + first, Concat(more), limit);
      if u.failed {
        SilentWhenClosed(next, request, u, more);
      } else {
        ArrivalsAreOneStream(next, request, u, more, limit);
      }
    }
  }

  lemma PumpWaits<M>(next: string -> Parse<M>, request: M -> Option<Request>, v: Server, b: string)
    requires next(b).NeedMore?
    ensures Pump(next, request, v, b) == Link(v, b, false)
  {
  }

  lemma {:induction false} SilentWhenClosed<M>(next: string -> Parse<M>, request: M -> Option<Request>, link: Link,
                                               arrivals: seq<string>)
    requires link.failed || !link.server.console
    ensures Passes(next, request, link, arrivals) == link
    decreases |arrivals|
  {
    hide Pump;
    if arrivals != [] { SilentWhenClosed(next, request, link, arrivals[1..]); }
  }

  /** In binary mode. The bound is that of the 32-bit sizes. */
  lemma BinaryArrivalsAreOneStream(link: Link, arrivals: seq<string>)
    requires !link.failed && NextBinary(link.buffer).NeedMore? && |link.buffer + Concat(arrivals)| < TWO_32
    ensures SameOutcome(Passes(NextBinary, FrameRequest, link, arrivals),
                        Pass(NextBinary, FrameRequest, link, Concat(arrivals), false))
  {
    hide NextBinary, Passes, Pass, Concat, FrameRequest, SameOutcome;
    BinaryIsIncremental();
    BinaryFaultsStay();
    EmptyWaits();
    ArrivalsAreOneStream(NextBinary, FrameRequest, link, arrivals, TWO_32);
  }

  /** In JSON mode, without a bound. */
  lemma LineArrivalsAreOneStream(link: Link, arrivals: seq<string>)
    requires !link.failed && NextLine(link.buffer).NeedMore?
    ensures SameOutcome(Passes(NextLine, LineRequest, link, arrivals),
                        Pass(NextLine, LineRequest, link, Concat(arrivals), false))
  {
    hide Find, Passes, Pass, Concat, LineRequest, SameOutcome;
    LinesAreIncremental();
    NoNewline("");
    ArrivalsAreOneStream(NextLine, LineRequest, link, arrivals, |link.buffer + Concat(arrivals)| + 1);
  }

  lemma EmptyWaits()
    ensures NextBinary("").NeedMore?
  {
  }

  // ---------------------------------------------------------------------------
  // What a console says

  function ObeyAll<M>(request: M -> Option<Request>, v: Server, messages: seq<M>): Server
    decreases |messages|
  {
    hide Obey;
    if messages == [] then v else ObeyAll(request, Obey(v, request(messages[0])), messages[1..])
  }

  /** On every proper prefix of the encoded message the decoder waits. */
  ghost predicate Waits<M(!new)>(next: string -> Parse<M>, encode: M -> string, m: M) {
    forall n :: 0 <= n < |encode(m)| ==> next(encode(m)[..n]).NeedMore?
  }

  lemma {:induction false} NothingObeyed<M>(request: M -> Option<Request>, v: Server, messages: seq<M>)
    requires !v.console
    ensures ObeyAll(request, v, messages) == v
    decreases |messages|
  {
    hide OnCommand;
    if messages != [] { NothingObeyed(request, v, messages[1..]); }
  }

  /** A stream of encoded messages in any pieces: with `b` in hand and the arrivals to come, exactly
      these messages are obeyed, in order, until the console leaves. */
  lemma {:induction false} StreamIsObeyed<M(!new)>(next: string -> Parse<M>, encode: M -> string,
                                                   request: M -> Option<Request>, v: Server, b: string,
                                                   messages: seq<M>, tail: string, arrivals: seq<string>)
    requires Incremental(next) && next("").NeedMore? && forall n :: 0 <= n <= |tail| ==> next(tail[..n]).NeedMore?
    requires forall m <- messages :: Inverts(next, encode, m) && Waits(next, encode, m)
    requires v.console && b + Concat(arrivals) == Stream(encode, messages) + tail
    ensures var t := ObeyAll(request, v, messages);
            Passes(next, request, Pump(next, request, v, b), arrivals) == Link(t, if t.console then tail else "", false)
    decreases |arrivals|, |b|
  {
    hide Obey, Pump, Incremental, Inverts, Waits, Stream, Concat;
    NothingComes();
    if messages != [] && |b| >= |encode(messages[0])| {
      var rest := b[|encode(messages[0])|..];
      var t := Obey(v, request(messages[0]));
      FirstIsObeyed(next, encode, request, v, b, messages, tail, Concat(arrivals));
      if t.console {
        StreamIsObeyed(next, encode, request, t, rest, messages[1..], tail, arrivals);
      } else {
        PumpWaits(next, request, t, "");
        SilentWhenClosed(next, request, Link(t, "", false), arrivals);
        NothingObeyed(request, t, messages[1..]);
      }
    } else {
      BytesInHandWait(next, encode, b, messages, tail, Concat(arrivals));
      PumpWaits(next, request, v, b);
      if arrivals == [] {
        assert b + Concat(arrivals) == b;
        StreamIsLong(encode, messages);
        assert messages == [] ==> Stream(encode, messages) + tail == tail;
      } else {
        NextArrival(b, arrivals);
        StreamIsObeyed(next, encode, request, v, b + arrivals[0], messages, tail, arrivals[1..]);
      }
    }
  }

  lemma NothingComes()
    ensures Concat([]) == ""
  {
  }

  lemma NextArrival(b: string, arrivals: seq<string>)
    requires arrivals != []
    ensures (b + arrivals[0]) + Concat(arrivals[1..]) == b + Concat(arrivals)
  {
  }

  lemma StreamIsLong<M>(encode: M -> string, messages: seq<M>)
    ensures if messages == [] then Stream(encode, messages) == "" else |Stream(encode, messages)| >= |encode(messages[0])|
  {
  }

  /** A whole message in hand is obeyed; the rest of the stream comes after it. */
  lemma FirstIsObeyed<M(!new)>(next: string -> Parse<M>, encode: M -> string, request: M -> Option<Request>,
                               v: Server, b: string, messages: seq<M>, tail: string, more: string)
    requires messages != [] && |b| >= |encode(messages[0])| && b + more == Stream(encode, messages) + tail
    requires Incremental(next) && Inverts(next, encode, messages[0])
    ensures var t, rest := Obey(v, request(messages[0])), b[|encode(messages[0])|..];
            && |rest| < |b| && rest + more == Stream(encode, messages[1..]) + tail
            && Pump(next, request, v, b) == Pump(next, request, t, if t.console then rest else "")
  {
    hide Obey, Incremental, Inverts, Stream;
    FirstIsCut(next, encode, b, messages, tail, more);
  }

  lemma FirstIsCut<M(!new)>(next: string -> Parse<M>, encode: M -> string, b: string, messages: seq<M>,
                            tail: string, more: string)
    requires messages != [] && |b| >= |encode(messages[0])| && b + more == Stream(encode, messages) + tail
    requires Incremental(next) && Inverts(next, encode, messages[0])
    ensures var rest := b[|encode(messages[0])|..];
            && |rest| < |b| && rest + more == Stream(encode, messages[1..]) + tail && next(b) == Got(messages[0], rest)
  {
    var first, rest := encode(messages[0]), b[|encode(messages[0])|..];
    FirstInStream(encode, b, messages, tail, more);
    assert next(first + rest) == Got(messages[0], rest);
  }

  lemma FirstInStream<M>(encode: M -> string, b: string, messages: seq<M>, tail: string, more: string)
    requires messages != [] && |b| >= |encode(messages[0])| && b + more == Stream(encode, messages) + tail
    ensures var first, rest := encode(messages[0]), b[|encode(messages[0])|..];
            b == first + rest && rest + more == Stream(encode, messages[1..]) + tail
  {
    var first, later := encode(messages[0]), Stream(encode, messages[1..]);
    hide Stream;
    CutFront(first, later + tail, b, more);
  }

  lemma CutFront(first: string, later: string, b: string, more: string)
    requires b + more == first + later && |b| >= |first|
    ensures b == first + b[|first|..] && b[|first|..] + more == later
  {
    assert first == (first + later)[..|first|] == b[..|first|];
    assert later == (first + later)[|first|..] == b[|first|..] + more;
  }

  /** Less than a whole message is in hand. */
  lemma BytesInHandWait<M(!new)>(next: string -> Parse<M>, encode: M -> string, b: string, messages: seq<M>,
                                 tail: string, more: string)
    requires forall n :: 0 <= n <= |tail| ==> next(tail[..n]).NeedMore?
    requires forall m <- messages :: Waits(next, encode, m)
    requires b + more == Stream(encode, messages) + tail && (messages != [] ==> |b| < |encode(messages[0])|)
    ensures next(b).NeedMore?
  {
    if messages == [] {
      assert Stream(encode, messages) + tail == tail;
      assert b == (b + more)[..|b|] == tail[..|b|];
    } else {
      var first := encode(messages[0]);
      assert Waits(next, encode, messages[0]) by { assert messages[0] in messages; }
      assert b == (b + more)[..|b|] == first[..|b|];
    }
  }

  datatype Said = Said(sender: Envelope, command: Command)

  predicate Sayable(said: Said) { Sendable(said.sender, said.command) }

  predicate AllSayable(talk: seq<Said>) { forall i :: 0 <= i < |talk| ==> Sayable(talk[i]) }

  function FrameFor(said: Said): Frame
    requires Sayable(said)
  {
    FrameOf(said.sender, said.command)
  }

  function Frames(talk: seq<Said>): (frames: seq<Frame>)
    requires AllSayable(talk)
    ensures |frames| == |talk| && forall i :: 0 <= i < |talk| ==> frames[i] == FrameFor(talk[i])
  {
    hide FrameFor, Sayable;
    seq(|talk|, i requires 0 <= i < |talk| => FrameFor(talk[i]))
  }

  /** The talk as a stream of binary frames. */
  function BinaryStream(talk: seq<Said>): string
    requires AllSayable(talk)
  {
    hide FrameFor, Sayable, EncodeBinary;
    Stream(EncodeBinary, Frames(talk))
  }

  /** The talk as a stream of JSON lines. */
  function LineStream(talk: seq<Said>): string
    requires AllSayable(talk)
  {
    hide FrameFor, Sayable, EncodeJson;
    Stream(Line, Encodings(Frames(talk)))
  }

  predicate AllFit(talk: seq<Said>)
    requires AllSayable(talk)
  {
    hide FrameFor, Sayable;
    forall f <- Frames(talk) :: Fits(f)
  }

  /** The server inputs the talk amounts to. */
  function Inputs(talk: seq<Said>): (inputs: seq<Input>)
    ensures |inputs| == |talk|
    ensures forall i :: 0 <= i < |talk| ==> inputs[i] == ConsoleFrame(Commanded(talk[i].sender, talk[i].command))
  {
    seq(|talk|, i requires 0 <= i < |talk| => ConsoleFrame(Commanded(talk[i].sender, talk[i].command)))
  }

  /** The server after the talk, with the bytes left over unless the console has left. */
  function Talked(v: Server, talk: seq<Said>, tail: string): Link {
    hide Serve;
    var t := Serve(v, Inputs(talk));
    Link(t, if t.console then tail else "", false)
  }

  lemma {:induction false} TalkIsObeyed<M>(request: M -> Option<Request>, v: Server, messages: seq<M>, talk: seq<Said>)
    requires |messages| == |talk|
    requires forall i :: 0 <= i < |talk| ==> request(messages[i]) == Some(Commanded(talk[i].sender, talk[i].command))
    ensures ObeyAll(request, v, messages) == Serve(v, Inputs(talk))
    decreases |talk|
  {
    hide OnRequest;
    if talk != [] {
      var t := Obey(v, request(messages[0]));
      assert Inputs(talk)[1..] == Inputs(talk[1..]);
      HandledFrame(v, Commanded(talk[0].sender, talk[0].command));
      hide Handle;
      TalkIsObeyed(request, t, messages[1..], talk[1..]);
    }
  }

  lemma HandledFrame(v: Server, request: Request)
    ensures Handle(v, ConsoleFrame(request)) == OnRequest(v, request)
  {
    hide OnTick, OnArchive, OnDisconnect, TimeoutViewer, OnAccept, CloseConsole, OnRequest, OnJoin, OnHeartbeat;
  }

  /** Binary framing, end to end: whatever a console says, encoded, framed, and cut into any pieces,
      acts on the server as the commands themselves, in their order; a leave ends the talk. */
  lemma BinaryTalkIsServed(v: Server, talk: seq<Said>, tail: string, arrivals: seq<string>)
    requires v.console && AllSayable(talk) && AllFit(talk) && Unfinished(tail)
    requires Concat(arrivals) == BinaryStream(talk) + tail
    ensures Passes(NextBinary, FrameRequest, Link(v, "", false), arrivals) == Talked(v, talk, tail)
  {
    hide NextBinary, EncodeBinary, Fits, Incremental, Inverts, Waits, Serve, Stream, Concat, FrameFor, Pump, Passes,
         RequestOf, Sendable;
    BinaryIsIncremental();
    EmptyWaits();
    var frames := Frames(talk);
    forall m | 0 <= m <= |tail| ensures NextBinary(tail[..m]).NeedMore? { UnfinishedWaits(tail, m); }
    forall f <- frames ensures Inverts(NextBinary, EncodeBinary, f) && Waits(NextBinary, EncodeBinary, f) {
      TcpInput.BinaryInverts(f);
      BinaryWaits(f);
    }
    StartsEmpty(NextBinary, FrameRequest, v, arrivals);
    assert "" + Concat(arrivals) == Concat(arrivals);
    StreamIsObeyed(NextBinary, EncodeBinary, FrameRequest, v, "", frames, tail, arrivals);
    forall i | 0 <= i < |talk| ensures FrameRequest(frames[i]) == Some(Commanded(talk[i].sender, talk[i].command)) {
      FrameIsUnderstood(talk[i]);
    }
    TalkIsObeyed(FrameRequest, v, frames, talk);
  }

  lemma BinaryWaits(f: Frame)
    requires Fits(f)
    ensures Waits(NextBinary, EncodeBinary, f)
  {
    hide NextBinary, EncodeBinary;
    forall n | 0 <= n < |EncodeBinary(f)| ensures NextBinary(EncodeBinary(f)[..n]).NeedMore? { BinaryPrefixWaits(f, n); }
  }

  lemma StartsEmpty<M>(next: string -> Parse<M>, request: M -> Option<Request>, v: Server, arrivals: seq<string>)
    requires next("").NeedMore?
    ensures Pump(next, request, v, "") == Link(v, "", false)
  {
  }

  lemma FrameIsUnderstood(said: Said)
    requires Sayable(said)
    ensures RequestOf(FrameFor(said)) == Commanded(said.sender, said.command)
  {
    hide RequestOf, FrameOf;
    RequestRoundTrip(said.sender, said.command);
  }

  /** JSON lines, end to end, for commands of any size. */
  lemma LineTalkIsServed(v: Server, talk: seq<Said>, tail: string, arrivals: seq<string>)
    requires v.console && AllSayable(talk) && '\n' !in tail
    requires Concat(arrivals) == LineStream(talk) + tail
    ensures Passes(NextLine, LineRequest, Link(v, "", false), arrivals) == Talked(v, talk, tail)
  {
    hide NextLine, Line, EncodeJson, DecodeJson, Incremental, Inverts, Waits, Serve, Stream, Concat, FrameFor, Pump,
         Passes, RequestOf, Sendable;
    LinesAreIncremental();
    NoNewline("");
    var frames := Frames(talk);
    var lines := Encodings(frames);
    forall m | 0 <= m <= |tail| ensures NextLine(tail[..m]).NeedMore? { NoNewline(tail[..m]); }
    forall line <- lines ensures Inverts(NextLine, Line, line) && Waits(NextLine, Line, line) {
      var i :| 0 <= i < |lines| && lines[i] == line;
      JsonIsOneLine(frames[i]);
      LineInverts(line);
      LineWaits(line);
    }
    StartsEmpty(NextLine, LineRequest, v, arrivals);
    assert "" + Concat(arrivals) == Concat(arrivals);
    StreamIsObeyed(NextLine, Line, LineRequest, v, "", lines, tail, arrivals);
    forall i | 0 <= i < |talk| ensures LineRequest(lines[i]) == Some(Commanded(talk[i].sender, talk[i].command)) {
      LineIsUnderstood(talk[i]);
    }
    TalkIsObeyed(LineRequest, v, lines, talk);
  }

  lemma LineWaits(line: string)
    requires '\n' !in line
    ensures Waits(NextLine, Line, line)
  {
    hide NextLine;
    forall n | 0 <= n < |Line(line)| ensures NextLine(Line(line)[..n]).NeedMore? {
      assert Line(line)[..n] == line[..n];
      NoNewline(line[..n]);
    }
  }

  lemma LineIsUnderstood(said: Said)
    requires Sayable(said)
    ensures LineRequest(EncodeJson(FrameFor(said))) == Some(Commanded(said.sender, said.command))
  {
    hide FrameFor, EncodeJson, DecodeJson, RequestOf, Sayable;
    JsonRoundTrip(FrameFor(said));
    FrameIsUnderstood(said);
    NotEmpty(FrameFor(said));
  }

  lemma NotEmpty(f: Frame)
    ensures EncodeJson(f) != ""
  {
    hide Escaped;
  }
}
