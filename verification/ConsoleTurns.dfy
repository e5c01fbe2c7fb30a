/** The receive loop turn by turn, up to the turn in which the console closes its connection. What arrived
    in earlier turns is obeyed; what arrives together with the close is dropped unread. */
module ConsoleTurns {
  import opened Text
  import opened Reassembly
  import opened FrameCodec
  import opened JsonFrame
  import opened LiveServer
  import opened LiveRuns
  import opened ConsoleMessages
  import opened ConsoleLink
  import Answers
  import S = Session

  /** What one turn reads: the bytes that have arrived, and whether the connection is closed behind them. */
  datatype Turn = Turn(arrived: string, closed: bool)

  function Turns<M>(next: string -> Parse<M>, request: M -> Option<Request>, link: Link, turns: seq<Turn>): Link
    decreases |turns|
  {
    hide Pass;
    if turns == [] then link
    else Turns(next, request, Pass(next, request, link, turns[0].arrived, turns[0].closed), turns[1..])
  }

  /** Everything that arrives, the bytes that come together with the close included. */
  function Bytes(turns: seq<Turn>): string {
    if turns == [] then "" else turns[0].arrived + if turns[0].closed then "" else Bytes(turns[1..])
  }

  /** What arrives in the turns before the closing one. */
  function Before(turns: seq<Turn>): seq<string> {
    if turns == [] || turns[0].closed then [] else [turns[0].arrived] + Before(turns[1..])
  }

  predicate Closes(turns: seq<Turn>) { turns != [] && (turns[0].closed || Closes(turns[1..])) }

  /** The console's connection is closed, if it is still there. */
  function Hangup(v: Server): Server { if v.console then CloseConsole(v, CLOSED) else v }

  // ---------------------------------------------------------------------------
  // Turns are passes, and then the close

  lemma HangupIsFinal(v: Server)
    ensures !Hangup(v).console && Hangup(v).serverSequence == v.serverSequence
  {
    hide S.Apply;
  }

  lemma {:induction false} NothingAfter<M>(next: string -> Parse<M>, request: M -> Option<Request>, link: Link,
                                           turns: seq<Turn>)
    requires link.failed || !link.server.console
    ensures Turns(next, request, link, turns) == link
    decreases |turns|
  {
    hide Pump, CloseConsole;
    if turns != [] { NothingAfter(next, request, link, turns[1..]); }
  }

  /** The turns up to the close are passes over what arrived before it; the close drops what is left. */
  lemma {:induction false} TurnsArePasses<M>(next: string -> Parse<M>, request: M -> Option<Request>, link: Link,
                                             turns: seq<Turn>)
    ensures var u := Passes(next, request, link, Before(turns));
            Turns(next, request, link, turns)
            == if Closes(turns) && !u.failed && u.server.console then Link(Hangup(u.server), "", false) else u
    decreases |turns|
  {
    hide Pump, CloseConsole;
    if turns != [] {
      var u := Pass(next, request, link, turns[0].arrived, turns[0].closed);
      if turns[0].closed {
        HangupIsFinal(link.server);
        NothingAfter(next, request, u, turns[1..]);
      } else {
        TurnsArePasses(next, request, u, turns[1..]);
      }
    }
  }

  lemma {:induction false} BeforeComesFirst(turns: seq<Turn>)
    ensures Concat(Before(turns)) <= Bytes(turns)
    ensures !Closes(turns) ==> Concat(Before(turns)) == Bytes(turns)
    decreases |turns|
  {
    if turns != [] {
      BeforeComesFirst(turns[1..]);
      if !turns[0].closed {
        assert Before(turns)[1..] == Before(turns[1..]);
      }
    }
  }

  // ---------------------------------------------------------------------------
  // How many messages have come

  /** How many of the encoded messages are complete in the first `n` bytes of their stream. */
  function Whole<M>(encode: M -> string, messages: seq<M>, n: nat): (k: nat)
    ensures k <= |messages|
    decreases |messages|
  {
    if messages == [] || n < |encode(messages[0])| then 0
    else 1 + Whole(encode, messages[1..], n - |encode(messages[0])|)
  }

  /** The bytes in hand are the whole messages and the beginning of the next; all are whole exactly when
      the bytes reach to the end of the stream. */
  lemma {:induction false} WholeSplits<M>(encode: M -> string, messages: seq<M>, b: string, more: string, tail: string)
    returns (rest: string)
    requires b + more == Stream(encode, messages) + tail
    ensures var k := Whole(encode, messages, |b|);
            && b == Stream(encode, messages[..k]) + rest
            && (if k < |messages| then rest < encode(messages[k]) else rest <= tail)
            && (k == |messages| <==> |Stream(encode, messages)| <= |b|)
    decreases |messages|
  {
    var k := Whole(encode, messages, |b|);
    if messages == [] {
      rest := b;
      assert messages[..k] == [] && Stream(encode, messages) + tail == tail;
      assert "" + b == b;
    } else {
      var first := encode(messages[0]);
      StreamIsLong(encode, messages);
      if |b| < |first| {
        rest := b;
        assert messages[..k] == [] && "" + b == b;
        ShortPrefix(b, more, first, Stream(encode, messages[1..]) + tail);
      } else {
        FirstInStream(encode, b, messages, tail, more);
        rest := WholeSplits(encode, messages[1..], b[|first|..], more, tail);
        var j := k - 1;
        assert messages[..k][0] == messages[0] && messages[..k][1..] == messages[1..][..j];
        assert Stream(encode, messages[..k]) == first + Stream(encode, messages[1..][..j]);
      }
    }
  }

  lemma ShortPrefix(b: string, more: string, first: string, later: string)
    requires b + more == first + later && |b| < |first|
    ensures b < first
  {
    assert b == (b + more)[..|b|] == (first + later)[..|b|] == first[..|b|];
  }

  /** All messages are heard exactly when the last byte of their stream has come before the closing turn,
      and always when there is none. */
  lemma AllAreHeard<M>(encode: M -> string, messages: seq<M>, tail: string, turns: seq<Turn>)
    requires Bytes(turns) == Stream(encode, messages) + tail
    ensures var n := |Concat(Before(turns))|;
            && (Whole(encode, messages, n) == |messages| <==> |Stream(encode, messages)| <= n)
            && (!Closes(turns) ==> Whole(encode, messages, n) == |messages|)
  {
    hide Closes, Before, Bytes, Concat, Stream, Whole;
    BeforeComesFirst(turns);
    var b := Concat(Before(turns));
    assert b + Bytes(turns)[|b|..] == Bytes(turns);
    var rest := WholeSplits(encode, messages, b, Bytes(turns)[|b|..], tail);
  }

  // ---------------------------------------------------------------------------
  // What a console says, and when it hangs up

  /** The turns on a fresh connection, in each framing. */
  function FrameTurns(v: Server, turns: seq<Turn>): Link {
    hide NextBinary, Turns;
    Turns(NextBinary, FrameRequest, Link(v, "", false), turns)
  }

  function LineTurns(v: Server, turns: seq<Turn>): Link {
    hide NextLine, Turns;
    Turns(NextLine, LineRequest, Link(v, "", false), turns)
  }

  /** The turns bring the talk, in any pieces, and perhaps the beginning of something further. */
  ghost predicate FramesArrive(talk: seq<Said>, tail: string, turns: seq<Turn>) {
    AllSayable(talk) && AllFit(talk) && Unfinished(tail) && Bytes(turns) == BinaryStream(talk) + tail
  }

  ghost predicate LinesArrive(talk: seq<Said>, tail: string, turns: seq<Turn>) {
    AllSayable(talk) && '\n' !in tail && Bytes(turns) == LineStream(talk) + tail
  }

  /** The commands that are complete before the closing turn. */
  function HeardInFrames(talk: seq<Said>, turns: seq<Turn>): seq<Said>
    requires AllSayable(talk)
  {
    hide EncodeBinary;
    talk[..Whole(EncodeBinary, Frames(talk), |Concat(Before(turns))|)]
  }

  function HeardInLines(talk: seq<Said>, turns: seq<Turn>): seq<Said>
    requires AllSayable(talk)
  {
    hide EncodeJson;
    talk[..Whole(Line, Encodings(Frames(talk)), |Concat(Before(turns))|)]
  }

  /** Exactly the commands heard were obeyed; then, if the console has closed, it was disconnected, and
      nothing else is left of what it said. */
  ghost predicate Served(v: Server, heard: seq<Said>, turns: seq<Turn>, link: Link) {
    hide Serve, CloseConsole;
    var t := Serve(v, Inputs(heard));
    && !link.failed && link.server == (if Closes(turns) then Hangup(t) else t)
    && (Closes(turns) || !t.console ==> link.buffer == "")
  }

  /** A close after whole commands, in whatever pieces they came: they are obeyed, the console is
      disconnected, and what arrives with the close changes nothing. */
  lemma BinaryClosingIsServed(v: Server, talk: seq<Said>, tail: string, arrivals: seq<string>, last: string)
    requires v.console && AllSayable(talk) && AllFit(talk) && Unfinished(tail)
    requires Concat(arrivals) == BinaryStream(talk) + tail
    ensures Pass(NextBinary, FrameRequest, Passes(NextBinary, FrameRequest, Link(v, "", false), arrivals), last, true)
         == Link(Hangup(Serve(v, Inputs(talk))), "", false)
  {
    hide NextBinary, Passes, Pump, Serve, CloseConsole, AllSayable, AllFit, Unfinished, BinaryStream, Concat;
    BinaryTalkIsServed(v, talk, tail, arrivals);
  }

  lemma LineClosingIsServed(v: Server, talk: seq<Said>, tail: string, arrivals: seq<string>, last: string)
    requires v.console && AllSayable(talk) && '\n' !in tail
    requires Concat(arrivals) == LineStream(talk) + tail
    ensures Pass(NextLine, LineRequest, Passes(NextLine, LineRequest, Link(v, "", false), arrivals), last, true)
         == Link(Hangup(Serve(v, Inputs(talk))), "", false)
  {
    hide NextLine, Passes, Pump, Serve, CloseConsole, AllSayable, LineStream, Concat;
    LineTalkIsServed(v, talk, tail, arrivals);
  }

  lemma TalkedIsServed<M>(next: string -> Parse<M>, request: M -> Option<Request>, v: Server, heard: seq<Said>,
                          rest: string, turns: seq<Turn>)
    requires Passes(next, request, Link(v, "", false), Before(turns)) == Talked(v, heard, rest)
    ensures Served(v, heard, turns, Turns(next, request, Link(v, "", false), turns))
    ensures !Closes(turns) ==> Turns(next, request, Link(v, "", false), turns) == Talked(v, heard, rest)
  {
    hide Turns, Passes, Serve, CloseConsole, Closes, Before;
    TurnsArePasses(next, request, Link(v, "", false), turns);
  }

  /** Turn by turn, with or without a close, for any talk cut into any pieces: the server obeys exactly
      the commands that are complete before the closing turn, in their order. */
  lemma BinaryTurnsAreServed(v: Server, talk: seq<Said>, tail: string, turns: seq<Turn>)
    requires v.console && FramesArrive(talk, tail, turns)
    ensures Served(v, HeardInFrames(talk, turns), turns, FrameTurns(v, turns))
  {
    hide NextBinary, EncodeBinary, Turns, Passes, Served, FrameFor, Sayable, Fits, Closes, Before, Bytes, Concat, Talked,
         Stream, Whole;
    BeforeComesFirst(turns);
    var b := Concat(Before(turns));
    var k := Whole(EncodeBinary, Frames(talk), |b|);
    assert b + Bytes(turns)[|b|..] == Bytes(turns);
    var rest := WholeSplits(EncodeBinary, Frames(talk), b, Bytes(turns)[|b|..], tail);
    assert Frames(talk[..k]) == Frames(talk)[..k];
    BinaryTalkIsServed(v, talk[..k], rest, Before(turns));
    TalkedIsServed(NextBinary, FrameRequest, v, talk[..k], rest, turns);
  }

  lemma LineTurnsAreServed(v: Server, talk: seq<Said>, tail: string, turns: seq<Turn>)
    requires v.console && LinesArrive(talk, tail, turns)
    ensures Served(v, HeardInLines(talk, turns), turns, LineTurns(v, turns))
  {
    hide NextLine, EncodeJson, Turns, Passes, Served, FrameFor, Sayable, Closes, Before, Bytes, Concat, Talked, Stream, Whole;
    BeforeComesFirst(turns);
    var b := Concat(Before(turns));
    var lines := Encodings(Frames(talk));
    var k := Whole(Line, lines, |b|);
    assert b + Bytes(turns)[|b|..] == Bytes(turns);
    var rest := WholeSplits(Line, lines, b, Bytes(turns)[|b|..], tail);
    assert Frames(talk[..k]) == Frames(talk)[..k];
    assert Encodings(Frames(talk[..k])) == lines[..k];
    if k < |talk| { JsonIsOneLine(Frames(talk)[k]); }
    LineTalkIsServed(v, talk[..k], rest, Before(turns));
    TalkedIsServed(NextLine, LineRequest, v, talk[..k], rest, turns);
  }

  // ---------------------------------------------------------------------------
  // When every command is answered

  /** The talk does not go on after a leave that the server obeys. */
  predicate StaysOn(v: Server, talk: seq<Said>)
    decreases |talk|
  {
    hide OnRequest;
    |talk| <= 1 || (!Leaves(v, talk[0]) && StaysOn(OnRequest(v, Commanded(talk[0].sender, talk[0].command)), talk[1..]))
  }

  /** A leave from the console that has joined. */
  predicate Leaves(v: Server, said: Said) { said.command.Leave? && EnvelopeRefusal(v, said.sender).None? }

  lemma {:induction false} WithoutLeaveStaysOn(v: Server, talk: seq<Said>)
    requires forall i :: 0 <= i < |talk| - 1 ==> !talk[i].command.Leave?
    ensures StaysOn(v, talk)
    decreases |talk|
  {
    hide OnRequest, EnvelopeRefusal;
    if |talk| > 1 {
      assert forall i :: 0 <= i < |talk[1..]| - 1 ==> talk[1..][i] == talk[i + 1];
      WithoutLeaveStaysOn(OnRequest(v, Commanded(talk[0].sender, talk[0].command)), talk[1..]);
    }
  }

  /** Every command is answered with one number, up to a leave. */
  lemma {:induction false} TalkIsCounted(v: Server, talk: seq<Said>)
    requires v.console
    ensures var n := Serve(v, Inputs(talk)).serverSequence - v.serverSequence;
            0 <= n <= |talk| && (n == |talk| <==> StaysOn(v, talk))
    decreases |talk|
  {
    if talk != [] {
      var t := OnRequest(v, Commanded(talk[0].sender, talk[0].command));
      HandledFrame(v, Commanded(talk[0].sender, talk[0].command));
      CommandIsCounted(v, talk[0]);
      hide Handle, OnRequest, Leaves;
      assert Inputs(talk)[1..] == Inputs(talk[1..]);
      if t.console { TalkIsCounted(t, talk[1..]); } else { GoneIsDeaf(t, talk[1..]); }
    }
  }

  /** Nothing is heard from a console that is gone. */
  lemma {:induction false} GoneIsDeaf(v: Server, talk: seq<Said>)
    requires !v.console
    ensures Serve(v, Inputs(talk)) == v
    decreases |talk|
  {
    if talk != [] {
      HandledFrame(v, Commanded(talk[0].sender, talk[0].command));
      hide Handle, OnCommand;
      assert Inputs(talk)[1..] == Inputs(talk[1..]);
      GoneIsDeaf(v, talk[1..]);
    }
  }

  lemma CommandIsCounted(v: Server, said: Said)
    requires v.console
    ensures var t := OnRequest(v, Commanded(said.sender, said.command));
            t.serverSequence == v.serverSequence + 1 && (t.console <==> !Leaves(v, said))
  {
    Answers.EveryCommandIsAnswered(v, said.sender, said.command);
    hide OnCommand, EnvelopeRefusal;
  }

  lemma HeardIsCounted(v: Server, talk: seq<Said>, k: nat, turns: seq<Turn>, link: Link)
    requires v.console && k <= |talk| && Served(v, talk[..k], turns, link)
    ensures link.server.serverSequence == v.serverSequence + |talk| <==> k == |talk| && StaysOn(v, talk)
  {
    hide Serve, CloseConsole, Closes, StaysOn;
    TalkIsCounted(v, talk[..k]);
    HangupIsFinal(Serve(v, Inputs(talk[..k])));
    assert k == |talk| ==> talk[..k] == talk;
  }

  /** Every command of the talk is answered if and only if none comes after a leave and the last byte has
      come before the turn that closes the connection. */
  lemma BinaryTalkIsAnsweredExactlyIf(v: Server, talk: seq<Said>, tail: string, turns: seq<Turn>)
    requires v.console && FramesArrive(talk, tail, turns)
    ensures FrameTurns(v, turns).server.serverSequence == v.serverSequence + |talk|
            <==> StaysOn(v, talk) && |BinaryStream(talk)| <= |Concat(Before(turns))|
  {
    hide FrameTurns, Served, AllFit, Unfinished, StaysOn, EncodeBinary, FrameFor, Sayable, Whole, Concat, Before, Stream;
    BinaryTurnsAreServed(v, talk, tail, turns);
    AllAreHeard(EncodeBinary, Frames(talk), tail, turns);
    HeardIsCounted(v, talk, |HeardInFrames(talk, turns)|, turns, FrameTurns(v, turns));
  }

  lemma LineTalkIsAnsweredExactlyIf(v: Server, talk: seq<Said>, tail: string, turns: seq<Turn>)
    requires v.console && LinesArrive(talk, tail, turns)
    ensures LineTurns(v, turns).server.serverSequence == v.serverSequence + |talk|
            <==> StaysOn(v, talk) && |LineStream(talk)| <= |Concat(Before(turns))|
  {
    hide LineTurns, Served, StaysOn, EncodeJson, FrameFor, Sayable, Whole, Concat, Before, Stream;
    LineTurnsAreServed(v, talk, tail, turns);
    AllAreHeard(Line, Encodings(Frames(talk)), tail, turns);
    HeardIsCounted(v, talk, |HeardInLines(talk, turns)|, turns, LineTurns(v, turns));
  }
}
