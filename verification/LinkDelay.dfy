/** The display's estimate of the link delay: heartbeats waiting for their acknowledgement, and a
    smoothed round-trip time. `DelayEstimator` is the class whose methods are proved to compute the
    functions on values. */
module LinkDelay {
  import opened Text

  datatype Waiting = Waiting(id: nat, sentMs: nat)

  /** `delayMs` is shown only once there has been a sample. */
  datatype Estimate = Estimate(lastId: nat, pending: seq<Waiting>, rawMs: nat, delayMs: nat, sampled: bool)

  const MAX_PENDING := 32
  const NO_ESTIMATE := Estimate(0, [], 0, 0, false)

  function Pruned(pending: seq<Waiting>): seq<Waiting> {
    if |pending| > MAX_PENDING then pending[|pending| - MAX_PENDING..] else pending
  }

  function SendHeartbeat(e: Estimate, nowMs: nat): Estimate {
    e.(lastId := e.lastId + 1, pending := Pruned(e.pending + [Waiting(e.lastId + 1, nowMs)]))
  }

  /** The position of a heartbeat among those waiting. */
  function Position(pending: seq<Waiting>, id: nat): (r: Option<nat>)
    ensures r.Some? ==> r.value < |pending| && pending[r.value].id == id
    ensures r.Some? ==> forall i :: 0 <= i < r.value ==> pending[i].id != id
    ensures r.None? ==> forall i :: 0 <= i < |pending| ==> pending[i].id != id
  {
    if pending == [] then None
    else if pending[0].id == id then Some(0)
    else match Position(pending[1..], id)
         case None => None
         case Some(at) =>
           assert forall i :: 0 < i < |pending| ==> pending[i] == pending[1..][i - 1];
           Some(at + 1)
  }

  /** Four fifths of the old value and one fifth of the sample, rounded half up: tenths are exact. */
  function Smoothed(delayMs: nat, rawMs: nat): nat { (8 * delayMs + 2 * rawMs + 5) / 10 }

  /** Whether an acknowledgement yields a sample. */
  predicate Samples(e: Estimate, id: nat, nowMs: nat) {
    var at := Position(e.pending, id);
    at.Some? && e.pending[at.value].sentMs <= nowMs
  }

  function RawOf(e: Estimate, id: nat, nowMs: nat): nat
    requires Samples(e, id, nowMs)
  {
    nowMs - e.pending[Position(e.pending, id).value].sentMs
  }

  function OnAck(e: Estimate, id: nat, nowMs: nat): Estimate {
    var at := Position(e.pending, id);
    if at.None? then e
    else if nowMs < e.pending[at.value].sentMs then
      e.(pending := e.pending[..at.value] + e.pending[at.value + 1..])
    else
      var raw := nowMs - e.pending[at.value].sentMs;
      e.(rawMs := raw, delayMs := if e.sampled then Smoothed(e.delayMs, raw) else raw, sampled := true,
         pending := e.pending[at.value + 1..])
  }

  // ---------------------------------------------------------------------------
  // Runs

  datatype Input = Send(nowMs: nat) | Ack(id: nat, nowMs: nat)

  function Handle(e: Estimate, input: Input): Estimate {
    match input
    case Send(nowMs) => SendHeartbeat(e, nowMs)
    case Ack(id, nowMs) => OnAck(e, id, nowMs)
  }

  function Run(e: Estimate, inputs: seq<Input>): Estimate
    decreases |inputs|
  {
    if inputs == [] then e else Run(Handle(e, inputs[0]), inputs[1..])
  }

  datatype Sample = Sample(id: nat, rawMs: nat)

  /** The samples a run takes, in order. */
  function SamplesOf(e: Estimate, inputs: seq<Input>): seq<Sample>
    decreases |inputs|
  {
    if inputs == [] then []
    else
      var rest := SamplesOf(Handle(e, inputs[0]), inputs[1..]);
      match inputs[0]
      case Send(_) => rest
      case Ack(id, nowMs) => if Samples(e, id, nowMs) then [Sample(id, RawOf(e, id, nowMs))] + rest else rest
  }

  // ---------------------------------------------------------------------------
  // Pending heartbeats

  ghost predicate Ascending(pending: seq<Waiting>, top: nat) {
    && (forall i, j :: 0 <= i < j < |pending| ==> pending[i].id < pending[j].id)
    && (forall i :: 0 <= i < |pending| ==> 1 <= pending[i].id <= top)
  }

  /** At most 32 heartbeats wait, in the order of their ids, none newer than the last one sent. */
  ghost predicate Queued(e: Estimate) { |e.pending| <= MAX_PENDING && Ascending(e.pending, e.lastId) }

  lemma AscendingSnoc(pending: seq<Waiting>, w: Waiting)
    requires w.id > 0 && Ascending(pending, w.id - 1)
    ensures Ascending(pending + [w], w.id)
  {
    var longer := pending + [w];
    assert forall i :: 0 <= i < |pending| ==> longer[i] == pending[i];
  }

  lemma AscendingDrop(pending: seq<Waiting>, top: nat, n: nat)
    requires n <= |pending| && Ascending(pending, top)
    ensures Ascending(pending[n..], top)
  {
    assert forall i :: 0 <= i < |pending| - n ==> pending[n..][i] == pending[n + i];
  }

  lemma AscendingRemove(pending: seq<Waiting>, top: nat, at: nat)
    requires at < |pending| && Ascending(pending, top)
    ensures Ascending(pending[..at] + pending[at + 1..], top)
  {
    var rest := pending[..at] + pending[at + 1..];
    assert forall i :: 0 <= i < |rest| ==> rest[i] == pending[if i < at then i else i + 1];
  }

  lemma SendStaysQueued(e: Estimate, nowMs: nat)
    requires Queued(e)
    ensures Queued(SendHeartbeat(e, nowMs))
  {
    hide Ascending;
    var longer := e.pending + [Waiting(e.lastId + 1, nowMs)];
    AscendingSnoc(e.pending, Waiting(e.lastId + 1, nowMs));
    if |longer| > MAX_PENDING { AscendingDrop(longer, e.lastId + 1, |longer| - MAX_PENDING); }
  }

  lemma AckStaysQueued(e: Estimate, id: nat, nowMs: nat)
    requires Queued(e)
    ensures Queued(OnAck(e, id, nowMs))
  {
    hide Smoothed, Ascending;
    var at := Position(e.pending, id);
    if at.Some? {
      AscendingDrop(e.pending, e.lastId, at.value + 1);
      AscendingRemove(e.pending, e.lastId, at.value);
    }
  }

  lemma HandleStaysQueued(e: Estimate, input: Input)
    requires Queued(e)
    ensures Queued(Handle(e, input))
  {
    hide Queued, SendHeartbeat, OnAck;
    match input
    case Send(nowMs) => SendStaysQueued(e, nowMs);
    case Ack(id, nowMs) => AckStaysQueued(e, id, nowMs);
  }

  /** No heartbeat at or before `floor` waits any more. */
  ghost predicate Past(e: Estimate, floor: nat) {
    floor <= e.lastId && forall i :: 0 <= i < |e.pending| ==> e.pending[i].id > floor
  }

  ghost predicate Rising(samples: seq<Sample>, floor: nat) {
    && (forall i :: 0 <= i < |samples| ==> samples[i].id > floor)
    && (forall i, j :: 0 <= i < j < |samples| ==> samples[i].id < samples[j].id)
  }

  /** Each heartbeat yields at most one sample, and samples come in the order the heartbeats were
      sent, however the acknowledgements are delayed, repeated or lost. */
  lemma {:induction false} SamplesComeInOrder(e: Estimate, inputs: seq<Input>, floor: nat)
    requires Queued(e) && Past(e, floor)
    ensures Queued(Run(e, inputs)) && Rising(SamplesOf(e, inputs), floor)
    decreases |inputs|
  {
    if inputs == [] {
    } else {
      var input, t, rest := inputs[0], Handle(e, inputs[0]), inputs[1..];
      HandleStaysQueued(e, input);
      if input.Ack? && Samples(e, input.id, input.nowMs) {
        SamplesComeInOrder(t, rest, input.id);
      } else {
        StaysPast(e, input, floor);
        SamplesComeInOrder(t, rest, floor);
      }
    }
  }

  lemma StaysPast(e: Estimate, input: Input, floor: nat)
    requires Queued(e) && Past(e, floor)
    ensures Past(Handle(e, input), floor)
  {
  }

  // ---------------------------------------------------------------------------
  // What is measured

  /** The heartbeats sent from number `from + 1` on, with the times they were sent at. */
  ghost function Window(sent: seq<nat>, from: nat): seq<Waiting>
    requires from <= |sent|
  {
    seq(|sent| - from, i requires 0 <= i < |sent| - from => Waiting(from + i + 1, sent[from + i]))
  }

  /** What waits: the heartbeats newer than the last one sampled, of the last 32. */
  function First(sent: seq<nat>, floor: nat): nat {
    if |sent| > MAX_PENDING && floor < |sent| - MAX_PENDING then |sent| - MAX_PENDING else floor
  }

  ghost predicate Waits(e: Estimate, sent: seq<nat>, floor: nat, nowMs: nat) {
    && e.lastId == |sent| && floor <= |sent| && e.pending == Window(sent, First(sent, floor))
    && forall i :: 0 <= i < |sent| ==> sent[i] <= nowMs
  }

  /** The clock does not go back. */
  ghost predicate OnTime(inputs: seq<Input>, nowMs: nat) {
    && (forall i :: 0 <= i < |inputs| ==> nowMs <= inputs[i].nowMs)
    && (forall i, j :: 0 <= i < j < |inputs| ==> inputs[i].nowMs <= inputs[j].nowMs)
  }

  /** The times at which a run sends its heartbeats. */
  function SentIn(inputs: seq<Input>): seq<nat> {
    if inputs == [] then [] else SentBy(inputs[0]) + SentIn(inputs[1..])
  }

  /** The newest heartbeat a run has sampled. */
  function Sampled(e: Estimate, inputs: seq<Input>, floor: nat): nat
    decreases |inputs|
  {
    if inputs == [] then floor else Sampled(Handle(e, inputs[0]), inputs[1..], FloorAfter(e, inputs[0], floor))
  }

  lemma WindowFinds(sent: seq<nat>, from: nat, id: nat)
    requires from <= |sent|
    ensures var at := Position(Window(sent, from), id);
            if from < id <= |sent| then at == Some(id - from - 1) else at == None
  {
    var w := Window(sent, from);
    assert forall i :: 0 <= i < |w| ==> w[i].id == from + i + 1;
    if from < id <= |sent| { assert w[id - from - 1].id == id; }
  }

  lemma SendingWaits(e: Estimate, sent: seq<nat>, floor: nat, nowMs: nat, t: nat)
    requires Waits(e, sent, floor, nowMs) && nowMs <= t
    ensures Waits(SendHeartbeat(e, t), sent + [t], floor, t)
  {
    var from, more := First(sent, floor), sent + [t];
    assert e.pending + [Waiting(|sent| + 1, t)] == Window(more, from);
    assert Window(more, from)[First(more, floor) - from..] == Window(more, First(more, floor));
  }

  /** An acknowledgement is sampled exactly if its heartbeat waits, and then measures the time since it was
      sent; the heartbeats before it wait no more. */
  lemma AckMeasures(e: Estimate, sent: seq<nat>, floor: nat, nowMs: nat, id: nat, t: nat)
    requires Waits(e, sent, floor, nowMs) && nowMs <= t
    ensures Samples(e, id, t) <==> First(sent, floor) < id <= |sent|
    ensures Samples(e, id, t) ==>
              && OnAck(e, id, t).rawMs == t - sent[id - 1] && OnAck(e, id, t).sampled
              && (e.sampled ==> Weighs(e.delayMs, t - sent[id - 1], OnAck(e, id, t).delayMs))
              && (!e.sampled ==> OnAck(e, id, t).delayMs == t - sent[id - 1])
              && Waits(OnAck(e, id, t), sent, id, t)
    ensures !Samples(e, id, t) ==> OnAck(e, id, t) == e && Waits(e, sent, floor, t)
  {
    var from := First(sent, floor);
    WindowFinds(sent, from, id);
    if from < id <= |sent| {
      assert e.pending[id - from - 1] == Waiting(id, sent[id - 1]);
      assert Window(sent, from)[id - from..] == Window(sent, id);
    }
  }

  /** Four parts of the old value and one of the sample, to the nearest millisecond. */
  predicate Weighs(delayed: nat, sample: nat, delayMs: nat) {
    -5 <= 5 * (2 * delayMs) - 2 * (4 * delayed + sample) <= 5
  }

  lemma TimeGoesOn(inputs: seq<Input>, nowMs: nat)
    requires inputs != [] && OnTime(inputs, nowMs)
    ensures nowMs <= inputs[0].nowMs && OnTime(inputs[1..], inputs[0].nowMs)
  {
    var rest := inputs[1..];
    assert forall i :: 0 <= i < |rest| ==> rest[i] == inputs[i + 1];
  }

  /** The heartbeats sent, and the newest one sampled, after one input. */
  function SentBy(input: Input): seq<nat> { if input.Send? then [input.nowMs] else [] }

  function FloorAfter(e: Estimate, input: Input, floor: nat): nat {
    if input.Ack? && Samples(e, input.id, input.nowMs) then input.id else floor
  }

  lemma StepWaits(e: Estimate, input: Input, sent: seq<nat>, floor: nat, nowMs: nat)
    requires Waits(e, sent, floor, nowMs) && nowMs <= input.nowMs
    ensures Waits(Handle(e, input), sent + SentBy(input), FloorAfter(e, input, floor), input.nowMs)
  {
    hide Waits, SendHeartbeat, OnAck, Samples;
    assert sent + [] == sent;
    match input
    case Send(t) => SendingWaits(e, sent, floor, nowMs, t);
    case Ack(id, t) => AckMeasures(e, sent, floor, nowMs, id, t);
  }

  function LastMs(inputs: seq<Input>, nowMs: nat): nat { if inputs == [] then nowMs else inputs[|inputs| - 1].nowMs }

  lemma {:induction false} RunWaits(e: Estimate, inputs: seq<Input>, sent: seq<nat>, floor: nat, nowMs: nat)
    requires Waits(e, sent, floor, nowMs) && OnTime(inputs, nowMs)
    ensures Waits(Run(e, inputs), sent + SentIn(inputs), Sampled(e, inputs, floor), LastMs(inputs, nowMs))
    decreases |inputs|
  {
    hide Waits, Handle, SentBy, FloorAfter, OnTime;
    if inputs == [] {
      assert sent + [] == sent;
    } else {
      var input, rest := inputs[0], inputs[1..];
      TimeGoesOn(inputs, nowMs);
      StepWaits(e, input, sent, floor, nowMs);
      assert (sent + SentBy(input)) + SentIn(rest) == sent + SentIn(inputs);
      RunWaits(Handle(e, input), rest, sent + SentBy(input), FloorAfter(e, input, floor), input.nowMs);
    }
  }

  /** While the clock does not go back, over every run: an acknowledgement is sampled exactly if its
      heartbeat was sent, is newer than every one sampled before and among the last 32; the sample is the time
      since that heartbeat was sent, and weighs one fifth. */
  lemma RoundTripIsMeasured(inputs: seq<Input>, id: nat, nowMs: nat)
    requires OnTime(inputs + [Ack(id, nowMs)], 0)
    ensures var e, sent, newest := Run(NO_ESTIMATE, inputs), SentIn(inputs), Sampled(NO_ESTIMATE, inputs, 0);
            var t := OnAck(e, id, nowMs);
            if newest < id <= |sent| < id + MAX_PENDING then
              && t.sampled && sent[id - 1] <= nowMs && t.rawMs == nowMs - sent[id - 1]
              && (if e.sampled then Weighs(e.delayMs, t.rawMs, t.delayMs) else t.delayMs == t.rawMs)
            else t == e
  {
    hide OnAck, Samples, Weighs;
    var all := inputs + [Ack(id, nowMs)];
    assert forall i :: 0 <= i < |inputs| ==> inputs[i] == all[i];
    assert all[|inputs|].nowMs == nowMs;
    var last := LastMs(inputs, 0);
    assert Window([], 0) == [];
    RunWaits(NO_ESTIMATE, inputs, [], 0, 0);
    assert [] + SentIn(inputs) == SentIn(inputs);
    AckMeasures(Run(NO_ESTIMATE, inputs), SentIn(inputs), Sampled(NO_ESTIMATE, inputs, 0), last, id, nowMs);
  }

  // ---------------------------------------------------------------------------
  // The smoothed value

  /** The new value lies between the old one and the sample, ends included. */
  lemma SmoothedIsBetween(delayMs: nat, rawMs: nat)
    ensures delayMs <= rawMs ==> delayMs <= Smoothed(delayMs, rawMs) <= rawMs
    ensures rawMs <= delayMs ==> rawMs <= Smoothed(delayMs, rawMs) <= delayMs
  {
  }

  ghost predicate AllWithin(samples: seq<Sample>, low: nat, high: nat) {
    forall i :: 0 <= i < |samples| ==> low <= samples[i].rawMs <= high
  }

  /** Over any run the value stays within the bounds of the samples taken. */
  lemma {:induction false} ValueStaysWithinSamples(e: Estimate, inputs: seq<Input>, low: nat, high: nat)
    requires e.sampled ==> low <= e.delayMs <= high
    requires AllWithin(SamplesOf(e, inputs), low, high)
    ensures var t := Run(e, inputs); t.sampled ==> low <= t.delayMs <= high
    decreases |inputs|
  {
    hide Smoothed;
    if inputs != [] {
      var input, t, rest := inputs[0], Handle(e, inputs[0]), inputs[1..];
      if input.Ack? && Samples(e, input.id, input.nowMs) {
        var raw := RawOf(e, input.id, input.nowMs);
        var all := [Sample(input.id, raw)] + SamplesOf(t, rest);
        assert SamplesOf(e, inputs) == all;
        assert all[0].rawMs == raw && forall i :: 0 <= i < |SamplesOf(t, rest)| ==> SamplesOf(t, rest)[i] == all[i + 1];
        SmoothedIsBetween(e.delayMs, raw);
        ValueStaysWithinSamples(t, rest, low, high);
      } else {
        ValueStaysWithinSamples(t, rest, low, high);
      }
    }
  }

  function Distance(a: nat, b: nat): nat { if a < b then b - a else a - b }

  /** `n` equal samples. */
  function Settled(delayMs: nat, rawMs: nat, n: nat): nat
    decreases n
  {
    if n == 0 then delayMs else Settled(Smoothed(delayMs, rawMs), rawMs, n - 1)
  }

  /** One sample strictly reduces the error until it is at most two milliseconds; there it stays. */
  lemma ErrorShrinks(delayMs: nat, rawMs: nat)
    ensures var before, after := Distance(delayMs, rawMs), Distance(Smoothed(delayMs, rawMs), rawMs);
            && (before > 2 ==> after < before)
            && (before <= 2 ==> Smoothed(delayMs, rawMs) == delayMs)
  {
  }

  /** Under a constant sample the error is gone down to two milliseconds after at most as many
      samples as it was milliseconds above them, and the value does not move any more. */
  lemma {:induction false} ConstantSampleSettles(delayMs: nat, rawMs: nat, n: nat)
    ensures Distance(Settled(delayMs, rawMs, n), rawMs) <= Distance(delayMs, rawMs)
    ensures n + 2 >= Distance(delayMs, rawMs) ==> Distance(Settled(delayMs, rawMs, n), rawMs) <= 2
    ensures Distance(delayMs, rawMs) <= 2 ==> Settled(delayMs, rawMs, n) == delayMs
    decreases n
  {
    hide Smoothed;
    if n > 0 {
      ErrorShrinks(delayMs, rawMs);
      ConstantSampleSettles(Smoothed(delayMs, rawMs), rawMs, n - 1);
    }
  }

  ghost predicate AllAt(samples: seq<Sample>, rawMs: nat) { forall i :: 0 <= i < |samples| ==> samples[i].rawMs == rawMs }

  /** A run whose samples are all the same is as many steps of the smoothing; the very first sample is
      taken as it is. */
  lemma {:induction false} ConstantRunIsSettling(e: Estimate, inputs: seq<Input>, rawMs: nat)
    requires AllAt(SamplesOf(e, inputs), rawMs)
    ensures var t, n := Run(e, inputs), |SamplesOf(e, inputs)|;
            && t.sampled == (e.sampled || n > 0)
            && t.delayMs == if e.sampled then Settled(e.delayMs, rawMs, n) else if n == 0 then e.delayMs else rawMs
    decreases |inputs|
  {
    hide Smoothed, AllAt, Position;
    if inputs != [] {
      var input, t, rest := inputs[0], Handle(e, inputs[0]), inputs[1..];
      if input.Ack? && Samples(e, input.id, input.nowMs) {
        FirstSample(Sample(input.id, RawOf(e, input.id, input.nowMs)), SamplesOf(t, rest), rawMs);
        SettledStays(rawMs, |SamplesOf(t, rest)|);
      }
      ConstantRunIsSettling(t, rest, rawMs);
    }
  }

  lemma FirstSample(s: Sample, later: seq<Sample>, rawMs: nat)
    requires AllAt([s] + later, rawMs)
    ensures s.rawMs == rawMs && AllAt(later, rawMs)
  {
    var all := [s] + later;
    assert all[0] == s && forall i :: 0 <= i < |later| ==> later[i] == all[i + 1];
  }

  lemma SettledStays(rawMs: nat, n: nat)
    ensures Settled(rawMs, rawMs, n) == rawMs
  {
    ConstantSampleSettles(rawMs, rawMs, n);
  }

  /** A run of the estimator under constant delay: the error never grows, is at most two
      milliseconds once there were as many samples as it was milliseconds above them, and from then
      on the shown value does not move. */
  lemma ConstantDelaySettles(e: Estimate, before: seq<Input>, after: seq<Input>, rawMs: nat)
    requires AllAt(SamplesOf(e, before), rawMs) && AllAt(SamplesOf(Run(e, before), after), rawMs) && e.sampled
    ensures var t, n := Run(e, before), |SamplesOf(e, before)|;
            && Distance(t.delayMs, rawMs) <= Distance(e.delayMs, rawMs)
            && (n + 2 >= Distance(e.delayMs, rawMs) ==>
                  Distance(t.delayMs, rawMs) <= 2 && Run(t, after).delayMs == t.delayMs)
  {
    hide Smoothed, Settled;
    var t, n := Run(e, before), |SamplesOf(e, before)|;
    ConstantRunIsSettling(e, before, rawMs);
    ConstantSampleSettles(e.delayMs, rawMs, n);
    ConstantRunIsSettling(t, after, rawMs);
    ConstantSampleSettles(t.delayMs, rawMs, |SamplesOf(t, after)|);
  }

  // ---------------------------------------------------------------------------
  // The object

  class DelayEstimator {
    var heartbeatId: nat
    var pending: seq<Waiting>
    var rawMs: nat
    var delayMs: nat
    var sampled: bool

    ghost function Value(): Estimate
      reads this
    {
      Estimate(heartbeatId, pending, rawMs, delayMs, sampled)
    }

    constructor ()
      ensures Value() == NO_ESTIMATE
    {
      heartbeatId, pending, rawMs, delayMs, sampled := 0, [], 0, 0, false;
    }

    method SendDisplayHeartbeat(nowMs: nat) returns (id: nat)
      modifies this`heartbeatId, this`pending
      ensures Value() == SendHeartbeat(old(Value()), nowMs) && id == heartbeatId
    {
      heartbeatId := heartbeatId + 1;
      id := heartbeatId;
      pending := pending + [Waiting(id, nowMs)];
      PrunePendingHeartbeats();
    }

    method PrunePendingHeartbeats()
      modifies this`pending
      ensures pending == Pruned(old(pending))
    {
      ghost var all := pending;
      while |pending| > MAX_PENDING
        invariant |pending| <= |all| && pending == all[|all| - |pending|..]
        invariant |pending| >= MAX_PENDING || pending == all
      {
        pending := pending[1..];
      }
    }

    method FindPending(id: nat) returns (at: Option<nat>)
      ensures at == Position(pending, id)
    {
      for i := 0 to |pending|
        invariant forall j :: 0 <= j < i ==> pending[j].id != id
      {
        if pending[i].id == id {
          return Some(i);
        }
      }
      at := None;
    }

    method UpdateLinkDelay(id: nat, nowMs: nat)
      modifies this`pending, this`rawMs, this`delayMs, this`sampled
      ensures Value() == OnAck(old(Value()), id, nowMs)
    {
      var found := FindPending(id);
      if found.None? {
        return;
      }
      var at := found.value;
      if nowMs < pending[at].sentMs {
        pending := pending[..at] + pending[at + 1..];
        return;
      }
      rawMs := nowMs - pending[at].sentMs;
      if !sampled {
        delayMs := rawMs;
        sampled := true;
      } else {
        delayMs := (8 * delayMs + 2 * rawMs + 5) / 10;
      }
      pending := pending[at + 1..];
    }
  }
}
