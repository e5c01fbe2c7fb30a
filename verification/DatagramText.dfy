/** Snapshots and telemetry as the texts of their datagrams. Printing and reading a float is a foreign
    pair of functions; what is read is the snapshot with its floats passed through both. */
module DatagramText {
  import opened Text
  import opened Numerics
  import opened SessionTypes
  import opened Names
  import opened Broadcast
  import opened PayloadLaws
  import opened ConsoleMessages
  import opened LiveServer
  import P = Payloads

  datatype Floats = Floats(write: real -> string, read: string -> real) {
    function Round(r: real): real { read(write(r)) }
    function RoundVec(v: Vec): Vec { Vec(Round(v.x), Round(v.y)) }
    function Value(r: real): P.Value { P.Str(write(r)) }
    function RealAt(values: seq<P.Value>, i: nat): real { read(TextAt(values, i)) }
    function VecAt(values: seq<P.Value>, i: nat): Vec { Vec(RealAt(values, i), RealAt(values, i + 1)) }
  }

  // ---------------------------------------------------------------------------
  // Snapshots, group by group

  function HeaderValues(p: SnapshotPayload, wallMs: nat): seq<P.Value> {
    [P.Num(p.header.tick), P.Num(p.header.timestampMs), P.Num(p.header.sequence), P.Num(wallMs), P.Str(p.phase),
     P.Num(p.worldWidth), P.Num(p.worldHeight)]
  }

  function TargetValues(p: SnapshotPayload, f: Floats): seq<P.Value> {
    [P.Str(p.target.id), P.Bool(p.target.active), P.Num(p.target.position.x), P.Num(p.target.position.y),
     f.Value(p.targetWorld.x), f.Value(p.targetWorld.y), P.Num(p.targetVelocityGrid.x), P.Num(p.targetVelocityGrid.y),
     f.Value(p.targetVelocity.x), f.Value(p.targetVelocity.y), f.Value(p.targetHeadingDeg)]
  }

  function InterceptorValues(p: SnapshotPayload, f: Floats): seq<P.Value> {
    [P.Str(p.interceptor.id), P.Bool(p.interceptor.active), P.Num(p.interceptor.position.x), P.Num(p.interceptor.position.y),
     f.Value(p.interceptorWorld.x), f.Value(p.interceptorWorld.y), f.Value(p.interceptorVelocity.x),
     f.Value(p.interceptorVelocity.y), f.Value(p.interceptorHeadingDeg), P.Num(p.interceptorSpeed),
     f.Value(p.interceptorAcceleration)]
  }

  function GuidanceValues(p: SnapshotPayload, f: Floats): seq<P.Value> {
    [P.Num(p.interceptRadius), P.Num(p.engagementTimeoutTicks), f.Value(p.seekerFovDeg), P.Bool(p.seekerLock),
     f.Value(p.offBoresightDeg), P.Bool(p.predictedInterceptValid), f.Value(p.predictedIntercept.x),
     f.Value(p.predictedIntercept.y), f.Value(p.timeToIntercept)]
  }

  function TrackValues(t: TrackPayload, f: Floats): seq<P.Value> {
    [P.Bool(t.active), f.Value(t.estimatedPosition.x), f.Value(t.estimatedPosition.y), f.Value(t.estimatedVelocity.x),
     f.Value(t.estimatedVelocity.y), P.Bool(t.measurementValid), f.Value(t.measurementPosition.x),
     f.Value(t.measurementPosition.y), f.Value(t.residualDistance), f.Value(t.covarianceTrace), P.Num(t.ageTicks),
     P.Num(t.missedUpdates)]
  }

  function StatusValues(p: SnapshotPayload, f: Floats): seq<P.Value> {
    [P.Str(p.interceptorStatus), P.Str(p.engageStatus), P.Bool(p.assessmentReady), P.Str(p.assessmentCode),
     f.Value(p.launchAngleDeg)]
  }

  function SnapshotValues(p: SnapshotPayload, wallMs: nat, f: Floats): seq<P.Value> {
    SenderValues(p.envelope)
    + (HeaderValues(p, wallMs) + TargetValues(p, f) + InterceptorValues(p, f) + GuidanceValues(p, f) + TrackValues(p.track, f)
       + StatusValues(p, f))
  }

  /** What the reader makes of the values, in their order. */
  function SnapshotIn(v: seq<P.Value>, f: Floats): SnapshotPayload {
    SnapshotPayload(
      SenderOf(v), Header(NatAt(v, 3), IntAt(v, 4), NatAt(v, 5)), TextAt(v, 7), IntAt(v, 8), IntAt(v, 9),
      Entity(TextAt(v, 10), GridAt(v, 12), FlagAt(v, 11)), f.VecAt(v, 14), GridAt(v, 16), f.VecAt(v, 18), f.RealAt(v, 20),
      Entity(TextAt(v, 21), GridAt(v, 23), FlagAt(v, 22)), f.VecAt(v, 25), f.VecAt(v, 27), f.RealAt(v, 29),
      IntAt(v, 30), f.RealAt(v, 31), IntAt(v, 32), IntAt(v, 33), f.RealAt(v, 34), FlagAt(v, 35), f.RealAt(v, 36), FlagAt(v, 37),
      f.VecAt(v, 38), f.RealAt(v, 40),
      TrackPayload(FlagAt(v, 41), f.VecAt(v, 42), f.VecAt(v, 44), FlagAt(v, 46), f.VecAt(v, 47), f.RealAt(v, 49),
                   f.RealAt(v, 50), IntAt(v, 51), IntAt(v, 52)),
      TextAt(v, 53), TextAt(v, 54), FlagAt(v, 55), TextAt(v, 56), f.RealAt(v, 57))
  }

  /** The snapshot with its floats printed and read. */
  function Rounded(p: SnapshotPayload, f: Floats): SnapshotPayload {
    var t := p.track;
    p.(targetWorld := f.RoundVec(p.targetWorld), targetVelocity := f.RoundVec(p.targetVelocity),
       targetHeadingDeg := f.Round(p.targetHeadingDeg), interceptorWorld := f.RoundVec(p.interceptorWorld),
       interceptorVelocity := f.RoundVec(p.interceptorVelocity), interceptorHeadingDeg := f.Round(p.interceptorHeadingDeg),
       interceptorAcceleration := f.Round(p.interceptorAcceleration), seekerFovDeg := f.Round(p.seekerFovDeg),
       offBoresightDeg := f.Round(p.offBoresightDeg), predictedIntercept := f.RoundVec(p.predictedIntercept),
       timeToIntercept := f.Round(p.timeToIntercept), launchAngleDeg := f.Round(p.launchAngleDeg),
       track := t.(estimatedPosition := f.RoundVec(t.estimatedPosition), estimatedVelocity := f.RoundVec(t.estimatedVelocity),
                   measurementPosition := f.RoundVec(t.measurementPosition), residualDistance := f.Round(t.residualDistance),
                   covarianceTrace := f.Round(t.covarianceTrace)))
  }

  predicate FitsGrid(g: Grid) { Fits32(g.x) && Fits32(g.y) }

  /** What the members of a snapshot payload can hold. */
  predicate Storable(p: SnapshotPayload) {
    && p.envelope.sessionId < TWO_32 && p.envelope.senderId < TWO_32 && p.envelope.sequence < TWO_64
    && p.header.tick < TWO_64 && 0 <= p.header.timestampMs < TWO_64 && p.header.sequence < TWO_64
    && p.phase in PHASES && p.interceptorStatus in INTERCEPTOR_STATUSES && p.engageStatus in ORDER_STATUSES
    && p.assessmentCode in CODES
    && Fits32(p.worldWidth) && Fits32(p.worldHeight) && FitsGrid(p.target.position) && FitsGrid(p.targetVelocityGrid)
    && FitsGrid(p.interceptor.position) && Fits32(p.interceptorSpeed) && Fits32(p.interceptRadius)
    && Fits32(p.engagementTimeoutTicks) && Fits32(p.track.ageTicks) && Fits32(p.track.missedUpdates)
  }

  lemma MoreValuesFit()
    ensures forall n: int :: Fits32(n) ==> P.Holds(P.I32, P.Num(n))
    ensures forall s: string :: P.Holds(P.Real, P.Str(s))
  {
  }

  lemma BodiesFit(p: SnapshotPayload, f: Floats)
    requires Storable(p)
    ensures P.WellFormed(P.TargetFields(), TargetValues(p, f)) && P.WellFormed(P.InterceptorFields(), InterceptorValues(p, f))
  {
    hide P.Holds, Fits32;
    PlainValuesFit();
    MoreValuesFit();
  }

  lemma GuidanceFits(p: SnapshotPayload, f: Floats)
    requires Storable(p)
    ensures P.WellFormed(P.GuidanceFields(), GuidanceValues(p, f)) && P.WellFormed(P.TrackFields(), TrackValues(p.track, f))
  {
    hide P.Holds, Fits32;
    PlainValuesFit();
    MoreValuesFit();
  }

  lemma SnapshotFits(p: SnapshotPayload, wallMs: nat, f: Floats)
    requires Storable(p) && wallMs < TWO_64
    ensures P.WellFormed(P.Schema(P.WorldSnapshot), SnapshotValues(p, wallMs, f))
  {
    BodiesFit(p, f);
    GuidanceFits(p, f);
    EnvelopeFits(p.envelope);
    hide P.WellFormed, P.Holds, Storable, P.EnvelopeFields, P.HeaderFields, P.TargetFields, P.InterceptorFields,
         P.GuidanceFields, P.TrackFields, P.StatusFields, SenderValues, HeaderValues, TargetValues,
         InterceptorValues, GuidanceValues, TrackValues, StatusValues;
    var a, b := P.HeaderFields() + P.TargetFields(), HeaderValues(p, wallMs) + TargetValues(p, f);
    FieldsJoin(P.HeaderFields(), P.TargetFields(), HeaderValues(p, wallMs), TargetValues(p, f));
    FieldsJoin(a, P.InterceptorFields(), b, InterceptorValues(p, f));
    a, b := a + P.InterceptorFields(), b + InterceptorValues(p, f);
    FieldsJoin(a, P.GuidanceFields(), b, GuidanceValues(p, f));
    a, b := a + P.GuidanceFields(), b + GuidanceValues(p, f);
    FieldsJoin(a, P.TrackFields(), b, TrackValues(p.track, f));
    a, b := a + P.TrackFields(), b + TrackValues(p.track, f);
    FieldsJoin(a, P.StatusFields(), b, StatusValues(p, f));
    FieldsJoin(P.EnvelopeFields(), a + P.StatusFields(), SenderValues(p.envelope), b + StatusValues(p, f));
  }

  lemma EnvelopeFits(sender: Envelope)
    requires sender.sessionId < TWO_32 && sender.senderId < TWO_32 && sender.sequence < TWO_64
    ensures P.WellFormed(P.EnvelopeFields(), SenderValues(sender))
  {
    SenderFits(sender, Leave(""));
  }

  /** `part` lies in `v` from position `from` on. */
  ghost predicate Lies(v: seq<P.Value>, from: nat, part: seq<P.Value>) {
    from + |part| <= |v| && forall j {:trigger v[j]} :: from <= j < from + |part| ==> v[j] == part[j - from]
  }

  lemma LiesBehind(a: seq<P.Value>, b: seq<P.Value>)
    ensures Lies(a + b, |a|, b)
    ensures forall from: nat, part {:trigger Lies(a + b, from, part)} :: Lies(a, from, part) ==> Lies(a + b, from, part)
  {
  }

  lemma Sizes(p: SnapshotPayload, wallMs: nat, f: Floats)
    ensures |SenderValues(p.envelope)| == 3 && |HeaderValues(p, wallMs)| == 7 && |TargetValues(p, f)| == 11
    ensures |InterceptorValues(p, f)| == 11 && |GuidanceValues(p, f)| == 9 && |TrackValues(p.track, f)| == 12
  {
  }

  lemma GroupsLie(p: SnapshotPayload, wallMs: nat, f: Floats)
    ensures var v := SnapshotValues(p, wallMs, f);
            && Lies(v, 0, SenderValues(p.envelope)) && Lies(v, 3, HeaderValues(p, wallMs)) && Lies(v, 10, TargetValues(p, f))
            && Lies(v, 21, InterceptorValues(p, f)) && Lies(v, 32, GuidanceValues(p, f)) && Lies(v, 41, TrackValues(p.track, f))
            && Lies(v, 53, StatusValues(p, f))
  {
    Sizes(p, wallMs, f);
    LiesFirst(SenderValues(p.envelope));
    hide Lies, SenderValues, HeaderValues, TargetValues, InterceptorValues, GuidanceValues, TrackValues, StatusValues;
    var v := SenderValues(p.envelope);
    LiesBehind(v, HeaderValues(p, wallMs));
    v := v + HeaderValues(p, wallMs);
    LiesBehind(v, TargetValues(p, f));
    v := v + TargetValues(p, f);
    LiesBehind(v, InterceptorValues(p, f));
    v := v + InterceptorValues(p, f);
    LiesBehind(v, GuidanceValues(p, f));
    v := v + GuidanceValues(p, f);
    LiesBehind(v, TrackValues(p.track, f));
    v := v + TrackValues(p.track, f);
    LiesBehind(v, StatusValues(p, f));
    v := v + StatusValues(p, f);
    assert v == SnapshotValues(p, wallMs, f);
  }

  lemma LiesFirst(part: seq<P.Value>)
    ensures Lies(part, 0, part)
  {
  }

  lemma HeadIsRead(v: seq<P.Value>, p: SnapshotPayload, wallMs: nat, f: Floats)
    requires Lies(v, 0, SenderValues(p.envelope)) && Lies(v, 3, HeaderValues(p, wallMs)) && Lies(v, 10, TargetValues(p, f))
    ensures SenderOf(v) == p.envelope && Header(NatAt(v, 3), IntAt(v, 4), NatAt(v, 5)) == p.header && TextAt(v, 7) == p.phase
    ensures IntAt(v, 8) == p.worldWidth && IntAt(v, 9) == p.worldHeight
    ensures Entity(TextAt(v, 10), GridAt(v, 12), FlagAt(v, 11)) == p.target && GridAt(v, 16) == p.targetVelocityGrid
    ensures f.VecAt(v, 14) == f.RoundVec(p.targetWorld) && f.VecAt(v, 18) == f.RoundVec(p.targetVelocity)
    ensures f.RealAt(v, 20) == f.Round(p.targetHeadingDeg)
  {
  }

  lemma MiddleIsRead(v: seq<P.Value>, p: SnapshotPayload, f: Floats)
    requires Lies(v, 21, InterceptorValues(p, f)) && Lies(v, 32, GuidanceValues(p, f))
    ensures Entity(TextAt(v, 21), GridAt(v, 23), FlagAt(v, 22)) == p.interceptor && IntAt(v, 30) == p.interceptorSpeed
    ensures f.VecAt(v, 25) == f.RoundVec(p.interceptorWorld) && f.VecAt(v, 27) == f.RoundVec(p.interceptorVelocity)
    ensures f.RealAt(v, 29) == f.Round(p.interceptorHeadingDeg) && f.RealAt(v, 31) == f.Round(p.interceptorAcceleration)
    ensures IntAt(v, 32) == p.interceptRadius && IntAt(v, 33) == p.engagementTimeoutTicks
    ensures f.RealAt(v, 34) == f.Round(p.seekerFovDeg) && FlagAt(v, 35) == p.seekerLock
    ensures f.RealAt(v, 36) == f.Round(p.offBoresightDeg) && FlagAt(v, 37) == p.predictedInterceptValid
    ensures f.VecAt(v, 38) == f.RoundVec(p.predictedIntercept) && f.RealAt(v, 40) == f.Round(p.timeToIntercept)
  {
  }

  lemma TailIsRead(v: seq<P.Value>, p: SnapshotPayload, f: Floats)
    requires Lies(v, 41, TrackValues(p.track, f)) && Lies(v, 53, StatusValues(p, f))
    ensures FlagAt(v, 41) == p.track.active && FlagAt(v, 46) == p.track.measurementValid
    ensures f.VecAt(v, 42) == f.RoundVec(p.track.estimatedPosition) && f.VecAt(v, 44) == f.RoundVec(p.track.estimatedVelocity)
    ensures f.VecAt(v, 47) == f.RoundVec(p.track.measurementPosition) && f.RealAt(v, 49) == f.Round(p.track.residualDistance)
    ensures f.RealAt(v, 50) == f.Round(p.track.covarianceTrace)
    ensures IntAt(v, 51) == p.track.ageTicks && IntAt(v, 52) == p.track.missedUpdates
    ensures TextAt(v, 53) == p.interceptorStatus && TextAt(v, 54) == p.engageStatus && FlagAt(v, 55) == p.assessmentReady
    ensures TextAt(v, 56) == p.assessmentCode && f.RealAt(v, 57) == f.Round(p.launchAngleDeg)
  {
  }

  lemma ValuesAreRead(p: SnapshotPayload, wallMs: nat, f: Floats)
    ensures SnapshotIn(SnapshotValues(p, wallMs, f), f) == Rounded(p, f)
  {
    var v := SnapshotValues(p, wallMs, f);
    GroupsLie(p, wallMs, f);
    HeadIsRead(v, p, wallMs, f);
    MiddleIsRead(v, p, f);
    TailIsRead(v, p, f);
    hide SnapshotValues, Lies, SenderOf, NatAt, IntAt, TextAt, FlagAt, GridAt, Floats.RealAt, Floats.VecAt,
         Floats.Round, Floats.RoundVec;
  }

  function SnapshotText(p: SnapshotPayload, wallMs: nat, f: Floats): string
    requires Storable(p) && wallMs < TWO_64
  {
    SnapshotFits(p, wallMs, f);
    WriterAndReaderAgree(P.WorldSnapshot);
    P.Serialize(P.WorldSnapshot, SnapshotValues(p, wallMs, f))
  }

  /** The text of a snapshot is read as that snapshot, exactly but for its floats. */
  lemma SnapshotRoundTrip(p: SnapshotPayload, wallMs: nat, f: Floats)
    requires Storable(p) && wallMs < TWO_64
    ensures var r := P.Parse(P.WorldSnapshot, SnapshotText(p, wallMs, f)); r.Ok? && SnapshotIn(r.value, f) == Rounded(p, f)
  {
    hide P.Serialize, P.Parse, Storable, SnapshotValues, SnapshotIn, Rounded;
    SnapshotFits(p, wallMs, f);
    PayloadRoundTrip(P.WorldSnapshot, SnapshotValues(p, wallMs, f));
    ValuesAreRead(p, wallMs, f);
  }

  /** The numbers of a recorded snapshot are within the widths of the wire. */
  predicate Countable(x: Snapshot) {
    && x.envelope.sessionId < TWO_32 && x.envelope.senderId < TWO_32 && x.envelope.sequence < TWO_64
    && x.header.tick < TWO_64 && 0 <= x.header.timestampMs < TWO_64 && x.header.sequence < TWO_64
    && Fits32(x.worldWidth) && Fits32(x.worldHeight) && FitsGrid(x.target.position) && FitsGrid(x.targetVelocityGrid)
    && FitsGrid(x.interceptor.position) && Fits32(x.interceptorSpeed) && Fits32(x.interceptRadius)
    && Fits32(x.engagementTimeoutTicks)
  }

  lemma SignedFits(n: nat)
    ensures Fits32(ToSigned(n))
  {
  }

  /** Every state a snapshot can show has a text the reader accepts. */
  lemma RecordedIsStorable(x: Snapshot)
    requires Countable(x)
    ensures Storable(ToSnapshotPayload(x))
  {
    PhaseIsRead(x.phase);
    InterceptorIsRead(x.interceptorStatus);
    OrderIsRead(x.engageStatus);
    CodeIsRead(x.assessment.code);
    SignedFits(x.track.ageTicks);
    SignedFits(x.track.missedUpdates);
    hide PhaseText, PhaseOf, InterceptorText, InterceptorOf, OrderText, OrderOf, CodeText, CodeOf, ToSigned, Fits32;
  }

  // ---------------------------------------------------------------------------
  // Telemetry

  function TelemetryValues(q: TelemetryPayload, wallMs: nat, f: Floats): seq<P.Value> {
    SenderValues(q.envelope)
    + [P.Num(q.sample.tick), P.Num(q.sample.tickIntervalMs), f.Value(q.sample.packetLossPct),
       P.Num(q.sample.lastSnapshotTimestampMs), P.Num(wallMs), P.Str(q.connection), P.Num(q.eventTick), P.Str(q.eventType),
       P.Str(q.eventSummary)]
  }

  function TelemetryIn(v: seq<P.Value>, f: Floats): TelemetryPayload {
    TelemetryPayload(SenderOf(v), Telemetry(NatAt(v, 3), IntAt(v, 4), f.RealAt(v, 5), IntAt(v, 6)), TextAt(v, 8), NatAt(v, 9),
                     TextAt(v, 10), TextAt(v, 11))
  }

  predicate Tellable(q: TelemetryPayload) {
    && q.envelope.sessionId < TWO_32 && q.envelope.senderId < TWO_32 && q.envelope.sequence < TWO_64
    && q.sample.tick < TWO_64 && 0 <= q.sample.tickIntervalMs < TWO_32 && 0 <= q.sample.lastSnapshotTimestampMs < TWO_64
    && q.eventTick < TWO_64
  }

  lemma TelemetryFits(q: TelemetryPayload, wallMs: nat, f: Floats)
    requires Tellable(q) && wallMs < TWO_64
    ensures P.WellFormed(P.Schema(P.TelemetrySample), TelemetryValues(q, wallMs, f))
  {
    EnvelopeFits(q.envelope);
    PlainValuesFit();
    MoreValuesFit();
    hide P.Holds, P.EnvelopeFields, SenderValues;
    FieldsJoin(P.EnvelopeFields(), P.TelemetryFields(), SenderValues(q.envelope),
               TelemetryValues(q, wallMs, f)[|SenderValues(q.envelope)|..]);
  }

  function TelemetryText(q: TelemetryPayload, wallMs: nat, f: Floats): string
    requires Tellable(q) && wallMs < TWO_64
  {
    TelemetryFits(q, wallMs, f);
    WriterAndReaderAgree(P.TelemetrySample);
    P.Serialize(P.TelemetrySample, TelemetryValues(q, wallMs, f))
  }

  /** The text of a telemetry datagram is read as that telemetry, exactly but for the loss rate. */
  lemma TelemetryRoundTrip(q: TelemetryPayload, wallMs: nat, f: Floats)
    requires Tellable(q) && wallMs < TWO_64
    ensures var r := P.Parse(P.TelemetrySample, TelemetryText(q, wallMs, f));
            r.Ok? && TelemetryIn(r.value, f) == q.(sample := q.sample.(packetLossPct := f.Round(q.sample.packetLossPct)))
  {
    hide P.Serialize, P.Parse, Tellable, TelemetryValues, TelemetryIn;
    TelemetryFits(q, wallMs, f);
    PayloadRoundTrip(P.TelemetrySample, TelemetryValues(q, wallMs, f));
    TelemetryIsRead(q, wallMs, f);
  }

  lemma TelemetryIsRead(q: TelemetryPayload, wallMs: nat, f: Floats)
    ensures TelemetryIn(TelemetryValues(q, wallMs, f), f)
         == q.(sample := q.sample.(packetLossPct := f.Round(q.sample.packetLossPct)))
  {
  }
}
