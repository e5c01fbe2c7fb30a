/** What the server broadcasts to the display about a snapshot. */
module Broadcast {
  import opened Numerics
  import opened Text
  import opened SessionTypes
  import opened Names

  datatype TrackPayload = TrackPayload(
    active: bool, estimatedPosition: Vec, estimatedVelocity: Vec, measurementValid: bool, measurementPosition: Vec,
    residualDistance: real, covarianceTrace: real, ageTicks: int, missedUpdates: int)

  /** Enumerations travel as texts, and the tracker's counters as signed integers. */
  datatype SnapshotPayload = SnapshotPayload(
    envelope: Envelope, header: Header, phase: string, worldWidth: int, worldHeight: int,
    target: Entity, targetWorld: Vec, targetVelocityGrid: Grid, targetVelocity: Vec, targetHeadingDeg: real,
    interceptor: Entity, interceptorWorld: Vec, interceptorVelocity: Vec, interceptorHeadingDeg: real,
    interceptorSpeed: int, interceptorAcceleration: real, interceptRadius: int, engagementTimeoutTicks: int,
    seekerFovDeg: real, seekerLock: bool, offBoresightDeg: real, predictedInterceptValid: bool,
    predictedIntercept: Vec, timeToIntercept: real, track: TrackPayload,
    interceptorStatus: string, engageStatus: string, assessmentReady: bool, assessmentCode: string, launchAngleDeg: real)

  datatype TelemetryPayload = TelemetryPayload(
    envelope: Envelope, sample: Telemetry, connection: string, eventTick: nat, eventType: string, eventSummary: string)

  /** The conversion of an unsigned 32-bit counter to `int`. */
  function ToSigned(n: nat): int { (n + 0x8000_0000) % 0x1_0000_0000 - 0x8000_0000 }

  function ToSnapshotPayload(x: Snapshot): SnapshotPayload {
    var t := x.track;
    SnapshotPayload(
      x.envelope, x.header, PhaseText(x.phase), x.worldWidth, x.worldHeight,
      x.target, x.targetWorld, x.targetVelocityGrid, x.targetVelocity, x.targetHeadingDeg,
      x.interceptor, x.interceptorWorld, x.interceptorVelocity, x.interceptorHeadingDeg,
      x.interceptorSpeed, x.interceptorAcceleration, x.interceptRadius, x.engagementTimeoutTicks,
      x.seekerFovDeg, x.seekerLock, x.offBoresightDeg, x.predictedInterceptValid,
      x.predictedIntercept, x.timeToIntercept,
      TrackPayload(t.active, t.estimatedPosition, t.estimatedVelocity, t.measurementValid, t.measurementPosition,
                   t.residualDistance, t.covarianceTrace, ToSigned(t.ageTicks), ToSigned(t.missedUpdates)),
      InterceptorText(x.interceptorStatus), OrderText(x.engageStatus), x.assessment.ready, CodeText(x.assessment.code),
      x.launchAngleDeg)
  }

  /** The event at `i` is no later than the tick, and all after it are. */
  predicate NewestAt(events: seq<Event>, tick: nat, i: nat) {
    i < |events| && events[i].tick <= tick && forall j :: i < j < |events| ==> events[j].tick > tick
  }

  /** The newest event no later than a tick. */
  function LatestAtOrBefore(events: seq<Event>, tick: nat): (r: Option<Event>)
    ensures r.Some? ==> exists i: nat :: NewestAt(events, tick, i) && r.value == events[i]
    ensures r.None? ==> forall e <- events :: e.tick > tick
  {
    if events == [] then None
    else
      var last := events[|events| - 1];
      assert events == events[..|events| - 1] + [last];
      if last.tick <= tick then Some(last) else LatestAtOrBefore(events[..|events| - 1], tick)
  }

  lemma NoneOfNothing(tick: nat)
    ensures LatestAtOrBefore([], tick) == None
  {
  }

  lemma LatestOfPrefix(events: seq<Event>, tick: nat, i: nat)
    requires i < |events|
    ensures LatestAtOrBefore(events[..i + 1], tick)
         == if events[i].tick <= tick then Some(events[i]) else LatestAtOrBefore(events[..i], tick)
  {
    assert events[..i + 1][..i] == events[..i];
  }

  method FindLatest(events: seq<Event>, tick: nat) returns (r: Option<Event>)
    ensures r == LatestAtOrBefore(events, tick)
    ensures match r
            case Some(e) => exists i: nat :: NewestAt(events, tick, i) && e == events[i]
            case None => forall e <- events :: e.tick > tick
  {
    hide LatestAtOrBefore, NewestAt;
    NoneOfNothing(tick);
    var i := |events|;
    assert events[..i] == events;
    while i > 0
      invariant 0 <= i <= |events|
      invariant LatestAtOrBefore(events, tick) == LatestAtOrBefore(events[..i], tick)
    {
      i := i - 1;
      LatestOfPrefix(events, tick, i);
      if events[i].tick <= tick {
        return Some(events[i]);
      }
    }
    assert events[..i] == [];
    r := None;
  }

  function ToTelemetryPayload(x: Snapshot, events: seq<Event>): TelemetryPayload {
    match LatestAtOrBefore(events, x.header.tick)
    case None => TelemetryPayload(x.envelope, x.telemetry, ConnectionText(x.displayConnection), 0, "none", "no server event")
    case Some(e) =>
      TelemetryPayload(x.envelope, x.telemetry, ConnectionText(x.displayConnection), e.tick, EventTypeText(e.eventType),
                       e.summary)
  }

  /** Telemetry tells the newest event no later than its snapshot, and that there is none only if there is none. */
  lemma TelemetryTellsNewestEvent(x: Snapshot, events: seq<Event>)
    ensures var q := ToTelemetryPayload(x, events);
            || (q.eventType == "none" && forall e <- events :: e.tick > x.header.tick)
            || (q.eventType != "none" && exists i: nat :: NewestAt(events, x.header.tick, i) && TellsEvent(q, events[i]))
  {
    match LatestAtOrBefore(events, x.header.tick)
    case None =>
    case Some(e) =>
      var i: nat :| NewestAt(events, x.header.tick, i) && e == events[i];
      assert TellsEvent(ToTelemetryPayload(x, events), events[i]);
  }

  predicate TellsEvent(q: TelemetryPayload, e: Event) {
    q.eventTick == e.tick && q.eventType == EventTypeText(e.eventType) && q.eventSummary == e.summary
  }
}
