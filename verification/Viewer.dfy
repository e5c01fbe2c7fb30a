/** The display's state, as functions on values: what a snapshot and a telemetry datagram change.
    `ViewerState` is the class whose methods are proved to compute exactly these. */
module Viewer {
  import opened Numerics
  import opened Text
  import opened SessionTypes
  import opened Names
  import opened Broadcast

  datatype Panel = Panel(
    available: bool, loaded: bool, visible: bool, cursorIndex: nat, totalEvents: nat,
    code: string, resilience: string, eventType: string, eventSummary: string)

  /** The answer to the last command, as the control panel shows it. */
  datatype Control = Control(lastOk: bool, lastLabel: string, lastMessage: string)

  datatype View = View(
    snapshot: Snapshot, receivedSnapshot: bool, receivedTelemetry: bool, snapshotCount: nat, telemetryCount: nat,
    trackShown: bool, targetHistory: seq<Vec>, interceptorHistory: seq<Vec>,
    eventTick: nat, eventType: string, eventSummary: string, timeline: seq<string>, scrollLines: nat, panel: Panel,
    control: Control)

  const MAX_HISTORY := 72
  const MAX_TIMELINE := 64
  const NO_TELEMETRY := Telemetry(0, 0, 0.0, 0)
  function NoPanel(): Panel { Panel(false, false, false, 0, 0, "pending", "none", "none", "aar not requested") }

  function NoControl(): Control { Control(false, "idle", "control panel idle") }

  /** The default snapshot of the display before anything is received. */
  const NO_SNAPSHOT := Snapshot(
    Envelope(0, 0, 0), Header(0, 0, 0), Standby, 2304, 1536, Entity("", Grid(0, 0), false), Entity("", Grid(0, 0), false),
    ORIGIN, ORIGIN, Grid(0, 0), ORIGIN, ORIGIN, 0.0, 0.0, 0, 0.0, 0, 0, 0.0, false, 0.0, false, ORIGIN, 0.0,
    NO_TRACK, Idle, NoOrder, NO_ASSESSMENT, Disconnected, NO_TELEMETRY, 45.0)

  function NoView(): View {
    View(NO_SNAPSHOT, false, false, 0, 0, false, [], [], 0, "none", "no server event", [], 0, NoPanel(), NoControl())
  }

  function NonNegative(n: int): nat { if n < 0 then 0 else n }

  /** The picture after a snapshot datagram; connection, telemetry and summary are not part of it. */
  function PictureOf(shown: Snapshot, p: SnapshotPayload): Snapshot {
    var t := p.track;
    Snapshot(
      p.envelope, p.header, PhaseOf(p.phase), p.worldWidth, p.worldHeight, p.target, p.interceptor,
      p.targetWorld, p.interceptorWorld, p.targetVelocityGrid, p.targetVelocity, p.interceptorVelocity,
      p.targetHeadingDeg, p.interceptorHeadingDeg, p.interceptorSpeed, p.interceptorAcceleration, p.interceptRadius,
      p.engagementTimeoutTicks, p.seekerFovDeg, p.seekerLock, p.offBoresightDeg, p.predictedInterceptValid,
      p.predictedIntercept, p.timeToIntercept,
      Track(t.active, t.estimatedPosition, t.estimatedVelocity, t.measurementPosition, t.measurementValid,
            t.residualDistance, t.covarianceTrace, NonNegative(t.ageTicks), NonNegative(t.missedUpdates)),
      InterceptorOf(p.interceptorStatus), OrderOf(p.engageStatus),
      Assessment(p.assessmentReady, CodeOf(p.assessmentCode), shown.assessment.summary),
      shown.displayConnection, shown.telemetry, p.launchAngleDeg)
  }

  predicate BeforeOrder(phase: Phase) { phase in {Standby, Detecting, Tracking, InterceptorReady} }

  predicate ReviewAvailable(x: Snapshot) { x.phase in {Assessed, Archived} || x.assessment.ready }

  predicate Moved(a: Vec, b: Vec) { Abs(a.x - b.x) > 0.01 || Abs(a.y - b.y) > 0.01 }

  /** The newest points of a path, one more if it has moved. */
  function Extended(path: seq<Vec>, at: Vec): seq<Vec> {
    if path != [] && !Moved(path[|path| - 1], at) then path
    else
      var longer := path + [at];
      if |longer| > MAX_HISTORY then longer[|longer| - MAX_HISTORY..] else longer
  }

  function ShowPicture(v: View, x: Snapshot): View {
    v.(snapshot := x, receivedSnapshot := true, snapshotCount := v.snapshotCount + 1,
       trackShown := if BeforeOrder(x.phase) then x.track.active else v.trackShown)
  }

  function RefreshPanel(v: View): View {
    if ReviewAvailable(v.snapshot) then v.(panel := v.panel.(available := true)) else v.(panel := NoPanel(), scrollLines := 0)
  }

  function ExtendPaths(v: View): View {
    v.(targetHistory := Extended(v.targetHistory, v.snapshot.targetWorld),
       interceptorHistory := Extended(v.interceptorHistory, v.snapshot.interceptorWorld))
  }

  /** In standby no track and no path is shown. */
  function ClearInStandby(v: View): View {
    if v.snapshot.phase == Standby then v.(trackShown := false, targetHistory := [], interceptorHistory := []) else v
  }

  function Adopt(v: View, x: Snapshot): View { ClearInStandby(ExtendPaths(RefreshPanel(ShowPicture(v, x)))) }

  /** A snapshot no newer than the one shown is dropped. */
  function ApplySnapshot(v: View, p: SnapshotPayload): View {
    if v.receivedSnapshot && p.header.sequence <= v.snapshot.header.sequence then v
    else Adopt(v, PictureOf(v.snapshot, p))
  }

  /** A message at the front of the timeline, unless it is there already. */
  function PushTimeline(v: View, message: string): View {
    if v.timeline != [] && v.timeline[0] == message then v
    else
      var longer := [message] + v.timeline;
      v.(timeline := if |longer| > MAX_TIMELINE then longer[..MAX_TIMELINE] else longer,
         scrollLines := if v.scrollLines > 0 then v.scrollLines + 1 else 0)
  }

  predicate StaleTelemetry(v: View, q: TelemetryPayload) {
    && v.receivedTelemetry
    && (|| q.sample.lastSnapshotTimestampMs < v.snapshot.telemetry.lastSnapshotTimestampMs
        || (q.sample.lastSnapshotTimestampMs == v.snapshot.telemetry.lastSnapshotTimestampMs && q.eventTick < v.eventTick))
  }

  predicate TellsNews(v: View, q: TelemetryPayload) {
    && q.eventType != "none"
    && (q.eventTick != v.eventTick || q.eventType != v.eventType || q.eventSummary != v.eventSummary)
  }

  function EventLine(q: TelemetryPayload): string {
    "[tick " + NatText(q.eventTick) + "] " + q.eventSummary + " (" + q.eventType + ")"
  }

  /** The event that came with telemetry, if it is a new one. */
  function TellEvent(v: View, q: TelemetryPayload): View {
    if !TellsNews(v, q) then v
    else PushTimeline(v.(eventTick := q.eventTick, eventType := q.eventType, eventSummary := q.eventSummary), EventLine(q))
  }

  function ApplyTelemetry(v: View, q: TelemetryPayload): View {
    if StaleTelemetry(v, q) then v
    else
      TellEvent(v.(snapshot := v.snapshot.(telemetry := q.sample, displayConnection := ConnectionOf(q.connection)),
                   receivedTelemetry := true, telemetryCount := v.telemetryCount + 1), q)
  }

  /** The paths and the timeline stay within their limits. */
  predicate Limited(v: View) {
    |v.targetHistory| <= MAX_HISTORY && |v.interceptorHistory| <= MAX_HISTORY && |v.timeline| <= MAX_TIMELINE
  }

  lemma SnapshotStaysLimited(v: View, p: SnapshotPayload)
    requires Limited(v)
    ensures Limited(ApplySnapshot(v, p))
  {
    hide PictureOf, Moved, ReviewAvailable, BeforeOrder, NoPanel;
  }

  /** The oldest entries are dropped, and no message is repeated in a row. What changes the timeline is an
      event, told in front of the rest. */
  lemma TelemetryStaysLimited(v: View, q: TelemetryPayload)
    requires Limited(v) && forall i :: 0 < i < |v.timeline| ==> v.timeline[i] != v.timeline[i - 1]
    ensures Limited(ApplyTelemetry(v, q))
    ensures var t := ApplyTelemetry(v, q).timeline;
            && (forall i :: 0 < i < |t| ==> t[i] != t[i - 1])
            && (t != v.timeline ==> q.eventType != "none" && t != [] && t[0] == EventLine(q) && t[1..] <= v.timeline)
  {
    hide EventLine, StaleTelemetry, ConnectionOf, NoPanel;
    var t := ApplyTelemetry(v, q).timeline;
    if t != v.timeline {
      var longer := [EventLine(q)] + v.timeline;
      assert forall i :: 0 < i < |longer| ==> longer[i] == v.timeline[i - 1];
      assert t <= longer;
    }
  }

  // ---------------------------------------------------------------------------
  // What is drawn agrees with the picture

  /** A path that ends where the picture is, and has moved from point to point. */
  predicate LeadsTo(path: seq<Vec>, at: Vec) {
    && path != [] && |path| <= MAX_HISTORY && !Moved(path[|path| - 1], at)
    && forall i :: 0 < i < |path| ==> Moved(path[i - 1], path[i])
  }

  /** In standby nothing is drawn. Otherwise both paths lead to the bodies, before an order the track is drawn
      exactly if there is one, and the review is offered exactly if there is one to be had. */
  predicate Drawn(v: View) {
    var x := v.snapshot;
    v.receivedSnapshot ==>
      && (if x.phase == Standby then !v.trackShown && v.targetHistory == [] && v.interceptorHistory == []
          else LeadsTo(v.targetHistory, x.targetWorld) && LeadsTo(v.interceptorHistory, x.interceptorWorld))
      && (BeforeOrder(x.phase) && x.phase != Standby ==> v.trackShown == x.track.active)
      && (v.panel.available <==> ReviewAvailable(x))
  }

  /** Paths from standby on: empty, or leading to where they have come. */
  predicate Grown(path: seq<Vec>) {
    |path| <= MAX_HISTORY && forall i :: 0 < i < |path| ==> Moved(path[i - 1], path[i])
  }

  lemma ExtendedLeads(path: seq<Vec>, at: Vec)
    requires Grown(path)
    ensures LeadsTo(Extended(path, at), at)
    ensures Extended(path, at) == path
         || (Extended(path, at)[..|Extended(path, at)| - 1] + [at] == Extended(path, at) && |Extended(path, at)| >= |path|)
  {
    var longer := path + [at];
    assert !Moved(at, at);
    assert forall i :: 0 <= i < |path| ==> longer[i] == path[i];
    hide Moved;
  }

  lemma SnapshotIsDrawn(v: View, p: SnapshotPayload)
    requires Grown(v.targetHistory) && Grown(v.interceptorHistory) && Drawn(v)
    ensures var t := ApplySnapshot(v, p); Drawn(t) && Grown(t.targetHistory) && Grown(t.interceptorHistory)
  {
    hide PictureOf, Adopt;
    if !v.receivedSnapshot || p.header.sequence > v.snapshot.header.sequence { AdoptionIsDrawn(v, PictureOf(v.snapshot, p)); }
  }

  lemma AdoptionIsDrawn(v: View, x: Snapshot)
    requires Grown(v.targetHistory) && Grown(v.interceptorHistory)
    ensures var t := Adopt(v, x); Drawn(t) && Grown(t.targetHistory) && Grown(t.interceptorHistory)
  {
    ExtendedLeads(v.targetHistory, x.targetWorld);
    ExtendedLeads(v.interceptorHistory, x.interceptorWorld);
    LeadingIsGrown(Extended(v.targetHistory, x.targetWorld), x.targetWorld);
    LeadingIsGrown(Extended(v.interceptorHistory, x.interceptorWorld), x.interceptorWorld);
    NothingIsGrown();
    hide Extended, LeadsTo, Grown, Moved;
  }

  lemma LeadingIsGrown(path: seq<Vec>, at: Vec)
    requires LeadsTo(path, at)
    ensures Grown(path)
  {
    hide Moved;
  }

  lemma NothingIsGrown()
    ensures Grown([])
  {
  }

  lemma TelemetryKeepsDrawing(v: View, q: TelemetryPayload)
    requires Grown(v.targetHistory) && Grown(v.interceptorHistory) && Drawn(v)
    ensures var t := ApplyTelemetry(v, q); Drawn(t) && Grown(t.targetHistory) && Grown(t.interceptorHistory)
  {
    hide EventLine, StaleTelemetry, ConnectionOf, TellsNews, LeadsTo, Grown, BeforeOrder;
  }
}
