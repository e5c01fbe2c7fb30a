/** What the operations record, and the conservation laws of the log over whole runs. */
module Recording {
  import opened SessionTypes
  import opened Messages
  import opened Numerics
  import opened Session
  import L = Lifecycle
  import Tracker

  /** The log an operation starts recording into: a reset empties it first. */
  function Base(s: State, step: Step): Log {
    if step == Reset then s.log.(events := [], snapshots := []) else s.log
  }

  function Last<T>(xs: seq<T>): T
    requires xs != []
  {
    xs[|xs| - 1]
  }

  /** One event per clock interval, all at the same tick. */
  predicate Stamped(news: seq<Event>, tick: nat, clockMs: int, intervalMs: int) {
    forall i :: 0 <= i < |news| ==> news[i].tick == tick && news[i].timestampMs == clockMs + intervalMs * (i + 1)
  }

  /** The whole milliseconds of one tick: at least one, and a second when there is no rate. */
  predicate FitsRate(intervalMs: int, rateHz: int) {
    if rateHz < 1 then intervalMs == 1000
    else if rateHz > 1000 then intervalMs == 1
    else intervalMs * rateHz <= 1000 < (intervalMs + 1) * rateHz
  }

  lemma IntervalFitsRate(rateHz: int)
    ensures FitsRate(TickIntervalMs(rateHz), rateHz)
  {
  }

  /** A snapshot shows the state it is recorded in. */
  predicate Pictures(x: Snapshot, t: State) {
    var w, e := t.world, t.engagement;
    && x.envelope == Envelope(t.cfg.sessionId, SERVER_SENDER_ID, t.log.sequence)
    && x.header == Header(t.tick, t.log.clockMs, t.log.sequence)
    && OnGrid(x.targetVelocityGrid, w.targetVelocity)
    && x.targetHeadingDeg == t.cfg.math.HeadingDeg(w.targetVelocity)
    && x.interceptorHeadingDeg == t.cfg.math.HeadingDeg(w.assetVelocity)
    && FitsRate(x.telemetry.tickIntervalMs, t.cfg.tickRateHz) && x.telemetry.tick == t.tick
    && x.telemetry.lastSnapshotTimestampMs == t.log.clockMs
    && x.phase == t.phase && x.track == t.track
    && x.interceptorStatus == e.interceptor && x.engageStatus == e.order && x.assessment == e.assessment
    && x.target == w.target && x.interceptor == w.asset
    && x.targetWorld == w.targetAt && x.interceptorWorld == w.assetAt
    && x.targetVelocity == w.targetVelocity && x.interceptorVelocity == w.assetVelocity
    && x.worldWidth == t.scenario.worldWidth && x.worldHeight == t.scenario.worldHeight
    && x.interceptorSpeed == t.scenario.interceptorSpeed && x.interceptRadius == t.scenario.interceptRadius
    && x.engagementTimeoutTicks == t.scenario.engagementTimeoutTicks
    && x.interceptorAcceleration == Acceleration(t.scenario) && x.seekerFovDeg == t.scenario.seekerFovDeg as real
    && x.launchAngleDeg == t.scenario.launchAngleDeg as real
    && x.seekerLock == (Aims(t) && w.seekerLock) && x.offBoresightDeg == (if Aims(t) then w.offBoresightDeg else 0.0)
    && (x.predictedInterceptValid <==> Aims(t) && Gap(t) > 0.0) && (x.predictedInterceptValid ==> Predicts(x, t))
    && (!Aims(t) ==> x.predictedIntercept == ORIGIN && x.timeToIntercept == 0.0)
    && t.display.connection == (if x.displayConnection == Reconnected then Connected else x.displayConnection)
  }

  /** A track guides an interceptor that has been ordered and not refused since, or an assessed one. */
  predicate Aims(t: State) {
    && t.track.active && t.world.asset.active
    && (t.engagement.order in {Accepted, Executing, Completed} || t.engagement.assessment.ready)
  }

  function Gap(t: State): real { t.cfg.math.Length(Sub(t.world.targetAt, t.world.assetAt)) }

  /** The target is where it is going to be when the interceptor could have covered the distance. */
  predicate Predicts(x: Snapshot, t: State) {
    && t.track.active && t.world.asset.active
    && x.timeToIntercept * Max(0.1, t.scenario.interceptorSpeed as real) == Gap(t) > 0.0
    && x.predictedIntercept == Add(t.world.targetAt, Scale(t.world.targetVelocity, x.timeToIntercept))
  }

  /** `t` is reached from a state with log `base` by writing at most two events, and after them at
      most one snapshot; every record takes one clock interval, and every snapshot one number. */
  predicate Recorded(base: Log, t: State) {
    var n, k := |t.log.events| - |base.events|, |t.log.snapshots| - |base.snapshots|;
    && 0 <= n <= 2 && 0 <= k <= 1
    && base.events <= t.log.events && base.snapshots <= t.log.snapshots
    && t.log.clockMs == base.clockMs + t.cfg.intervalMs * (n + k)
    && t.log.sequence == base.sequence + k
    && Stamped(t.log.events[|base.events|..], t.tick, base.clockMs, t.cfg.intervalMs)
    && (k == 1 ==> Pictures(Last(t.log.snapshots), t))
  }

  lemma SnapshotsPicture()
    ensures forall u: State, loss: real {:trigger RecordSnapshot(u, loss)} ::
              Pictures(Last(RecordSnapshot(u, loss).log.snapshots), RecordSnapshot(u, loss))
  {
    forall u: State, loss: real ensures Pictures(Last(RecordSnapshot(u, loss).log.snapshots), RecordSnapshot(u, loss)) {
      IntervalFitsRate(u.cfg.tickRateHz);
      RoundedIsOnGrid(u.world.targetVelocity);
      hide FitsRate, TickIntervalMs, Math.HeadingDeg, Math.Length, OnGrid, RoundToGrid;
    }
  }

  lemma StartRecords(s: State)
    ensures Recorded(s.log, StartScenario(s).0)
  {
    SnapshotsPicture();
    hide Say, Capture, Pictures;
  }

  lemma RequestRecords(s: State)
    ensures Recorded(s.log, RequestTrack(s).0)
  {
    SnapshotsPicture();
    hide Say, Capture, Pictures, Tracker.Seed;
  }

  lemma ReleaseRecords(s: State)
    ensures Recorded(s.log, ReleaseTrack(s).0)
  {
    SnapshotsPicture();
    hide Say, Capture, Pictures;
  }

  lemma ActivateRecords(s: State)
    ensures Recorded(s.log, ActivateAsset(s).0)
  {
    SnapshotsPicture();
    hide Say, Capture, Pictures;
  }

  lemma IssueRecords(s: State)
    ensures Recorded(s.log, IssueCommand(s).0)
  {
    SnapshotsPicture();
    hide Say, Capture, Pictures, Math.Launch;
  }

  lemma ConnectRecords(s: State, role: Role, senderId: nat)
    ensures Recorded(s.log, ConnectClient(s, role, senderId))
  {
    SnapshotsPicture();
    hide Say, Capture, Pictures, RoleName;
  }

  lemma ClientRecords(s: State, step: Step)
    requires step.Disconnect? || step.Timeout? || step.TransportRejection?
    ensures Recorded(s.log, Apply(s, step))
  {
    SnapshotsPicture();
    hide Say, Capture, Pictures, RoleName;
  }

  lemma SessionRecords(s: State, step: Step)
    requires step.Configure? || step.Reset? || step.Archive?
    ensures Recorded(Base(s, step), Apply(s, step))
  {
    SnapshotsPicture();
    hide Say, Capture, Pictures, Scenario.Valid, StartingWorld;
  }

  lemma TickRecords(s: State)
    ensures Recorded(s.log, AdvanceTick(s))
  {
    SnapshotsPicture();
    L.MotionKeeps(s);
    AssessRecords(Motion(s));
    hide Say, Capture, Pictures, Motion, Assess;
  }

  lemma AssessRecords(s: State)
    ensures var t := Assess(s);
            && t.cfg == s.cfg && t.tick == s.tick
            && (t.log == s.log
                || (t.log.events != [] && t.log == s.log.(clockMs := s.log.clockMs + s.cfg.intervalMs,
                                                          events := s.log.events + [Last(t.log.events)])
                    && Last(t.log.events).tick == s.tick && Last(t.log.events).timestampMs == t.log.clockMs))
  {
    hide Say, WithinRadius;
  }

  lemma StepRecords(s: State, step: Step)
    ensures Recorded(Base(s, step), Apply(s, step))
  {
    hide Recorded, StartScenario, ActivateAsset, IssueCommand, RequestTrack, ReleaseTrack, AdvanceTick, ConnectClient,
         DisconnectClient, TimeoutClient, RecordTransportRejection, ConfigureScenario, ResetSession, ArchiveSession;
    match step {
      case Tick => TickRecords(s);
      case AcquireTrack => RequestRecords(s);
      case DropTrack => ReleaseRecords(s);
      case Start => StartRecords(s);
      case ReadyInterceptor => ActivateRecords(s);
      case Engage => IssueRecords(s);
      case Configure(_) | Reset | Archive => SessionRecords(s, step);
      case Connect(role, senderId) => ConnectRecords(s, role, senderId);
      case _ => ClientRecords(s, step);
    }
  }

  // ---------------------------------------------------------------------------
  // Order within the retained log

  /** The clock value just before the oldest retained record. */
  function Anchor(log: Log, intervalMs: int): int {
    log.clockMs - intervalMs * (|log.events| + |log.snapshots|)
  }

  predicate Filled(log: Log, stampMs: int) {
    || (exists i :: 0 <= i < |log.events| && log.events[i].timestampMs == stampMs)
    || (exists i :: 0 <= i < |log.snapshots| && log.snapshots[i].header.timestampMs == stampMs)
  }

  /** The parts of `Ordered` about the events alone, and about the snapshots alone. */
  predicate OrderedEvents(log: Log, tick: nat) {
    && (forall i :: 0 <= i < |log.events| ==> log.events[i].timestampMs <= log.clockMs && log.events[i].tick <= tick)
    && (forall i, j :: 0 <= i < j < |log.events| ==>
          log.events[i].timestampMs < log.events[j].timestampMs && log.events[i].tick <= log.events[j].tick)
  }

  predicate OrderedSnapshots(log: Log, tick: nat) {
    && (forall i :: 0 <= i < |log.snapshots| ==>
          log.snapshots[i].header.timestampMs <= log.clockMs && log.snapshots[i].header.tick <= tick)
    && (forall i, j :: 0 <= i < j < |log.snapshots| ==>
          && log.snapshots[i].header.timestampMs < log.snapshots[j].header.timestampMs
          && log.snapshots[i].header.tick <= log.snapshots[j].header.tick)
  }

  predicate StampsDiffer(log: Log) {
    forall i, j :: 0 <= i < |log.events| && 0 <= j < |log.snapshots| ==>
      log.events[i].timestampMs != log.snapshots[j].header.timestampMs
  }

  /** Events and snapshots are each in clock order and in tick order, none later than now. */
  predicate Ordered(log: Log, tick: nat) {
    OrderedEvents(log, tick) && OrderedSnapshots(log, tick) && StampsDiffer(log)
  }

  /** Retained snapshots are numbered consecutively, and the newest has the current number. */
  predicate Numbered(log: Log) {
    && |log.snapshots| <= log.sequence
    && forall i :: 0 <= i < |log.snapshots| ==>
         log.snapshots[i].header.sequence == log.sequence - |log.snapshots| + 1 + i
  }

  /** Every clock slot since the anchor holds a record. */
  predicate Gapless(log: Log, intervalMs: int) {
    forall j :: 1 <= j <= |log.events| + |log.snapshots| ==> Filled(log, Anchor(log, intervalMs) + intervalMs * j)
  }

  /** Old records keep their places; new ones come after the old clock, in order, at this tick. */
  predicate Appended(base: Log, t: State) {
    var o, k := |base.events|, |base.snapshots|;
    && base.events <= t.log.events && base.snapshots <= t.log.snapshots && |t.log.snapshots| <= k + 1
    && base.clockMs <= t.log.clockMs
    && (forall i :: o <= i < |t.log.events| ==>
          base.clockMs < t.log.events[i].timestampMs <= t.log.clockMs && t.log.events[i].tick == t.tick)
    && (forall i, j :: o <= i < j < |t.log.events| ==> t.log.events[i].timestampMs < t.log.events[j].timestampMs)
    && (|t.log.snapshots| == k + 1 ==>
          && Last(t.log.snapshots).header.tick == t.tick && Last(t.log.snapshots).header.timestampMs == t.log.clockMs
          && base.clockMs < t.log.clockMs
          && forall i :: o <= i < |t.log.events| ==> t.log.events[i].timestampMs < t.log.clockMs)
  }

  lemma NewStamps(base: Log, t: State)
    requires Recorded(base, t)
    ensures forall i :: |base.events| <= i < |t.log.events| ==>
              && t.log.events[i].tick == t.tick
              && t.log.events[i].timestampMs == base.clockMs + t.cfg.intervalMs * (i - |base.events| + 1)
  {
    hide Pictures;
    var o := |base.events|;
    var news := t.log.events[o..];
    assert forall i :: o <= i < |t.log.events| ==> t.log.events[i] == news[i - o];
  }

  lemma NewHeader(base: Log, t: State)
    requires Recorded(base, t) && |t.log.snapshots| > |base.snapshots|
    ensures Last(t.log.snapshots).header.tick == t.tick && Last(t.log.snapshots).header.timestampMs == t.log.clockMs
  {
    hide Stamped;
  }

  lemma RecordsAreAppended(base: Log, t: State)
    requires Recorded(base, t) && t.cfg.intervalMs > 0
    ensures Appended(base, t)
  {
    hide Pictures, Stamped;
    var o, d := |base.events|, t.cfg.intervalMs;
    NewStamps(base, t);
    if |t.log.snapshots| > |base.snapshots| { NewHeader(base, t); }
    assert d * 1 == d && d * 2 == d + d && d * 3 == d + d + d;
    assert |t.log.events| >= o + 1 ==> t.log.events[o].timestampMs == base.clockMs + d;
    assert |t.log.events| >= o + 2 ==> t.log.events[o + 1].timestampMs == base.clockMs + d * 2;
  }

  lemma EventsStayOrdered(base: Log, t: State, tick: nat)
    requires Appended(base, t) && OrderedEvents(base, tick) && tick <= t.tick
    ensures OrderedEvents(t.log, t.tick)
  {
    assert forall i :: 0 <= i < |base.events| ==> t.log.events[i] == base.events[i];
  }

  lemma SnapshotsStayOrdered(base: Log, t: State, tick: nat)
    requires Appended(base, t) && OrderedSnapshots(base, tick) && tick <= t.tick
    ensures OrderedSnapshots(t.log, t.tick)
  {
    assert forall i :: 0 <= i < |base.snapshots| ==> t.log.snapshots[i] == base.snapshots[i];
  }

  lemma StampsStayDifferent(base: Log, t: State, tick: nat)
    requires Appended(base, t) && Ordered(base, tick)
    ensures StampsDiffer(t.log)
  {
    assert forall i :: 0 <= i < |base.events| ==> t.log.events[i] == base.events[i];
    assert forall i :: 0 <= i < |base.snapshots| ==> t.log.snapshots[i] == base.snapshots[i];
  }

  lemma OrderedStep(base: Log, t: State, tick: nat)
    requires Appended(base, t) && Ordered(base, tick) && tick <= t.tick
    ensures Ordered(t.log, t.tick)
  {
    hide Appended, OrderedEvents, OrderedSnapshots, StampsDiffer;
    EventsStayOrdered(base, t, tick);
    SnapshotsStayOrdered(base, t, tick);
    StampsStayDifferent(base, t, tick);
  }

  lemma NumberedStep(base: Log, t: State)
    requires Recorded(base, t) && Numbered(base)
    ensures Numbered(t.log)
  {
  }

  lemma AnchorStays(base: Log, t: State)
    requires Recorded(base, t)
    ensures Anchor(t.log, t.cfg.intervalMs) == Anchor(base, t.cfg.intervalMs)
    ensures base.clockMs == Anchor(base, t.cfg.intervalMs) + t.cfg.intervalMs * (|base.events| + |base.snapshots|)
    ensures base.events <= t.log.events && base.snapshots <= t.log.snapshots
  {
    var before, after := |base.events| + |base.snapshots|, |t.log.events| + |t.log.snapshots|;
    hide Stamped, Pictures;
  }

  lemma GaplessStep(base: Log, t: State)
    requires Recorded(base, t) && Gapless(base, t.cfg.intervalMs)
    ensures Gapless(t.log, t.cfg.intervalMs)
  {
    hide Recorded, Filled, Anchor;
    var d, before, after := t.cfg.intervalMs, |base.events| + |base.snapshots|, |t.log.events| + |t.log.snapshots|;
    AnchorStays(base, t);
    forall j | 1 <= j <= after ensures Filled(t.log, Anchor(base, d) + d * j) {
      if j <= before {
        FilledStaysFilled(base, t.log, Anchor(base, d) + d * j);
      } else {
        NewSlotIsFilled(base, t, j - before);
      }
    }
  }

  lemma FilledStaysFilled(a: Log, b: Log, stampMs: int)
    requires a.events <= b.events && a.snapshots <= b.snapshots && Filled(a, stampMs)
    ensures Filled(b, stampMs)
  {
    assert forall i :: 0 <= i < |a.events| ==> b.events[i] == a.events[i];
    assert forall i :: 0 <= i < |a.snapshots| ==> b.snapshots[i] == a.snapshots[i];
  }

  lemma NewSlotIsFilled(base: Log, t: State, j: int)
    requires Recorded(base, t)
    requires 1 <= j <= |t.log.events| - |base.events| + |t.log.snapshots| - |base.snapshots|
    ensures Filled(t.log, base.clockMs + t.cfg.intervalMs * j)
  {
    var o := |base.events|;
    var news := t.log.events[o..];
    if j <= |news| {
      assert t.log.events[o + j - 1] == news[j - 1];
    } else {
      assert Last(t.log.snapshots).header.timestampMs == t.log.clockMs;
    }
  }

  lemma ConfigAndTick(s: State, step: Step)
    ensures Apply(s, step).cfg == s.cfg
    ensures Apply(s, step).tick == if step == Tick then s.tick + 1 else if step == Reset then 0 else s.tick
  {
    hide Say, Capture, RoleName, Tracker.Seed, Math.Launch, StartingWorld, Scenario.Valid;
    if step == Tick {
      L.MotionKeeps(s);
      L.AssessmentOutcomes(Motion(s));
      hide Motion, Assess;
    }
  }

  predicate Orderly(s: State) {
    s.cfg.intervalMs > 0 && Ordered(s.log, s.tick) && Numbered(s.log) && Gapless(s.log, s.cfg.intervalMs)
  }

  lemma StepIsOrderly(s: State, step: Step)
    requires Orderly(s)
    ensures Orderly(Apply(s, step))
  {
    var base, t := Base(s, step), Apply(s, step);
    StepRecords(s, step);
    ConfigAndTick(s, step);
    hide Apply, Recorded, Appended;
    RecordsAreAppended(base, t);
    assert Ordered(base, if step == Reset then 0 else s.tick) && Numbered(base) && Gapless(base, s.cfg.intervalMs);
    hide Ordered, Numbered, Gapless;
    OrderedStep(base, t, if step == Reset then 0 else s.tick);
    NumberedStep(base, t);
    GaplessStep(base, t);
  }

  // ---------------------------------------------------------------------------
  // Conservation over whole runs, resets included

  function NewEvents(s: State, step: Step): int { |Apply(s, step).log.events| - |Base(s, step).events| }
  function NewSnapshots(s: State, step: Step): int { |Apply(s, step).log.snapshots| - |Base(s, step).snapshots| }

  /** How many events and snapshots a run records in all. */
  function EventsRecorded(s: State, steps: seq<Step>): int
    decreases |steps|
  {
    if steps == [] then 0 else NewEvents(s, steps[0]) + EventsRecorded(Apply(s, steps[0]), steps[1..])
  }

  function SnapshotsRecorded(s: State, steps: seq<Step>): int
    decreases |steps|
  {
    if steps == [] then 0 else NewSnapshots(s, steps[0]) + SnapshotsRecorded(Apply(s, steps[0]), steps[1..])
  }

  lemma StepConserves(s: State, step: Step)
    ensures var t, e, n := Apply(s, step), NewEvents(s, step), NewSnapshots(s, step);
            && e >= 0 && n >= 0 && t.cfg == s.cfg
            && t.log.clockMs == s.log.clockMs + s.cfg.intervalMs * (e + n)
            && t.log.sequence == s.log.sequence + n
  {
    StepRecords(s, step);
    ConfigAndTick(s, step);
    hide Apply, Stamped, Pictures;
  }

  /** The clock counts every record ever made, and the sequence number every snapshot; no reset
      takes either back. */
  lemma {:induction false} ClockAndSequenceAreConserved(s: State, steps: seq<Step>)
    ensures var t, e, n := Run(s, steps), EventsRecorded(s, steps), SnapshotsRecorded(s, steps);
            && e >= 0 && n >= 0
            && t.log.clockMs == s.log.clockMs + s.cfg.intervalMs * (e + n)
            && t.log.sequence == s.log.sequence + n
    decreases |steps|
  {
    hide Apply, NewEvents, NewSnapshots;
    if steps != [] {
      var s1, rest := Apply(s, steps[0]), steps[1..];
      StepConserves(s, steps[0]);
      ClockAndSequenceAreConserved(s1, rest);
    }
  }

  // ---------------------------------------------------------------------------
  // The newest snapshot, and the display's connection state

  /** What the newest snapshot is sure to show of the present: commands cannot make it stale. */
  predicate NewestIsCurrent(s: State) {
    if s.log.snapshots == [] then s.phase == Standby && !s.track.active && s.engagement.interceptor == Idle
    else
      var x := Last(s.log.snapshots);
      && x.phase == s.phase && x.track.active == s.track.active && x.interceptorStatus == s.engagement.interceptor
      && x.header.sequence == s.log.sequence
  }

  /** A step that shows the same phase, track and interceptor as before. */
  predicate SameFace(s: State, t: State) {
    t.phase == s.phase && t.track.active == s.track.active && t.engagement.interceptor == s.engagement.interceptor
  }

  /** A tick and an accepted command record a snapshot; a refused one shows nothing new. */
  lemma QuietCommand(s: State, step: Step)
    requires L.IsCommand(step)
    ensures |Apply(s, step).log.snapshots| == |s.log.snapshots| ==> SameFace(s, Apply(s, step))
  {
    hide Say, Capture, Tracker.Seed, Math.Launch, AdvanceTick, ConnectClient, DisconnectClient, TimeoutClient,
         ConfigureScenario, ResetSession, ArchiveSession, Settled;
  }

  lemma QuietClientStep(s: State, step: Step)
    requires !L.IsCommand(step) && step != Tick && step != Reset && L.Coherent(s)
    ensures |Apply(s, step).log.snapshots| == |s.log.snapshots| ==> SameFace(s, Apply(s, step))
  {
    hide Say, Capture, RoleName, AdvanceTick, StartScenario, RequestTrack, ReleaseTrack, ActivateAsset, IssueCommand,
         StartingWorld, Scenario.Valid;
  }

  lemma TickRecordsASnapshot(s: State)
    ensures |AdvanceTick(s).log.snapshots| == |s.log.snapshots| + 1
  {
    hide Say, Capture, Motion, Assess;
    L.MotionKeeps(s);
    AssessRecords(Motion(s));
  }

  lemma QuietStepsKeepPicture(s: State, step: Step)
    requires L.Coherent(s) && |Apply(s, step).log.snapshots| == |s.log.snapshots| && step != Reset
    ensures SameFace(s, Apply(s, step))
  {
    hide L.Coherent, AdvanceTick, ConnectClient, DisconnectClient, TimeoutClient, RecordTransportRejection,
         ConfigureScenario, ArchiveSession, StartScenario, RequestTrack, ReleaseTrack, ActivateAsset, IssueCommand;
    if step == Tick {
      TickRecordsASnapshot(s);
      assert false;
    } else if L.IsCommand(step) {
      QuietCommand(s, step);
    } else {
      QuietClientStep(s, step);
    }
  }

  lemma NewestStaysCurrent(s: State, step: Step)
    requires L.Coherent(s) && NewestIsCurrent(s)
    ensures NewestIsCurrent(Apply(s, step))
  {
    StepRecords(s, step);
    hide Apply, Stamped, L.Coherent;
    var base, t := Base(s, step), Apply(s, step);
    if |t.log.snapshots| == |base.snapshots| {
      assert step != Reset by { ResetRecordsASnapshot(s); }
      QuietStepsKeepPicture(s, step);
      assert t.log.snapshots == base.snapshots;
    }
  }

  lemma ResetRecordsASnapshot(s: State)
    ensures |Apply(s, Reset).log.snapshots| == 1
  {
    hide Capture, Say;
  }

  predicate DisplayRejoin(e: Event) {
    e.eventType == ClientReconnected && e.source == RoleName(TacticalDisplay)
  }

  predicate RejoinBetween(log: Log, afterMs: int, beforeMs: int) {
    exists i :: 0 <= i < |log.events| && DisplayRejoin(log.events[i]) && afterMs < log.events[i].timestampMs < beforeMs
  }

  predicate ShownOnceAt(log: Log, i: int)
    requires 0 < i < |log.snapshots|
  {
    var x, y := log.snapshots[i - 1], log.snapshots[i];
    x.displayConnection == Reconnected && y.displayConnection == Reconnected ==>
      RejoinBetween(log, x.header.timestampMs, y.header.timestampMs)
  }

  /** No two neighbouring snapshots both show the display as reconnected, unless it reconnected
      in between. */
  predicate ReconnectShownOnce(s: State) {
    && (forall i :: 0 < i < |s.log.snapshots| ==> ShownOnceAt(s.log, i))
    && (s.display.connection == Reconnected && s.log.snapshots != [] ==>
          RejoinBetween(s.log, Last(s.log.snapshots).header.timestampMs, s.log.clockMs + 1))
  }

  lemma ConnectShowsReconnect(s: State, role: Role, senderId: nat)
    ensures var t := ConnectClient(s, role, senderId);
            && |t.log.snapshots| == |s.log.snapshots|
            && (t.display.connection == Reconnected ==>
                  || s.display.connection == Reconnected
                  || (|t.log.events| > |s.log.events| && DisplayRejoin(t.log.events[|s.log.events|])))
  {
    hide Say;
  }

  /** No step but a connection makes the display show as reconnected. */
  predicate ShowsNoReconnect(s: State, step: Step, t: State) {
    var base := Base(s, step);
    && (t.display.connection == Reconnected ==>
          s.display.connection == Reconnected && step != Reset && |t.log.snapshots| == |base.snapshots|)
    && (|t.log.snapshots| > |base.snapshots| && Last(t.log.snapshots).displayConnection == Reconnected ==>
          s.display.connection == Reconnected && step != Reset)
  }

  lemma CommandShowsNoReconnect(s: State, step: Step)
    requires L.IsCommand(step)
    ensures ShowsNoReconnect(s, step, Apply(s, step))
  {
    CapturedConnection();
    hide Say, Capture, Tracker.Seed, Math.Launch, AdvanceTick, ConnectClient, DisconnectClient, TimeoutClient,
         ConfigureScenario, ResetSession, ArchiveSession;
  }

  lemma OtherStepShowsNoReconnect(s: State, step: Step)
    requires !L.IsCommand(step) && !step.Connect? && step != Tick
    ensures ShowsNoReconnect(s, step, Apply(s, step))
  {
    CapturedConnection();
    hide Say, Capture, RoleName, StartingWorld, Scenario.Valid, AdvanceTick, StartScenario, RequestTrack, ReleaseTrack,
         ActivateAsset, IssueCommand;
  }

  lemma TickShowsReconnect(s: State)
    ensures var t := AdvanceTick(s);
            && t.display.connection != Reconnected
            && (t.log.snapshots != [] && Last(t.log.snapshots).displayConnection == Reconnected ==>
                  s.display.connection == Reconnected)
  {
    CapturedConnection();
    L.MotionKeeps(s);
    L.AssessmentOutcomes(Motion(s));
    hide Say, Capture, Motion, Assess;
  }

  lemma CapturedConnection()
    ensures forall u: State, loss: real {:trigger Capture(u, loss)} ::
              Capture(u, loss).displayConnection == u.display.connection
  {
  }

  /** What one step may do to the display's shown and actual connection. */
  predicate ShowsReconnect(s: State, step: Step, t: State) {
    var base := Base(s, step);
    && (t.display.connection == Reconnected ==>
          && step != Reset && |t.log.snapshots| == |base.snapshots|
          && (|| s.display.connection == Reconnected
              || (|t.log.events| > |base.events| && DisplayRejoin(t.log.events[|base.events|]))))
    && (|t.log.snapshots| > |base.snapshots| && Last(t.log.snapshots).displayConnection == Reconnected ==>
          s.display.connection == Reconnected && step != Reset)
  }

  lemma StepShowsReconnect(s: State, step: Step)
    ensures ShowsReconnect(s, step, Apply(s, step))
  {
    hide StartScenario, ActivateAsset, IssueCommand, RequestTrack, ReleaseTrack, AdvanceTick, ConnectClient,
         DisconnectClient, TimeoutClient, RecordTransportRejection, ConfigureScenario, ResetSession, ArchiveSession;
    match step {
      case Tick => TickShowsReconnect(s);
      case Connect(role, senderId) => ConnectShowsReconnect(s, role, senderId);
      case _ =>
        if L.IsCommand(step) { CommandShowsNoReconnect(s, step); } else { OtherStepShowsNoReconnect(s, step); }
    }
  }

  lemma RejoinPersists(a: Log, b: Log, afterMs: int, beforeMs: int, laterMs: int)
    requires RejoinBetween(a, afterMs, beforeMs) && a.events <= b.events && beforeMs <= laterMs
    ensures RejoinBetween(b, afterMs, laterMs)
  {
    var i :| 0 <= i < |a.events| && DisplayRejoin(a.events[i]) && afterMs < a.events[i].timestampMs < beforeMs;
    assert b.events[i] == a.events[i];
  }

  lemma ReconnectShownOnceStep(s: State, t: State, step: Step)
    requires Ordered(s.log, s.tick) && Appended(Base(s, step), t) && ReconnectShownOnce(s) && ShowsReconnect(s, step, t)
    ensures ReconnectShownOnce(t)
  {
    var base := Base(s, step);
    hide DisplayRejoin, RejoinBetween;
    var k := |base.snapshots|;
    assert forall i :: 0 <= i < k ==> t.log.snapshots[i] == base.snapshots[i];
    forall i | 0 < i < |t.log.snapshots| ensures ShownOnceAt(t.log, i) {
      var x, y := t.log.snapshots[i - 1], t.log.snapshots[i];
      if x.displayConnection == Reconnected && y.displayConnection == Reconnected {
        if i < k {
          assert ShownOnceAt(base, i);
          RejoinPersists(base, t.log, x.header.timestampMs, y.header.timestampMs, y.header.timestampMs);
        } else {
          RejoinPersists(base, t.log, x.header.timestampMs, base.clockMs + 1, y.header.timestampMs);
        }
      }
    }
    if t.display.connection == Reconnected && t.log.snapshots != [] {
      var last := Last(t.log.snapshots).header.timestampMs;
      if s.display.connection == Reconnected {
        RejoinPersists(base, t.log, last, base.clockMs + 1, t.log.clockMs + 1);
      } else {
        NewRejoin(t.log, |base.events|, last);
      }
    }
  }

  lemma NewRejoin(log: Log, i: nat, afterMs: int)
    requires i < |log.events| && DisplayRejoin(log.events[i]) && afterMs < log.events[i].timestampMs <= log.clockMs
    ensures RejoinBetween(log, afterMs, log.clockMs + 1)
  {
  }

  /** The invariants of the log that hold in every reachable state. */
  ghost predicate LogLaws(s: State) {
    L.Coherent(s) && Orderly(s) && NewestIsCurrent(s) && ReconnectShownOnce(s)
  }

  lemma InitObeysLogLaws(cfg: Config, scenario: Scenario)
    requires cfg.Valid() && scenario.Valid()
    ensures LogLaws(Init(cfg, scenario))
  {
    L.InitIsCoherent(cfg, scenario);
  }

  lemma StepObeysLogLaws(s: State, step: Step)
    requires LogLaws(s)
    ensures LogLaws(Apply(s, step))
  {
    hide Apply, L.Coherent, Ordered, Numbered, Gapless, Recorded, Appended, NewestIsCurrent, ReconnectShownOnce,
         ShowsReconnect;
    L.StepIsCoherent(s, step);
    StepIsOrderly(s, step);
    NewestStaysCurrent(s, step);
    StepRecords(s, step);
    ConfigAndTick(s, step);
    RecordsAreAppended(Base(s, step), Apply(s, step));
    StepShowsReconnect(s, step);
    ReconnectShownOnceStep(s, Apply(s, step), step);
  }

  lemma {:induction false} RunObeysLogLaws(s: State, steps: seq<Step>)
    requires LogLaws(s)
    ensures LogLaws(Run(s, steps))
    decreases |steps|
  {
    hide Apply, LogLaws;
    if steps != [] {
      StepObeysLogLaws(s, steps[0]);
      RunObeysLogLaws(Apply(s, steps[0]), steps[1..]);
    }
  }

  lemma ReachableObeysLogLaws(s: State)
    requires Reachable(s)
    ensures LogLaws(s)
  {
    hide LogLaws, Apply, Init;
    var cfg: Config, scenario: Scenario, steps: seq<Step> :|
      cfg.Valid() && scenario.Valid() && s == Run(Init(cfg, scenario), steps);
    InitObeysLogLaws(cfg, scenario);
    RunObeysLogLaws(Init(cfg, scenario), steps);
  }
}
