/** The session's operations as functions on its state. `SimulationSession` is the class whose
    methods are proved to compute exactly these. */
module Session {
  import opened Numerics
  import opened Text
  import opened SessionTypes
  import opened Messages
  import Tracker

  datatype State = State(
    cfg: Config, scenario: Scenario, phase: Phase, tick: nat, console: Client, display: Client,
    track: Track, filter: Filter, engagement: Engagement, world: World, exercised: Exercised, log: Log)

  function StartingWorld(scenario: Scenario): World {
    World(Entity(TARGET_ID, scenario.targetStart, false), Entity(ASSET_ID, scenario.interceptorStart, false),
          ToVec(scenario.targetStart), ToVec(scenario.interceptorStart), ToVec(scenario.targetVelocity), ORIGIN,
          false, 0.0)
  }

  function Init(cfg: Config, scenario: Scenario): State {
    State(cfg, scenario, Standby, 0,
          Client(FireControlConsole, Disconnected, 0, false), Client(TacticalDisplay, Disconnected, 0, false),
          NO_TRACK, NO_FILTER, NO_ENGAGEMENT, StartingWorld(scenario), Exercised(false, false, false),
          Log(0, CLOCK_BASE_MS, [], []))
  }

  // ---------------------------------------------------------------------------
  // Log, clock, snapshots

  function PushEvent(s: State, eventType: EventType, source: string, ids: seq<string>,
                     summary: string, details: string): State {
    var now := s.log.clockMs + s.cfg.intervalMs;
    s.(log := s.log.(clockMs := now,
                     events := s.log.events + [Event(s.tick, now, eventType, source, ids, summary, details)]))
  }

  function Reject(s: State, summary: string, reason: string, ids: seq<string>): (State, CommandResult) {
    var logged := PushEvent(s, EngageOrderRejected, Say(SimulationServer), ids, summary, reason);
    var a := s.engagement.assessment;
    (if a.ready then logged
     else logged.(engagement := s.engagement.(
                    order := Rejected, assessment := a.(code := InvalidTransition, summary := reason))),
     CommandResult(false, reason, CommandAck))
  }

  predicate Guiding(s: State) {
    s.world.asset.active && s.engagement.order in {Accepted, Executing, Completed}
  }

  function TickIntervalMs(rateHz: int): int {
    var interval := if rateHz < 1 then 1000 else 1000 / rateHz;
    if interval < 1 then 1 else interval
  }

  function Capture(s: State, packetLossPct: real): Snapshot {
    var now := s.log.clockMs + s.cfg.intervalMs;
    var m, w := s.cfg.math, s.world;
    var predicting := s.track.active && (Guiding(s) || (w.asset.active && s.engagement.assessment.ready));
    var distance := m.Length(Sub(w.targetAt, w.assetAt));
    var speed := s.scenario.interceptorSpeed as real;
    var tti := if predicting then distance / Max(0.1, speed) else 0.0;
    Snapshot(
      Envelope(s.cfg.sessionId, SERVER_SENDER_ID, s.log.sequence + 1),
      Header(s.tick, now, s.log.sequence + 1), s.phase, s.scenario.worldWidth, s.scenario.worldHeight,
      w.target, w.asset, w.targetAt, w.assetAt,
      RoundToGrid(w.targetVelocity), w.targetVelocity, w.assetVelocity,
      m.HeadingDeg(w.targetVelocity), m.HeadingDeg(w.assetVelocity),
      s.scenario.interceptorSpeed, Max(1.0, speed * 0.28), s.scenario.interceptRadius,
      s.scenario.engagementTimeoutTicks, s.scenario.seekerFovDeg as real,
      predicting && w.seekerLock, if predicting then w.offBoresightDeg else 0.0,
      predicting && distance > 0.0,
      if predicting then Add(w.targetAt, Scale(w.targetVelocity, tti)) else ORIGIN, tti,
      s.track, s.engagement.interceptor, s.engagement.order, s.engagement.assessment, s.display.connection,
      Telemetry(s.tick, TickIntervalMs(s.cfg.tickRateHz), packetLossPct, now), s.scenario.launchAngleDeg as real)
  }

  function Settled(c: Client): Client {
    if c.connection == Reconnected then c.(connection := Connected) else c
  }

  function RecordSnapshot(s: State, packetLossPct: real): State {
    s.(display := Settled(s.display),
       log := s.log.(sequence := s.log.sequence + 1,
                     clockMs := s.log.clockMs + s.cfg.intervalMs,
                     snapshots := s.log.snapshots + [Capture(s, packetLossPct)]))
  }

  // ---------------------------------------------------------------------------
  // Clients

  function ClientOf(s: State, role: Role): Client {
    if role == FireControlConsole then s.console else s.display
  }

  function WithClient(s: State, role: Role, c: Client): State {
    if role == FireControlConsole then s.(console := c) else s.(display := c)
  }

  function ConnectClient(s: State, role: Role, senderId: nat): State {
    var before := ClientOf(s, role);
    if before.hasConnectedBefore then
      var t := WithClient(s, role, Client(before.role, Reconnected, senderId, true)).(
        exercised := s.exercised.(reconnect := true));
      var u := PushEvent(t, ClientReconnected, RoleName(role), [], Say(StationBack), Say(StationResumed));
      PushEvent(u, ResilienceTriggered, Say(SimulationServer), [], Say(ReconnectExercised), Say(ResyncCase))
    else
      PushEvent(WithClient(s, role, Client(before.role, Connected, senderId, true)),
                ClientJoined, RoleName(role), [], Say(StationOn), Say(StationRegistered))
  }

  function DisconnectClient(s: State, role: Role, reason: string): State {
    PushEvent(WithClient(s, role, ClientOf(s, role).(connection := Disconnected)),
              ClientLeft, RoleName(role), [], Say(StationOff), reason)
  }

  function TimeoutClient(s: State, role: Role, reason: string): State {
    var t := WithClient(s, role, ClientOf(s, role).(connection := TimedOut)).(
      exercised := s.exercised.(timeout := true));
    RecordSnapshot(PushEvent(t, ResilienceTriggered, Say(SimulationServer), [], Say(TimeoutExercised), reason), 0.0)
  }

  // ---------------------------------------------------------------------------
  // Commands

  function ClearTrack(s: State): State { s.(track := NO_TRACK, filter := NO_FILTER) }

  function SeedTrack(s: State): State {
    var (track, filter) := Tracker.Seed(s.cfg.math, s.world.targetAt, s.world.targetVelocity, s.tick);
    s.(track := track, filter := filter)
  }

  function StartScenario(s: State): (State, CommandResult) {
    if s.console.connection == Disconnected then
      Reject(s, Say(StartRejected), Say(ConsoleMustConnect), [])
    else if s.phase != Standby then
      Reject(s, Say(StartRejected), Say(StartOnlyFromStandby), [])
    else
      var t := ClearTrack(s).(phase := Detecting,
                              world := s.world.(target := s.world.target.(active := true)),
                              engagement := NO_ENGAGEMENT.(started := s.engagement.started));
      var u := PushEvent(t, SessionStarted, Say(SimulationServer), [s.world.target.id], Say(EngagementInitiated),
                         Say(LoopIsDetecting));
      (RecordSnapshot(u, 0.0), CommandResult(true, Say(ScenarioStarted), ScenarioStartAck))
  }

  function ConfigureScenario(s: State, scenario: Scenario): State {
    ClearTrack(s).(scenario := scenario, world := StartingWorld(scenario), engagement := NO_ENGAGEMENT)
  }

  function ResetSession(s: State): (State, CommandResult) {
    var t := ConfigureScenario(s, s.scenario).(
      tick := 0, phase := Standby, exercised := Exercised(false, false, false),
      console := Settled(s.console), display := Settled(s.display),
      log := s.log.(events := [], snapshots := []));
    (RecordSnapshot(t, 0.0), CommandResult(true, Say(SessionReset), CommandAck))
  }

  function RequestTrack(s: State): (State, CommandResult) {
    var target, both := [s.world.target.id], [s.world.target.id, s.world.asset.id];
    if s.phase == Detecting then
      var u := PushEvent(SeedTrack(s).(phase := Tracking), TrackUpdated, Say(ConsoleStation), target,
                         Say(TrackEstablished), Say(FirstTrackDetails));
      (RecordSnapshot(u, 0.0), CommandResult(true, Say(TrackAccepted), TrackAcquireAck))
    else if s.phase == InterceptorReady then
      if s.track.active then
        Reject(s, Say(TrackRejected), Say(TrackAlreadyEstablished), target)
      else
        var u := PushEvent(SeedTrack(s), TrackUpdated, Say(ConsoleStation), both,
                           Say(TrackEstablished), Say(NextTrackDetails));
        (RecordSnapshot(u, 0.0), CommandResult(true, Say(TrackAccepted), TrackAcquireAck))
    else if s.phase in {EngageOrdered, Intercepting} then
      Reject(s, Say(TrackRejected), Say(TrackLockedByOrder), both)
    else if s.phase in {Assessed, Archived} then
      Reject(s, Say(TrackRejected), Say(TrackLockedByArchive), target)
    else
      Reject(s, Say(TrackRejected), Say(TrackOutOfPhase), target)
  }

  function ReleaseTrack(s: State): (State, CommandResult) {
    var target, both := [s.world.target.id], [s.world.target.id, s.world.asset.id];
    if s.phase == Tracking then
      if !s.track.active then
        Reject(s, Say(ReleaseRejected), Say(TrackAlreadyDropped), target)
      else
        var u := PushEvent(ClearTrack(s).(phase := Detecting), TrackUpdated, Say(ConsoleStation), target,
                           Say(TrackDropped), Say(DropToDetection));
        (RecordSnapshot(u, 0.0), CommandResult(true, Say(TrackReleased), TrackDropAck))
    else if s.phase == InterceptorReady then
      if !s.track.active then
        Reject(s, Say(ReleaseRejected), Say(TrackAlreadyDropped), both)
      else
        var u := PushEvent(ClearTrack(s), TrackUpdated, Say(ConsoleStation), both,
                           Say(TrackDropped), Say(DropWhileReady));
        (RecordSnapshot(u, 0.0), CommandResult(true, Say(TrackReleased), TrackDropAck))
    else if s.phase in {EngageOrdered, Intercepting} then
      Reject(s, Say(ReleaseRejected), Say(TrackLockedByOrder), both)
    else if s.phase in {Assessed, Archived} then
      Reject(s, Say(ReleaseRejected), Say(TrackLockedByArchive), target)
    else
      Reject(s, Say(ReleaseRejected), Say(ReleaseOutOfPhase), target)
  }

  function ActivateAsset(s: State): (State, CommandResult) {
    var ids := [s.world.asset.id];
    if s.phase != Tracking then
      Reject(s, Say(ActivationRejected), Say(ActivationOutOfPhase), ids)
    else if !s.track.active then
      Reject(s, Say(ActivationRejected), Say(ActivationNeedsTrack), ids)
    else
      var t := s.(engagement := s.engagement.(interceptor := Ready), phase := InterceptorReady,
                  world := s.world.(asset := s.world.asset.(active := true)));
      var u := PushEvent(t, InterceptorUpdated, Say(ConsoleStation), ids, Say(WeaponReady),
                         Say(InterceptorArmed));
      (RecordSnapshot(u, 0.0), CommandResult(true, Say(InterceptorIsReady), InterceptorReadyAck))
  }

  function IssueCommand(s: State): (State, CommandResult) {
    var ids := [s.world.asset.id, s.world.target.id];
    if s.phase != InterceptorReady then
      Reject(s, Say(OrderRejected), Say(OrderOutOfPhase), ids)
    else if s.engagement.interceptor != Ready then
      Reject(s, Say(OrderRejected), Say(OrderNeedsReady), ids)
    else
      var launch := s.cfg.math.Launch(s.scenario.launchAngleDeg, s.scenario.interceptorSpeed);
      var t := s.(engagement := s.engagement.(order := Accepted, started := Some(s.tick)), phase := EngageOrdered,
                  world := s.world.(assetVelocity := launch));
      var u := PushEvent(t, EngageOrderAccepted, Say(ConsoleStation), ids,
                         Say(OrderExecuted), Say(LaunchDetails(s.track.active, s.scenario.launchAngleDeg)));
      (RecordSnapshot(u, 0.0), CommandResult(true, Say(OrderAccepted), CommandAck))
  }

  function RecordTransportRejection(s: State, summary: string, reason: string, ids: seq<string>): (State, CommandResult) {
    (PushEvent(s, EngageOrderRejected, Say(SimulationServer), ids, summary, reason),
     CommandResult(false, reason, CommandAck))
  }

  function ArchiveSession(s: State): State {
    if s.phase == Archived then s
    else
      RecordSnapshot(PushEvent(s.(phase := Archived), SessionEnded, Say(SimulationServer),
                               [s.world.target.id, s.world.asset.id], Say(RunArchived), Say(ArtifactsReady)), 0.0)
  }

  // ---------------------------------------------------------------------------
  // The tick

  function MoveTarget(s: State): State {
    if !s.world.target.active then s
    else
      var w := s.world;
      var x := Bounce(Axis(w.targetAt.x, w.targetVelocity.x), s.scenario.worldWidth as real);
      var y := Bounce(Axis(w.targetAt.y, w.targetVelocity.y), s.scenario.worldHeight as real);
      var at := Vec(x.position, y.position);
      s.(world := w.(targetAt := at, targetVelocity := Vec(x.velocity, y.velocity),
                     target := w.target.(position := RoundToGrid(at))))
  }

  /** Only a runnable filter is updated; every reachable active track has one. */
  function UpdateTrack(s: State): State {
    if !s.track.active || !Tracker.Runnable(s.filter) then s
    else
      var filter := Tracker.UpdateFilter(s.cfg.math, s.filter, s.world.targetAt, s.tick);
      s.(filter := filter, track := Tracker.Publish(s.cfg.math, s.track, s.filter, filter, s.tick))
  }

  function BeginIntercept(s: State): State {
    if s.engagement.order == Accepted && s.phase == EngageOrdered then
      s.(phase := Intercepting, engagement := s.engagement.(interceptor := InFlight, order := Executing))
    else s
  }

  /** Full speed towards the point where the target will be when the interceptor can be there. */
  function DesiredVelocity(s: State): Vec {
    var m, w, cap := s.cfg.math, s.world, s.scenario.interceptorSpeed as real;
    var tti := m.Length(Sub(w.targetAt, w.assetAt)) / Max(0.1, cap);
    Scale(m.Normalize(Sub(Add(w.targetAt, Scale(w.targetVelocity, tti)), w.assetAt)), cap)
  }

  function Acceleration(scenario: Scenario): real { Max(1.0, scenario.interceptorSpeed as real * 0.28) }

  /** The velocity after steering. */
  function Steered(s: State): Vec {
    if !s.track.active then s.world.assetVelocity
    else
      var m, error := s.cfg.math, Sub(DesiredVelocity(s), s.world.assetVelocity);
      Add(s.world.assetVelocity, Scale(m.Normalize(error), Min(Acceleration(s.scenario), m.Length(error))))
  }

  function Confined(v: Vec, scenario: Scenario): Vec {
    Vec(Clamp(v.x, 0.0, (scenario.worldWidth - 1) as real), Clamp(v.y, 0.0, (scenario.worldHeight - 1) as real))
  }

  function FlyInterceptor(s: State): State {
    if s.phase != Intercepting || !s.world.asset.active then s
    else
      var velocity := CapSpeed(s.cfg.math, Steered(s), s.scenario.interceptorSpeed as real);
      var at := Confined(Add(s.world.assetAt, velocity), s.scenario);
      s.(world := s.world.(assetVelocity := velocity, assetAt := at,
                           asset := s.world.asset.(position := RoundToGrid(at))))
  }

  function PointSeeker(s: State): State {
    var w := s.world;
    if !Guiding(s) || !s.track.active then s.(world := w.(offBoresightDeg := 0.0, seekerLock := false))
    else
      var m := s.cfg.math;
      var los := Sub(w.targetAt, w.assetAt);
      var off := Abs(NormalizeAngleDeg(m.HeadingDeg(los) - m.HeadingDeg(w.assetVelocity)));
      s.(world := w.(offBoresightDeg := off,
                     seekerLock := m.Length(los) > 0.0 && off <= s.scenario.seekerFovDeg as real))
  }

  predicate WithinRadius(s: State) {
    s.cfg.math.Length(Sub(s.world.targetAt, s.world.assetAt)) <= s.scenario.interceptRadius as real
  }

  function EngagementTicks(s: State): int {
    if s.engagement.started.Some? then s.tick - s.engagement.started.value else 0
  }

  function Concluded(s: State, code: AssessmentCode, summary: string): State {
    s.(phase := Assessed, engagement := Engagement(Complete, Completed, Assessment(true, code, summary), None))
  }

  function Assess(s: State): State {
    var ids := [s.world.asset.id, s.world.target.id];
    if s.engagement.order != Executing || s.phase != Intercepting then s
    else if WithinRadius(s) then
      var w := s.world;
      var t := Concluded(s, InterceptSuccess, Say(AssessedSuccess)).(
        track := s.track.(active := false),
        world := w.(target := w.target.(active := false), targetVelocity := ORIGIN, assetVelocity := ORIGIN,
                    seekerLock := false, offBoresightDeg := 0.0));
      PushEvent(t, AssessmentProduced, Say(SimulationServer), ids, Say(EngagementAssessed), Say(SuccessDetails))
    else if EngagementTicks(s) >= s.scenario.engagementTimeoutTicks then
      PushEvent(Concluded(s, TimeoutObserved, Say(AssessedTimeout)),
                AssessmentProduced, Say(SimulationServer), ids, Say(EngagementAssessed), Say(TimeoutDetails))
    else s
  }

  predicate GapDue(s: State) { s.tick == 2 && !s.exercised.packetGap }

  function ExerciseGap(s: State): State {
    if !GapDue(s) then s
    else
      PushEvent(s.(exercised := s.exercised.(packetGap := true)), ResilienceTriggered, Say(SimulationServer),
                [s.world.target.id], Say(GapExercised), Say(GapDetails))
  }

  /** Everything a tick does before the assessment. */
  function Motion(s: State): State {
    PointSeeker(FlyInterceptor(BeginIntercept(UpdateTrack(MoveTarget(s.(tick := s.tick + 1))))))
  }

  function AdvanceTick(s: State): State {
    if s.phase == Assessed then
      ArchiveSession(s.(tick := s.tick + 1))
    else
      var t := Assess(Motion(s));
      RecordSnapshot(ExerciseGap(t), if GapDue(t) then 25.0 else 0.0)
  }

  // ---------------------------------------------------------------------------
  // Runs

  datatype Step =
    | Connect(role: Role, senderId: nat)
    | Disconnect(role: Role, reason: string)
    | Timeout(role: Role, reason: string)
    | Start
    | Configure(scenario: Scenario)
    | Reset
    | AcquireTrack
    | DropTrack
    | ReadyInterceptor
    | Engage
    | TransportRejection(summary: string, reason: string, ids: seq<string>)
    | Tick
    | Archive

  /** One public operation. The transport configures only a validated scenario, and only in
      standby; otherwise it leaves the session alone. */
  function Apply(s: State, step: Step): State {
    match step
    case Connect(role, senderId) => ConnectClient(s, role, senderId)
    case Disconnect(role, reason) => DisconnectClient(s, role, reason)
    case Timeout(role, reason) => TimeoutClient(s, role, reason)
    case Start => StartScenario(s).0
    case Configure(scenario) => if s.phase == Standby && scenario.Valid() then ConfigureScenario(s, scenario) else s
    case Reset => ResetSession(s).0
    case AcquireTrack => RequestTrack(s).0
    case DropTrack => ReleaseTrack(s).0
    case ReadyInterceptor => ActivateAsset(s).0
    case Engage => IssueCommand(s).0
    case TransportRejection(summary, reason, ids) => RecordTransportRejection(s, summary, reason, ids).0
    case Tick => AdvanceTick(s)
    case Archive => ArchiveSession(s)
  }

  function Run(s: State, steps: seq<Step>): State
    decreases |steps|
  {
    if steps == [] then s else Run(Apply(s, steps[0]), steps[1..])
  }

  ghost predicate Reachable(s: State) {
    exists cfg: Config, scenario: Scenario, steps: seq<Step> ::
      cfg.Valid() && scenario.Valid() && s == Run(Init(cfg, scenario), steps)
  }

  lemma {:induction false} RunAppend(s: State, a: seq<Step>, b: seq<Step>)
    ensures Run(s, a + b) == Run(Run(s, a), b)
    decreases |a|
  {
    hide Apply;
    if a == [] {
      assert a + b == b;
    } else {
      assert (a + b)[0] == a[0] && (a + b)[1..] == a[1..] + b;
      RunAppend(Apply(s, a[0]), a[1..], b);
    }
  }

  lemma ReachableStep(s: State, step: Step)
    requires Reachable(s)
    ensures Reachable(Apply(s, step))
  {
    hide Apply, Init, Scenario.Valid;
    var cfg: Config, scenario: Scenario, steps: seq<Step> :|
      cfg.Valid() && scenario.Valid() && s == Run(Init(cfg, scenario), steps);
    RunAppend(Init(cfg, scenario), steps, [step]);
    assert Run(s, [step]) == Apply(s, step);
  }
}
