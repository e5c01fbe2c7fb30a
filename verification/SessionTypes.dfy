/** The entities of the authoritative session. */
module SessionTypes {
  import opened Numerics
  import opened Text
  import opened Messages

  datatype Role = FireControlConsole | TacticalDisplay
  datatype Connection = Disconnected | Connected | Reconnected | TimedOut
  datatype Phase =
    | Standby | Detecting | Tracking | InterceptorReady
    | EngageOrdered | Intercepting | Assessed | Archived
  datatype InterceptorStatus = Idle | Ready | InFlight | Complete
  datatype EngageStatus = NoOrder | Accepted | Executing | Completed | Rejected
  datatype AssessmentCode = Pending | InterceptSuccess | InvalidTransition | TimeoutObserved
  datatype EventType =
    | SessionStarted | SessionEnded | ClientJoined | ClientLeft | ClientReconnected | TrackUpdated
    | InterceptorUpdated | EngageOrderAccepted | EngageOrderRejected | AssessmentProduced | ResilienceTriggered
  datatype AckKind = ScenarioStartAck | TrackAcquireAck | TrackDropAck | InterceptorReadyAck | CommandAck

  datatype Entity = Entity(id: string, position: Grid, active: bool)
  datatype Client = Client(role: Role, connection: Connection, senderId: nat, hasConnectedBefore: bool)
  datatype Assessment = Assessment(ready: bool, code: AssessmentCode, summary: string)
  datatype CommandResult = CommandResult(accepted: bool, reason: string, kind: AckKind)

  /** The published track file. */
  datatype Track = Track(
    active: bool, estimatedPosition: Vec, estimatedVelocity: Vec, measurementPosition: Vec,
    measurementValid: bool, residualDistance: real, covarianceTrace: real, ageTicks: nat, missedUpdates: nat)

  /** The filter behind the track file. */
  datatype Filter = Filter(
    estimate: Vec, velocity: Vec, measurement: Vec, positionVariance: Vec, velocityVariance: Vec,
    measurementValid: bool, ageTicks: nat, missedUpdates: nat)

  datatype World = World(
    target: Entity, asset: Entity, targetAt: Vec, assetAt: Vec, targetVelocity: Vec, assetVelocity: Vec,
    seekerLock: bool, offBoresightDeg: real)

  datatype Engagement = Engagement(
    interceptor: InterceptorStatus, order: EngageStatus, assessment: Assessment, started: Option<nat>)

  /** Which resilience paths the run has exercised. */
  datatype Exercised = Exercised(reconnect: bool, timeout: bool, packetGap: bool)

  datatype Scenario = Scenario(
    name: string, worldWidth: int, worldHeight: int, targetStart: Grid, targetVelocity: Grid,
    interceptorStart: Grid, interceptorSpeed: int, interceptRadius: int, engagementTimeoutTicks: int,
    seekerFovDeg: int, launchAngleDeg: int)
  {
    /** What the configuration loader accepts. */
    predicate Valid() {
      && worldWidth > 0 && worldHeight > 0 && interceptorSpeed > 0 && interceptRadius > 0
      && engagementTimeoutTicks > 0 && seekerFovDeg > 0 && 0 <= launchAngleDeg <= 90
      && 0 <= targetStart.x < worldWidth && 0 <= targetStart.y < worldHeight
      && interceptorStart == Grid(0, 0)
    }

    /** The loader's complaint about a scenario it does not accept: about the first fault in its order. */
    function Fault(): string
      requires !Valid()
    {
      if worldWidth <= 0 then "scenario.world_width must be greater than zero"
      else if worldHeight <= 0 then "scenario.world_height must be greater than zero"
      else if interceptorSpeed <= 0 then "scenario.interceptor_speed_per_tick must be greater than zero"
      else if interceptRadius <= 0 then "scenario.intercept_radius must be greater than zero"
      else if engagementTimeoutTicks <= 0 then "scenario.engagement_timeout_ticks must be greater than zero"
      else if seekerFovDeg <= 0 then "scenario.seeker_fov_deg must be greater than zero"
      else if launchAngleDeg < 0 || launchAngleDeg > 90 then "scenario.launch_angle_deg must be between 0 and 90"
      else if targetStart.x < 0 || targetStart.x >= worldWidth then "scenario.target_start_x must fit inside world_width"
      else if targetStart.y < 0 || targetStart.y >= worldHeight then "scenario.target_start_y must fit inside world_height"
      else if interceptorStart.x != 0 then "scenario.interceptor_start_x must remain fixed at 0"
      else "scenario.interceptor_start_y must remain fixed at 0"
    }
  }

  datatype Config = Config(sessionId: nat, tickRateHz: int, intervalMs: int, math: Math) {
    ghost predicate Valid() { tickRateHz > 0 && intervalMs > 0 && math.Lawful() }
  }

  datatype Envelope = Envelope(sessionId: nat, senderId: nat, sequence: nat)
  datatype Header = Header(tick: nat, timestampMs: int, sequence: nat)
  datatype Telemetry = Telemetry(tick: nat, tickIntervalMs: int, packetLossPct: real, lastSnapshotTimestampMs: int)

  datatype Event = Event(
    tick: nat, timestampMs: int, eventType: EventType, source: string, entityIds: seq<string>,
    summary: string, details: string)

  datatype Snapshot = Snapshot(
    envelope: Envelope, header: Header, phase: Phase, worldWidth: int, worldHeight: int,
    target: Entity, interceptor: Entity, targetWorld: Vec, interceptorWorld: Vec,
    targetVelocityGrid: Grid, targetVelocity: Vec, interceptorVelocity: Vec,
    targetHeadingDeg: real, interceptorHeadingDeg: real,
    interceptorSpeed: int, interceptorAcceleration: real, interceptRadius: int, engagementTimeoutTicks: int,
    seekerFovDeg: real, seekerLock: bool, offBoresightDeg: real,
    predictedInterceptValid: bool, predictedIntercept: Vec, timeToIntercept: real,
    track: Track, interceptorStatus: InterceptorStatus, engageStatus: EngageStatus, assessment: Assessment,
    displayConnection: Connection, telemetry: Telemetry, launchAngleDeg: real)

  /** Everything recorded, with the snapshot counter and the logical clock behind it. */
  datatype Log = Log(sequence: nat, clockMs: int, events: seq<Event>, snapshots: seq<Snapshot>)

  const SERVER_SENDER_ID: nat := 1
  const CLOCK_BASE_MS := 1776327000000
  const TARGET_ID := "target-alpha"
  const ASSET_ID := "interceptor-alpha"
  const ORIGIN := Vec(0.0, 0.0)
  const NO_TRACK := Track(false, ORIGIN, ORIGIN, ORIGIN, false, 0.0, 0.0, 0, 0)
  const NO_FILTER := Filter(ORIGIN, ORIGIN, ORIGIN, ORIGIN, ORIGIN, false, 0, 0)
  const NO_ASSESSMENT := Assessment(false, Pending, "")

  const NO_ENGAGEMENT := Engagement(Idle, NoOrder, NO_ASSESSMENT, None)

  function RoleName(role: Role): string {
    match role
    case FireControlConsole => Say(ConsoleStation)
    case TacticalDisplay => Say(DisplayStation)
  }

  function ToVec(g: Grid): Vec { Vec(g.x as real, g.y as real) }
}
