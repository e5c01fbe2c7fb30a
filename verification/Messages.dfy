/** The texts the session writes into its event log and its command results. */
module Messages {
  import opened Text

  datatype Message =
    | SimulationServer
    | ConsoleStation
    | DisplayStation
    | StartRejected
    | ConsoleMustConnect
    | StartOnlyFromStandby
    | EngagementInitiated
    | LoopIsDetecting
    | ScenarioStarted
    | SessionReset
    | TrackRejected
    | TrackAlreadyEstablished
    | TrackLockedByOrder
    | TrackLockedByArchive
    | TrackOutOfPhase
    | TrackAccepted
    | ReleaseRejected
    | TrackAlreadyDropped
    | ReleaseOutOfPhase
    | TrackReleased
    | ActivationRejected
    | ActivationOutOfPhase
    | ActivationNeedsTrack
    | WeaponReady
    | InterceptorArmed
    | InterceptorIsReady
    | OrderRejected
    | OrderOutOfPhase
    | OrderNeedsReady
    | OrderAccepted
    | RunArchived
    | ArtifactsReady
    | StationBack
    | StationResumed
    | ReconnectExercised
    | ResyncCase
    | StationOn
    | StationRegistered
    | StationOff
    | TimeoutExercised
    | EngagementAssessed
    | AssessedSuccess
    | SuccessDetails
    | AssessedTimeout
    | TimeoutDetails
    | GapExercised
    | GapDetails
    | TrackEstablished
    | FirstTrackDetails
    | NextTrackDetails
    | TrackDropped
    | DropToDetection
    | DropWhileReady
    | OrderExecuted
    | LaunchDetails(tracked: bool, launchAngleDeg: int)

  /** Texts built from their words. Readers of the log search those about the track for words. */
  function Words(m: Message): seq<string> {
    match m
    case TrackEstablished => ["Track", "file", "established"]
    case TrackDropped => ["Track", "file", "dropped"]
    case OrderExecuted => ["Fire", "order", "executed"]
    case FirstTrackDetails =>
      ["A", "target", "track", "file", "is", "now", "available", "for", "pre-launch", "fire", "control."]
    case NextTrackDetails =>
      ["The", "track", "file", "was", "re-established", "while", "the", "interceptor", "remained", "ready."]
    case LaunchDetails(tracked, launchAngleDeg) =>
      ["The", "authoritative", "server", "executed", "the", "fire", "order", "and", "launched", "the", "interceptor",
       "on", "a", if tracked then "tracked_intercept" else "unguided_intercept", "path", "at",
       IntText(launchAngleDeg), "deg."]
    case SuccessDetails => [MARKED, "successful and the target as intercepted."]
    case TimeoutDetails => [MARKED, "timed out before intercept."]
    case _ => []
  }

  const MARKED := "The authoritative assessment marked the intercept attempt as"
  const DROP_DETAILS := "Unguided intercept will be used unless the track file is re-established before the fire order. "

  function Say(m: Message): string {
    match m
    case SimulationServer => "simulation_server"
    case ConsoleStation => "fire_control_console"
    case DisplayStation => "tactical_display"
    case StartRejected => "Scenario start rejected"
    case ConsoleMustConnect => "fire control console must connect before starting the scenario"
    case StartOnlyFromStandby => "scenario can only be started from standby state"
    case EngagementInitiated => "Engagement initiated"
    case LoopIsDetecting => "The authoritative loop is now in the detection state."
    case ScenarioStarted => "scenario started"
    case SessionReset => "session reset to standby state"
    case TrackRejected => "Track request rejected"
    case TrackAlreadyEstablished => "track is already established"
    case TrackLockedByOrder => "track control is unavailable after engage order"
    case TrackLockedByArchive => "track control is unavailable after archive"
    case TrackOutOfPhase => "track request is only valid while detecting or interceptor_ready"
    case TrackAccepted => "track accepted"
    case ReleaseRejected => "Track release rejected"
    case TrackAlreadyDropped => "track is already dropped"
    case ReleaseOutOfPhase => "track release is only valid while tracking or interceptor_ready"
    case TrackReleased => "track released"
    case ActivationRejected => "Interceptor activation rejected"
    case ActivationOutOfPhase => "interceptor activation is only valid while tracking"
    case ActivationNeedsTrack => "interceptor activation requires an active track"
    case WeaponReady => "Weapon ready"
    case InterceptorArmed => "The interceptor is armed and ready for a fire order."
    case InterceptorIsReady => "interceptor ready"
    case OrderRejected => "Engage order rejected"
    case OrderOutOfPhase => "engage order is only valid while interceptor_ready"
    case OrderNeedsReady => "engage order requires interceptor_ready state"
    case OrderAccepted => "engage order accepted"
    case RunArchived => "Run archived"
    case ArtifactsReady => "The engagement run completed and artifacts are ready for post-engagement review."
    case StationBack => "Station back on net"
    case StationResumed => "The station resumed control-plane visibility and should rebuild the tactical picture on the next snapshot."
    case ReconnectExercised => "Reconnect/reacquire path exercised"
    case ResyncCase => "The baseline resilience case uses reconnect plus latest-snapshot convergence."
    case StationOn => "Station on net"
    case StationRegistered => "The station registered before scenario activity."
    case StationOff => "Station off net"
    case TimeoutExercised => "Client timeout exercised"
    case EngagementAssessed => "Engagement assessed"
    case AssessedSuccess => "authoritative intercept assessment complete"
    case AssessedTimeout => "authoritative intercept timeout observed"
    case GapExercised => "Snapshot gap exercised"
    case GapDetails => "Viewer should converge on the next valid snapshot rather than require retransmission."
    case DropToDetection => DROP_DETAILS + "Session returned to detection."
    case DropWhileReady => DROP_DETAILS + "The interceptor remains ready."
    case _ => Sentence(Words(m))
  }
}
