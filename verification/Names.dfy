/** The texts that stand for enumeration values on the wire, and the viewer's way back. */
module Names {
  import opened SessionTypes

  function PhaseText(phase: Phase): string {
    match phase
    case Standby => "standby"
    case Detecting => "detecting"
    case Tracking => "tracking"
    case InterceptorReady => "interceptor_ready"
    case EngageOrdered => "engage_ordered"
    case Intercepting => "intercepting"
    case Assessed => "assessed"
    case Archived => "archived"
  }

  function InterceptorText(status: InterceptorStatus): string {
    match status
    case Idle => "idle"
    case Ready => "ready"
    case InFlight => "intercepting"
    case Complete => "complete"
  }

  function OrderText(status: EngageStatus): string {
    match status
    case NoOrder => "none"
    case Accepted => "accepted"
    case Executing => "executing"
    case Completed => "completed"
    case Rejected => "rejected"
  }

  function CodeText(code: AssessmentCode): string {
    match code
    case Pending => "pending"
    case InterceptSuccess => "intercept_success"
    case InvalidTransition => "invalid_transition"
    case TimeoutObserved => "timeout_observed"
  }

  function ConnectionText(connection: Connection): string {
    match connection
    case Disconnected => "disconnected"
    case Connected => "connected"
    case Reconnected => "reconnected"
    case TimedOut => "timed_out"
  }

  function EventTypeText(eventType: EventType): string {
    match eventType
    case SessionStarted => "session_started"
    case SessionEnded => "session_ended"
    case ClientJoined => "client_joined"
    case ClientLeft => "client_left"
    case ClientReconnected => "client_reconnected"
    case TrackUpdated => "track_updated"
    case InterceptorUpdated => "interceptor_updated"
    case EngageOrderAccepted => "engage_order_accepted"
    case EngageOrderRejected => "engage_order_rejected"
    case AssessmentProduced => "assessment_produced"
    case ResilienceTriggered => "resilience_triggered"
  }

  /** What the artifacts and the reviews call the resilience paths a run has exercised. */
  function ResilienceCase(x: Exercised): string {
    if x.reconnect && x.packetGap && x.timeout then "reconnect_and_resync,udp_snapshot_gap_convergence,timeout_visibility"
    else if x.reconnect && x.packetGap then "reconnect_and_resync,udp_snapshot_gap_convergence"
    else if x.reconnect && x.timeout then "reconnect_and_resync,timeout_visibility"
    else if x.packetGap && x.timeout then "udp_snapshot_gap_convergence,timeout_visibility"
    else if x.reconnect then "reconnect_and_resync"
    else if x.timeout then "timeout_visibility"
    else if x.packetGap then "udp_snapshot_gap_convergence"
    else "none"
  }

  // ---------------------------------------------------------------------------
  // What the payload parser accepts

  const PHASES := ["standby", "detecting", "tracking", "interceptor_ready", "engage_ordered", "intercepting",
                   "assessed", "archived"]
  const INTERCEPTOR_STATUSES := ["idle", "ready", "intercepting", "complete"]
  const ORDER_STATUSES := ["none", "accepted", "executing", "completed", "rejected"]
  const CODES := ["pending", "intercept_success", "invalid_transition", "timeout_observed"]
  const CONTROLS := ["absolute", "step_forward", "step_backward"]

  // ---------------------------------------------------------------------------
  // The viewer's parsers; an unknown text falls back to the first value

  function PhaseOf(text: string): Phase {
    if text == "standby" then Standby
    else if text == "detecting" then Detecting
    else if text == "tracking" then Tracking
    else if text == "interceptor_ready" then InterceptorReady
    else if text == "engage_ordered" then EngageOrdered
    else if text == "intercepting" then Intercepting
    else if text == "assessed" then Assessed
    else if text == "archived" then Archived
    else Standby
  }

  function InterceptorOf(text: string): InterceptorStatus {
    if text == "idle" then Idle
    else if text == "ready" then Ready
    else if text == "intercepting" then InFlight
    else if text == "complete" then Complete
    else Idle
  }

  function OrderOf(text: string): EngageStatus {
    if text == "none" then NoOrder
    else if text == "accepted" then Accepted
    else if text == "executing" then Executing
    else if text == "completed" then Completed
    else if text == "rejected" then Rejected
    else NoOrder
  }

  function CodeOf(text: string): AssessmentCode {
    if text == "intercept_success" then InterceptSuccess
    else if text == "invalid_transition" then InvalidTransition
    else if text == "timeout_observed" then TimeoutObserved
    else Pending
  }

  function ConnectionOf(text: string): Connection {
    if text == "connected" then Connected
    else if text == "reconnected" then Reconnected
    else if text == "timed_out" then TimedOut
    else Disconnected
  }

  // ---------------------------------------------------------------------------
  // The three agree

  lemma PhaseIsRead(phase: Phase)
    ensures PhaseText(phase) in PHASES && PhaseOf(PhaseText(phase)) == phase
  {
    assert PHASES[0] == "standby" && PHASES[1] == "detecting" && PHASES[2] == "tracking"
        && PHASES[3] == "interceptor_ready" && PHASES[4] == "engage_ordered" && PHASES[5] == "intercepting"
        && PHASES[6] == "assessed" && PHASES[7] == "archived";
    var text := PhaseText(phase);
    assert |text| == (match phase
                      case Standby => 7
                      case Detecting => 9
                      case Tracking => 8
                      case InterceptorReady => 17
                      case EngageOrdered => 14
                      case Intercepting => 12
                      case Assessed => 8
                      case Archived => 8);
    assert phase in {Tracking, Assessed, Archived} ==>
        text[1] == (if phase == Tracking then 'r' else if phase == Assessed then 's' else 'r')
        && text[0] == (if phase == Tracking then 't' else 'a');
  }

  lemma InterceptorIsRead(status: InterceptorStatus)
    ensures InterceptorText(status) in INTERCEPTOR_STATUSES && InterceptorOf(InterceptorText(status)) == status
  {
    assert INTERCEPTOR_STATUSES[0] == "idle" && INTERCEPTOR_STATUSES[1] == "ready"
        && INTERCEPTOR_STATUSES[2] == "intercepting" && INTERCEPTOR_STATUSES[3] == "complete";
    assert |InterceptorText(status)| == (match status case Idle => 4 case Ready => 5 case InFlight => 12 case Complete => 8);
  }

  lemma OrderIsRead(status: EngageStatus)
    ensures OrderText(status) in ORDER_STATUSES && OrderOf(OrderText(status)) == status
  {
    assert ORDER_STATUSES[0] == "none" && ORDER_STATUSES[1] == "accepted" && ORDER_STATUSES[2] == "executing"
        && ORDER_STATUSES[3] == "completed" && ORDER_STATUSES[4] == "rejected";
    var text := OrderText(status);
    assert text[0] == (match status case NoOrder => 'n' case Accepted => 'a' case Executing => 'e'
                                    case Completed => 'c' case Rejected => 'r');
  }

  lemma CodeIsRead(code: AssessmentCode)
    ensures CodeText(code) in CODES && CodeOf(CodeText(code)) == code
  {
    assert CODES[0] == "pending" && CODES[1] == "intercept_success" && CODES[2] == "invalid_transition"
        && CODES[3] == "timeout_observed";
    assert |CodeText(code)| == (match code case Pending => 7 case InterceptSuccess => 17 case InvalidTransition => 18
                                           case TimeoutObserved => 16);
  }

  lemma ConnectionIsRead(connection: Connection)
    ensures ConnectionOf(ConnectionText(connection)) == connection
  {
    assert |ConnectionText(connection)| == (match connection case Disconnected => 12 case Connected => 9
                                                             case Reconnected => 11 case TimedOut => 9);
    assert connection.TimedOut? ==> ConnectionText(connection)[0] == 't';
  }
}
