/** How long a display stays registered: as long as it is heard within the timeout before every tick,
    and not one tick longer. */
module Presence {
  import opened Text
  import opened SessionTypes
  import opened Session
  import opened Messages
  import opened LiveServer
  import opened LiveRuns
  import ServerGrowth
  import ReplayCursor
  import L = Lifecycle
  import R = Recording

  /** Who is registered, and when it was last heard. */
  datatype Binding = Binding(endpoint: Endpoint, sender: nat, heardMs: int)

  predicate BoundTo(v: Server, b: Binding) {
    v.viewer == Some(b.endpoint) && v.viewerSender == b.sender && v.heartbeatMs == Some(b.heardMs)
  }

  predicate SameBinding(v: Server, t: Server) {
    t.options == v.options && t.viewer == v.viewer && t.viewerSender == v.viewerSender && t.heartbeatMs == v.heartbeatMs
  }

  /** A heartbeat or a repeated join, from the registered display itself. */
  function Heard(b: Binding, input: Input): Binding {
    match input
    case DisplayHeartbeat(sender, _, _, _, from, nowMs) =>
      if sender.sessionId == SESSION_ID && sender.senderId == b.sender && from == b.endpoint then b.(heardMs := nowMs) else b
    case DisplayJoin(sender, display, from, nowMs) =>
      if display && sender.sessionId == SESSION_ID && sender.senderId == b.sender && from == b.endpoint then b.(heardMs := nowMs)
      else b
    case _ => b
  }

  /** The driver ends the registration, or another endpoint takes it over. */
  predicate Unbinds(b: Binding, input: Input) {
    match input
    case DisconnectCall(role, _) => role == TacticalDisplay
    case TimeoutCall(role, _) => role == TacticalDisplay
    case DisplayJoin(sender, display, from, _) =>
      && display && sender.sessionId == SESSION_ID && (b.sender == 0 || sender.senderId == b.sender)
      && (from != b.endpoint || sender.senderId != b.sender)
    case _ => false
  }

  predicate InTime(b: Binding, input: Input, timeoutMs: int) { input.TickAt? ==> input.nowMs - b.heardMs < timeoutMs }

  /** At every tick the display has been heard within the timeout. */
  predicate Attended(b: Binding, inputs: seq<Input>, timeoutMs: int)
    decreases |inputs|
  {
    inputs == [] ||
    (!Unbinds(b, inputs[0]) && InTime(b, inputs[0], timeoutMs) && Attended(Heard(b, inputs[0]), inputs[1..], timeoutMs))
  }

  function LastHeard(b: Binding, inputs: seq<Input>): Binding
    decreases |inputs|
  {
    if inputs == [] then b else LastHeard(Heard(b, inputs[0]), inputs[1..])
  }

  // ---------------------------------------------------------------------------
  // What leaves the registration alone

  lemma PartsKeepBinding()
    ensures forall v: Server, step: Step {:trigger Perform(v, step)} :: SameBinding(v, Perform(v, step))
    ensures forall v: Server {:trigger SendPending(v)} :: SameBinding(v, SendPending(v))
  {
    hide Apply, SendPending;
    forall v: Server ensures SameBinding(v, SendPending(v)) { ServerGrowth.SendPendingTouches(v); }
  }

  lemma AnswersKeepBinding()
    ensures forall v: Server, sender: Envelope, r: Refusal {:trigger Refuse(v, sender, r)} :: SameBinding(v, Refuse(v, sender, r))
    ensures forall v: Server, sender: Envelope, step: Step, r: CommandResult {:trigger Decide(v, sender, step, r)} ::
              SameBinding(v, Decide(v, sender, step, r))
    ensures forall v: Server, reason: string {:trigger CloseConsole(v, reason)} :: SameBinding(v, CloseConsole(v, reason))
  {
    PartsKeepBinding();
    hide Perform, SendPending, Wording;
  }

  lemma StartKeepsBinding(v: Server, sender: Envelope, scenario: Scenario)
    ensures SameBinding(v, OnStart(v, sender, scenario))
  {
    PartsKeepBinding();
    AnswersKeepBinding();
    hide Perform, Refuse, Decide, StartScenario, Scenario.Valid, Scenario.Fault;
  }

  lemma CommandKeepsBinding(v: Server, sender: Envelope, command: Command)
    ensures SameBinding(v, OnCommand(v, sender, command))
  {
    hide Perform, SendPending, Refuse, Decide, CloseConsole, OnStart, RequestTrack, ReleaseTrack, ActivateAsset,
         IssueCommand, ResetSession, EnvelopeRefusal, ReplayCursor.Resolve, RoleName, Joined;
    PartsKeepBinding();
    AnswersKeepBinding();
    if command.StartRun? { StartKeepsBinding(v, sender, command.scenario); }
  }

  lemma RequestKeepsBinding(v: Server, request: Request)
    ensures SameBinding(v, OnRequest(v, request))
  {
    PartsKeepBinding();
    if request.Commanded? { CommandKeepsBinding(v, request.sender, request.command); }
    hide Perform, OnCommand, Wording;
  }

  lemma ReviveKeepsBinding(v: Server)
    ensures SameBinding(v, Revive(v))
  {
    PartsKeepBinding();
    hide Perform, SendPending;
  }

  // ---------------------------------------------------------------------------
  // Signs of life

  predicate FromDisplay(v: Server, sender: Envelope, from: Endpoint) {
    sender.sessionId == SESSION_ID && sender.senderId == v.viewerSender && v.viewer in {None, Some(from)}
  }

  /** What a heartbeat does before a silent display is connected again. */
  function Acknowledged(v: Server, heartbeatId: nat, clientSendMs: nat, wall: WallTimes, from: Endpoint, nowMs: int): Server {
    v.(heartbeatMs := Some(nowMs), serverSequence := v.serverSequence + 1,
       pending := v.pending + [HeartbeatAck(from, v.serverSequence + 1, heartbeatId, clientSendMs, wall)])
  }

  lemma HeartbeatActs(v: Server, sender: Envelope, heartbeatId: nat, clientSendMs: nat, wall: WallTimes, from: Endpoint,
                      nowMs: int)
    ensures OnHeartbeat(v, sender, heartbeatId, clientSendMs, wall, from, nowMs)
         == if FromDisplay(v, sender, from) then Revive(Acknowledged(v, heartbeatId, clientSendMs, wall, from, nowMs)) else v
  {
    hide Revive;
  }

  lemma HeartbeatIsHeard(v: Server, b: Binding, input: Input)
    requires BoundTo(v, b) && input.DisplayHeartbeat?
    ensures var t := OnHeartbeat(v, input.sender, input.heartbeatId, input.clientSendMs, input.wall, input.from, input.nowMs);
            BoundTo(t, Heard(b, input)) && t.options == v.options
  {
    HeartbeatActs(v, input.sender, input.heartbeatId, input.clientSendMs, input.wall, input.from, input.nowMs);
    ReviveKeepsBinding(Acknowledged(v, input.heartbeatId, input.clientSendMs, input.wall, input.from, input.nowMs));
    hide Revive, OnHeartbeat;
  }

  lemma JoinIsHeard(v: Server, b: Binding, input: Input)
    requires BoundTo(v, b) && input.DisplayJoin? && !Unbinds(b, input)
    ensures BoundTo(Handle(v, input), Heard(b, input)) && Handle(v, input).options == v.options
  {
    ReviveKeepsBinding(v.(heartbeatMs := Some(input.nowMs)));
    PartsKeepBinding();
    hide Revive, Perform, SendPending, OnTick, OnArchive, OnDisconnect, TimeoutViewer, OnAccept, CloseConsole, OnRequest,
         OnHeartbeat, Wording;
  }

  /** In every run a heartbeat is answered exactly when it comes from the registered sender, and from its
      endpoint if there is one: with its own numbers, to where it came from. A display that the newest
      snapshot shows as timed out is then connected again. Any other heartbeat changes nothing. */
  lemma HeartbeatIsAnswered(v: Server, net: set<Datagram>, sender: Envelope, heartbeatId: nat, clientSendMs: nat,
                            wall: WallTimes, from: Endpoint, nowMs: int)
    requires Live(v, net)
    ensures var t := OnHeartbeat(v, sender, heartbeatId, clientSendMs, wall, from, nowMs);
            if sender.sessionId == SESSION_ID && sender.senderId == v.viewerSender && v.viewer in {None, Some(from)} then
              && t.pending == v.pending + [HeartbeatAck(from, v.serverSequence + 1, heartbeatId, clientSendMs, wall)]
              && t.serverSequence == v.serverSequence + 1 && t.heartbeatMs == Some(nowMs)
              && (if ShowsTimedOut(v) then t.session.display.connection in {Connected, Reconnected} else t.session == v.session)
            else t == v
  {
    hide Live, Sound, Revive, OnHeartbeat;
    LiveIsServing(v, net);
    HeartbeatActs(v, sender, heartbeatId, clientSendMs, wall, from, nowMs);
    ReviveSendsNothing(Acknowledged(v, heartbeatId, clientSendMs, wall, from, nowMs));
    ReviveKeepsBinding(Acknowledged(v, heartbeatId, clientSendMs, wall, from, nowMs));
  }

  lemma ReviveSendsNothing(v: Server)
    requires v.viewer.Some? ==> v.lastSent >= |v.session.log.snapshots|
    ensures Revive(v).pending == v.pending && Revive(v).serverSequence == v.serverSequence
    ensures if ShowsTimedOut(v) then Revive(v).session.display.connection in {Connected, Reconnected} else Revive(v) == v
  {
    hide RoleName, Say, QueueBatch, QueueSnapshot;
  }

  /** When the driver disconnects the display nothing is left of its registration, and the session shows a
      display that had registered as disconnected. */
  lemma DisconnectUnbinds(v: Server, reason: string)
    ensures var t := OnDisconnect(v, TacticalDisplay, reason);
            && t.viewer == None && t.viewerSender == 0 && t.pending == [] && t.heartbeatMs == None
            && (if v.viewerSender == 0 then t.session == v.session else t.session.display.connection == Disconnected)
  {
    hide Say;
  }

  // ---------------------------------------------------------------------------
  // Ticks

  /** The display's connection, and what the newest snapshot says of it. */
  predicate ShowsAs(s: State, c: Connection) {
    s.display.connection == c && s.log.snapshots != [] && R.Last(s.log.snapshots).displayConnection == c
  }

  lemma TimeoutIsShown(s: State, reason: string)
    ensures ShowsAs(Apply(s, Timeout(TacticalDisplay, reason)), TimedOut)
  {
    hide Say;
  }

  lemma TickShowsConnection(s: State)
    requires s.display.connection == TimedOut
    ensures ShowsAs(Apply(s, Tick), TimedOut)
  {
    hide Say, Motion, Assess;
    L.MotionKeeps(s);
    L.AssessmentOutcomes(Motion(s));
  }

  /** The timeout check leaves a display alone exactly when it has been heard in time. */
  lemma TimeoutCheckDecides(v: Server, b: Binding, nowMs: int)
    requires BoundTo(v, b)
    ensures var t := MaybeTimeout(v, nowMs);
            if nowMs - b.heardMs < v.options.heartbeatTimeoutMs then t == v
            else t.viewer == None && t.options == v.options && t.session.display.connection == TimedOut
  {
    PartsKeepBinding();
    hide SendPending, Apply;
    TimeoutIsShown(v.session, SILENT);
    ServerGrowth.SendPendingTouches(ClearBinding(Perform(v, Timeout(TacticalDisplay, SILENT))));
  }

  lemma TickDecides(v: Server, b: Binding, nowMs: int)
    requires BoundTo(v, b)
    ensures var t := OnTick(v, nowMs);
            if nowMs - b.heardMs < v.options.heartbeatTimeoutMs then BoundTo(t, b) && t.options == v.options
            else t.viewer == None && ShowsAs(t.session, TimedOut)
  {
    TimeoutCheckDecides(v, b, nowMs);
    hide MaybeTimeout, SendPending, Apply;
    var u := MaybeTimeout(v, nowMs);
    if nowMs - b.heardMs >= v.options.heartbeatTimeoutMs { TickShowsConnection(u.session); }
    PartsKeepBinding();
    ServerGrowth.SendPendingTouches(Perform(u, Tick));
  }

  // ---------------------------------------------------------------------------
  // Whole runs

  lemma InputKeepsBinding(v: Server, b: Binding, input: Input)
    requires BoundTo(v, b) && !Unbinds(b, input) && InTime(b, input, v.options.heartbeatTimeoutMs)
    ensures BoundTo(Handle(v, input), Heard(b, input)) && Handle(v, input).options == v.options
  {
    PartsKeepBinding();
    AnswersKeepBinding();
    match input {
      case TickAt(nowMs) => TickDecides(v, b, nowMs);
      case DisplayHeartbeat(_, _, _, _, _, _) => HeartbeatIsHeard(v, b, input);
      case DisplayJoin(_, _, _, _) => JoinIsHeard(v, b, input);
      case ConsoleFrame(request) => RequestKeepsBinding(v, request);
      case _ =>
    }
    hide Perform, SendPending, OnTick, OnRequest, OnJoin, OnHeartbeat, CloseConsole, Wording;
  }

  lemma {:induction false} DisplayStaysWhileHeard(v: Server, b: Binding, inputs: seq<Input>)
    requires BoundTo(v, b) && Attended(b, inputs, v.options.heartbeatTimeoutMs)
    ensures BoundTo(Serve(v, inputs), LastHeard(b, inputs)) && Serve(v, inputs).options == v.options
    decreases |inputs|
  {
    hide Handle, BoundTo;
    if inputs != [] {
      InputKeepsBinding(v, b, inputs[0]);
      DisplayStaysWhileHeard(Handle(v, inputs[0]), Heard(b, inputs[0]), inputs[1..]);
    }
  }

  lemma JoinBinds(v: Server, sender: Envelope, from: Endpoint, nowMs: int)
    requires ServerGrowth.Registers(v, sender, true, from)
    ensures var t := Handle(v, DisplayJoin(sender, true, from, nowMs));
            BoundTo(t, Binding(from, sender.senderId, nowMs)) && t.options == v.options
  {
    PartsKeepBinding();
    hide Revive, Perform, SendPending, OnTick, OnArchive, OnDisconnect, TimeoutViewer, OnAccept, CloseConsole, OnRequest,
         OnHeartbeat, Wording;
  }

  /** A display that has joined is still registered after a tick if and only if it was last heard within
      the timeout, provided it was so at every tick before and nobody ended its registration. If it was
      not, it is unbound, and the newest snapshot shows that it timed out. */
  lemma DisplayIsDroppedExactlyIfSilent(v: Server, sender: Envelope, from: Endpoint, joinedMs: int, inputs: seq<Input>,
                                        nowMs: int)
    requires ServerGrowth.Registers(v, sender, true, from)
    requires Attended(Binding(from, sender.senderId, joinedMs), inputs, v.options.heartbeatTimeoutMs)
    ensures var b := LastHeard(Binding(from, sender.senderId, joinedMs), inputs);
            var t := OnTick(Serve(Handle(v, DisplayJoin(sender, true, from, joinedMs)), inputs), nowMs);
            if nowMs - b.heardMs < v.options.heartbeatTimeoutMs then t.viewer == Some(from)
            else t.viewer == None && ShowsAs(t.session, TimedOut)
  {
    hide Handle, Serve, OnTick, ShowsAs, ServerGrowth.Registers;
    var b := Binding(from, sender.senderId, joinedMs);
    JoinBinds(v, sender, from, joinedMs);
    DisplayStaysWhileHeard(Handle(v, DisplayJoin(sender, true, from, joinedMs)), b, inputs);
    EndpointStays(b, inputs);
    TickDecides(Serve(Handle(v, DisplayJoin(sender, true, from, joinedMs)), inputs), LastHeard(b, inputs), nowMs);
  }

  lemma {:induction false} EndpointStays(b: Binding, inputs: seq<Input>)
    ensures LastHeard(b, inputs).endpoint == b.endpoint
    decreases |inputs|
  {
    if inputs != [] { EndpointStays(Heard(b, inputs[0]), inputs[1..]); }
  }
}
