/** The live transport's server side as functions on its state: viewer registration and heartbeats,
    console commands, ticks, and the delivery of snapshots. `SocketLiveTransport` is the class
    whose methods are proved to compute exactly these. */
module LiveServer {
  import opened Text
  import opened SessionTypes
  import opened Session
  import opened Broadcast
  import opened ReplayCursor

  type Endpoint = nat

  datatype Datagram =
    | SnapshotGram(to: Endpoint, snapshot: SnapshotPayload)
    | TelemetryGram(to: Endpoint, telemetry: TelemetryPayload)
    | HeartbeatAck(to: Endpoint, sequence: nat, heartbeatId: nat, clientSendMs: nat, wall: WallTimes)

  /** The server's wall clock when a heartbeat came in and when its acknowledgement went out. */
  datatype WallTimes = WallTimes(receivedMs: nat, sentMs: nat)

  datatype Reply =
    | Ack(sessionId: nat, sequence: nat, accepted: bool, reason: string)
    | Review(sessionId: nat, sequence: nat, resolution: Resolution, code: AssessmentCode, exercised: Exercised,
             event: Option<Event>)

  /** `batch` is the configured limit as it is, positive or not; `binary` is the framing on the command
      connection, JSON lines otherwise. */
  datatype Options = Options(latestOnly: bool, batch: int, heartbeatTimeoutMs: int, binary: bool)

  /** What the program does not keep, but its promises are about: every snapshot ever recorded, and
      every reply the console's connections ever took; the numbers of the snapshots queued for the
      viewer since it registered, with the newest number and the count of retained snapshots at that
      moment. */
  datatype Trace = Trace(history: seq<Snapshot>, taken: seq<Reply>, queued: seq<nat>, registeredAt: nat, retainedAt: nat)
  {
    function Noting(news: seq<Snapshot>): Trace { this.(history := history + news) }
    function Bound(sequence: nat, retained: nat): Trace {
      this.(queued := [], registeredAt := sequence, retainedAt := retained)
    }
    function Unbound(): Trace { Bound(0, 0) }
  }

  /** `room` says how many more replies the console's connection takes before it would block. */
  datatype Server = Server(
    options: Options, session: State,
    console: bool, consoleSender: nat, replies: seq<Reply>, room: nat,
    viewer: Option<Endpoint>, viewerSender: nat, heartbeatMs: Option<int>,
    pending: seq<Datagram>, lastSent: nat, serverSequence: nat, cursor: Cursor, trace: Trace)

  const SESSION_ID: nat := 1001

  function Launch(options: Options, session: State): Server {
    Server(options, session, false, 0, [], 0, None, 0, None, [], 0, 0, NO_CURSOR, Trace([], [], [], 0, 0))
  }

  /** One session operation; a new snapshot joins the history. */
  function Perform(v: Server, step: Step): Server {
    hide Apply;
    var t := Apply(v.session, step);
    var kept := if step == Reset then 0 else |v.session.log.snapshots|;
    v.(session := t,
       trace := v.trace.Noting(if kept <= |t.log.snapshots| then t.log.snapshots[kept..] else []))
  }

  // ---------------------------------------------------------------------------
  // Delivery

  function Batch(v: Server): nat { if v.options.batch < 1 then 1 else v.options.batch }

  function QueueSnapshot(v: Server, x: Snapshot): Server
    requires v.viewer.Some?
  {
    v.(pending := v.pending + [SnapshotGram(v.viewer.value, ToSnapshotPayload(x)),
                               TelemetryGram(v.viewer.value, ToTelemetryPayload(x, v.session.log.events))],
       trace := v.trace.(queued := v.trace.queued + [x.header.sequence]))
  }

  /** Queue up to `limit` snapshots, oldest first. */
  function QueueBatch(v: Server, limit: nat): Server
    requires v.viewer.Some?
    decreases limit
  {
    if limit == 0 || v.lastSent >= |v.session.log.snapshots| then v
    else QueueBatch(QueueSnapshot(v, v.session.log.snapshots[v.lastSent]).(lastSent := v.lastSent + 1), limit - 1)
  }

  /** Whether latest-only delivery would drop what is still queued and skip to the newest snapshot. */
  predicate Skips(v: Server) {
    v.viewer.Some? && v.options.latestOnly && |v.session.log.snapshots| - v.lastSent > 1
  }

  function SendPending(v: Server): Server {
    var snapshots := v.session.log.snapshots;
    if v.viewer.None? || v.lastSent >= |snapshots| then v
    else if Skips(v) then
      QueueSnapshot(v.(pending := []), snapshots[|snapshots| - 1]).(lastSent := |snapshots|)
    else QueueBatch(v, Batch(v))
  }

  function ClearBinding(v: Server): Server {
    v.(viewer := None, heartbeatMs := None, pending := [], viewerSender := 0, lastSent := 0,
       trace := v.trace.Unbound())
  }

  /** How many of the retained snapshots are sent again to a display that registers. */
  function Replays(options: Options, retained: nat): (r: nat)
    ensures var limit := if options.latestOnly || options.batch < 1 then 1 else options.batch;
            r == if retained < limit then retained else limit
  {
    if retained == 0 then 0
    else if options.latestOnly || options.batch <= 1 then 1
    else if retained < options.batch then retained
    else options.batch
  }

  function ResetDeliveryCursor(v: Server): Server {
    v.(lastSent := |v.session.log.snapshots| - Replays(v.options, |v.session.log.snapshots|))
  }

  /** A display is bound, and nothing has been queued for it yet. */
  function Bind(v: Server, senderId: nat, from: Endpoint, nowMs: int): Server {
    v.(viewer := Some(from), viewerSender := senderId, heartbeatMs := Some(nowMs),
       trace := v.trace.Bound(v.session.log.sequence, |v.session.log.snapshots|))
  }

  // ---------------------------------------------------------------------------
  // Driver calls

  function TimeoutViewer(v: Server, role: Role, reason: string): Server {
    var t := Perform(v, Timeout(role, reason));
    SendPending(if role == TacticalDisplay then ClearBinding(t) else t)
  }

  const SILENT := "viewer heartbeat timeout threshold exceeded"

  function MaybeTimeout(v: Server, nowMs: int): Server {
    if v.viewer.None? || v.heartbeatMs.None? || nowMs - v.heartbeatMs.value < v.options.heartbeatTimeoutMs then v
    else TimeoutViewer(v, TacticalDisplay, SILENT).(heartbeatMs := None)
  }

  function OnTick(v: Server, nowMs: int): Server { SendPending(Perform(MaybeTimeout(v, nowMs), Tick)) }

  function OnArchive(v: Server): Server { SendPending(Perform(v, Archive)) }

  function CloseConsole(v: Server, reason: string): Server {
    var t := v.(console := false, replies := []);
    if t.consoleSender == 0 then t
    else Perform(t, Disconnect(FireControlConsole, reason)).(consoleSender := 0)
  }

  function OnDisconnect(v: Server, role: Role, reason: string): Server {
    if role == FireControlConsole then CloseConsole(v, reason)
    else
      var t := ClearBinding(v);
      if v.viewerSender == 0 then t else Perform(t, Disconnect(TacticalDisplay, reason))
  }

  // ---------------------------------------------------------------------------
  // Datagrams from the display

  predicate ShowsTimedOut(v: Server) {
    var snapshots := v.session.log.snapshots;
    snapshots != [] && snapshots[|snapshots| - 1].displayConnection == TimedOut
  }

  /** A silent display that is heard again is connected again. */
  function Revive(v: Server): Server {
    if ShowsTimedOut(v) then SendPending(Perform(v, Connect(TacticalDisplay, v.viewerSender))) else v
  }

  function OnHeartbeat(v: Server, sender: Envelope, heartbeatId: nat, clientSendMs: nat, wall: WallTimes,
                       from: Endpoint, nowMs: int): Server {
    if sender.sessionId != SESSION_ID || sender.senderId != v.viewerSender then v
    else if v.viewer.Some? && v.viewer.value != from then v
    else
      Revive(v.(heartbeatMs := Some(nowMs), serverSequence := v.serverSequence + 1,
                pending := v.pending + [HeartbeatAck(from, v.serverSequence + 1, heartbeatId, clientSendMs, wall)]))
  }

  function OnJoin(v: Server, sender: Envelope, display: bool, from: Endpoint, nowMs: int): Server {
    if !display || sender.sessionId != SESSION_ID then v
    else if v.viewer.Some? && v.viewerSender != 0 && sender.senderId != v.viewerSender then
      LogRefusal(v, SecondDisplay)
    else if v.viewer == Some(from) && v.viewerSender == sender.senderId then
      Revive(v.(heartbeatMs := Some(nowMs)))
    else
      SendPending(Perform(ResetDeliveryCursor(Bind(v, sender.senderId, from, nowMs)), Connect(TacticalDisplay, sender.senderId)))
  }

  // ---------------------------------------------------------------------------
  // Commands from the console

  datatype Command =
    | JoinConsole(role: string)
    | Leave(reason: string)
    | StartRun(scenario: Scenario)
    | StopRun(reason: string)
    | ResetRun(reason: string)
    | Acquire(target: string)
    | Drop(target: string)
    | ReadyAsset(asset: string)
    | Order(asset: string, target: string)
    | ReviewEvents(requested: nat, control: string)

  /** A frame as the codecs leave it: a command, a review request that cannot be read, or anything
      else that cannot be read. */
  datatype Request =
    | Commanded(sender: Envelope, command: Command)
    | BadReview(reason: string)
    | Unreadable(reason: string)

  function SendAck(v: Server, sender: Envelope, accepted: bool, reason: string): Server {
    if !v.console then v
    else v.(serverSequence := v.serverSequence + 1,
            replies := v.replies + [Ack(sender.sessionId, v.serverSequence + 1, accepted, reason)])
  }

  /** Hands replies to the connection, oldest first, until it would block. */
  function FlushReplies(v: Server): Server {
    var n := if v.room < |v.replies| then v.room else |v.replies|;
    if !v.console then v
    else v.(replies := v.replies[n..], room := v.room - n, trace := v.trace.(taken := v.trace.taken + v.replies[..n]))
  }

  datatype Refusal =
    | NotAConsole | JoinsOtherSession | SecondConsole | NoConsole | OtherSession | OtherSender
    | NotStandby | OtherScenario | InvalidScenario(reason: string) | NothingToStop
    | OtherTrackTarget | OtherReleaseTarget | OtherInterceptor | OtherEntities
    | SecondDisplay | SecondConnection | UnreadableFrame(reason: string)

  /** Summary, reason and entities of a refusal. */
  function Wording(r: Refusal): (string, string, seq<string>) {
    match r
    case NotAConsole => ("Session join rejected", "tcp session_join only supports fire_control_console role", [])
    case JoinsOtherSession => ("Session join rejected", "session_join payload session_id mismatch", [])
    case SecondConsole => ("Session join rejected", "socket_live allows only one active fire control console", [])
    case NoConsole => ("Command rejected", "command sender is not connected", [])
    case OtherSession => ("Command rejected", "payload session_id does not match the active session", [])
    case OtherSender => ("Engage order rejected", "payload sender_id does not match the connected fire control console", [])
    case NotStandby => ("Scenario start rejected", "scenario can only be started from standby state", [])
    case OtherScenario => ("Scenario start rejected", "scenario_start payload does not match configured scenario", [])
    case InvalidScenario(reason) => ("Scenario start rejected", reason, [])
    case NothingToStop => ("Scenario stop rejected", "scenario_stop is only valid while an active scenario is running", [])
    case OtherTrackTarget =>
      ("Track request rejected", "track request target does not match the active target", [TARGET_ID])
    case OtherReleaseTarget =>
      ("Track release rejected", "track release target does not match the active target", [TARGET_ID])
    case OtherInterceptor =>
      ("Interceptor activation rejected", "interceptor activation does not match the configured interceptor", [ASSET_ID])
    case OtherEntities =>
      ("Command rejected", "command payload entity ids do not match the active session", [ASSET_ID, TARGET_ID])
    case SecondDisplay => ("Viewer registration rejected", "socket_live allows only one active tactical display", [])
    case SecondConnection =>
      ("Connection rejected", "socket_live allows only one active fire control console connection", [])
    case UnreadableFrame(reason) => ("Transport frame rejected", reason, [])
  }

  /** A refusal by the transport leaves the engagement alone: it is only logged. */
  function LogRefusal(v: Server, r: Refusal): Server {
    Perform(v, TransportRejection(Wording(r).0, Wording(r).1, Wording(r).2))
  }

  function Refuse(v: Server, sender: Envelope, r: Refusal): Server {
    SendAck(LogRefusal(v, r), sender, false, Wording(r).1)
  }

  /** Why the transport refuses a command before the session sees it. */
  function EnvelopeRefusal(v: Server, sender: Envelope): Option<Refusal> {
    if v.consoleSender == 0 then Some(NoConsole)
    else if sender.sessionId != SESSION_ID then Some(OtherSession)
    else if sender.senderId != v.consoleSender then Some(OtherSender)
    else None
  }

  /** A command the session decides: its answer is acknowledged and its snapshot is sent. */
  function Decide(v: Server, sender: Envelope, step: Step, r: CommandResult): Server {
    SendPending(SendAck(Perform(v, step), sender, r.accepted, r.reason))
  }

  function Joined(): string { "fire control console joined" }

  function OnConsoleJoin(v: Server, sender: Envelope, role: string): Server {
    if role != RoleName(FireControlConsole) then
      Refuse(v, sender, NotAConsole)
    else if sender.sessionId != SESSION_ID then
      Refuse(v, sender, JoinsOtherSession)
    else if v.consoleSender != 0 && sender.senderId != v.consoleSender then
      Refuse(v, sender, SecondConsole)
    else if v.consoleSender == sender.senderId && v.console then
      SendAck(v, sender, true, Joined())
    else
      SendAck(Perform(v.(consoleSender := sender.senderId), Connect(FireControlConsole, sender.senderId)),
              sender, true, Joined())
  }

  function OnStart(v: Server, sender: Envelope, scenario: Scenario): Server {
    if v.session.phase != Standby then
      Refuse(v, sender, NotStandby)
    else if scenario.name != v.session.scenario.name then
      Refuse(v, sender, OtherScenario)
    else if !scenario.Valid() then
      Refuse(v, sender, InvalidScenario(scenario.Fault()))
    else
      hide Perform, Decide, StartScenario;
      var t := Perform(v, Configure(scenario));
      Decide(t, sender, Start, StartScenario(t.session).1)
  }

  function OnReview(v: Server, sender: Envelope, requested: nat, control: string): Server {
    var events := v.session.log.events;
    var r := Resolve(v.cursor, |events|, requested, control);
    var t := v.(cursor := r.cursor);
    if !t.console then t
    else t.(serverSequence := t.serverSequence + 1,
            replies := t.replies + [Review(sender.sessionId, t.serverSequence + 1, r, v.session.engagement.assessment.code,
                                           v.session.exercised,
                                           if r.cursor.index < |events| then Some(events[r.cursor.index]) else None)])
  }

  function OnCommand(v: Server, sender: Envelope, command: Command): Server {
    hide Perform, SendPending, Refuse, Decide, CloseConsole, OnStart, OnConsoleJoin, OnReview, RequestTrack, ReleaseTrack,
         ActivateAsset, IssueCommand, ResetSession;
    var refusal := EnvelopeRefusal(v, sender);
    if command.JoinConsole? then OnConsoleJoin(v, sender, command.role)
    else if refusal.Some? then Refuse(v, sender, refusal.value)
    else match command
         case Leave(reason) => CloseConsole(FlushReplies(SendAck(v, sender, true, reason)), reason)
         case StartRun(scenario) => OnStart(v, sender, scenario)
         case StopRun(reason) =>
           if v.session.phase in {Standby, Archived} then Refuse(v, sender, NothingToStop)
           else SendPending(SendAck(Perform(v, Archive), sender, true, reason))
         case ResetRun(_) =>
           var t := ResetDeliveryCursor(Perform(v, Reset).(cursor := NO_CURSOR));
           SendPending(SendAck(t, sender, true, ResetSession(v.session).1.reason))
         case Acquire(target) =>
           if target != TARGET_ID then Refuse(v, sender, OtherTrackTarget)
           else Decide(v, sender, AcquireTrack, RequestTrack(v.session).1)
         case Drop(target) =>
           if target != TARGET_ID then Refuse(v, sender, OtherReleaseTarget)
           else Decide(v, sender, DropTrack, ReleaseTrack(v.session).1)
         case ReadyAsset(asset) =>
           if asset != ASSET_ID then Refuse(v, sender, OtherInterceptor)
           else Decide(v, sender, ReadyInterceptor, ActivateAsset(v.session).1)
         case Order(asset, target) =>
           if asset != ASSET_ID || target != TARGET_ID then Refuse(v, sender, OtherEntities)
           else Decide(v, sender, Engage, IssueCommand(v.session).1)
         case ReviewEvents(requested, control) => OnReview(v, sender, requested, control)
  }

  /** Frames are read only from the one connection. */
  function OnRequest(v: Server, request: Request): Server {
    hide OnCommand, LogRefusal;
    if !v.console then v
    else match request
         case Commanded(sender, command) => OnCommand(v, sender, command)
         case BadReview(reason) => SendAck(v, Envelope(SESSION_ID, SERVER_SENDER_ID, 0), false, reason)
         case Unreadable(reason) => LogRefusal(v, UnreadableFrame(reason))
  }

  function OnAccept(v: Server): Server {
    if v.console then
      LogRefusal(v, SecondConnection)
    else v.(console := true)
  }

  // ---------------------------------------------------------------------------
  // Runs

  datatype Input =
    | TickAt(nowMs: int)
    | ArchiveCall
    | DisconnectCall(role: Role, reason: string)
    | TimeoutCall(role: Role, reason: string)
    | AcceptConsole
    | ConsoleClosed(reason: string)
    | ConsoleFrame(request: Request)
    | DisplayJoin(sender: Envelope, display: bool, from: Endpoint, nowMs: int)
    | DisplayHeartbeat(sender: Envelope, heartbeatId: nat, clientSendMs: nat, wall: WallTimes, from: Endpoint, nowMs: int)
    | SendNext
    | FlushConsole(room: nat)

  /** `SendNext` hands the oldest queued datagram to the network; `FlushConsole` is a turn of the
      poll loop in which the console's connection takes up to `room` replies. */
  function Handle(v: Server, input: Input): Server {
    hide OnTick, OnArchive, OnDisconnect, TimeoutViewer, OnAccept, CloseConsole, OnRequest, OnJoin, OnHeartbeat;
    match input
    case TickAt(nowMs) => OnTick(v, nowMs)
    case ArchiveCall => OnArchive(v)
    case DisconnectCall(role, reason) => OnDisconnect(v, role, reason)
    case TimeoutCall(role, reason) => TimeoutViewer(v, role, reason)
    case AcceptConsole => OnAccept(v)
    case ConsoleClosed(reason) => if v.console then CloseConsole(v, reason) else v
    case ConsoleFrame(request) => OnRequest(v, request)
    case DisplayJoin(sender, display, from, nowMs) => OnJoin(v, sender, display, from, nowMs)
    case DisplayHeartbeat(sender, heartbeatId, clientSendMs, wall, from, nowMs) =>
      OnHeartbeat(v, sender, heartbeatId, clientSendMs, wall, from, nowMs)
    case SendNext => if v.pending == [] then v else v.(pending := v.pending[1..])
    case FlushConsole(room) => FlushReplies(v.(room := room))
  }
}
