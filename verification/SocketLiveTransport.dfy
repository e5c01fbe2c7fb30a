/** The live transport as an object around the session object. `Value()` is its state; every method
    computes the function of the same purpose in `LiveServer`. */
module SocketLiveTransport {
  import opened Text
  import opened SessionTypes
  import opened Broadcast
  import opened ReplayCursor
  import opened LiveServer
  import opened SimulationSession
  import opened Reassembly
  import opened FrameCodec
  import opened JsonFrame
  import opened TcpInput
  import opened ConsoleMessages
  import opened ConsoleLink
  import S = Session
  import ServerGrowth
  import Answers

  class SocketLiveTransport {
    const options: Options
    const session: SimulationSession
    const tcp: TcpInput
    var commandConnected: bool
    var commandSender: nat
    var pendingTcp: seq<Reply>
    var viewerEndpoint: Option<Endpoint>
    var viewerSender: nat
    var lastHeartbeatMs: Option<int>
    var pendingUdp: seq<Datagram>
    var lastSnapshotSent: nat
    var serverSequence: nat
    var replayCursor: Cursor
    var tcpRoom: nat
    ghost var trace: Trace

    ghost function Value(): Server
      reads this, session
    {
      Server(options, session.State(), commandConnected, commandSender, pendingTcp, tcpRoom, viewerEndpoint, viewerSender,
             lastHeartbeatMs, pendingUdp, lastSnapshotSent, serverSequence, replayCursor, trace)
    }

    constructor (options: Options, cfg: Config, scenario: Scenario)
      ensures fresh(session) && fresh(tcp) && tcp.buffer == "" && Value() == Launch(options, S.Init(cfg, scenario))
    {
      this.options := options;
      session := new SimulationSession(cfg, scenario);
      tcp := new TcpInput();
      commandConnected, commandSender, pendingTcp, tcpRoom := false, 0, [], 0;
      viewerEndpoint, viewerSender, lastHeartbeatMs := None, 0, None;
      pendingUdp, lastSnapshotSent, serverSequence, replayCursor := [], 0, 0, NO_CURSOR;
      trace := Trace([], [], [], 0, 0);
    }

    // -------------------------------------------------------------------------
    // Session operations, with the history they add to

    /** Called after a session operation that kept the first `kept` snapshots. */
    ghost method Note(kept: nat)
      modifies this`trace
      ensures trace == old(trace).Noting(if kept <= |session.log.snapshots| then session.log.snapshots[kept..] else [])
    {
      trace := trace.Noting(if kept <= |session.log.snapshots| then session.log.snapshots[kept..] else []);
    }

    method ConnectSession(role: Role, senderId: nat)
      modifies this`trace, session
      ensures Value() == Perform(old(Value()), S.Connect(role, senderId))
    {
      hide S.ConnectClient;
      ghost var kept := |session.log.snapshots|;
      session.ConnectClient(role, senderId);
      Note(kept);
    }

    method DisconnectSession(role: Role, reason: string)
      modifies this`trace, session
      ensures Value() == Perform(old(Value()), S.Disconnect(role, reason))
    {
      hide S.DisconnectClient;
      ghost var kept := |session.log.snapshots|;
      session.DisconnectClient(role, reason);
      Note(kept);
    }

    method LogRejection(r: Refusal)
      modifies this`trace, session
      ensures Value() == LogRefusal(old(Value()), r)
    {
      hide S.RecordTransportRejection, Wording;
      ghost var kept := |session.log.snapshots|;
      var (summary, reason, ids) := Wording(r);
      var result := session.RecordTransportRejection(summary, reason, ids);
      Note(kept);
    }

    // -------------------------------------------------------------------------
    // Delivery

    method QueueUdpDatagram(d: Datagram)
      modifies this`pendingUdp
      ensures pendingUdp == old(pendingUdp) + [d]
    {
      pendingUdp := pendingUdp + [d];
    }

    method QueueSnapshotPair(x: Snapshot)
      requires viewerEndpoint.Some?
      modifies this`pendingUdp, this`trace
      ensures Value() == QueueSnapshot(old(Value()), x)
    {
      hide ToSnapshotPayload, ToTelemetryPayload;
      QueueUdpDatagram(SnapshotGram(viewerEndpoint.value, ToSnapshotPayload(x)));
      QueueUdpDatagram(TelemetryGram(viewerEndpoint.value, ToTelemetryPayload(x, session.log.events)));
      trace := trace.(queued := trace.queued + [x.header.sequence]);
    }

    /** Queue the next snapshots, at most `limit` of them. */
    method QueueNextSnapshots(limit: nat)
      requires viewerEndpoint.Some?
      modifies this`pendingUdp, this`lastSnapshotSent, this`trace
      ensures Value() == QueueBatch(old(Value()), limit)
    {
      hide QueueSnapshot;
      var count := 0;
      while lastSnapshotSent < |session.log.snapshots| && count < limit
        invariant 0 <= count <= limit
        invariant QueueBatch(Value(), limit - count) == QueueBatch(old(Value()), limit)
      {
        KeepsBinding(Value(), session.log.snapshots[lastSnapshotSent]);
        QueueSnapshotPair(session.log.snapshots[lastSnapshotSent]);
        lastSnapshotSent := lastSnapshotSent + 1;
        count := count + 1;
      }
    }

    method SendPendingSnapshots()
      modifies this`pendingUdp, this`lastSnapshotSent, this`trace
      ensures Value() == SendPending(old(Value()))
    {
      hide QueueSnapshot, QueueBatch;
      if viewerEndpoint.None? {
        return;
      }
      var snapshots := session.log.snapshots;
      if lastSnapshotSent >= |snapshots| {
        return;
      }
      if options.latestOnly && |snapshots| - lastSnapshotSent > 1 {
        pendingUdp := [];
        QueueSnapshotPair(snapshots[|snapshots| - 1]);
        lastSnapshotSent := |snapshots|;
        return;
      }
      QueueNextSnapshots(if options.batch < 1 then 1 else options.batch);
    }

    lemma KeepsBinding(v: Server, x: Snapshot)
      requires v.viewer.Some?
      ensures var t := QueueSnapshot(v, x);
              t.viewer == v.viewer && t.session == v.session && t.lastSent == v.lastSent && t.options == v.options
    {
      hide ToSnapshotPayload, ToTelemetryPayload;
    }

    method ClearViewerBinding()
      modifies this`viewerEndpoint, this`lastHeartbeatMs, this`pendingUdp, this`viewerSender, this`lastSnapshotSent,
               this`trace
      ensures Value() == ClearBinding(old(Value()))
    {
      viewerEndpoint, lastHeartbeatMs, pendingUdp, viewerSender, lastSnapshotSent := None, None, [], 0, 0;
      trace := trace.Unbound();
    }

    method ResetViewerDeliveryCursor()
      modifies this`lastSnapshotSent
      ensures Value() == ResetDeliveryCursor(old(Value()))
    {
      var n := |session.log.snapshots|;
      if n == 0 {
        lastSnapshotSent := 0;
        return;
      }
      var limit := if options.batch < 1 then 1 else options.batch;
      var rewind := if options.latestOnly then 1 else if n < limit then n else limit;
      lastSnapshotSent := n - rewind;
    }

    /** Hands the waiting replies to the connection until it would block. */
    method FlushTcpWrites()
      modifies this`pendingTcp, this`tcpRoom, this`trace
      ensures Value() == FlushReplies(old(Value()))
    {
      if !commandConnected {
        return;
      }
      ghost var before := pendingTcp;
      ghost var n := 0;
      while pendingTcp != [] && tcpRoom > 0
        invariant n <= |before| && n <= old(tcpRoom)
        invariant pendingTcp == before[n..] && tcpRoom == old(tcpRoom) - n
        invariant trace == old(trace).(taken := old(trace).taken + before[..n])
        decreases |pendingTcp|
      {
        assert before[..n] + [pendingTcp[0]] == before[..n + 1];
        trace := trace.(taken := trace.taken + [pendingTcp[0]]);
        pendingTcp, tcpRoom := pendingTcp[1..], tcpRoom - 1;
        n := n + 1;
      }
    }

    method FlushUdpDatagram() returns (sent: Option<Datagram>)
      modifies this`pendingUdp
      ensures Value() == Handle(old(Value()), SendNext)
      ensures sent == if old(pendingUdp) == [] then None else Some(old(pendingUdp)[0])
    {
      if pendingUdp == [] {
        return None;
      }
      sent := Some(pendingUdp[0]);
      pendingUdp := pendingUdp[1..];
    }

    // -------------------------------------------------------------------------
    // Driver calls

    method TimeoutClient(role: Role, reason: string)
      modifies this, session
      ensures Value() == TimeoutViewer(old(Value()), role, reason)
    {
      hide S.TimeoutClient, ClearBinding, SendPending;
      ghost var kept := |session.log.snapshots|;
      session.TimeoutClient(role, reason);
      Note(kept);
      if role == TacticalDisplay {
        ClearViewerBinding();
      }
      SendPendingSnapshots();
    }

    method MaybeTimeoutViewer(nowMs: int)
      modifies this, session
      ensures Value() == MaybeTimeout(old(Value()), nowMs)
    {
      hide TimeoutViewer;
      if viewerEndpoint.None? || lastHeartbeatMs.None? {
        return;
      }
      var elapsed := nowMs - lastHeartbeatMs.value;
      if elapsed >= options.heartbeatTimeoutMs {
        TimeoutClient(TacticalDisplay, SILENT);
        lastHeartbeatMs := None;
      }
    }

    method AdvanceTick(nowMs: int)
      modifies this, session
      ensures Value() == OnTick(old(Value()), nowMs)
    {
      hide MaybeTimeout, S.AdvanceTick, SendPending;
      MaybeTimeoutViewer(nowMs);
      ghost var kept := |session.log.snapshots|;
      session.AdvanceTick();
      Note(kept);
      SendPendingSnapshots();
    }

    method ArchiveSession()
      modifies this, session
      ensures Value() == OnArchive(old(Value()))
    {
      hide S.ArchiveSession, SendPending;
      ghost var kept := |session.log.snapshots|;
      session.ArchiveSession();
      Note(kept);
      SendPendingSnapshots();
    }

    method CloseCommandClient(reason: string)
      modifies this, session, tcp
      ensures Value() == CloseConsole(old(Value()), reason) && tcp.buffer == ""
    {
      hide Perform;
      commandConnected, pendingTcp := false, [];
      tcp.buffer := "";
      if commandSender != 0 {
        DisconnectSession(FireControlConsole, reason);
        commandSender := 0;
      }
    }

    method DisconnectClient(role: Role, reason: string)
      modifies this, session, tcp
      ensures Value() == OnDisconnect(old(Value()), role, reason)
      ensures tcp.buffer == if role == FireControlConsole then "" else old(tcp.buffer)
    {
      hide Perform, CloseConsole, ClearBinding;
      if role == FireControlConsole {
        CloseCommandClient(reason);
      } else {
        var senderId := viewerSender;
        ClearViewerBinding();
        if senderId != 0 {
          DisconnectSession(role, reason);
        }
      }
    }

    // -------------------------------------------------------------------------
    // Datagrams from the display

    method ReviveViewer()
      modifies this, session
      ensures Value() == Revive(old(Value()))
    {
      hide Perform, SendPending;
      var snapshots := session.log.snapshots;
      if snapshots != [] && snapshots[|snapshots| - 1].displayConnection == TimedOut {
        ConnectSession(TacticalDisplay, viewerSender);
        SendPendingSnapshots();
      }
    }

    method ReceiveHeartbeat(sender: Envelope, heartbeatId: nat, clientSendMs: nat, wall: WallTimes, from: Endpoint,
                            nowMs: int)
      modifies this, session
      ensures Value() == OnHeartbeat(old(Value()), sender, heartbeatId, clientSendMs, wall, from, nowMs)
    {
      hide Revive;
      if sender.sessionId != SESSION_ID || sender.senderId != viewerSender {
        return;
      }
      if viewerEndpoint.Some? && viewerEndpoint.value != from {
        return;
      }
      lastHeartbeatMs := Some(nowMs);
      serverSequence := serverSequence + 1;
      QueueUdpDatagram(HeartbeatAck(from, serverSequence, heartbeatId, clientSendMs, wall));
      ReviveViewer();
    }

    method RegisterViewer(senderId: nat, from: Endpoint, nowMs: int)
      modifies this, session
      ensures var bound := Bind(old(Value()), senderId, from, nowMs);
              Value() == SendPending(Perform(ResetDeliveryCursor(bound), S.Connect(TacticalDisplay, senderId)))
    {
      hide Perform, SendPending, ResetDeliveryCursor;
      viewerSender := senderId;
      viewerEndpoint := Some(from);
      lastHeartbeatMs := Some(nowMs);
      trace := trace.Bound(session.log.sequence, |session.log.snapshots|);
      ResetViewerDeliveryCursor();
      ConnectSession(TacticalDisplay, viewerSender);
      SendPendingSnapshots();
    }

    method ReceiveJoin(sender: Envelope, display: bool, from: Endpoint, nowMs: int)
      modifies this, session
      ensures Value() == OnJoin(old(Value()), sender, display, from, nowMs)
    {
      hide Revive, Perform, SendPending, LogRefusal, ResetDeliveryCursor;
      if !display || sender.sessionId != SESSION_ID {
        return;
      }
      if viewerEndpoint.Some? && viewerSender != 0 && sender.senderId != viewerSender {
        LogRejection(SecondDisplay);
        return;
      }
      if viewerEndpoint.Some? && viewerSender == sender.senderId && viewerEndpoint.value == from {
        lastHeartbeatMs := Some(nowMs);
        ReviveViewer();
        return;
      }
      RegisterViewer(sender.senderId, from, nowMs);
    }

    // -------------------------------------------------------------------------
    // Frames from the console

    method AcceptTcpClient()
      modifies this, session
      ensures Value() == OnAccept(old(Value()))
    {
      hide LogRefusal;
      if commandConnected {
        LogRejection(SecondConnection);
        return;
      }
      commandConnected := true;
    }

    method Acknowledge(sender: Envelope, accepted: bool, reason: string)
      modifies this`serverSequence, this`pendingTcp
      ensures Value() == SendAck(old(Value()), sender, accepted, reason)
    {
      if !commandConnected {
        return;
      }
      serverSequence := serverSequence + 1;
      pendingTcp := pendingTcp + [Ack(sender.sessionId, serverSequence, accepted, reason)];
    }

    method RejectPayload(sender: Envelope, r: Refusal)
      modifies this`serverSequence, this`pendingTcp, this`trace, session
      ensures Value() == Refuse(old(Value()), sender, r)
    {
      hide LogRefusal, SendAck, Wording;
      LogRejection(r);
      Acknowledge(sender, false, Wording(r).1);
    }

    method ValidateCommandEnvelope(sender: Envelope) returns (invalid: Option<Refusal>)
      ensures invalid == EnvelopeRefusal(Value(), sender)
    {
      if commandSender == 0 {
        return Some(NoConsole);
      }
      if sender.sessionId != SESSION_ID {
        return Some(OtherSession);
      }
      if sender.senderId != commandSender {
        return Some(OtherSender);
      }
      invalid := None;
    }

    method JoinCommandClient(sender: Envelope, role: string)
      modifies this, session
      ensures Value() == OnConsoleJoin(old(Value()), sender, role)
    {
      hide Refuse, SendAck, Perform, RoleName, Joined;
      if role != RoleName(FireControlConsole) {
        RejectPayload(sender, NotAConsole);
        return;
      }
      if sender.sessionId != SESSION_ID {
        RejectPayload(sender, JoinsOtherSession);
        return;
      }
      if commandSender != 0 && sender.senderId != commandSender {
        RejectPayload(sender, SecondConsole);
        return;
      }
      if commandSender == sender.senderId && commandConnected {
        Acknowledge(sender, true, Joined());
        return;
      }
      commandSender := sender.senderId;
      ConnectSession(FireControlConsole, commandSender);
      Acknowledge(sender, true, Joined());
    }

    method AnswerCommand(sender: Envelope, r: CommandResult, ghost kept: nat, ghost before: Server, ghost step: S.Step)
      requires session.State() == S.Apply(before.session, step)
      requires Value() == before.(session := session.State())
      requires kept == (if step == S.Reset then 0 else |before.session.log.snapshots|)
      modifies this
      ensures Value() == Decide(before, sender, step, r)
    {
      hide SendAck, SendPending, S.Apply;
      Note(kept);
      Acknowledge(sender, r.accepted, r.reason);
      SendPendingSnapshots();
    }

    method StartConfigured(sender: Envelope, scenario: Scenario)
      modifies this, session
      ensures Value() == OnStart(old(Value()), sender, scenario)
    {
      hide Refuse, Decide, S.StartScenario, S.ConfigureScenario, Scenario.Fault;
      if session.phase != Standby {
        RejectPayload(sender, NotStandby);
        return;
      }
      if scenario.name != session.scenario.name {
        RejectPayload(sender, OtherScenario);
        return;
      }
      if !scenario.Valid() {
        RejectPayload(sender, InvalidScenario(scenario.Fault()));
        return;
      }
      ghost var kept := |session.log.snapshots|;
      session.ConfigureScenario(scenario);
      Note(kept);
      ghost var configured := Value();
      kept := |session.log.snapshots|;
      var r := session.StartScenario();
      AnswerCommand(sender, r, kept, configured, S.Start);
    }

    method StopScenario(sender: Envelope, reason: string)
      modifies this, session
      ensures Value() == if old(Value()).session.phase in {Standby, Archived} then Refuse(old(Value()), sender, NothingToStop)
                         else SendPending(SendAck(Perform(old(Value()), S.Archive), sender, true, reason))
    {
      hide Refuse, SendAck, SendPending, S.ArchiveSession;
      if session.phase == Standby || session.phase == Archived {
        RejectPayload(sender, NothingToStop);
        return;
      }
      ghost var before, kept := Value(), |session.log.snapshots|;
      session.ArchiveSession();
      AnswerCommand(sender, CommandResult(true, reason, CommandAck), kept, before, S.Archive);
    }

    method ResetScenario(sender: Envelope)
      modifies this, session
      ensures var t := ResetDeliveryCursor(Perform(old(Value()), S.Reset).(cursor := NO_CURSOR));
              Value() == SendPending(SendAck(t, sender, true, S.ResetSession(old(Value()).session).1.reason))
    {
      hide SendAck, SendPending, ResetDeliveryCursor;
      var result := session.ResetSession();
      ResetIsAccepted(old(session.State()));
      hide S.ResetSession;
      Note(0);
      replayCursor := NO_CURSOR;
      ResetViewerDeliveryCursor();
      Acknowledge(sender, result.accepted, result.reason);
      SendPendingSnapshots();
    }

    lemma ResetIsAccepted(s: S.State)
      ensures S.ResetSession(s).1.accepted
    {
    }

    method ReviewReplay(sender: Envelope, requested: nat, control: string)
      requires replayCursor.InBounds()
      modifies this`replayCursor, this`serverSequence, this`pendingTcp
      ensures Value() == OnReview(old(Value()), sender, requested, control)
    {
      hide Resolve;
      var events := session.log.events;
      var resolution := Resolve(replayCursor, |events|, requested, control);
      ResolutionIsInBounds(replayCursor, |events|, requested, control);
      replayCursor := resolution.cursor;
      if !commandConnected {
        return;
      }
      var event := None;
      if events != [] {
        event := Some(events[resolution.cursor.index]);
      }
      serverSequence := serverSequence + 1;
      pendingTcp := pendingTcp + [Review(sender.sessionId, serverSequence, resolution, session.engagement.assessment.code,
                                         session.exercised, event)];
    }

    /** A command the session decides, once its envelope is known to be right. */
    method ProcessOrder(sender: Envelope, command: Command)
      requires command.Acquire? || command.Drop? || command.ReadyAsset? || command.Order?
      requires EnvelopeRefusal(Value(), sender).None?
      modifies this, session
      ensures Value() == OnCommand(old(Value()), sender, command)
    {
      hide Refuse, SendAck, SendPending, Perform, Decide, OnStart, OnConsoleJoin, OnReview, CloseConsole,
           ResetDeliveryCursor, S.RequestTrack, S.ReleaseTrack, S.ActivateAsset, S.IssueCommand, S.ResetSession,
           EnvelopeRefusal;
      ghost var before, kept := Value(), |session.log.snapshots|;
      match command {
        case Acquire(target) =>
          if target != TARGET_ID {
            RejectPayload(sender, OtherTrackTarget);
          } else {
            var r := session.RequestTrack();
            AnswerCommand(sender, r, kept, before, S.AcquireTrack);
          }
        case Drop(target) =>
          if target != TARGET_ID {
            RejectPayload(sender, OtherReleaseTarget);
          } else {
            var r := session.ReleaseTrack();
            AnswerCommand(sender, r, kept, before, S.DropTrack);
          }
        case ReadyAsset(asset) =>
          if asset != ASSET_ID {
            RejectPayload(sender, OtherInterceptor);
          } else {
            var r := session.ActivateAsset();
            AnswerCommand(sender, r, kept, before, S.ReadyInterceptor);
          }
        case Order(asset, target) =>
          if asset != ASSET_ID || target != TARGET_ID {
            RejectPayload(sender, OtherEntities);
          } else {
            var r := session.IssueCommand();
            AnswerCommand(sender, r, kept, before, S.Engage);
          }
        case _ =>
      }
    }

    method ProcessCommand(sender: Envelope, command: Command)
      requires replayCursor.InBounds()
      modifies this, session, tcp
      ensures Value() == OnCommand(old(Value()), sender, command)
      ensures tcp.buffer == if command.Leave? && EnvelopeRefusal(old(Value()), sender).None? then "" else old(tcp.buffer)
    {
      hide Refuse, SendAck, SendPending, Perform, Decide, OnStart, OnConsoleJoin, OnReview, CloseConsole,
           ResetDeliveryCursor, S.RequestTrack, S.ReleaseTrack, S.ActivateAsset, S.IssueCommand, S.ResetSession,
           EnvelopeRefusal;
      if command.JoinConsole? {
        JoinCommandClient(sender, command.role);
        return;
      }
      var invalid := ValidateCommandEnvelope(sender);
      if invalid.Some? {
        RejectPayload(sender, invalid.value);
        return;
      }
      match command {
        case Leave(reason) =>
          Acknowledge(sender, true, reason);
          FlushTcpWrites();
          CloseCommandClient(reason);
        case StartRun(scenario) =>
          StartConfigured(sender, scenario);
        case StopRun(reason) =>
          StopScenario(sender, reason);
        case ResetRun(_) =>
          ResetScenario(sender);
        case ReviewEvents(requested, control) =>
          ReviewReplay(sender, requested, control);
        case Acquire(_) | Drop(_) | ReadyAsset(_) | Order(_, _) =>
          ProcessOrder(sender, command);
        case JoinConsole(_) =>
      }
    }

    /** One frame from the console. A console that leaves takes the buffered bytes with it. */
    method ProcessTcpFrame(frame: Frame)
      requires replayCursor.InBounds() && commandConnected
      modifies this, session, tcp
      ensures Value() == OnRequest(old(Value()), RequestOf(frame)) && replayCursor.InBounds()
      ensures tcp.buffer == if commandConnected then old(tcp.buffer) else ""
    {
      hide OnCommand, LogRefusal, SendAck, RequestOf, EnvelopeRefusal, S.Apply;
      ghost var v := Value();
      Consequences(v, RequestOf(frame));
      match RequestOf(frame)
      case Commanded(sender, command) => ProcessCommand(sender, command);
      case BadReview(reason) => Acknowledge(Envelope(SESSION_ID, SERVER_SENDER_ID, 0), false, reason);
      case Unreadable(reason) => LogRejection(UnreadableFrame(reason));
    }

    lemma Consequences(v: Server, request: Request)
      requires v.console && v.cursor.InBounds()
      ensures var t := OnRequest(v, request);
              && t.cursor.InBounds()
              && (!t.console <==> request.Commanded? && request.command.Leave? && EnvelopeRefusal(v, request.sender).None?)
    {
      hide OnCommand, Perform, Wording, EnvelopeRefusal;
      ServerGrowth.RequestGrows(v, request);
      Answers.SessionStaysSilent();
      if request.Commanded? { Answers.EveryCommandIsAnswered(v, request.sender, request.command); }
    }

    /** Obeys the binary frames that are buffered, one after another. */
    method DrainFrames() returns (failed: bool)
      requires replayCursor.InBounds() && (commandConnected || tcp.buffer == "")
      modifies this, session, tcp
      ensures Link(Value(), tcp.buffer, failed) == Pump(NextBinary, FrameRequest, old(Value()), old(tcp.buffer))
      ensures replayCursor.InBounds()
    {
      hide NextBinary, OnRequest, RequestOf, EncodeBinary, Unfinished, Fits, SimulationSession.State;
      BinaryIsIncremental();
      EmptyWaits();
      while true
        invariant replayCursor.InBounds() && (commandConnected || tcp.buffer == "")
        invariant Pump(NextBinary, FrameRequest, Value(), tcp.buffer) == Pump(NextBinary, FrameRequest, old(Value()), old(tcp.buffer))
        decreases |tcp.buffer|
      {
        var r := tcp.TryDecodeBinaryFrame();
        match r
        case Waiting => return false;
        case Faulted => return true;
        case Decoded(frame) => ProcessTcpFrame(frame);
      }
    }

    /** Obeys the lines that are buffered; empty ones are skipped. */
    method DrainLines()
      requires replayCursor.InBounds() && (commandConnected || tcp.buffer == "")
      modifies this, session, tcp
      ensures Link(Value(), tcp.buffer, false) == Pump(NextLine, LineRequest, old(Value()), old(tcp.buffer))
      ensures replayCursor.InBounds()
    {
      hide DecodeJson, OnRequest, RequestOf, SimulationSession.State;
      while Find(tcp.buffer, "\n", 0).Some?
        invariant replayCursor.InBounds() && (commandConnected || tcp.buffer == "")
        invariant Pump(NextLine, LineRequest, Value(), tcp.buffer) == Pump(NextLine, LineRequest, old(Value()), old(tcp.buffer))
        decreases |tcp.buffer|
      {
        var at := Find(tcp.buffer, "\n", 0).value;
        var wire := tcp.buffer[..at];
        tcp.buffer := tcp.buffer[at + 1..];
        if wire != "" {
          ProcessTcpWire(wire);
        }
      }
    }

    /** One JSON line; what cannot be decoded is logged. */
    method ProcessTcpWire(wire: string)
      requires replayCursor.InBounds() && commandConnected && wire != ""
      modifies this, session, tcp
      ensures Value() == Obey(old(Value()), LineRequest(wire)) && replayCursor.InBounds()
      ensures tcp.buffer == if commandConnected then old(tcp.buffer) else ""
    {
      hide OnCommand, LogRefusal, RequestOf, DecodeJson;
      ghost var request := LineRequest(wire).value;
      Consequences(Value(), request);
      match DecodeJson(wire)
      case Ok(frame) => ProcessTcpFrame(frame);
      case Error(message) => LogRejection(UnreadableFrame(message));
    }

    /** One turn of the receive loop: everything that has arrived is buffered, and the frames in the
        buffer are obeyed. `closed` says that the console has closed the connection; `failed`, that a
        faulty binary header threw. */
    method ReceiveTcpMessages(chunks: seq<string>, closed: bool) returns (failed: bool)
      requires replayCursor.InBounds()
      modifies this, session, tcp
      ensures var link := Link(old(Value()), old(tcp.buffer), false);
              Link(Value(), tcp.buffer, failed)
              == if options.binary then Pass(NextBinary, FrameRequest, link, Concat(chunks), closed)
                 else Pass(NextLine, LineRequest, link, Concat(chunks), closed)
      ensures replayCursor.InBounds()
    {
      hide NextBinary, NextLine, Pump, CloseConsole;
      failed := false;
      if !commandConnected {
        return;
      }
      tcp.Append(chunks);
      if closed {
        ClosingIsQuiet(Value());
        DisconnectClient(FireControlConsole, CLOSED);
      }
      if options.binary {
        failed := DrainFrames();
      } else {
        DrainLines();
      }
    }

    lemma ClosingIsQuiet(v: Server)
      ensures var t := CloseConsole(v, CLOSED);
              && t.cursor == v.cursor
              && Pump(NextBinary, FrameRequest, t, "") == Link(t, "", false)
              && Pump(NextLine, LineRequest, t, "") == Link(t, "", false)
    {
      hide Perform, CloseConsole;
      ServerGrowth.CloseKeepsCursor(v, CLOSED);
      EmptyWaits();
      NoNewline("");
      PumpWaits(NextBinary, FrameRequest, CloseConsole(v, CLOSED), "");
      PumpWaits(NextLine, LineRequest, CloseConsole(v, CLOSED), "");
    }
  }
}
