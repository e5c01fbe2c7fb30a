/** Latest-only and batched delivery: servers that differ only in their delivery options go through
    the same sessions and bindings, and differ only in how many old snapshots they replay to a
    display that registers. */
module DeliveryModes {
  import opened Text
  import opened SessionTypes
  import opened Session
  import opened LiveServer
  import opened Delivery
  import opened LiveRuns
  import opened ReplayCursor
  import opened ServerGrowth

  /** Equal but for the delivery options and what they govern. */
  ghost predicate Alike(v: Server, w: Server) {
    && w.options.heartbeatTimeoutMs == v.options.heartbeatTimeoutMs
    && w == v.(options := w.options, pending := w.pending, lastSent := w.lastSent, trace := v.trace.(queued := w.trace.queued))
  }

  lemma SendPendingAlike(v: Server, w: Server)
    requires Alike(v, w)
    ensures Alike(SendPending(v), SendPending(w))
  {
    SendPendingTouches(v);
    SendPendingTouches(w);
    hide SendPending;
  }

  lemma PerformAlike(v: Server, w: Server, step: Step)
    requires Alike(v, w)
    ensures Alike(Perform(v, step), Perform(w, step)) && Alike(SendPending(Perform(v, step)), SendPending(Perform(w, step)))
  {
    hide Apply, SendPending;
    SendPendingAlike(Perform(v, step), Perform(w, step));
  }

  lemma TimeoutAlike(v: Server, w: Server, role: Role, reason: string)
    requires Alike(v, w)
    ensures Alike(TimeoutViewer(v, role, reason), TimeoutViewer(w, role, reason))
  {
    hide Perform, SendPending;
    var t, u := Perform(v, Timeout(role, reason)), Perform(w, Timeout(role, reason));
    PerformAlike(v, w, Timeout(role, reason));
    SendPendingAlike(ClearBinding(t), ClearBinding(u));
  }

  lemma TickAlike(v: Server, w: Server, nowMs: int)
    requires Alike(v, w)
    ensures Alike(OnTick(v, nowMs), OnTick(w, nowMs))
  {
    hide Perform, SendPending, TimeoutViewer;
    TimeoutAlike(v, w, TacticalDisplay, SILENT);
    PerformAlike(MaybeTimeout(v, nowMs), MaybeTimeout(w, nowMs), Tick);
  }

  lemma CloseConsoleAlike(v: Server, w: Server, reason: string)
    requires Alike(v, w)
    ensures Alike(CloseConsole(v, reason), CloseConsole(w, reason))
  {
    hide Perform;
    PerformAlike(v.(console := false, replies := []), w.(console := false, replies := []),
                 Disconnect(FireControlConsole, reason));
  }

  lemma ReviveAlike(v: Server, w: Server)
    requires Alike(v, w)
    ensures Alike(Revive(v), Revive(w))
  {
    hide Perform, SendPending;
    PerformAlike(v, w, Connect(TacticalDisplay, v.viewerSender));
  }

  lemma HeartbeatAlike(v: Server, w: Server, sender: Envelope, heartbeatId: nat, clientSendMs: nat,
                       wall: WallTimes, from: Endpoint, nowMs: int)
    requires Alike(v, w)
    ensures Alike(OnHeartbeat(v, sender, heartbeatId, clientSendMs, wall, from, nowMs),
                  OnHeartbeat(w, sender, heartbeatId, clientSendMs, wall, from, nowMs))
  {
    hide Revive;
    var ack := HeartbeatAck(from, v.serverSequence + 1, heartbeatId, clientSendMs, wall);
    ReviveAlike(v.(heartbeatMs := Some(nowMs), serverSequence := v.serverSequence + 1, pending := v.pending + [ack]),
                w.(heartbeatMs := Some(nowMs), serverSequence := w.serverSequence + 1, pending := w.pending + [ack]));
  }

  lemma JoinAlike(v: Server, w: Server, sender: Envelope, display: bool, from: Endpoint, nowMs: int)
    requires Alike(v, w)
    ensures Alike(OnJoin(v, sender, display, from, nowMs), OnJoin(w, sender, display, from, nowMs))
  {
    hide Revive, Perform, SendPending, Wording;
    PerformAlike(v, w, TransportRejection(Wording(SecondDisplay).0, Wording(SecondDisplay).1, Wording(SecondDisplay).2));
    ReviveAlike(v.(heartbeatMs := Some(nowMs)), w.(heartbeatMs := Some(nowMs)));
    PerformAlike(
      ResetDeliveryCursor(Bind(v, sender.senderId, from, nowMs)),
      ResetDeliveryCursor(Bind(w, sender.senderId, from, nowMs)),
      Connect(TacticalDisplay, sender.senderId));
  }

  lemma RefuseAlike(v: Server, w: Server, sender: Envelope, r: Refusal)
    requires Alike(v, w)
    ensures Alike(LogRefusal(v, r), LogRefusal(w, r)) && Alike(Refuse(v, sender, r), Refuse(w, sender, r))
  {
    hide Perform, Wording;
    PerformAlike(v, w, TransportRejection(Wording(r).0, Wording(r).1, Wording(r).2));
  }

  lemma DecideAlike(v: Server, w: Server, sender: Envelope, step: Step, r: CommandResult)
    requires Alike(v, w)
    ensures Alike(Decide(v, sender, step, r), Decide(w, sender, step, r))
  {
    hide Perform, SendPending;
    PerformAlike(v, w, step);
    SendPendingAlike(SendAck(Perform(v, step), sender, r.accepted, r.reason),
                     SendAck(Perform(w, step), sender, r.accepted, r.reason));
  }

  lemma AckAlike(v: Server, w: Server, sender: Envelope)
    requires Alike(v, w)
    ensures forall reason: string :: Alike(SendAck(v, sender, true, reason), SendAck(w, sender, true, reason))
  {
  }

  lemma ConsoleJoinAlike(v: Server, w: Server, sender: Envelope, role: string)
    requires Alike(v, w)
    ensures Alike(OnConsoleJoin(v, sender, role), OnConsoleJoin(w, sender, role))
  {
    hide Perform, Refuse, SendAck, RoleName, Joined;
    RefuseAlike(v, w, sender, NotAConsole);
    RefuseAlike(v, w, sender, JoinsOtherSession);
    RefuseAlike(v, w, sender, SecondConsole);
    var t, u := v.(consoleSender := sender.senderId), w.(consoleSender := sender.senderId);
    PerformAlike(t, u, Connect(FireControlConsole, sender.senderId));
    AckAlike(v, w, sender);
    AckAlike(Perform(t, Connect(FireControlConsole, sender.senderId)), Perform(u, Connect(FireControlConsole, sender.senderId)),
             sender);
  }

  lemma StartAlike(v: Server, w: Server, sender: Envelope, scenario: Scenario)
    requires Alike(v, w)
    ensures Alike(OnStart(v, sender, scenario), OnStart(w, sender, scenario))
  {
    hide Perform, Refuse, Decide, StartScenario, Scenario.Valid, Scenario.Fault;
    RefuseAlike(v, w, sender, NotStandby);
    RefuseAlike(v, w, sender, OtherScenario);
    if !scenario.Valid() { RefuseAlike(v, w, sender, InvalidScenario(scenario.Fault())); }
    PerformAlike(v, w, Configure(scenario));
    var t, u := Perform(v, Configure(scenario)), Perform(w, Configure(scenario));
    DecideAlike(t, u, sender, Start, StartScenario(t.session).1);
  }

  lemma ResetAlike(v: Server, w: Server, sender: Envelope, reason: string)
    requires Alike(v, w)
    ensures Alike(SendPending(SendAck(ResetDeliveryCursor(Perform(v, Reset).(cursor := NO_CURSOR)), sender, true, reason)),
                  SendPending(SendAck(ResetDeliveryCursor(Perform(w, Reset).(cursor := NO_CURSOR)), sender, true, reason)))
  {
    hide Perform, SendPending;
    PerformAlike(v, w, Reset);
    SendPendingAlike(SendAck(ResetDeliveryCursor(Perform(v, Reset).(cursor := NO_CURSOR)), sender, true, reason),
                     SendAck(ResetDeliveryCursor(Perform(w, Reset).(cursor := NO_CURSOR)), sender, true, reason));
  }

  lemma StopAlike(v: Server, w: Server, sender: Envelope, reason: string)
    requires Alike(v, w)
    ensures Alike(SendPending(SendAck(Perform(v, Archive), sender, true, reason)),
                  SendPending(SendAck(Perform(w, Archive), sender, true, reason)))
  {
    DecideAlike(v, w, sender, Archive, CommandResult(true, reason, CommandAck));
    hide Perform, SendPending, SendAck, Alike;
  }

  lemma CommandAlike(v: Server, w: Server, sender: Envelope, command: Command)
    requires Alike(v, w)
    ensures Alike(OnCommand(v, sender, command), OnCommand(w, sender, command))
  {
    hide Perform, SendPending, ResetDeliveryCursor, Refuse, Decide, CloseConsole, OnStart, OnConsoleJoin,
         RequestTrack, ReleaseTrack, ActivateAsset, IssueCommand, ResetSession, Resolve;
    assert EnvelopeRefusal(v, sender) == EnvelopeRefusal(w, sender);
    if command.JoinConsole? {
      ConsoleJoinAlike(v, w, sender, command.role);
    } else if EnvelopeRefusal(v, sender).Some? {
      RefuseAlike(v, w, sender, EnvelopeRefusal(v, sender).value);
    } else {
      match command {
        case Leave(reason) =>
          CloseConsoleAlike(FlushReplies(SendAck(v, sender, true, reason)), FlushReplies(SendAck(w, sender, true, reason)), reason);
        case StartRun(scenario) => StartAlike(v, w, sender, scenario);
        case StopRun(reason) => RefuseAlike(v, w, sender, NothingToStop); StopAlike(v, w, sender, reason);
        case ResetRun(_) => ResetAlike(v, w, sender, ResetSession(v.session).1.reason);
        case Acquire(target) =>
          RefuseAlike(v, w, sender, OtherTrackTarget);
          DecideAlike(v, w, sender, AcquireTrack, RequestTrack(v.session).1);
        case Drop(target) =>
          RefuseAlike(v, w, sender, OtherReleaseTarget);
          DecideAlike(v, w, sender, DropTrack, ReleaseTrack(v.session).1);
        case ReadyAsset(asset) =>
          RefuseAlike(v, w, sender, OtherInterceptor);
          DecideAlike(v, w, sender, ReadyInterceptor, ActivateAsset(v.session).1);
        case Order(asset, target) =>
          RefuseAlike(v, w, sender, OtherEntities);
          DecideAlike(v, w, sender, Engage, IssueCommand(v.session).1);
        case ReviewEvents(requested, control) =>
      }
    }
  }

  lemma DisconnectAlike(v: Server, w: Server, role: Role, reason: string)
    requires Alike(v, w)
    ensures Alike(OnDisconnect(v, role, reason), OnDisconnect(w, role, reason))
  {
    hide Perform, CloseConsole;
    CloseConsoleAlike(v, w, reason);
    PerformAlike(ClearBinding(v), ClearBinding(w), Disconnect(TacticalDisplay, reason));
  }

  lemma RequestAlike(v: Server, w: Server, request: Request)
    requires Alike(v, w)
    ensures Alike(OnRequest(v, request), OnRequest(w, request))
  {
    hide OnCommand, LogRefusal;
    match request
    case Commanded(sender, command) => CommandAlike(v, w, sender, command);
    case BadReview(_) =>
    case Unreadable(reason) => RefuseAlike(v, w, Envelope(0, 0, 0), UnreadableFrame(reason));
  }

  lemma HandleAlike(v: Server, w: Server, input: Input)
    requires Alike(v, w)
    ensures Alike(Handle(v, input), Handle(w, input))
  {
    hide OnTick, OnDisconnect, TimeoutViewer, LogRefusal, CloseConsole, OnRequest, OnJoin, OnHeartbeat, Perform,
         SendPending;
    match input
    case TickAt(nowMs) => TickAlike(v, w, nowMs);
    case ArchiveCall => PerformAlike(v, w, Archive);
    case DisconnectCall(role, reason) => DisconnectAlike(v, w, role, reason);
    case TimeoutCall(role, reason) => TimeoutAlike(v, w, role, reason);
    case AcceptConsole => RefuseAlike(v, w, Envelope(0, 0, 0), SecondConnection);
    case ConsoleClosed(reason) => CloseConsoleAlike(v, w, reason);
    case ConsoleFrame(request) => RequestAlike(v, w, request);
    case DisplayJoin(sender, display, from, nowMs) => JoinAlike(v, w, sender, display, from, nowMs);
    case DisplayHeartbeat(sender, heartbeatId, clientSendMs, wall, from, nowMs) =>
      HeartbeatAlike(v, w, sender, heartbeatId, clientSendMs, wall, from, nowMs);
    case SendNext =>
    case FlushConsole(_) =>
  }

  lemma {:induction false} ServeAlike(v: Server, w: Server, inputs: seq<Input>)
    requires Alike(v, w)
    ensures Alike(Serve(v, inputs), Serve(w, inputs))
    decreases |inputs|
  {
    hide Handle, Alike;
    if inputs != [] {
      HandleAlike(v, w, inputs[0]);
      ServeAlike(Handle(v, inputs[0]), Handle(w, inputs[0]), inputs[1..]);
    }
  }

  /** The same inputs under different delivery options: the sessions, bindings and replies are the
      same. What was queued for a registered display differs only in the snapshots replayed at its
      registration, all of them recorded before it: from there on the lists are the same. */
  lemma ModesAgree(a: Options, b: Options, cfg: Config, scenario: Scenario, inputs: seq<Input>)
    requires cfg.Valid() && scenario.Valid() && a.heartbeatTimeoutMs == b.heartbeatTimeoutMs
    ensures var v, w := Serve(Launch(a, Init(cfg, scenario)), inputs), Serve(Launch(b, Init(cfg, scenario)), inputs);
            && Alike(v, w)
            && (v.viewer.Some? ==>
                  var m, n := Replays(a, v.trace.retainedAt), Replays(b, v.trace.retainedAt);
                  && |v.trace.queued| - m == |w.trace.queued| - n >= 0
                  && v.trace.queued[m..] == w.trace.queued[n..]
                  && (forall i :: 0 <= i < m ==> v.trace.queued[i] == v.trace.registeredAt - m + 1 + i)
                  && (forall i :: 0 <= i < n ==> w.trace.queued[i] == v.trace.registeredAt - n + 1 + i))
  {
    hide Serve, NetOf, Config.Valid, Scenario.Valid, Init, Reachable, Historic, NewestSent, AllGenuine, Grows;
    var p, q := Launch(a, Init(cfg, scenario)), Launch(b, Init(cfg, scenario));
    ServeAlike(p, q, inputs);
    ServeGrows(p, inputs);
    ServeGrows(q, inputs);
    LaunchServes(a, cfg, scenario);
    LaunchServes(b, cfg, scenario);
    ServeKeepsServing(p, inputs, {});
    ServeKeepsServing(q, inputs, {});
  }
}
