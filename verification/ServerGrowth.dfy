/** What no input to the live server does: take a snapshot out of the history, change the options,
    change what is remembered of a registration, break the order of the replies, or lead the replay
    cursor out of its bounds. */
module ServerGrowth {
  import opened Text
  import opened SessionTypes
  import opened Session
  import opened LiveServer
  import ReplayCursor

  predicate SameRegistration(v: Server, t: Server) {
    t.viewer == v.viewer && t.trace.registeredAt == v.trace.registeredAt && t.trace.retainedAt == v.trace.retainedAt
  }

  /** Replies are numbered in the order they were made, none above `last`. */
  predicate InOrder(replies: seq<Reply>, last: nat) {
    && (forall i, j :: 0 <= i < j < |replies| ==> replies[i].sequence < replies[j].sequence)
    && (forall i :: 0 <= i < |replies| ==> replies[i].sequence <= last)
  }

  /** Everything the console's connections ever took, and then what is still waiting. */
  function Replies(v: Server): seq<Reply> { v.trace.taken + v.replies }

  predicate Extends(v: Server, t: Server) {
    && v.trace.history <= t.trace.history && t.options == v.options && (v.cursor.InBounds() ==> t.cursor.InBounds())
    && (InOrder(Replies(v), v.serverSequence) ==> InOrder(Replies(t), t.serverSequence))
  }

  predicate Grows(v: Server, t: Server) { Extends(v, t) && (t.viewer.None? || SameRegistration(v, t)) }

  /** Whether a join registers the display anew. */
  predicate Registers(v: Server, sender: Envelope, display: bool, from: Endpoint) {
    && display && sender.sessionId == SESSION_ID
    && (v.viewer.None? || v.viewerSender == 0 || sender.senderId == v.viewerSender)
    && (v.viewer != Some(from) || sender.senderId != v.viewerSender)
  }

  lemma SendPendingTouches(v: Server)
    ensures var t := SendPending(v); t == v.(pending := t.pending, lastSent := t.lastSent, trace := v.trace.(queued := t.trace.queued))
  {
    hide QueueBatch;
    if v.viewer.Some? { QueueBatchTouches(v, Batch(v)); }
  }

  lemma {:induction false} QueueBatchTouches(v: Server, limit: nat)
    requires v.viewer.Some?
    ensures var t := QueueBatch(v, limit); t == v.(pending := t.pending, lastSent := t.lastSent, trace := v.trace.(queued := t.trace.queued))
    decreases limit
  {
    if limit > 0 && v.lastSent < |v.session.log.snapshots| {
      QueueBatchTouches(QueueSnapshot(v, v.session.log.snapshots[v.lastSent]).(lastSent := v.lastSent + 1), limit - 1);
    }
  }

  lemma ReplyIsNext(v: Server, r: Reply)
    requires r.sequence == v.serverSequence + 1
    ensures InOrder(Replies(v), v.serverSequence) ==> InOrder(v.trace.taken + (v.replies + [r]), v.serverSequence + 1)
  {
    assert v.trace.taken + (v.replies + [r]) == Replies(v) + [r];
  }

  lemma AckGrows(v: Server, sender: Envelope, accepted: bool, reason: string)
    ensures Grows(v, SendAck(v, sender, accepted, reason))
  {
    ReplyIsNext(v, Ack(sender.sessionId, v.serverSequence + 1, accepted, reason));
    hide InOrder;
  }

  lemma ReviewGrows(v: Server, sender: Envelope, requested: nat, control: string)
    ensures Grows(v, OnReview(v, sender, requested, control))
  {
    hide InOrder, ReplayCursor.Resolve;
    var t := OnReview(v, sender, requested, control);
    if v.cursor.InBounds() { ReplayCursor.ResolutionIsInBounds(v.cursor, |v.session.log.events|, requested, control); }
    if v.console { ReplyIsNext(v, t.replies[|v.replies|]); }
  }

  lemma FlushGrows(v: Server)
    ensures Grows(v, FlushReplies(v))
  {
    hide InOrder;
    var n := if v.room < |v.replies| then v.room else |v.replies|;
    assert v.trace.taken + v.replies[..n] + v.replies[n..] == v.trace.taken + v.replies;
  }

  lemma CloseGrows(v: Server, reason: string)
    ensures Grows(v, CloseConsole(v, reason))
  {
    PartsGrow();
    CloseKeepsOrder(v);
    hide Perform, InOrder;
  }

  lemma CloseKeepsCursor(v: Server, reason: string)
    ensures CloseConsole(v, reason).cursor == v.cursor && !CloseConsole(v, reason).console
  {
    hide Apply;
  }

  /** What still waits when the connection closes is lost. */
  lemma CloseKeepsOrder(v: Server)
    ensures InOrder(Replies(v), v.serverSequence) ==> InOrder(v.trace.taken + [], v.serverSequence)
  {
    assert forall i :: 0 <= i < |v.trace.taken| ==> Replies(v)[i] == v.trace.taken[i];
  }

  lemma PartsGrow()
    ensures forall v: Server, step: Step {:trigger Perform(v, step)} :: Grows(v, Perform(v, step))
    ensures forall v: Server {:trigger SendPending(v)} :: Grows(v, SendPending(v))
  {
    hide Apply, SendPending;
    forall v: Server ensures Grows(v, SendPending(v)) { SendPendingTouches(v); }
  }

  lemma DriverGrows(v: Server, nowMs: int, role: Role, reason: string)
    ensures Grows(v, OnTick(v, nowMs)) && Grows(v, OnArchive(v))
    ensures Grows(v, TimeoutViewer(v, role, reason)) && Grows(v, OnDisconnect(v, role, reason))
    ensures Grows(v, OnAccept(v))
  {
    PartsGrow();
    CloseGrows(v, reason);
    hide Perform, SendPending, Wording, CloseConsole, InOrder;
  }

  lemma HeartbeatGrows(v: Server, sender: Envelope, n: nat, m: nat, wall: WallTimes, from: Endpoint, nowMs: int)
    ensures Grows(v, OnHeartbeat(v, sender, n, m, wall, from, nowMs))
  {
    PartsGrow();
    hide Perform, SendPending;
  }

  /** A registration is remembered with the newest number and the retained snapshots of its moment. */
  lemma JoinGrows(v: Server, sender: Envelope, display: bool, from: Endpoint, nowMs: int)
    ensures var t := OnJoin(v, sender, display, from, nowMs);
            if Registers(v, sender, display, from) then
              && Extends(v, t) && t.viewer == Some(from)
              && t.trace.registeredAt == v.session.log.sequence && t.trace.retainedAt == |v.session.log.snapshots|
            else Grows(v, t)
  {
    hide SendPending, Wording, Apply, Revive;
    ReviveGrows(v.(heartbeatMs := Some(nowMs)));
    var bound := ResetDeliveryCursor(Bind(v, sender.senderId, from, nowMs));
    SendPendingTouches(Perform(bound, Connect(TacticalDisplay, sender.senderId)));
  }

  lemma ReviveGrows(v: Server)
    ensures Grows(v, Revive(v))
  {
    PartsGrow();
    hide Perform, SendPending;
  }

  lemma AnswersGrow()
    ensures forall v: Server, sender: Envelope, r: Refusal {:trigger Refuse(v, sender, r)} :: Grows(v, Refuse(v, sender, r))
    ensures forall v: Server, sender: Envelope, step: Step, r: CommandResult {:trigger Decide(v, sender, step, r)} ::
              Grows(v, Decide(v, sender, step, r))
    ensures forall v: Server, sender: Envelope, accepted: bool, reason: string {:trigger SendAck(v, sender, accepted, reason)} ::
              Grows(v, SendAck(v, sender, accepted, reason))
  {
    PartsGrow();
    forall v: Server, sender: Envelope, accepted: bool, reason: string ensures Grows(v, SendAck(v, sender, accepted, reason)) {
      AckGrows(v, sender, accepted, reason);
    }
    hide Perform, SendPending, SendAck, Wording, InOrder;
  }

  lemma StartGrows(v: Server, sender: Envelope, scenario: Scenario)
    ensures Grows(v, OnStart(v, sender, scenario))
  {
    PartsGrow();
    AnswersGrow();
    hide Perform, Refuse, Decide, StartScenario, Scenario.Valid;
  }

  lemma TalkGrows(v: Server, sender: Envelope, role: string, reason: string)
    ensures Grows(v, OnConsoleJoin(v, sender, role))
    ensures var t := ResetDeliveryCursor(Perform(v, Reset).(cursor := ReplayCursor.NO_CURSOR));
            Grows(v, SendPending(SendAck(t, sender, true, reason)))
    ensures Grows(v, SendPending(SendAck(Perform(v, Archive), sender, true, reason)))
  {
    hide Perform, SendPending, Refuse, SendAck, InOrder;
    PartsGrow();
    AnswersGrow();
  }

  lemma CommandGrows(v: Server, sender: Envelope, command: Command)
    ensures Grows(v, OnCommand(v, sender, command))
  {
    hide Perform, SendPending, Refuse, Decide, SendAck, CloseConsole, OnStart, OnReview, OnConsoleJoin,
         ResetDeliveryCursor, RequestTrack, ReleaseTrack, ActivateAsset, IssueCommand, ResetSession, EnvelopeRefusal,
         FlushReplies, InOrder;
    AnswersGrow();
    match command {
      case Leave(reason) =>
        var t := SendAck(v, sender, true, reason);
        FlushGrows(t);
        CloseGrows(FlushReplies(t), reason);
      case JoinConsole(role) => TalkGrows(v, sender, role, "");
      case StartRun(scenario) => StartGrows(v, sender, scenario);
      case StopRun(reason) => TalkGrows(v, sender, "", reason);
      case ResetRun(_) => TalkGrows(v, sender, "", ResetSession(v.session).1.reason);
      case ReviewEvents(requested, control) => ReviewGrows(v, sender, requested, control);
      case _ =>
    }
  }

  lemma RequestGrows(v: Server, request: Request)
    ensures Grows(v, OnRequest(v, request))
  {
    PartsGrow();
    AnswersGrow();
    if request.Commanded? { CommandGrows(v, request.sender, request.command); }
    hide Perform, SendAck, OnCommand, Wording, InOrder;
  }

  lemma HandleGrows(v: Server, input: Input)
    ensures Extends(v, Handle(v, input))
    ensures !input.DisplayJoin? ==> Grows(v, Handle(v, input))
  {
    hide Registers, InOrder, FlushReplies, OnTick, OnArchive, OnDisconnect, TimeoutViewer, OnAccept, CloseConsole,
         OnRequest, OnJoin, OnHeartbeat;
    match input
    case TickAt(nowMs) => DriverGrows(v, nowMs, TacticalDisplay, "");
    case ArchiveCall => DriverGrows(v, 0, TacticalDisplay, "");
    case DisconnectCall(role, reason) => DriverGrows(v, 0, role, reason);
    case TimeoutCall(role, reason) => DriverGrows(v, 0, role, reason);
    case AcceptConsole => DriverGrows(v, 0, TacticalDisplay, "");
    case ConsoleClosed(reason) => CloseGrows(v, reason);
    case ConsoleFrame(request) => RequestGrows(v, request);
    case DisplayJoin(sender, display, from, nowMs) => JoinGrows(v, sender, display, from, nowMs);
    case DisplayHeartbeat(sender, n, m, wall, from, nowMs) => HeartbeatGrows(v, sender, n, m, wall, from, nowMs);
    case SendNext =>
    case FlushConsole(room) => FlushGrows(v.(room := room));
  }
}
