/** What every input to the live server keeps, and so holds in every run of it. `net` is every
    datagram the server ever handed to the network. */
module LiveRuns {
  import opened Text
  import opened SessionTypes
  import opened Session
  import opened Names
  import opened Broadcast
  import opened ReplayCursor
  import opened LiveServer
  import opened Delivery
  import opened ServerGrowth
  import R = Recording
  import T = TrackRuns

  /** A datagram tells about a snapshot that was really recorded. */
  ghost predicate Genuine(history: seq<Snapshot>, d: Datagram) {
    match d
    case SnapshotGram(_, p) => exists k :: 0 <= k < |history| && p == ToSnapshotPayload(history[k])
    case TelemetryGram(_, q) => exists k :: 0 <= k < |history| && TellsOf(q, history[k])
    case HeartbeatAck(_, _, _, _, _) => true
  }

  predicate TellsOf(q: TelemetryPayload, x: Snapshot) {
    && q.envelope == x.envelope && q.sample == x.telemetry && q.connection == ConnectionText(x.displayConnection)
    && q.eventTick <= x.header.tick
  }

  ghost predicate AllGenuine(v: Server, net: set<Datagram>) {
    && (forall d <- v.pending :: Genuine(v.trace.history, d))
    && (forall d <- net :: Genuine(v.trace.history, d))
  }

  /** The newest snapshot is queued for the display, or already handed to the network. */
  ghost predicate NewestSent(v: Server, net: set<Datagram>) {
    v.viewer.Some? && Backlog(v) == 0 && v.session.log.snapshots != [] && v.trace.history != [] ==>
      var d := SnapshotGram(v.viewer.value, ToSnapshotPayload(R.Last(v.trace.history)));
      d in v.pending || d in net
  }

  /** A datagram that tells the display about a snapshot's telemetry. */
  predicate Tells(d: Datagram, viewer: Endpoint, x: Snapshot) {
    d.TelemetryGram? && d.to == viewer && TellsOf(d.telemetry, x)
  }

  /** So is a telemetry datagram of it. */
  ghost predicate NewestTold(v: Server, net: set<Datagram>) {
    v.viewer.Some? && Backlog(v) == 0 && v.session.log.snapshots != [] && v.trace.history != [] ==>
      exists d :: Tells(d, v.viewer.value, R.Last(v.trace.history)) && (d in v.pending || d in net)
  }

  /** Snapshots ever recorded are stamped in the order of their numbers, none later than now. */
  ghost predicate Timed(v: Server) {
    && v.session.cfg.intervalMs > 0
    && (forall i :: 0 <= i < |v.trace.history| ==> v.trace.history[i].telemetry.lastSnapshotTimestampMs <= v.session.log.clockMs)
    && (forall i, j :: 0 <= i < j < |v.trace.history| ==>
          v.trace.history[i].telemetry.lastSnapshotTimestampMs < v.trace.history[j].telemetry.lastSnapshotTimestampMs)
  }

  /** Every snapshot ever recorded of an active, not yet archived track keeps the tracker's bounds. */
  ghost predicate TracksAreReadable(v: Server) {
    forall i :: 0 <= i < |v.trace.history| ==> T.Readable(v.trace.history[i].track, v.trace.history[i].phase)
  }

  /** Between two inputs, and in the middle of one before snapshots are sent. */
  ghost predicate Sound(v: Server, net: set<Datagram>) {
    && Reachable(v.session) && Timed(v) && TracksAreReadable(v) && Deliverable(v) && AllGenuine(v, net) && NewestSent(v, net)
    && NewestTold(v, net) && v.cursor.InBounds()
  }

  ghost predicate Serving(v: Server, net: set<Datagram>) {
    Sound(v, net) && (v.viewer.Some? ==> Backlog(v) == 0)
  }

  // ---------------------------------------------------------------------------
  // Parts of operations

  lemma GenuineStays(a: seq<Snapshot>, b: seq<Snapshot>)
    requires a <= b
    ensures forall d :: Genuine(a, d) ==> Genuine(b, d)
  {
    hide ToSnapshotPayload, TellsOf;
    assert forall k :: 0 <= k < |a| ==> a[k] == b[k];
  }

  lemma StaysTimed(v: Server, step: Step)
    requires Timed(v) && Historic(v)
    ensures Timed(Perform(v, step))
  {
    hide Apply, R.Recorded, Perform;
    var base, t := R.Base(v.session, step), Apply(v.session, step);
    R.StepRecords(v.session, step);
    R.ConfigAndTick(v.session, step);
    NewSnapshots(base, t);
    NewStamp(base, t);
    PerformOutcome(v, step);
    GrownIsTimed(v, Perform(v, step), base);
  }

  lemma StaysReadable(v: Server, step: Step)
    requires TracksAreReadable(v) && Historic(v) && Reachable(v.session)
    ensures TracksAreReadable(Perform(v, step))
  {
    hide Apply, Perform, Reachable, T.Readable;
    var t := Perform(v, step);
    PerformOutcome(v, step);
    ReachableStep(v.session, step);
    T.ReachableTracksAreBounded(t.session);
    forall i | 0 <= i < |t.trace.history| ensures T.Readable(t.trace.history[i].track, t.trace.history[i].phase) {
      if i < |v.trace.history| {
        assert t.trace.history[i] == v.trace.history[i];
      } else {
        assert t.trace.history[i] == t.session.log.snapshots[|t.session.log.snapshots| - 1];
      }
    }
  }

  lemma GrownIsTimed(v: Server, w: Server, base: Log)
    requires Timed(v) && w.session.cfg == v.session.cfg && v.trace.history <= w.trace.history && |w.trace.history| <= |v.trace.history| + 1
    requires base.clockMs == v.session.log.clockMs <= w.session.log.clockMs
    requires |w.trace.history| > |v.trace.history| ==>
               base.clockMs < w.session.log.clockMs == R.Last(w.trace.history).telemetry.lastSnapshotTimestampMs
    ensures Timed(w)
  {
    assert forall i :: 0 <= i < |v.trace.history| ==> w.trace.history[i] == v.trace.history[i];
  }

  lemma NewStamp(base: Log, t: State)
    requires R.Recorded(base, t) && t.cfg.intervalMs > 0
    ensures base.clockMs <= t.log.clockMs
    ensures |t.log.snapshots| > |base.snapshots| ==>
              base.clockMs < t.log.clockMs == R.Last(t.log.snapshots).telemetry.lastSnapshotTimestampMs
  {
    hide R.Stamped;
    var d, n, k := t.cfg.intervalMs, |t.log.events| - |base.events|, |t.log.snapshots| - |base.snapshots|;
    assert d * 0 == 0 && d * 1 == d && d * 2 == d + d && d * 3 == d + d + d;
    assert n + k in {0, 1, 2, 3};
  }

  /** Changes of anything but the session, the binding and the queue. */
  ghost predicate SameDelivery(v: Server, w: Server) {
    && w.options == v.options && w.session == v.session && w.viewer == v.viewer && w.pending == v.pending
    && w.lastSent == v.lastSent && w.trace.history == v.trace.history && w.trace.queued == v.trace.queued
    && w.trace.registeredAt == v.trace.registeredAt && w.trace.retainedAt == v.trace.retainedAt
  }

  lemma SameDeliveryKeeps(v: Server, w: Server, net: set<Datagram>)
    requires SameDelivery(v, w) && w.cursor.InBounds()
    ensures Sound(v, net) ==> Sound(w, net)
    ensures Serving(v, net) ==> Serving(w, net)
  {
    hide Reachable, Genuine, T.Readable, ToSnapshotPayload;
  }

  lemma PerformKeeps(v: Server, step: Step, net: set<Datagram>)
    requires (Serving(v, net) && step != Reset) || (Sound(v, net) && Quiet(step))
    ensures Sound(Perform(v, step), net)
    ensures Perform(v, step) == v.(session := Apply(v.session, step), trace := v.trace.(history := Perform(v, step).trace.history))
  {
    hide Reachable, Apply, Perform, Genuine, TracksAreReadable, NewestSent, NewestTold;
    ReachableStep(v.session, step);
    PerformOutcome(v, step);
    StaysTimed(v, step);
    StaysReadable(v, step);
    var t := Perform(v, step);
    if Quiet(step) { QuietStepsRecordNothing(v.session, step); }
    GenuineStays(v.trace.history, t.trace.history);
    assert Quiet(step) ==> t.trace.history == v.trace.history;
    hide Historic;
    assert |t.trace.history| == |v.trace.history| ==> t.trace.history == v.trace.history;
    NewestStays(v, t, net);
  }

  lemma NewestStays(v: Server, t: Server, net: set<Datagram>)
    requires NewestSent(v, net) && NewestTold(v, net) && t.viewer == v.viewer && t.pending == v.pending
    requires t.viewer.Some? && Backlog(t) == 0 && t.session.log.snapshots != [] ==>
               t.trace.history == v.trace.history && Backlog(v) == 0 && v.session.log.snapshots != []
    ensures NewestSent(t, net) && NewestTold(t, net)
  {
    hide ToSnapshotPayload, Tells;
  }

  lemma SendPendingServes(v: Server, net: set<Datagram>)
    requires Sound(v, net)
    ensures Serving(SendPending(v), net)
  {
    hide Reachable, SendPending, Genuine, T.Readable, ToSnapshotPayload, Grams, Numbers, Historic, QueuedInOrder;
    SendPendingOutcome(v);
    if v.viewer.Some? {
      GramsAreGenuine(v, v.lastSent);
    }
  }

  lemma {:induction false} GramsAreGenuine(v: Server, from: nat)
    requires v.viewer.Some? && Historic(v) && from <= |v.session.log.snapshots|
    ensures forall d <- Grams(v, from) :: Genuine(v.trace.history, d)
    ensures from < |v.session.log.snapshots| ==>
              && SnapshotGram(v.viewer.value, ToSnapshotPayload(R.Last(v.trace.history))) in Grams(v, from)
              && exists d :: Tells(d, v.viewer.value, R.Last(v.trace.history)) && d in Grams(v, from)
    decreases |v.session.log.snapshots| - from
  {
    hide ToSnapshotPayload, ToTelemetryPayload, TellsOf;
    var snapshots := v.session.log.snapshots;
    if from < |snapshots| {
      var x, k := snapshots[from], |v.trace.history| - |snapshots| + from;
      assert v.trace.history[k] == x;
      TelemetryTells(x, v.session.log.events);
      GramsAreGenuine(v, from + 1);
      var d := TelemetryGram(v.viewer.value, ToTelemetryPayload(x, v.session.log.events));
      assert d == Grams(v, from)[1] && Tells(d, v.viewer.value, x);
    }
  }

  lemma TelemetryTells(x: Snapshot, events: seq<Event>)
    ensures TellsOf(ToTelemetryPayload(x, events), x)
  {
    hide ConnectionText, EventTypeText;
  }

  lemma ClearBindingServes(v: Server, net: set<Datagram>)
    requires Sound(v, net)
    ensures Serving(ClearBinding(v), net)
  {
    hide Reachable, Genuine, T.Readable, ToSnapshotPayload;
  }

  /** A new registration leaves what is to be replayed. */
  lemma RegistrationIsSound(v: Server, sender: nat, from: Endpoint, nowMs: int, net: set<Datagram>)
    requires Serving(v, net)
    ensures Sound(ResetDeliveryCursor(Bind(v, sender, from, nowMs)), net)
  {
    hide Reachable, Genuine, T.Readable, ToSnapshotPayload;
  }

  /** A reset leaves one snapshot to be sent, numbered after all that were queued before. */
  lemma ResetIsSound(v: Server, net: set<Datagram>)
    requires Serving(v, net)
    ensures Sound(ResetDeliveryCursor(Perform(v, Reset).(cursor := NO_CURSOR)), net)
  {
    hide Reachable, Apply, Perform, Genuine, T.Readable, ToSnapshotPayload;
    ReachableStep(v.session, Reset);
    PerformOutcome(v, Reset);
    StaysTimed(v, Reset);
    StaysReadable(v, Reset);
    GenuineStays(v.trace.history, Perform(v, Reset).trace.history);
  }

  // ---------------------------------------------------------------------------
  // Every input

  lemma TimeoutServes(v: Server, role: Role, reason: string, net: set<Datagram>)
    requires Serving(v, net)
    ensures Serving(TimeoutViewer(v, role, reason), net)
  {
    hide Sound, Serving, Perform, SendPending, ClearBinding;
    var t := Perform(v, Timeout(role, reason));
    PerformKeeps(v, Timeout(role, reason), net);
    if role == TacticalDisplay {
      ClearBindingServes(t, net);
      ServingIsSound(ClearBinding(t), net);
      SendPendingServes(ClearBinding(t), net);
    } else {
      SendPendingServes(t, net);
    }
  }

  lemma ServingIsSound(v: Server, net: set<Datagram>)
    requires Serving(v, net)
    ensures Sound(v, net) && v.cursor.InBounds()
  {
  }

  lemma TickServes(v: Server, nowMs: int, net: set<Datagram>)
    requires Serving(v, net)
    ensures Serving(OnTick(v, nowMs), net)
  {
    hide Sound, Serving, Perform, SendPending, TimeoutViewer;
    var silent := TimeoutViewer(v, TacticalDisplay, SILENT);
    TimeoutServes(v, TacticalDisplay, SILENT, net);
    ServingIsSound(silent, net);
    SameDeliveryKeeps(silent, silent.(heartbeatMs := None), net);
    var t := MaybeTimeout(v, nowMs);
    PerformKeeps(t, Tick, net);
    SendPendingServes(Perform(t, Tick), net);
  }

  lemma StepServes(v: Server, step: Step, net: set<Datagram>)
    requires Serving(v, net) && step != Reset
    ensures Serving(SendPending(Perform(v, step)), net)
    ensures Quiet(step) ==> Serving(Perform(v, step), net)
  {
    hide Sound, Serving, Perform, SendPending;
    PerformKeeps(v, step, net);
    SendPendingServes(Perform(v, step), net);
    if Quiet(step) { QuietServes(v, step, net); }
  }

  lemma QuietServes(v: Server, step: Step, net: set<Datagram>)
    requires Serving(v, net) && Quiet(step)
    ensures Serving(Perform(v, step), net)
  {
    hide Sound, Perform, Apply;
    PerformKeeps(v, step, net);
    QuietStepsRecordNothing(v.session, step);
  }

  lemma CloseConsoleServes(v: Server, reason: string, net: set<Datagram>)
    requires Serving(v, net)
    ensures Serving(CloseConsole(v, reason), net)
  {
    hide Sound, Serving, Perform;
    ServingIsSound(v, net);
    var t := v.(console := false, replies := []);
    SameDeliveryKeeps(v, t, net);
    var u := Perform(t, Disconnect(FireControlConsole, reason));
    QuietServes(t, Disconnect(FireControlConsole, reason), net);
    ServingIsSound(u, net);
    SameDeliveryKeeps(u, u.(consoleSender := 0), net);
  }

  lemma DisconnectServes(v: Server, role: Role, reason: string, net: set<Datagram>)
    requires Serving(v, net)
    ensures Serving(OnDisconnect(v, role, reason), net)
  {
    hide Sound, Serving, Perform, CloseConsole, ClearBinding;
    ServingIsSound(v, net);
    CloseConsoleServes(v, reason, net);
    ClearBindingServes(v, net);
    QuietServes(ClearBinding(v), Disconnect(TacticalDisplay, reason), net);
  }

  lemma ReviveServes(v: Server, net: set<Datagram>)
    requires Serving(v, net)
    ensures Serving(Revive(v), net)
  {
    hide Sound, Serving, Perform, SendPending;
    StepServes(v, Connect(TacticalDisplay, v.viewerSender), net);
  }

  lemma HeartbeatServes(v: Server, sender: Envelope, heartbeatId: nat, clientSendMs: nat, wall: WallTimes,
                        from: Endpoint, nowMs: int,
                        net: set<Datagram>)
    requires Serving(v, net)
    ensures Serving(OnHeartbeat(v, sender, heartbeatId, clientSendMs, wall, from, nowMs), net)
  {
    hide Sound, Serving, Revive;
    var t := v.(heartbeatMs := Some(nowMs), serverSequence := v.serverSequence + 1,
                pending := v.pending + [HeartbeatAck(from, v.serverSequence + 1, heartbeatId, clientSendMs, wall)]);
    ServingIsSound(v, net);
    AnswerServes(v, t, net);
    ReviveServes(t, net);
  }

  lemma AnswerServes(v: Server, t: Server, net: set<Datagram>)
    requires Serving(v, net) && |t.pending| == |v.pending| + 1 && v.pending <= t.pending && R.Last(t.pending).HeartbeatAck?
    requires t.cursor.InBounds() && SameDelivery(v.(pending := t.pending), t)
    ensures Serving(t, net)
  {
    hide Reachable, T.Readable, ToSnapshotPayload, TellsOf;
    assert t.pending == v.pending + [R.Last(t.pending)];
  }

  lemma RegisterServes(v: Server, sender: nat, from: Endpoint, nowMs: int, net: set<Datagram>)
    requires Serving(v, net)
    ensures var bound := Bind(v, sender, from, nowMs);
            Serving(SendPending(Perform(ResetDeliveryCursor(bound), Connect(TacticalDisplay, sender))), net)
  {
    hide Sound, Serving, Perform, Apply, SendPending, ResetDeliveryCursor;
    var bound := Bind(v, sender, from, nowMs);
    RegistrationIsSound(v, sender, from, nowMs, net);
    PerformKeeps(ResetDeliveryCursor(bound), Connect(TacticalDisplay, sender), net);
    SendPendingServes(Perform(ResetDeliveryCursor(bound), Connect(TacticalDisplay, sender)), net);
  }

  lemma JoinServes(v: Server, sender: Envelope, display: bool, from: Endpoint, nowMs: int, net: set<Datagram>)
    requires Serving(v, net)
    ensures Serving(OnJoin(v, sender, display, from, nowMs), net)
  {
    hide Sound, Serving, Perform, Apply, SendPending, ResetDeliveryCursor, LogRefusal, Revive;
    ServingIsSound(v, net);
    RefuseServes(v, sender, SecondDisplay, net);
    var heard := v.(heartbeatMs := Some(nowMs));
    SameDeliveryKeeps(v, heard, net);
    ReviveServes(heard, net);
    RegisterServes(v, sender.senderId, from, nowMs, net);
  }

  lemma AckServes(v: Server, sender: Envelope, accepted: bool, reason: string, net: set<Datagram>)
    requires v.cursor.InBounds()
    ensures Sound(v, net) ==> Sound(SendAck(v, sender, accepted, reason), net)
    ensures Serving(v, net) ==> Serving(SendAck(v, sender, accepted, reason), net)
  {
    hide Sound, Serving;
    SameDeliveryKeeps(v, SendAck(v, sender, accepted, reason), net);
  }

  lemma FlushServes(v: Server, net: set<Datagram>)
    requires Serving(v, net)
    ensures Serving(FlushReplies(v), net)
  {
    hide Sound, Serving;
    ServingIsSound(v, net);
    SameDeliveryKeeps(v, FlushReplies(v), net);
  }

  lemma RefuseServes(v: Server, sender: Envelope, r: Refusal, net: set<Datagram>)
    requires Serving(v, net)
    ensures Serving(LogRefusal(v, r), net) && Serving(Refuse(v, sender, r), net)
  {
    hide Sound, Serving, Perform, SendAck, Wording;
    QuietServes(v, TransportRejection(Wording(r).0, Wording(r).1, Wording(r).2), net);
    ServingIsSound(LogRefusal(v, r), net);
    AckServes(LogRefusal(v, r), sender, false, Wording(r).1, net);
  }

  lemma DecideServes(v: Server, sender: Envelope, step: Step, r: CommandResult, net: set<Datagram>)
    requires Serving(v, net) && step != Reset
    ensures Serving(Decide(v, sender, step, r), net)
  {
    hide Serving, Perform, SendAck, SendPending, Deliverable, AllGenuine, NewestSent, Reachable, Timed, TracksAreReadable;
    var t := Perform(v, step);
    PerformKeeps(v, step, net);
    AckServes(t, sender, r.accepted, r.reason, net);
    SendPendingServes(SendAck(t, sender, r.accepted, r.reason), net);
  }

  lemma ConsoleJoinServes(v: Server, sender: Envelope, role: string, net: set<Datagram>)
    requires Serving(v, net)
    ensures Serving(OnConsoleJoin(v, sender, role), net)
  {
    hide Sound, Serving, Perform, SendAck, Refuse, RoleName, Joined;
    ServingIsSound(v, net);
    RefuseServes(v, sender, NotAConsole, net);
    RefuseServes(v, sender, JoinsOtherSession, net);
    RefuseServes(v, sender, SecondConsole, net);
    AckServes(v, sender, true, Joined(), net);
    var t := v.(consoleSender := sender.senderId);
    SameDeliveryKeeps(v, t, net);
    var u := Perform(t, Connect(FireControlConsole, sender.senderId));
    QuietServes(t, Connect(FireControlConsole, sender.senderId), net);
    ServingIsSound(u, net);
    AckServes(u, sender, true, Joined(), net);
  }

  lemma StartServes(v: Server, sender: Envelope, scenario: Scenario, net: set<Datagram>)
    requires Serving(v, net)
    ensures Serving(OnStart(v, sender, scenario), net)
  {
    hide Sound, Serving, Perform, Decide, Refuse, StartScenario, Scenario.Valid, Scenario.Fault;
    RefuseServes(v, sender, NotStandby, net);
    RefuseServes(v, sender, OtherScenario, net);
    if !scenario.Valid() { RefuseServes(v, sender, InvalidScenario(scenario.Fault()), net); }
    var t := Perform(v, Configure(scenario));
    QuietServes(v, Configure(scenario), net);
    DecideServes(t, sender, Start, StartScenario(t.session).1, net);
  }

  lemma ReviewServes(v: Server, sender: Envelope, requested: nat, control: string, net: set<Datagram>)
    requires Serving(v, net)
    ensures Serving(OnReview(v, sender, requested, control), net)
  {
    hide Sound, Serving, Resolve;
    ServingIsSound(v, net);
    ResolutionIsInBounds(v.cursor, |v.session.log.events|, requested, control);
    SameDeliveryKeeps(v, OnReview(v, sender, requested, control), net);
  }

  lemma ResetServes(v: Server, sender: Envelope, reason: string, net: set<Datagram>)
    requires Serving(v, net)
    ensures var t := ResetDeliveryCursor(Perform(v, Reset).(cursor := NO_CURSOR));
            Serving(SendPending(SendAck(t, sender, true, reason)), net)
  {
    hide Serving, Perform, SendAck, SendPending, ResetDeliveryCursor, Deliverable, AllGenuine, NewestSent, Reachable,
         Timed, TracksAreReadable;
    var t := ResetDeliveryCursor(Perform(v, Reset).(cursor := NO_CURSOR));
    ResetIsSound(v, net);
    AckServes(t, sender, true, reason, net);
    SendPendingServes(SendAck(t, sender, true, reason), net);
  }

  lemma StopServes(v: Server, sender: Envelope, reason: string, net: set<Datagram>)
    requires Serving(v, net)
    ensures Serving(SendPending(SendAck(Perform(v, Archive), sender, true, reason)), net)
  {
    DecideServes(v, sender, Archive, CommandResult(true, reason, CommandAck), net);
    hide Serving, Perform, SendAck, SendPending;
  }

  lemma CommandServes(v: Server, sender: Envelope, command: Command, net: set<Datagram>)
    requires Serving(v, net)
    ensures Serving(OnCommand(v, sender, command), net)
  {
    hide Sound, Serving, Perform, SendAck, SendPending, ResetDeliveryCursor, Refuse, Decide, CloseConsole, OnReview,
         OnStart, OnConsoleJoin, RequestTrack, ReleaseTrack, ActivateAsset, IssueCommand, ResetSession, EnvelopeRefusal,
         FlushReplies;
    ServingIsSound(v, net);
    var refusal := EnvelopeRefusal(v, sender);
    if command.JoinConsole? {
      ConsoleJoinServes(v, sender, command.role, net);
    } else if refusal.Some? {
      RefuseServes(v, sender, refusal.value, net);
    } else {
      match command {
        case Leave(reason) =>
          var t := SendAck(v, sender, true, reason);
          AckServes(v, sender, true, reason, net);
          FlushServes(t, net);
          CloseConsoleServes(FlushReplies(t), reason, net);
        case StartRun(scenario) => StartServes(v, sender, scenario, net);
        case StopRun(reason) => RefuseServes(v, sender, NothingToStop, net); StopServes(v, sender, reason, net);
        case ResetRun(_) => ResetServes(v, sender, ResetSession(v.session).1.reason, net);
        case Acquire(target) =>
          RefuseServes(v, sender, OtherTrackTarget, net);
          DecideServes(v, sender, AcquireTrack, RequestTrack(v.session).1, net);
        case Drop(target) =>
          RefuseServes(v, sender, OtherReleaseTarget, net);
          DecideServes(v, sender, DropTrack, ReleaseTrack(v.session).1, net);
        case ReadyAsset(asset) =>
          RefuseServes(v, sender, OtherInterceptor, net);
          DecideServes(v, sender, ReadyInterceptor, ActivateAsset(v.session).1, net);
        case Order(asset, target) =>
          RefuseServes(v, sender, OtherEntities, net);
          DecideServes(v, sender, Engage, IssueCommand(v.session).1, net);
        case ReviewEvents(requested, control) => ReviewServes(v, sender, requested, control, net);
      }
    }
  }

  lemma RequestServes(v: Server, request: Request, net: set<Datagram>)
    requires Serving(v, net)
    ensures Serving(OnRequest(v, request), net)
  {
    hide Sound, Serving, SendAck, OnCommand, LogRefusal;
    ServingIsSound(v, net);
    match request
    case Commanded(sender, command) => CommandServes(v, sender, command, net);
    case BadReview(reason) => AckServes(v, Envelope(SESSION_ID, SERVER_SENDER_ID, 0), false, reason, net);
    case Unreadable(reason) => RefuseServes(v, Envelope(0, 0, 0), UnreadableFrame(reason), net);
  }

  /** The datagrams the network has after an input. */
  function NetAfter(v: Server, input: Input, net: set<Datagram>): set<Datagram> {
    if input == SendNext && v.pending != [] then net + {v.pending[0]} else net
  }

  lemma SendServes(v: Server, net: set<Datagram>)
    requires Serving(v, net)
    ensures Serving(Handle(v, SendNext), NetAfter(v, SendNext, net))
  {
    hide Reachable, Genuine, T.Readable, ToSnapshotPayload, OnTick, OnArchive, OnDisconnect, TimeoutViewer, OnAccept,
         CloseConsole, OnRequest, OnJoin, OnHeartbeat;
    assert v.pending != [] ==> v.pending == [v.pending[0]] + v.pending[1..];
  }

  /** Every input keeps what the server promises. */
  lemma HandleServes(v: Server, input: Input, net: set<Datagram>)
    requires Serving(v, net)
    ensures Serving(Handle(v, input), NetAfter(v, input, net))
  {
    hide Sound, Serving, OnTick, OnDisconnect, TimeoutViewer, LogRefusal, CloseConsole, OnRequest, OnJoin, OnHeartbeat,
         Perform, SendPending, FlushReplies;
    match input
    case TickAt(nowMs) => TickServes(v, nowMs, net);
    case ArchiveCall => StepServes(v, Archive, net);
    case DisconnectCall(role, reason) => DisconnectServes(v, role, reason, net);
    case TimeoutCall(role, reason) => TimeoutServes(v, role, reason, net);
    case AcceptConsole =>
      ServingIsSound(v, net);
      RefuseServes(v, Envelope(0, 0, 0), SecondConnection, net);
      SameDeliveryKeeps(v, v.(console := true), net);
    case ConsoleClosed(reason) => CloseConsoleServes(v, reason, net);
    case ConsoleFrame(request) => RequestServes(v, request, net);
    case DisplayJoin(sender, display, from, nowMs) => JoinServes(v, sender, display, from, nowMs, net);
    case DisplayHeartbeat(sender, heartbeatId, clientSendMs, wall, from, nowMs) =>
      HeartbeatServes(v, sender, heartbeatId, clientSendMs, wall, from, nowMs, net);
    case SendNext => SendServes(v, net);
    case FlushConsole(room) =>
      ServingIsSound(v, net);
      SameDeliveryKeeps(v, v.(room := room), net);
      FlushServes(v.(room := room), net);
  }

  // ---------------------------------------------------------------------------
  // Runs

  function Serve(v: Server, inputs: seq<Input>): Server
    decreases |inputs|
  {
    hide Handle;
    if inputs == [] then v else Serve(Handle(v, inputs[0]), inputs[1..])
  }

  function NetOf(v: Server, inputs: seq<Input>, net: set<Datagram>): set<Datagram>
    decreases |inputs|
  {
    hide Handle;
    if inputs == [] then net else NetOf(Handle(v, inputs[0]), inputs[1..], NetAfter(v, inputs[0], net))
  }

  lemma {:induction false} ServeKeepsServing(v: Server, inputs: seq<Input>, net: set<Datagram>)
    requires Serving(v, net)
    ensures Serving(Serve(v, inputs), NetOf(v, inputs, net))
    decreases |inputs|
  {
    hide Serving, Handle, NetAfter;
    if inputs != [] {
      HandleServes(v, inputs[0], net);
      ServeKeepsServing(Handle(v, inputs[0]), inputs[1..], NetAfter(v, inputs[0], net));
    }
  }

  lemma LaunchServes(options: Options, cfg: Config, scenario: Scenario)
    requires cfg.Valid() && scenario.Valid()
    ensures Serving(Launch(options, Init(cfg, scenario)), {})
  {
    hide Apply, Scenario.Valid;
    assert Reachable(Run(Init(cfg, scenario), []));
  }

  lemma {:induction false} ServeGrows(v: Server, inputs: seq<Input>)
    ensures Extends(v, Serve(v, inputs))
    ensures (forall input <- inputs :: !input.DisplayJoin?) ==> Grows(v, Serve(v, inputs))
    decreases |inputs|
  {
    hide Handle;
    if inputs != [] {
      HandleGrows(v, inputs[0]);
      ServeGrows(Handle(v, inputs[0]), inputs[1..]);
    }
  }

  /** A server that was launched on a fresh session and has handled some inputs. */
  ghost predicate Live(v: Server, net: set<Datagram>) {
    exists options: Options, cfg: Config, scenario: Scenario, inputs: seq<Input> ::
      && cfg.Valid() && scenario.Valid()
      && v == Serve(Launch(options, Init(cfg, scenario)), inputs)
      && net == NetOf(Launch(options, Init(cfg, scenario)), inputs, {})
  }

  lemma LiveIsServing(v: Server, net: set<Datagram>)
    requires Live(v, net)
    ensures Serving(v, net)
  {
    hide Serving, Serve, NetOf, Init, Config.Valid, Scenario.Valid;
    var options: Options, cfg: Config, scenario: Scenario, inputs: seq<Input> :|
      && cfg.Valid() && scenario.Valid()
      && v == Serve(Launch(options, Init(cfg, scenario)), inputs)
      && net == NetOf(Launch(options, Init(cfg, scenario)), inputs, {});
    LaunchServes(options, cfg, scenario);
    ServeKeepsServing(Launch(options, Init(cfg, scenario)), inputs, {});
  }

  /** In every run: the session is one the session's own laws are about; a registered display has
      nothing left to be queued, and latest-only delivery never skips. What was queued for the
      display are the snapshots replayed at its registration and every one recorded since, each
      once and in order. */
  lemma RegisteredDisplayHasNoBacklog(v: Server, net: set<Datagram>)
    requires Live(v, net)
    ensures Reachable(v.session) && v.cursor.InBounds()
    ensures v.viewer.Some? ==>
              && v.lastSent == |v.session.log.snapshots| && !Skips(v)
              && var replays := Replays(v.options, v.trace.retainedAt);
              && replays <= v.trace.registeredAt <= v.session.log.sequence
              && |v.trace.queued| == replays + (v.session.log.sequence - v.trace.registeredAt)
              && forall i :: 0 <= i < |v.trace.queued| ==> v.trace.queued[i] == v.trace.registeredAt - replays + 1 + i
  {
    hide Live, Reachable;
    LiveIsServing(v, net);
  }

  /** The same, counted from the join: whatever inputs follow a registration, as long as the display
      stays registered without joining again, exactly the snapshots replayed at the join and those
      recorded since have been queued for it. */
  lemma EverySnapshotSinceTheJoinIsQueued(v: Server, net: set<Datagram>, sender: Envelope, from: Endpoint, nowMs: int,
                                          inputs: seq<Input>)
    requires Live(v, net) && Registers(v, sender, true, from) && forall input <- inputs :: !input.DisplayJoin?
    ensures var t := Serve(Handle(v, DisplayJoin(sender, true, from, nowMs)), inputs);
            var replays, joined := Replays(v.options, |v.session.log.snapshots|), v.session.log.sequence;
            t.viewer.Some? ==>
              && t.viewer == Some(from) && replays <= joined <= t.session.log.sequence
              && |t.trace.queued| == replays + (t.session.log.sequence - joined)
              && forall i :: 0 <= i < |t.trace.queued| ==> t.trace.queued[i] == joined - replays + 1 + i
  {
    hide Live, Reachable, Handle, Serve, Registers, Replays;
    LiveIsServing(v, net);
    var input := DisplayJoin(sender, true, from, nowMs);
    var u := Handle(v, input);
    HandleServes(v, input, net);
    HandleGrows(v, input);
    JoinRegisters(v, sender, from, nowMs);
    ServeKeepsServing(u, inputs, net);
    ServeGrows(u, inputs);
  }

  lemma JoinRegisters(v: Server, sender: Envelope, from: Endpoint, nowMs: int)
    requires Registers(v, sender, true, from)
    ensures var t := Handle(v, DisplayJoin(sender, true, from, nowMs));
            && t.viewer == Some(from)
            && t.trace.registeredAt == v.session.log.sequence && t.trace.retainedAt == |v.session.log.snapshots|
  {
    hide OnTick, OnArchive, OnDisconnect, TimeoutViewer, OnAccept, CloseConsole, OnRequest, OnJoin, OnHeartbeat,
         Registers;
    JoinGrows(v, sender, true, from, nowMs);
  }

  /** In every run a review is answered from within the present event log: with the event under the
      cursor, or with none exactly when the log is empty. */
  lemma ReviewShowsAnEvent(v: Server, net: set<Datagram>, sender: Envelope, requested: nat, control: string)
    requires Live(v, net) && v.console
    ensures var t, events := OnReview(v, sender, requested, control), v.session.log.events;
            && t.cursor.InBounds() && t.cursor.total == |events|
            && t.session == v.session && t.replies != [] && R.Last(t.replies).Review?
            && R.Last(t.replies).code == v.session.engagement.assessment.code
            && R.Last(t.replies).exercised == v.session.exercised && R.Last(t.replies).resolution.cursor == t.cursor
            && (if events == [] then R.Last(t.replies).event == None
                else t.cursor.index < |events| && R.Last(t.replies).event == Some(events[t.cursor.index]))
  {
    hide Live, Reachable, Resolve, Sound;
    LiveIsServing(v, net);
    ServingIsSound(v, net);
    ResolutionIsInBounds(v.cursor, |v.session.log.events|, requested, control);
  }
}
