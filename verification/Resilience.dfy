/** The exercises of resilience: what the log tells about them is what the flags say, the packet gap comes
    with the second tick, and every refusal tells its reason wherever it is told. */
module Resilience {
  import opened Numerics
  import opened SessionTypes
  import opened Messages
  import opened Session
  import L = Lifecycle
  import R = Recording
  import Tracker

  /** An event that tells of an exercise. */
  predicate Tells(e: Event, summary: Message) { e.eventType == ResilienceTriggered && e.summary == Say(summary) }

  predicate Told(events: seq<Event>, summary: Message) { exists i :: 0 <= i < |events| && Tells(events[i], summary) }

  /** The flags say what has been exercised since the last reset, and the gap only ever at tick 2. */
  ghost predicate FlagsAreTrue(s: State) {
    var events := s.log.events;
    && (s.exercised.reconnect <==> Told(events, ReconnectExercised))
    && (s.exercised.timeout <==> Told(events, TimeoutExercised))
    && (s.exercised.packetGap <==> Told(events, GapExercised))
    && (s.exercised.packetGap ==> s.tick >= 2)
    && forall i :: 0 <= i < |events| && Tells(events[i], GapExercised) ==> events[i].tick == 2
  }

  lemma TextsDiffer()
    ensures Say(ReconnectExercised) != Say(TimeoutExercised) && Say(ReconnectExercised) != Say(GapExercised)
    ensures Say(TimeoutExercised) != Say(GapExercised)
  {
    assert |Say(ReconnectExercised)| == 34 && |Say(TimeoutExercised)| == 24 && |Say(GapExercised)| == 22;
  }

  lemma OneMore(events: seq<Event>, e: Event, summary: Message)
    ensures Told(events + [e], summary) <==> Told(events, summary) || Tells(e, summary)
  {
    var longer := events + [e];
    hide Tells;
    if Tells(e, summary) { assert longer[|events|] == e; }
    if Told(events, summary) {
      var i :| 0 <= i < |events| && Tells(events[i], summary);
      assert longer[i] == events[i];
    }
  }

  /** Other events leave the flags as true as they were. */
  lemma QuietEvents()
    ensures forall s: State, eventType: EventType, source: string, ids: seq<string>, summary: string, details: string
              {:trigger PushEvent(s, eventType, source, ids, summary, details)} ::
              eventType != ResilienceTriggered ==>
                var t := PushEvent(s, eventType, source, ids, summary, details);
                t == s.(log := t.log) && (FlagsAreTrue(s) ==> FlagsAreTrue(t))
  {
    forall s: State, eventType: EventType, source: string, ids: seq<string>, summary: string, details: string
      | eventType != ResilienceTriggered && FlagsAreTrue(s)
      ensures FlagsAreTrue(PushEvent(s, eventType, source, ids, summary, details))
    {
      QuietEvent(s, eventType, source, ids, summary, details);
    }
    hide FlagsAreTrue;
  }

  lemma QuietEvent(s: State, eventType: EventType, source: string, ids: seq<string>, summary: string, details: string)
    requires eventType != ResilienceTriggered && FlagsAreTrue(s)
    ensures FlagsAreTrue(PushEvent(s, eventType, source, ids, summary, details))
  {
    hide Told, Tells, Say;
    var t := PushEvent(s, eventType, source, ids, summary, details);
    var e := t.log.events[|s.log.events|];
    forall k: Message ensures Told(t.log.events, k) <==> Told(s.log.events, k) {
      OneMore(s.log.events, e, k);
      OtherType(e, k);
    }
    forall i | 0 <= i < |t.log.events| && Tells(t.log.events[i], GapExercised) ensures i < |s.log.events| {
      OtherType(e, GapExercised);
    }
  }

  lemma OtherType(e: Event, k: Message)
    requires e.eventType != ResilienceTriggered
    ensures !Tells(e, k)
  {
  }

  /** An exercise sets its flag with its event. */
  lemma ExerciseEvent(s: State, source: string, ids: seq<string>, summary: Message, details: string)
    requires FlagsAreTrue(s) && summary in {ReconnectExercised, TimeoutExercised, GapExercised}
    requires summary == GapExercised ==> s.tick == 2
    ensures var x := s.exercised;
            var flags := Exercised(x.reconnect || summary == ReconnectExercised, x.timeout || summary == TimeoutExercised,
                                   x.packetGap || summary == GapExercised);
            FlagsAreTrue(PushEvent(s, ResilienceTriggered, source, ids, Say(summary), details).(exercised := flags))
  {
    hide Told, Tells, Say;
    var t := PushEvent(s, ResilienceTriggered, source, ids, Say(summary), details);
    var e := t.log.events[|s.log.events|];
    forall k: Message | k in {ReconnectExercised, TimeoutExercised, GapExercised}
      ensures Told(t.log.events, k) <==> Told(s.log.events, k) || k == summary
    {
      OneMore(s.log.events, e, k);
      TellsOnly(e, summary, k);
    }
    forall i | 0 <= i < |t.log.events| && Tells(t.log.events[i], GapExercised) ensures t.log.events[i].tick == 2 {
      TellsOnly(e, summary, GapExercised);
    }
  }

  lemma TellsOnly(e: Event, summary: Message, k: Message)
    requires e.eventType == ResilienceTriggered && e.summary == Say(summary)
    requires summary in {ReconnectExercised, TimeoutExercised, GapExercised}
    requires k in {ReconnectExercised, TimeoutExercised, GapExercised}
    ensures Tells(e, k) <==> k == summary
  {
    TextsDiffer();
    hide Say;
  }

  lemma SameFlags(s: State, t: State)
    requires FlagsAreTrue(s) && t.exercised == s.exercised && t.log.events == s.log.events && t.tick >= s.tick
    ensures FlagsAreTrue(t)
  {
    hide Told, Tells;
  }

  lemma FlagIsNoEvent(t: State, exercised: Exercised, eventType: EventType, source: string, summary: string, details: string)
    ensures PushEvent(t.(exercised := exercised), eventType, source, [], summary, details)
         == PushEvent(t, eventType, source, [], summary, details).(exercised := exercised)
    ensures PushEvent(t, eventType, source, [], summary, details).exercised == t.exercised
  {
  }

  lemma ConnectKeepsFlags(s: State, role: Role, senderId: nat)
    requires FlagsAreTrue(s)
    ensures FlagsAreTrue(ConnectClient(s, role, senderId))
  {
    hide FlagsAreTrue, Say, RoleName, PushEvent;
    var before := ClientOf(s, role);
    if before.hasConnectedBefore {
      var t := WithClient(s, role, Client(before.role, Reconnected, senderId, true));
      SameFlags(s, t);
      QuietEvent(t, ClientReconnected, RoleName(role), [], Say(StationBack), Say(StationResumed));
      FlagIsNoEvent(t, s.exercised.(reconnect := true), ClientReconnected, RoleName(role), Say(StationBack), Say(StationResumed));
      var u := PushEvent(t, ClientReconnected, RoleName(role), [], Say(StationBack), Say(StationResumed));
      ExerciseEvent(u, Say(SimulationServer), [], ReconnectExercised, Say(ResyncCase));
      FlagIsNoEvent(u, s.exercised.(reconnect := true), ResilienceTriggered, Say(SimulationServer), Say(ReconnectExercised),
                    Say(ResyncCase));
    } else {
      var t := WithClient(s, role, Client(before.role, Connected, senderId, true));
      SameFlags(s, t);
      QuietEvent(t, ClientJoined, RoleName(role), [], Say(StationOn), Say(StationRegistered));
    }
  }

  lemma TimeoutKeepsFlags(s: State, role: Role, reason: string)
    requires FlagsAreTrue(s)
    ensures FlagsAreTrue(TimeoutClient(s, role, reason))
  {
    hide FlagsAreTrue, Say, Capture;
    var t := WithClient(s, role, ClientOf(s, role).(connection := TimedOut));
    SameFlags(s, t);
    ExerciseEvent(t, Say(SimulationServer), [], TimeoutExercised, reason);
    var u := PushEvent(t.(exercised := s.exercised.(timeout := true)), ResilienceTriggered, Say(SimulationServer), [],
                       Say(TimeoutExercised), reason);
    SameFlags(u, RecordSnapshot(u, 0.0));
  }

  lemma TickKeepsFlags(s: State)
    requires FlagsAreTrue(s)
    ensures FlagsAreTrue(AdvanceTick(s))
  {
    hide FlagsAreTrue, Say, Capture, Motion, Assess;
    QuietEvents();
    SameFlags(s, s.(tick := s.tick + 1));
    if s.phase == Assessed {
      ArchiveKeepsFlags(s.(tick := s.tick + 1));
    } else {
      L.MotionKeeps(s);
      SameFlags(s, Motion(s));
      AssessKeepsFlags(Motion(s));
      var t := Assess(Motion(s));
      GapKeepsFlags(t);
      SameFlags(ExerciseGap(t), AdvanceTick(s));
    }
  }

  lemma ArchiveKeepsFlags(s: State)
    requires FlagsAreTrue(s)
    ensures FlagsAreTrue(ArchiveSession(s))
  {
    hide FlagsAreTrue, Say, Capture;
    QuietEvents();
    SameFlags(s, s.(phase := Archived));
    var u := PushEvent(s.(phase := Archived), SessionEnded, Say(SimulationServer), [s.world.target.id, s.world.asset.id],
                       Say(RunArchived), Say(ArtifactsReady));
    SameFlags(u, RecordSnapshot(u, 0.0));
  }

  lemma AssessKeepsFlags(s: State)
    requires FlagsAreTrue(s)
    ensures FlagsAreTrue(Assess(s))
  {
    hide FlagsAreTrue, Say, WithinRadius;
    QuietEvents();
    forall t: State | t.exercised == s.exercised && t.log == s.log && t.tick == s.tick ensures FlagsAreTrue(t) { SameFlags(s, t); }
  }

  lemma GapKeepsFlags(s: State)
    requires FlagsAreTrue(s)
    ensures FlagsAreTrue(ExerciseGap(s))
  {
    hide FlagsAreTrue, Say;
    if GapDue(s) { ExerciseEvent(s, Say(SimulationServer), [s.world.target.id], GapExercised, Say(GapDetails)); }
  }

  /** Recording a snapshot, refusing, or changing anything but log, tick and flags keeps them true. */
  lemma QuietParts(s: State)
    requires FlagsAreTrue(s)
    ensures forall u: State, loss: real {:trigger RecordSnapshot(u, loss)} :: FlagsAreTrue(u) ==> FlagsAreTrue(RecordSnapshot(u, loss))
    ensures forall t: State :: t.exercised == s.exercised && t.log == s.log && t.tick == s.tick ==> FlagsAreTrue(t)
    ensures forall summary: string, reason: string, ids: seq<string> {:trigger Reject(s, summary, reason, ids)} ::
              FlagsAreTrue(Reject(s, summary, reason, ids).0)
  {
    hide FlagsAreTrue, Say, Capture;
    QuietEvents();
    forall t: State | t.exercised == s.exercised && t.log == s.log && t.tick == s.tick ensures FlagsAreTrue(t) { SameFlags(s, t); }
    forall u: State, loss: real | FlagsAreTrue(u) ensures FlagsAreTrue(RecordSnapshot(u, loss)) { SameFlags(u, RecordSnapshot(u, loss)); }
    forall summary: string, reason: string, ids: seq<string> ensures FlagsAreTrue(Reject(s, summary, reason, ids).0) {
      SameFlags(PushEvent(s, EngageOrderRejected, Say(SimulationServer), ids, summary, reason), Reject(s, summary, reason, ids).0);
    }
  }

  lemma CommandKeepsFlags(s: State)
    requires FlagsAreTrue(s)
    ensures FlagsAreTrue(StartScenario(s).0) && FlagsAreTrue(ActivateAsset(s).0) && FlagsAreTrue(IssueCommand(s).0)
  {
    hide FlagsAreTrue, Say, RecordSnapshot, PushEvent, Reject, Math.Launch;
    QuietEvents();
    QuietParts(s);
  }

  lemma TrackKeepsFlags(s: State)
    requires FlagsAreTrue(s)
    ensures FlagsAreTrue(RequestTrack(s).0) && FlagsAreTrue(ReleaseTrack(s).0)
  {
    hide FlagsAreTrue, Say, RecordSnapshot, PushEvent, Reject, Tracker.Seed;
    QuietEvents();
    QuietParts(s);
  }

  lemma OtherStepKeepsFlags(s: State, step: Step)
    requires FlagsAreTrue(s) && (step.Disconnect? || step.Configure? || step.TransportRejection?)
    ensures FlagsAreTrue(Apply(s, step))
  {
    hide FlagsAreTrue, Say, RoleName, StartingWorld, Scenario.Valid;
    QuietEvents();
    forall t: State | t.exercised == s.exercised && t.log == s.log && t.tick == s.tick ensures FlagsAreTrue(t) { SameFlags(s, t); }
  }

  lemma ResetClearsFlags(s: State)
    ensures FlagsAreTrue(ResetSession(s).0)
  {
    hide Say, Capture, StartingWorld;
  }

  lemma StepKeepsFlags(s: State, step: Step)
    requires FlagsAreTrue(s)
    ensures FlagsAreTrue(Apply(s, step))
  {
    hide FlagsAreTrue, AdvanceTick, StartScenario, RequestTrack, ReleaseTrack, ActivateAsset, IssueCommand, ConnectClient,
         DisconnectClient, TimeoutClient, RecordTransportRejection, ConfigureScenario, ResetSession, ArchiveSession;
    match step {
      case Connect(role, senderId) => ConnectKeepsFlags(s, role, senderId);
      case Timeout(role, reason) => TimeoutKeepsFlags(s, role, reason);
      case Tick => TickKeepsFlags(s);
      case Archive => ArchiveKeepsFlags(s);
      case Reset => ResetClearsFlags(s);
      case Disconnect(_, _) | Configure(_) | TransportRejection(_, _, _) => OtherStepKeepsFlags(s, step);
      case AcquireTrack | DropTrack => TrackKeepsFlags(s);
      case Start | ReadyInterceptor | Engage => CommandKeepsFlags(s);
    }
  }

  lemma {:induction false} RunKeepsFlags(s: State, steps: seq<Step>)
    requires FlagsAreTrue(s)
    ensures FlagsAreTrue(Run(s, steps))
    decreases |steps|
  {
    hide Apply, FlagsAreTrue;
    if steps != [] {
      StepKeepsFlags(s, steps[0]);
      RunKeepsFlags(Apply(s, steps[0]), steps[1..]);
    }
  }

  /** In every reachable state each flag is set exactly if the log since the last reset tells of the
      exercise; and the packet gap is only ever exercised at tick 2. */
  lemma ReachableFlagsAreTrue(s: State)
    requires Reachable(s)
    ensures FlagsAreTrue(s)
  {
    hide Run, Told, Tells;
    var cfg: Config, scenario: Scenario, steps: seq<Step> :|
      cfg.Valid() && scenario.Valid() && s == Run(Init(cfg, scenario), steps);
    NothingTold();
    RunKeepsFlags(Init(cfg, scenario), steps);
  }

  lemma NothingTold()
    ensures forall k: Message :: !Told([], k)
  {
  }

  /** The packet gap comes with the second tick of a run, unless that tick archives: one event tells of it
      and one snapshot shows the loss. No other tick loses anything. */
  lemma GapComesWithSecondTick(s: State, x: Snapshot)
    requires Reachable(s) && AdvanceTick(s).log.snapshots == s.log.snapshots + [x]
    ensures var gap := s.tick == 1 && s.phase != Assessed;
            && x.telemetry.packetLossPct == (if gap then 25.0 else 0.0)
            && (AdvanceTick(s).exercised.packetGap <==> s.exercised.packetGap || gap)
  {
    ReachableFlagsAreTrue(s);
    hide Reachable, FlagsAreTrue;
    assert s.exercised.packetGap ==> s.tick >= 2 by { GapIsLate(s); }
    GapTick(s, x);
  }

  lemma GapIsLate(s: State)
    requires FlagsAreTrue(s)
    ensures s.exercised.packetGap ==> s.tick >= 2
  {
    hide Told, Tells;
  }

  lemma GapTick(s: State, x: Snapshot)
    requires s.exercised.packetGap ==> s.tick >= 2
    requires AdvanceTick(s).log.snapshots == s.log.snapshots + [x]
    ensures var gap := s.tick == 1 && s.phase != Assessed;
            && x.telemetry.packetLossPct == (if gap then 25.0 else 0.0)
            && (AdvanceTick(s).exercised.packetGap <==> s.exercised.packetGap || gap)
  {
    hide Say, Motion, Assess;
    L.MotionKeeps(s);
    R.AssessRecords(Motion(s));
    L.AssessmentOutcomes(Motion(s));
    NewestOf(s, x);
  }

  lemma NewestOf(s: State, x: Snapshot)
    requires AdvanceTick(s).log.snapshots == s.log.snapshots + [x]
    ensures R.Last(AdvanceTick(s).log.snapshots) == x
  {
    hide AdvanceTick;
  }

  // ---------------------------------------------------------------------------
  // Refusals and clients

  /** The reason of a refusal is what the answer says, what the log keeps, and what the assessment shows. */
  predicate TellsReason(s: State, t: State, r: CommandResult) {
    !r.accepted ==>
      && t.log.events != [] && R.Last(t.log.events).eventType == EngageOrderRejected && R.Last(t.log.events).details == r.reason
      && (!s.engagement.assessment.ready ==> t.engagement.assessment.summary == r.reason)
  }

  lemma RefusalsTellTheirReason(s: State)
    ensures TellsReason(s, StartScenario(s).0, StartScenario(s).1)
    ensures TellsReason(s, RequestTrack(s).0, RequestTrack(s).1) && TellsReason(s, ReleaseTrack(s).0, ReleaseTrack(s).1)
    ensures TellsReason(s, ActivateAsset(s).0, ActivateAsset(s).1) && TellsReason(s, IssueCommand(s).0, IssueCommand(s).1)
  {
    RejectTellsReason(s);
    hide Say, RecordSnapshot, PushEvent, Reject, Math.Launch, Tracker.Seed, TellsReason;
    AcceptedTellNone(s);
  }

  lemma RejectTellsReason(s: State)
    ensures forall summary: string, reason: string, ids: seq<string> {:trigger Reject(s, summary, reason, ids)} ::
              TellsReason(s, Reject(s, summary, reason, ids).0, Reject(s, summary, reason, ids).1)
  {
    hide Say;
  }

  lemma AcceptedTellNone(s: State)
    ensures forall t: State, r: CommandResult {:trigger TellsReason(s, t, r)} :: r.accepted ==> TellsReason(s, t, r)
  {
  }

  /** A reconnection is over for the display once a snapshot has shown it, and for both clients at a reset. */
  predicate Settles(step: Step, role: Role, recorded: bool) { step == Reset || (role == TacticalDisplay && recorded) }

  /** How a step moves the connection of a client. */
  predicate Moves(before: Client, after: Client, step: Step, role: Role, recorded: bool) {
    && (step.Connect? && step.role == role ==>
          after == Client(before.role, if before.hasConnectedBefore then Reconnected else Connected, step.senderId, true))
    && (step.Disconnect? && step.role == role ==> after == before.(connection := Disconnected))
    && (step.Timeout? && step.role == role ==> after == before.(connection := TimedOut))
    && ((!step.Connect? && !step.Disconnect? && !step.Timeout?) || step.role != role ==>
          after == if before.connection == Reconnected && Settles(step, role, recorded) then before.(connection := Connected)
                   else before)
  }

  lemma ClientsFollowTheirSteps(s: State, step: Step, role: Role)
    ensures var t := Apply(s, step);
            Moves(ClientOf(s, role), ClientOf(t, role), step, role, t.log.sequence > s.log.sequence)
  {
    hide Say, Capture, PushEvent, RoleName, StartingWorld, Scenario.Valid, AdvanceTick, RequestTrack, ReleaseTrack, Math.Launch;
    PushKeepsClients();
    TrackMovesNobody(s);
    TickMovesNobody(s);
  }

  /** Only a recorded snapshot settles the display, and nothing the console. */
  predicate Follows(s: State, t: State) {
    && t.console == s.console && t.log.sequence >= s.log.sequence
    && t.display == if t.log.sequence > s.log.sequence then Settled(s.display) else s.display
  }

  lemma TickMovesNobody(s: State)
    ensures Follows(s, AdvanceTick(s))
  {
    hide Say, Capture, PushEvent, Motion;
    L.MotionKeeps(s);
    PushKeepsClients();
  }

  lemma PushKeepsClients()
    ensures forall s: State, eventType: EventType, source: string, ids: seq<string>, summary: string, details: string
              {:trigger PushEvent(s, eventType, source, ids, summary, details)} ::
              var t := PushEvent(s, eventType, source, ids, summary, details); t == s.(log := t.log) && t.log.sequence == s.log.sequence
  {
  }

  lemma TrackMovesNobody(s: State)
    ensures Follows(s, RequestTrack(s).0) && Follows(s, ReleaseTrack(s).0)
  {
    hide Say, Capture, PushEvent, Tracker.Seed;
    PushKeepsClients();
  }
}
