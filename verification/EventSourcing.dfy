/** The event log alone determines where the session stands. */
module EventSourcing {
  import opened Text
  import opened SessionTypes
  import opened Messages
  import opened Numerics
  import opened Session
  import L = Lifecycle
  import R = Recording
  import T = TrackText
  import Tracker

  /** What a reader of the log can know: the phase, with the two phases of an engagement under
      way taken as one, and whether there is a track. */
  datatype Standing = Standing(phase: Phase, tracked: bool)

  function Next(p: Standing, e: Event): Standing {
    match e.eventType
    case SessionStarted => Standing(Detecting, false)
    case TrackUpdated =>
      if p.phase == Detecting then Standing(Tracking, true)
      else if p.phase == Tracking then Standing(Detecting, false)
      else p.(tracked := !p.tracked)
    case InterceptorUpdated => p.(phase := InterceptorReady)
    case EngageOrderAccepted => p.(phase := EngageOrdered)
    case AssessmentProduced => Standing(Assessed, p.tracked && e.details != Say(SuccessDetails))
    case SessionEnded => p.(phase := Archived)
    case _ => p
  }

  function Replay(events: seq<Event>): Standing {
    if events == [] then Standing(Standby, false)
    else Next(Replay(events[..|events| - 1]), events[|events| - 1])
  }

  function Here(s: State): Standing {
    Standing(if s.phase == Intercepting then EngageOrdered else s.phase, s.track.active)
  }

  // The milestones of a run, in the only order they can come.
  const ORDER := [SessionStarted, InterceptorUpdated, EngageOrderAccepted, AssessmentProduced]

  function Milestones(events: seq<Event>): seq<EventType> {
    if events == [] then []
    else
      var t := events[|events| - 1].eventType;
      Milestones(events[..|events| - 1]) + (if t in ORDER || t == SessionEnded then [t] else [])
  }

  function Reached(phase: Phase): nat {
    match phase
    case Standby => 0
    case Detecting | Tracking => 1
    case InterceptorReady => 2
    case EngageOrdered | Intercepting => 3
    case Assessed | Archived => 4
  }

  /** The log's milestones are a prefix of the order, closed by the end of the session once archived. */
  predicate MilestonesInOrder(s: State) {
    if s.phase == Archived then
      exists k :: 0 <= k <= 4 && Milestones(s.log.events) == ORDER[..k] + [SessionEnded]
    else Milestones(s.log.events) == ORDER[..Reached(s.phase)]
  }

  /** The track state told by the log's texts is the real one. After an interception the real
      track is gone, and the texts keep telling how the interceptor was launched. */
  predicate Told(s: State) {
    match T.LastTold(s.log.events)
    case None => !s.track.active && !L.Underway(s) && s.phase != Assessed && !s.engagement.assessment.ready
    case Some(told) => told == s.track.active || s.engagement.assessment.code == InterceptSuccess
  }

  predicate Sourced(s: State) {
    Replay(s.log.events) == Here(s) && MilestonesInOrder(s) && Told(s)
  }

  lemma Snoc()
    ensures forall events: seq<Event>, e: Event {:trigger events + [e]} ::
              && Replay(events + [e]) == Next(Replay(events), e)
              && Milestones(events + [e]) ==
                 Milestones(events) + (if e.eventType in ORDER || e.eventType == SessionEnded then [e.eventType] else [])
              && T.LastTold(events + [e]) == if T.TellsTrack(e) then Some(T.EventTrackActive(e)) else T.LastTold(events)
  {
    forall events: seq<Event>, e: Event
      ensures Replay(events + [e]) == Next(Replay(events), e)
      ensures Milestones(events + [e]) ==
              Milestones(events) + (if e.eventType in ORDER || e.eventType == SessionEnded then [e.eventType] else [])
      ensures T.LastTold(events + [e]) == if T.TellsTrack(e) then Some(T.EventTrackActive(e)) else T.LastTold(events)
    {
      assert (events + [e])[..|events|] == events;
    }
  }

  lemma NextMilestones()
    ensures ORDER[..0] == [] && ORDER[..0] + [SessionStarted] == ORDER[..1]
    ensures ORDER[..1] + [InterceptorUpdated] == ORDER[..2] && ORDER[..2] + [EngageOrderAccepted] == ORDER[..3]
    ensures ORDER[..3] + [AssessmentProduced] == ORDER[..4]
    ensures forall t <- {ClientJoined, ClientLeft, ClientReconnected, TrackUpdated, EngageOrderRejected, ResilienceTriggered} ::
              t !in ORDER && t != SessionEnded
  {
  }

  lemma SuccessIsNotTimeout()
    ensures Say(SuccessDetails) != Say(TimeoutDetails)
  {
    hide Sentence;
    SameStart(MARKED, "successful and the target as intercepted.", "timed out before intercept.");
  }

  lemma SameStart(start: string, a: string, b: string)
    requires a != "" && b != "" && a[0] != b[0]
    ensures Sentence([start, a]) != Sentence([start, b])
  {
    assert [start, a][1..] == [a] && [start, b][1..] == [b];
    var front := start + " ";
    assert Sentence([start, a]) == front + a && Sentence([start, b]) == front + b;
    assert (front + a)[|front|] == a[0] && (front + b)[|front|] == b[0];
  }

  lemma EmptyLog()
    ensures Replay([]) == Standing(Standby, false) && Milestones([]) == ORDER[..0] && T.LastTold([]) == None
  {
  }

  lemma StartIsSourced(s: State)
    requires L.Coherent(s) && Sourced(s)
    ensures Sourced(StartScenario(s).0)
  {
    hide Say, Capture, Replay, Milestones, T.LastTold, T.EventTrackActive;
    Snoc();
    NextMilestones();
    L.StartScenarioOutcome(s);
  }

  lemma RequestIsSourced(s: State)
    requires L.Coherent(s) && Sourced(s)
    ensures Sourced(RequestTrack(s).0)
  {
    hide Say, Capture, Replay, Milestones, T.LastTold, T.EventTrackActive;
    Snoc();
    NextMilestones();
    L.RequestTrackOutcome(s);
    if RequestTrack(s).1.accepted {
      T.EstablishedIsTold(R.Last(RequestTrack(s).0.log.events));
    }
  }

  lemma ReleaseIsSourced(s: State)
    requires L.Coherent(s) && Sourced(s)
    ensures Sourced(ReleaseTrack(s).0)
  {
    hide Say, Capture, Replay, Milestones, T.LastTold, T.EventTrackActive;
    Snoc();
    NextMilestones();
    L.ReleaseTrackOutcome(s);
    if ReleaseTrack(s).1.accepted {
      T.DropIsTold(R.Last(ReleaseTrack(s).0.log.events));
    }
  }

  lemma ActivateIsSourced(s: State)
    requires L.Coherent(s) && Sourced(s)
    ensures Sourced(ActivateAsset(s).0)
  {
    hide Say, Capture, Replay, Milestones, T.LastTold, T.EventTrackActive;
    Snoc();
    NextMilestones();
    L.ActivateAssetOutcome(s);
  }

  lemma IssueIsSourced(s: State)
    requires L.Coherent(s) && Sourced(s)
    ensures Sourced(IssueCommand(s).0)
  {
    hide Say, Capture, Replay, Milestones, T.LastTold, T.EventTrackActive, Math.Launch;
    Snoc();
    NextMilestones();
    L.IssueCommandOutcome(s);
    if IssueCommand(s).1.accepted {
      T.LaunchIsTold(R.Last(IssueCommand(s).0.log.events), s.track.active, s.scenario.launchAngleDeg);
    }
  }

  lemma ConnectIsSourced(s: State, role: Role, senderId: nat)
    requires L.Coherent(s) && Sourced(s)
    ensures Sourced(ConnectClient(s, role, senderId))
  {
    hide Say, RoleName, Capture, Replay, Milestones, T.LastTold, T.EventTrackActive;
    Snoc();
    NextMilestones();
  }

  lemma ClientStepIsSourced(s: State, step: Step)
    requires L.Coherent(s) && Sourced(s) && (step.Disconnect? || step.Timeout? || step.TransportRejection?)
    ensures Sourced(Apply(s, step))
  {
    hide Say, RoleName, Capture, Replay, Milestones, T.LastTold, T.EventTrackActive, AdvanceTick, StartScenario,
         RequestTrack, ReleaseTrack, ActivateAsset, IssueCommand;
    Snoc();
    NextMilestones();
  }

  lemma SessionStepIsSourced(s: State, step: Step)
    requires L.Coherent(s) && Sourced(s) && (step.Configure? || step.Reset?)
    ensures Sourced(Apply(s, step))
  {
    hide Say, Capture, Replay, Milestones, T.LastTold, T.EventTrackActive, Scenario.Valid;
    EmptyLog();
    NextMilestones();
  }

  lemma ArchiveIsSourced(s: State)
    requires L.Coherent(s) && Sourced(s)
    ensures Sourced(ArchiveSession(s))
  {
    hide Say, Capture, Replay, Milestones, T.LastTold, T.EventTrackActive;
    Snoc();
    NextMilestones();
    if s.phase != Archived {
      assert Milestones(ArchiveSession(s).log.events) == ORDER[..Reached(s.phase)] + [SessionEnded];
    }
  }

  /** Motion adds no events and only moves EngageOrdered on to Intercepting. */
  lemma AssessIsSourced(s: State)
    requires L.Coherent(s) && Sourced(s) && s.phase != Assessed
    ensures Sourced(Assess(Motion(s)))
  {
    hide Say, Replay, Milestones, T.LastTold, T.EventTrackActive, Motion, WithinRadius;
    Snoc();
    NextMilestones();
    SuccessIsNotTimeout();
    L.MotionKeeps(s);
  }

  lemma GapIsSourced(s: State, loss: real)
    requires Sourced(s)
    ensures Sourced(RecordSnapshot(ExerciseGap(s), loss))
  {
    hide Say, Capture, Replay, Milestones, T.LastTold, T.EventTrackActive;
    Snoc();
    NextMilestones();
  }

  lemma TickIsSourced(s: State)
    requires L.Coherent(s) && Sourced(s)
    ensures Sourced(AdvanceTick(s))
  {
    hide Say, Sourced, Motion, Assess, ExerciseGap, RecordSnapshot, ArchiveSession;
    if s.phase == Assessed {
      AssessedTickIsSourced(s);
    } else {
      AssessIsSourced(s);
      var t := Assess(Motion(s));
      GapIsSourced(t, if GapDue(t) then 25.0 else 0.0);
    }
  }

  lemma AssessedTickIsSourced(s: State)
    requires L.Coherent(s) && Sourced(s) && s.phase == Assessed
    ensures Sourced(ArchiveSession(s.(tick := s.tick + 1)))
  {
    hide Say, ArchiveSession, Replay, Milestones, T.LastTold;
    ArchiveIsSourced(s.(tick := s.tick + 1));
  }

  lemma StepIsSourced(s: State, step: Step)
    requires L.Coherent(s) && Sourced(s)
    ensures L.Coherent(Apply(s, step)) && Sourced(Apply(s, step))
  {
    hide L.Coherent, Sourced, StartScenario, ActivateAsset, IssueCommand, RequestTrack, ReleaseTrack, AdvanceTick,
         ConnectClient, DisconnectClient, TimeoutClient, RecordTransportRejection, ConfigureScenario, ResetSession,
         ArchiveSession;
    L.StepIsCoherent(s, step);
    match step {
      case Tick => TickIsSourced(s);
      case AcquireTrack => RequestIsSourced(s);
      case DropTrack => ReleaseIsSourced(s);
      case Start => StartIsSourced(s);
      case ReadyInterceptor => ActivateIsSourced(s);
      case Engage => IssueIsSourced(s);
      case Configure(_) | Reset => SessionStepIsSourced(s, step);
      case Archive => ArchiveIsSourced(s);
      case Connect(role, senderId) => ConnectIsSourced(s, role, senderId);
      case _ => ClientStepIsSourced(s, step);
    }
  }

  // ---------------------------------------------------------------------------
  // The launch, as told later

  predicate PastLaunch(s: State) { s.phase in {EngageOrdered, Intercepting, Assessed, Archived} }

  predicate ShowsLaunch(x: Snapshot) { x.phase in {EngageOrdered, Intercepting} }

  /** Every retained snapshot of an engagement under way shows the track state the texts tell. */
  predicate LaunchTold(s: State) {
    && (forall i :: 0 <= i < |s.log.snapshots| && ShowsLaunch(s.log.snapshots[i]) ==>
          PastLaunch(s) && T.LastTold(s.log.events) == Some(s.log.snapshots[i].track.active))
    && (L.Underway(s) || s.engagement.assessment.ready ==>
          exists i :: 0 <= i < |s.log.snapshots| && ShowsLaunch(s.log.snapshots[i]))
  }

  /** A step that tells nothing new about the track of an engagement, and concludes none. */
  predicate KeepsTelling(s: State, t: State) {
    && (PastLaunch(s) ==> PastLaunch(t) && T.LastTold(t.log.events) == T.LastTold(s.log.events))
    && (t.engagement.assessment.ready ==> L.Underway(s) || s.engagement.assessment.ready)
    && (L.Underway(t) ==> L.Underway(s) || |t.log.snapshots| > |s.log.snapshots|)
  }

  lemma AssessKeepsTelling(s: State)
    ensures T.LastTold(Assess(s).log.events) == T.LastTold(s.log.events)
  {
    hide Say, T.LastTold, WithinRadius;
    Snoc();
  }

  lemma RecordKeepsTelling(s: State, loss: real)
    ensures var t := RecordSnapshot(ExerciseGap(s), loss);
            && T.LastTold(t.log.events) == T.LastTold(s.log.events)
            && t.phase == s.phase && t.engagement == s.engagement
    ensures T.LastTold(ArchiveSession(s).log.events) == T.LastTold(s.log.events) && ArchiveSession(s).phase == Archived
  {
    hide Say, Capture, T.LastTold;
    Snoc();
  }

  lemma TickKeepsTelling(s: State)
    requires L.Coherent(s)
    ensures KeepsTelling(s, AdvanceTick(s))
  {
    hide Say, T.LastTold, Motion, Assess, ExerciseGap, RecordSnapshot, ArchiveSession;
    L.TickIsCoherent(s);
    L.MotionKeeps(s);
    L.AssessmentOutcomes(Motion(s));
    AssessKeepsTelling(Motion(s));
    var t := Assess(Motion(s));
    RecordKeepsTelling(t, if GapDue(t) then 25.0 else 0.0);
    RecordKeepsTelling(s.(tick := s.tick + 1), 0.0);
  }

  lemma TrackCommandKeepsTelling(s: State)
    ensures KeepsTelling(s, RequestTrack(s).0) && KeepsTelling(s, ReleaseTrack(s).0)
  {
    hide Say, Capture, T.LastTold, Tracker.Seed, Replay, Milestones;
    Snoc();
  }

  lemma StartKeepsTelling(s: State)
    ensures KeepsTelling(s, StartScenario(s).0) && KeepsTelling(s, ActivateAsset(s).0)
  {
    hide Say, Capture, T.LastTold, Replay, Milestones;
    Snoc();
  }

  lemma IssueKeepsTelling(s: State)
    ensures KeepsTelling(s, IssueCommand(s).0)
  {
    hide Say, Capture, T.LastTold, Math.Launch, Replay, Milestones;
    Snoc();
  }

  lemma ConnectKeepsTelling(s: State, role: Role, senderId: nat)
    ensures KeepsTelling(s, ConnectClient(s, role, senderId))
  {
    hide Say, RoleName, T.LastTold;
    Snoc();
  }

  lemma OtherKeepsTelling(s: State, step: Step)
    requires L.Coherent(s) && !L.IsCommand(step) && step != Tick && step != Reset && !step.Connect?
    ensures KeepsTelling(s, Apply(s, step))
  {
    hide Say, RoleName, Capture, T.LastTold, AdvanceTick, StartScenario, RequestTrack, ReleaseTrack, ActivateAsset,
         IssueCommand, ConnectClient, StartingWorld, Scenario.Valid;
    Snoc();
  }

  lemma StepKeepsTelling(s: State, step: Step)
    requires L.Coherent(s) && step != Reset
    ensures KeepsTelling(s, Apply(s, step))
  {
    hide KeepsTelling, L.Coherent, StartScenario, ActivateAsset, IssueCommand, RequestTrack, ReleaseTrack, AdvanceTick,
         ConnectClient, DisconnectClient, TimeoutClient, RecordTransportRejection, ConfigureScenario, ArchiveSession;
    match step {
      case Tick => TickKeepsTelling(s);
      case Connect(role, senderId) => ConnectKeepsTelling(s, role, senderId);
      case AcquireTrack | DropTrack => TrackCommandKeepsTelling(s);
      case Start | ReadyInterceptor => StartKeepsTelling(s);
      case Engage => IssueKeepsTelling(s);
      case _ => OtherKeepsTelling(s, step);
    }
  }

  lemma LaunchToldStep(s: State, step: Step)
    requires L.Coherent(s) && LaunchTold(s) && Told(Apply(s, step)) && L.Coherent(Apply(s, step))
    ensures LaunchTold(Apply(s, step))
  {
    hide Apply, T.LastTold, AdvanceTick, R.Stamped, L.Coherent;
    var base, t := R.Base(s, step), Apply(s, step);
    R.StepRecords(s, step);
    if step == Reset { ResetIs(s); } else { StepKeepsTelling(s, step); }
    assert forall i :: 0 <= i < |base.snapshots| ==> t.log.snapshots[i] == base.snapshots[i];
    FlyingIsNoSuccess(t);
    if L.Underway(t) && |t.log.snapshots| > |base.snapshots| {
      assert ShowsLaunch(t.log.snapshots[|base.snapshots|]);
    } else if L.Underway(t) || t.engagement.assessment.ready {
      var i :| 0 <= i < |s.log.snapshots| && ShowsLaunch(s.log.snapshots[i]);
      assert t.log.snapshots[i] == s.log.snapshots[i];
    }
  }

  lemma FlyingIsNoSuccess(t: State)
    requires L.Coherent(t)
    ensures L.Underway(t) ==> t.engagement.assessment.code != InterceptSuccess
  {
  }

  lemma ResetIs(s: State)
    ensures var t := Apply(s, Reset); t.phase == Standby && !t.engagement.assessment.ready
  {
    hide Say, Capture;
  }

  ghost predicate Telling(s: State) { L.Coherent(s) && Sourced(s) && LaunchTold(s) }

  lemma {:induction false} RunIsTelling(s: State, steps: seq<Step>)
    requires Telling(s)
    ensures Telling(Run(s, steps))
    decreases |steps|
  {
    hide Apply, L.Coherent, Replay, Milestones, LaunchTold, MilestonesInOrder, Here;
    if steps != [] {
      StepIsSourced(s, steps[0]);
      LaunchToldStep(s, steps[0]);
      RunIsTelling(Apply(s, steps[0]), steps[1..]);
    }
  }

  /** In every reachable state the events since the last reset reconstruct phase and track, and
      their milestones come in order. */
  lemma EventsReconstructTheSession(s: State)
    requires Reachable(s)
    ensures Replay(s.log.events) == Here(s) && MilestonesInOrder(s) && Told(s) && LaunchTold(s)
  {
    hide Apply, Run, Replay, Milestones, LaunchTold, MilestonesInOrder, L.Coherent;
    var cfg: Config, scenario: Scenario, steps: seq<Step> :|
      cfg.Valid() && scenario.Valid() && s == Run(Init(cfg, scenario), steps);
    FreshIsTelling(cfg, scenario);
    RunIsTelling(Init(cfg, scenario), steps);
  }

  lemma FreshIsTelling(cfg: Config, scenario: Scenario)
    requires scenario.Valid()
    ensures Telling(Init(cfg, scenario))
  {
    L.InitIsCoherent(cfg, scenario);
    EmptyLog();
  }

  /** The track state printed into the artifacts: the real track flag until the target is
      intercepted, and from the launch on the flag every snapshot of the flight shows. */
  method ArtifactTrackState(s: State) returns (active: bool)
    requires Reachable(s) && s.log.snapshots != []
    ensures s.engagement.assessment.code != InterceptSuccess ==> active == s.track.active
    ensures forall i :: 0 <= i < |s.log.snapshots| && ShowsLaunch(s.log.snapshots[i]) ==>
              active == s.log.snapshots[i].track.active
    ensures s.engagement.assessment.ready ==> exists i :: 0 <= i < |s.log.snapshots| && ShowsLaunch(s.log.snapshots[i])
  {
    hide Reachable, Replay, Milestones, MilestonesInOrder;
    active := T.ArtifactTrackActive(s.log.events, R.Last(s.log.snapshots));
    EventsReconstructTheSession(s);
    NewestShowsTrack(s);
  }

  lemma NewestShowsTrack(s: State)
    requires Reachable(s) && s.log.snapshots != []
    ensures R.Last(s.log.snapshots).track.active == s.track.active
  {
    R.ReachableObeysLogLaws(s);
    hide Reachable;
  }
}
