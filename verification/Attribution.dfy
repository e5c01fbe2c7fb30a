/** Whom and what the events of a session name. */
module Attribution {
  import opened Numerics
  import opened SessionTypes
  import opened Messages
  import opened Session
  import L = Lifecycle
  import Tracker

  /** Commands are told by the console, clients by themselves, and everything else by the server; and each
      names what it is about. */
  predicate Rightful(e: Event) {
    var target, asset := [TARGET_ID], [ASSET_ID];
    match e.eventType
    case SessionStarted => e.source == Say(SimulationServer) && e.entityIds == target
    case SessionEnded => e.source == Say(SimulationServer) && e.entityIds == target + asset
    case ClientJoined | ClientLeft | ClientReconnected =>
      e.source in {RoleName(FireControlConsole), RoleName(TacticalDisplay)} && e.entityIds == []
    case TrackUpdated => e.source == Say(ConsoleStation) && e.entityIds in {target, target + asset}
    case InterceptorUpdated => e.source == Say(ConsoleStation) && e.entityIds == asset
    case EngageOrderAccepted => e.source == Say(ConsoleStation) && e.entityIds == asset + target
    case EngageOrderRejected => e.source == Say(SimulationServer)
    case AssessmentProduced => e.source == Say(SimulationServer) && e.entityIds == asset + target
    case ResilienceTriggered => e.source == Say(SimulationServer) && e.entityIds in {[], target}
  }

  predicate Marked(events: seq<Event>, target: string, asset: string) {
    target == TARGET_ID && asset == ASSET_ID && forall i :: 0 <= i < |events| ==> Rightful(events[i])
  }

  predicate Attributed(s: State) { Marked(s.log.events, s.world.target.id, s.world.asset.id) }

  lemma OneMoreMark()
    ensures forall events: seq<Event>, e: Event, target: string, asset: string {:trigger Marked(events + [e], target, asset)} ::
              Marked(events, target, asset) && Rightful(e) ==> Marked(events + [e], target, asset)
  {
    hide Rightful;
  }

  lemma MarkedNames(s: State)
    requires Attributed(s)
    ensures s.world.target.id == TARGET_ID && s.world.asset.id == ASSET_ID
  {
  }

  lemma IdLists()
    ensures [TARGET_ID, ASSET_ID] == [TARGET_ID] + [ASSET_ID] && [ASSET_ID, TARGET_ID] == [ASSET_ID] + [TARGET_ID]
  {
  }

  lemma ClientStepIsAttributed(s: State, step: Step)
    requires Attributed(s) && (step.Connect? || step.Disconnect? || step.Timeout? || step.TransportRejection?)
    ensures Attributed(Apply(s, step))
  {
    hide Marked, Say, Capture, RoleName;
    OneMoreMark();
  }

  lemma CommandIsAttributed(s: State)
    requires Attributed(s)
    ensures Attributed(StartScenario(s).0) && Attributed(ActivateAsset(s).0) && Attributed(IssueCommand(s).0)
  {
    hide Marked, Say, Capture, RoleName, Math.Launch;
    OneMoreMark();
    MarkedNames(s);
    IdLists();
  }

  lemma TrackIsAttributed(s: State)
    requires Attributed(s)
    ensures Attributed(RequestTrack(s).0) && Attributed(ReleaseTrack(s).0)
  {
    hide Marked, Say, Capture, RoleName, Tracker.Seed;
    OneMoreMark();
    MarkedNames(s);
    IdLists();
  }

  lemma EndIsAttributed(s: State)
    requires Attributed(s)
    ensures Attributed(ArchiveSession(s))
  {
    hide Marked, Say, Capture, RoleName;
    OneMoreMark();
    MarkedNames(s);
    IdLists();
  }

  lemma AssessmentIsAttributed(s: State)
    requires Attributed(s)
    ensures Attributed(Assess(s)) && Attributed(ExerciseGap(s))
  {
    hide Marked, Say, RoleName, WithinRadius;
    OneMoreMark();
    MarkedNames(s);
    IdLists();
  }

  lemma TickIsAttributed(s: State)
    requires Attributed(s)
    ensures Attributed(AdvanceTick(s))
  {
    hide Marked, Say, Capture, Motion, Assess, ExerciseGap, ArchiveSession;
    if s.phase == Assessed {
      EndIsAttributed(s.(tick := s.tick + 1));
    } else {
      L.MotionKeeps(s);
      AssessmentIsAttributed(Motion(s));
      AssessmentIsAttributed(Assess(Motion(s)));
    }
  }

  lemma NothingIsAttributed(scenario: Scenario)
    ensures Marked([], StartingWorld(scenario).target.id, StartingWorld(scenario).asset.id)
  {
  }

  lemma ConfigurationIsAttributed(s: State, scenario: Scenario)
    requires Attributed(s)
    ensures Attributed(ResetSession(s).0) && Attributed(ConfigureScenario(s, scenario))
  {
    NothingIsAttributed(s.scenario);
    MarkedNames(s);
    hide Marked, Say, Capture;
  }

  lemma StepIsAttributed(s: State, step: Step)
    requires Attributed(s)
    ensures Attributed(Apply(s, step))
  {
    hide Attributed, AdvanceTick, StartScenario, RequestTrack, ReleaseTrack, ActivateAsset, IssueCommand, ConnectClient,
         DisconnectClient, TimeoutClient, RecordTransportRejection, ConfigureScenario, ResetSession, ArchiveSession, Scenario.Valid;
    match step {
      case Tick => TickIsAttributed(s);
      case Archive => EndIsAttributed(s);
      case Reset => ConfigurationIsAttributed(s, s.scenario);
      case Configure(scenario) => ConfigurationIsAttributed(s, scenario);
      case AcquireTrack | DropTrack => TrackIsAttributed(s);
      case Start | ReadyInterceptor | Engage => CommandIsAttributed(s);
      case _ => ClientStepIsAttributed(s, step);
    }
  }

  lemma {:induction false} RunIsAttributed(s: State, steps: seq<Step>)
    requires Attributed(s)
    ensures Attributed(Run(s, steps))
    decreases |steps|
  {
    hide Apply, Attributed;
    if steps != [] {
      StepIsAttributed(s, steps[0]);
      RunIsAttributed(Apply(s, steps[0]), steps[1..]);
    }
  }

  /** In every reachable state the log names the two bodies of the session, and every event its source and
      its entities. */
  lemma ReachableIsAttributed(s: State)
    requires Reachable(s)
    ensures Attributed(s)
  {
    hide Apply, Run, Marked, StartingWorld;
    var cfg: Config, scenario: Scenario, steps: seq<Step> :|
      cfg.Valid() && scenario.Valid() && s == Run(Init(cfg, scenario), steps);
    NothingIsAttributed(scenario);
    RunIsAttributed(Init(cfg, scenario), steps);
  }
}
