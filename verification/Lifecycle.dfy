/** The life of an engagement: what every reachable state satisfies, which commands are accepted,
    and when an accepted engage order is assessed. */
module Lifecycle {
  import opened Text
  import opened SessionTypes
  import opened Messages
  import opened Numerics
  import opened Session
  import Tracker

  predicate Underway(s: State) { s.phase in {EngageOrdered, Intercepting} }

  /** An engagement that has ended, by interception or by timeout. */
  predicate Ended(s: State) {
    var e, w := s.engagement, s.world;
    && e.assessment.ready && e.interceptor == Complete && e.order == Completed && e.started == None
    && w.asset.active
    && e.assessment.code in {InterceptSuccess, TimeoutObserved}
    && (e.assessment.code == InterceptSuccess ==>
          !w.target.active && !s.track.active && !w.seekerLock
          && w.targetVelocity == ORIGIN && w.assetVelocity == ORIGIN)
    && (e.assessment.code == TimeoutObserved ==> w.target.active)
  }

  /** Before an engage order nothing is assessed and nothing is timed. */
  predicate NotLaunched(s: State) {
    var e := s.engagement;
    !e.assessment.ready && e.order in {NoOrder, Rejected} && e.started == None
  }

  predicate Coherent(s: State) {
    var e, w := s.engagement, s.world;
    && s.scenario.Valid()
    && (!e.assessment.ready ==> e.assessment.code in {Pending, InvalidTransition})
    && (e.order == Rejected ==> e.assessment.code == InvalidTransition)
    && match s.phase
       case Standby =>
         NotLaunched(s) && e.interceptor == Idle && !w.target.active && !w.asset.active && !s.track.active
       case Detecting =>
         NotLaunched(s) && e.interceptor == Idle && w.target.active && !w.asset.active && !s.track.active
       case Tracking =>
         NotLaunched(s) && e.interceptor == Idle && w.target.active && !w.asset.active && s.track.active
       case InterceptorReady =>
         NotLaunched(s) && e.interceptor == Ready && w.target.active && w.asset.active
       case EngageOrdered =>
         && !e.assessment.ready && e.interceptor == Ready && e.order in {Accepted, Rejected}
         && w.target.active && w.asset.active
         && e.started.Some? && e.started.value <= s.tick
         && (e.order == Accepted ==> e.started.value == s.tick)
       case Intercepting =>
         && !e.assessment.ready && e.interceptor == InFlight && e.order in {Executing, Rejected}
         && w.target.active && w.asset.active
         && e.started.Some? && e.started.value <= s.tick
         && (e.order == Executing ==> s.tick - e.started.value < s.scenario.engagementTimeoutTicks)
       case Assessed => Ended(s)
       case Archived => Ended(s) || (!e.assessment.ready && e.order != Completed)
  }

  lemma InitIsCoherent(cfg: Config, scenario: Scenario)
    requires scenario.Valid()
    ensures Coherent(Init(cfg, scenario))
  {
  }

  lemma TrackingKeeps(s: State)
    ensures var t := UpdateTrack(MoveTarget(s.(tick := s.tick + 1)));
            && t == s.(tick := s.tick + 1, track := t.track, filter := t.filter, world := t.world)
            && t.world == s.world.(target := t.world.target, targetAt := t.world.targetAt, targetVelocity := t.world.targetVelocity)
            && t.world.target == s.world.target.(position := t.world.target.position)
            && t.track.active == s.track.active
            && (!s.world.target.active ==> t.world.targetVelocity == s.world.targetVelocity)
  {
    hide Bounce, RoundToGrid, Tracker.UpdateFilter, Tracker.Runnable;
  }

  lemma FlyingKeeps(s: State)
    ensures var t := PointSeeker(FlyInterceptor(s));
            && t == s.(world := t.world)
            && t.world == s.world.(asset := t.world.asset, assetAt := t.world.assetAt, assetVelocity := t.world.assetVelocity,
                                   seekerLock := t.world.seekerLock, offBoresightDeg := t.world.offBoresightDeg)
            && t.world.asset == s.world.asset.(position := t.world.asset.position)
            && (s.phase != Intercepting ==> t.world.assetVelocity == s.world.assetVelocity)
            && (!s.track.active ==> !t.world.seekerLock)
  {
    hide RoundToGrid, CapSpeed, Steered, Confined, NormalizeAngleDeg;
  }

  /** What the motion part of a tick leaves alone. */
  lemma MotionKeeps(s: State)
    ensures var t, b := Motion(s), BeginIntercept(s);
            && t.phase == b.phase && t.engagement == b.engagement && t.tick == s.tick + 1
            && t.scenario == s.scenario && t.cfg == s.cfg && t.exercised == s.exercised && t.log == s.log
            && t.console == s.console && t.display == s.display
            && t.world.target.active == s.world.target.active && t.world.target.id == s.world.target.id
            && t.world.asset.active == s.world.asset.active && t.world.asset.id == s.world.asset.id
            && t.track.active == s.track.active
            && (!s.world.target.active ==> t.world.targetVelocity == s.world.targetVelocity)
            && (b.phase != Intercepting ==> t.world.assetVelocity == s.world.assetVelocity)
            && (!s.track.active ==> !t.world.seekerLock)
  {
    hide MoveTarget, UpdateTrack, FlyInterceptor, PointSeeker;
    TrackingKeeps(s);
    FlyingKeeps(BeginIntercept(UpdateTrack(MoveTarget(s.(tick := s.tick + 1)))));
  }

  /** An assessment concludes an executing engagement; nothing else does. */
  lemma AssessmentOutcomes(s: State)
    ensures var t := Assess(s);
            && t.tick == s.tick && t.scenario == s.scenario && t.cfg == s.cfg
            && t.console == s.console && t.display == s.display && t.exercised == s.exercised
            && (t == s || (s.phase == Intercepting && s.engagement.order == Executing && t.phase == Assessed))
    ensures s.phase == Intercepting && s.engagement.order == Executing ==>
              var t := Assess(s);
              && (t == s ==> !WithinRadius(s) && EngagementTicks(s) < s.scenario.engagementTimeoutTicks)
              && (t != s && s.world.asset.active && s.world.target.active ==> Ended(t))
              && (t != s ==> (t.engagement.assessment.code == InterceptSuccess <==> WithinRadius(s)))
  {
    hide Say, WithinRadius;
  }

  lemma TickIsCoherent(s: State)
    requires Coherent(s)
    ensures Coherent(AdvanceTick(s))
    ensures s.phase == Assessed ==> AdvanceTick(s).phase == Archived
    ensures s.phase !in {EngageOrdered, Intercepting, Assessed} ==> AdvanceTick(s).phase == s.phase
    ensures AdvanceTick(s).tick == s.tick + 1 && AdvanceTick(s).scenario == s.scenario
    ensures s.phase in {Assessed, Archived} ==> AdvanceTick(s).engagement == s.engagement
    ensures Underway(s) && s.engagement.order == Rejected ==>
              AdvanceTick(s).phase == s.phase && AdvanceTick(s).engagement == s.engagement
    ensures Underway(s) && s.engagement.order != Rejected ==>
              && AdvanceTick(s).phase in {Intercepting, Assessed} && AdvanceTick(s).engagement.order != Rejected
              && (AdvanceTick(s).phase == Intercepting ==> AdvanceTick(s).engagement.started == s.engagement.started)
  {
    hide Say, Capture;
    MotionKeeps(s);
    AssessmentOutcomes(Motion(s));
    hide Motion, Assess, WithinRadius;
  }

  /** A refusal changes nothing but the log, the order status and the assessment code. */
  predicate Refused(s: State, t: State) {
    && t.phase == s.phase && t.tick == s.tick && t.scenario == s.scenario && t.world == s.world && t.track == s.track
    && t.engagement.started == s.engagement.started && t.engagement.interceptor == s.engagement.interceptor
    && (if s.engagement.assessment.ready then t.engagement == s.engagement else t.engagement.order == Rejected)
  }

  /** Exactly when it is accepted: starting needs standby and a console that is not disconnected. */
  lemma StartScenarioOutcome(s: State)
    requires Coherent(s)
    ensures var r := StartScenario(s);
            && Coherent(r.0)
            && (r.1.accepted <==> s.phase == Standby && s.console.connection != Disconnected)
            && (if r.1.accepted then r.0.phase == Detecting else Refused(s, r.0))
  {
    hide Say, Capture;
  }

  /** Exactly when it is accepted: a track is accepted while detecting, or for a ready interceptor without one. */
  lemma RequestTrackOutcome(s: State)
    requires Coherent(s)
    ensures var r := RequestTrack(s);
            && Coherent(r.0)
            && (r.1.accepted <==> s.phase == Detecting || (s.phase == InterceptorReady && !s.track.active))
            && (if r.1.accepted then
                  r.0.phase == (if s.phase == Detecting then Tracking else s.phase) && r.0.track.active
                else Refused(s, r.0))
  {
    hide Say, Capture;
  }

  /** Exactly when it is accepted: in the tracking phase a release is never refused. */
  lemma ReleaseTrackOutcome(s: State)
    requires Coherent(s)
    ensures var r := ReleaseTrack(s);
            && Coherent(r.0)
            && (r.1.accepted <==> s.phase == Tracking || (s.phase == InterceptorReady && s.track.active))
            && (if r.1.accepted then
                  r.0.phase == (if s.phase == Tracking then Detecting else s.phase) && !r.0.track.active
                else Refused(s, r.0))
  {
    hide Say, Capture;
  }

  /** Exactly when it is accepted: in the tracking phase an activation is never refused for want of a track. */
  lemma ActivateAssetOutcome(s: State)
    requires Coherent(s)
    ensures var r := ActivateAsset(s);
            && Coherent(r.0)
            && (r.1.accepted <==> s.phase == Tracking)
            && (if r.1.accepted then r.0.phase == InterceptorReady && r.0.track.active else Refused(s, r.0))
  {
    hide Say, Capture;
  }

  /** Exactly when it is accepted: a ready interceptor is never refused an engage order. */
  lemma IssueCommandOutcome(s: State)
    requires Coherent(s)
    ensures var r := IssueCommand(s);
            && Coherent(r.0)
            && (r.1.accepted <==> s.phase == InterceptorReady)
            && (if r.1.accepted then r.0.phase == EngageOrdered && r.0.engagement.order == Accepted else Refused(s, r.0))
  {
    hide Say, Capture;
  }

  lemma ClientStepsAreCoherent(s: State, step: Step)
    requires Coherent(s) && (step.Connect? || step.Disconnect? || step.Timeout? || step.TransportRejection?)
    ensures Coherent(Apply(s, step))
    ensures Apply(s, step).phase == s.phase && Apply(s, step).engagement == s.engagement
    ensures Apply(s, step).tick == s.tick && Apply(s, step).scenario == s.scenario
  {
    hide Say, Capture;
  }

  lemma SessionStepsAreCoherent(s: State, step: Step)
    requires Coherent(s) && (step.Configure? || step.Reset? || step.Archive?)
    ensures Coherent(Apply(s, step))
  {
    hide Say, Capture;
  }

  /** Every public operation keeps the session coherent. */
  lemma StepIsCoherent(s: State, step: Step)
    requires Coherent(s)
    ensures Coherent(Apply(s, step))
  {
    hide Coherent, StartScenario, ActivateAsset, IssueCommand, RequestTrack, ReleaseTrack, AdvanceTick, ConnectClient,
         DisconnectClient, TimeoutClient, RecordTransportRejection, ConfigureScenario, ResetSession, ArchiveSession;
    match step {
      case Tick => TickIsCoherent(s);
      case AcquireTrack => RequestTrackOutcome(s);
      case DropTrack => ReleaseTrackOutcome(s);
      case Start => StartScenarioOutcome(s);
      case ReadyInterceptor => ActivateAssetOutcome(s);
      case Engage => IssueCommandOutcome(s);
      case Configure(_) | Reset | Archive => SessionStepsAreCoherent(s, step);
      case _ => ClientStepsAreCoherent(s, step);
    }
  }

  lemma {:induction false} RunIsCoherent(s: State, steps: seq<Step>)
    requires Coherent(s)
    ensures Coherent(Run(s, steps))
    decreases |steps|
  {
    if steps != [] {
      StepIsCoherent(s, steps[0]);
      hide Apply, Coherent;
      RunIsCoherent(Apply(s, steps[0]), steps[1..]);
    }
  }

  lemma ReachableIsCoherent(s: State)
    requires Reachable(s)
    ensures Coherent(s)
  {
    var cfg: Config, scenario: Scenario, steps: seq<Step> :| cfg.Valid() && scenario.Valid() && s == Run(Init(cfg, scenario), steps);
    InitIsCoherent(cfg, scenario);
    RunIsCoherent(Init(cfg, scenario), steps);
  }

  // ---------------------------------------------------------------------------
  // When an engagement is assessed

  predicate IsCommand(step: Step) { step in {Start, AcquireTrack, DropTrack, ReadyInterceptor, Engage} }

  /** The steps that neither archive nor reset the run. */
  predicate KeepsRunning(steps: seq<Step>) {
    forall step <- steps :: step != Archive && step != Reset
  }

  function Ticks(steps: seq<Step>): nat {
    if steps == [] then 0 else (if steps[0] == Tick then 1 else 0) + Ticks(steps[1..])
  }

  /** Some command is issued while the engagement is under way. It is necessarily refused. */
  predicate CommandedUnderway(s: State, steps: seq<Step>)
    decreases |steps|
  {
    steps != [] && ((Underway(s) && IsCommand(steps[0])) || CommandedUnderway(Apply(s, steps[0]), steps[1..]))
  }

  /** An engagement ordered at tick t0, anywhere between its launch and its archive. */
  predicate Since(s: State, t0: nat) {
    || (Underway(s) && s.engagement.started == Some(t0))
    || (s.phase == Assessed && s.tick <= t0 + s.scenario.engagementTimeoutTicks)
    || (s.phase == Archived && s.engagement.assessment.ready)
  }

  predicate Stuck(s: State) { Underway(s) && s.engagement.order == Rejected }

  lemma RunningTick(s: State, t0: nat)
    requires Coherent(s) && Since(s, t0)
    ensures var t := AdvanceTick(s);
            && Since(t, t0) && t.scenario == s.scenario && t.tick == s.tick + 1
            && (Stuck(t) <==> Stuck(s)) && (Stuck(s) ==> t.phase == s.phase)
            && (s.phase in {Assessed, Archived} ==> t.phase == Archived)
  {
    hide AdvanceTick, Coherent;
    TickIsCoherent(s);
    EngagementTimes(s);
    EngagementTimes(AdvanceTick(s));
  }

  /** What coherence says about the timer of an engagement. */
  lemma EngagementTimes(s: State)
    requires Coherent(s)
    ensures Underway(s) ==> !s.engagement.assessment.ready && s.engagement.started.Some? && s.engagement.started.value <= s.tick
    ensures s.phase == EngageOrdered && s.engagement.order != Rejected ==> s.engagement.started.value == s.tick
    ensures s.phase == Intercepting && s.engagement.order != Rejected ==>
              s.tick - s.engagement.started.value < s.scenario.engagementTimeoutTicks
    ensures s.phase == Assessed ==> s.engagement.assessment.ready
    ensures s.scenario.engagementTimeoutTicks > 0
  {
  }

  lemma RunningCommand(s: State, step: Step, t0: nat)
    requires Coherent(s) && Since(s, t0) && IsCommand(step)
    ensures var t := Apply(s, step);
            && Since(t, t0) && t.scenario == s.scenario && t.tick == s.tick && t.phase == s.phase
            && (Stuck(t) <==> Underway(s))
  {
    hide AdvanceTick, RequestTrack, ReleaseTrack, StartScenario, ActivateAsset, IssueCommand;
    match step {
      case AcquireTrack => RequestTrackOutcome(s);
      case DropTrack => ReleaseTrackOutcome(s);
      case Start => StartScenarioOutcome(s);
      case ReadyInterceptor => ActivateAssetOutcome(s);
      case Engage => IssueCommandOutcome(s);
    }
  }

  lemma RunningClientStep(s: State, step: Step, t0: nat)
    requires Coherent(s) && Since(s, t0) && !IsCommand(step) && step != Tick && step != Archive && step != Reset
    ensures var t := Apply(s, step);
            && Since(t, t0) && t.scenario == s.scenario && t.tick == s.tick && t.phase == s.phase
            && (Stuck(t) <==> Stuck(s))
  {
    hide AdvanceTick, RequestTrack, ReleaseTrack, StartScenario, ActivateAsset, IssueCommand, ConnectClient,
         DisconnectClient, TimeoutClient, RecordTransportRejection, ConfigureScenario, ResetSession, ArchiveSession;
    if !step.Configure? { ClientStepsAreCoherent(s, step); }
  }

  lemma RunningStep(s: State, step: Step, t0: nat)
    requires Coherent(s) && Since(s, t0) && step != Archive && step != Reset
    ensures var t := Apply(s, step);
            && Coherent(t) && Since(t, t0) && t.scenario == s.scenario
            && t.tick == s.tick + (if step == Tick then 1 else 0)
            && (Stuck(t) <==> Stuck(s) || (Underway(s) && IsCommand(step)))
            && (Stuck(s) ==> t.phase == s.phase)
            && (s.phase in {Assessed, Archived} ==> t.phase == if step == Tick then Archived else s.phase)
  {
    hide Coherent, Since, AdvanceTick, RequestTrack, ReleaseTrack, StartScenario, ActivateAsset, IssueCommand,
         ConnectClient, DisconnectClient, TimeoutClient, RecordTransportRejection, ConfigureScenario, ResetSession,
         ArchiveSession;
    StepIsCoherent(s, step);
    if step == Tick {
      RunningTick(s, t0);
    } else if IsCommand(step) {
      RunningCommand(s, step, t0);
    } else {
      RunningClientStep(s, step, t0);
    }
  }

  /** Over any run: the engagement is stuck exactly if it was, or a command was refused meanwhile. */
  lemma {:induction false} RunningRun(s: State, steps: seq<Step>, t0: nat)
    requires Coherent(s) && Since(s, t0) && KeepsRunning(steps)
    ensures var t := Run(s, steps);
            && Coherent(t) && Since(t, t0) && t.scenario == s.scenario && t.tick == s.tick + Ticks(steps)
            && (Stuck(t) <==> Stuck(s) || CommandedUnderway(s, steps))
            && (Stuck(s) ==> t.phase == s.phase)
            && (s.phase in {Assessed, Archived} ==> t.phase == if Ticks(steps) > 0 then Archived else s.phase)
    decreases |steps|
  {
    if steps != [] {
      assert steps[0] in steps && forall step <- steps[1..] :: step in steps;
      RunningStep(s, steps[0], t0);
      hide Apply, Coherent, Since, Stuck;
      RunningRun(Apply(s, steps[0]), steps[1..], t0);
    }
  }

  /** Liveness, both ways. Once `engagementTimeoutTicks` ticks have passed since the engage order
      the engagement has been assessed, and one tick later archived, if and only if no command
      was issued while it was under way. */
  lemma EngagementIsAssessedInTime(s: State, steps: seq<Step>)
    requires Coherent(s) && Underway(s) && KeepsRunning(steps)
    requires s.tick + Ticks(steps) >= s.engagement.started.value + s.scenario.engagementTimeoutTicks
    ensures var t := Run(s, steps);
            var undisturbed := s.engagement.order != Rejected && !CommandedUnderway(s, steps);
            && (undisturbed <==> t.phase in {Assessed, Archived})
            && (undisturbed ==> Ended(t))
            && (undisturbed && t.tick > s.engagement.started.value + s.scenario.engagementTimeoutTicks ==> t.phase == Archived)
            && (!undisturbed ==> Underway(t) && t.engagement.order == Rejected)
  {
    hide Apply, Run, CommandedUnderway, Ticks;
    RunningRun(s, steps, s.engagement.started.value);
  }

  /** A refused command under way leaves the engagement where it is, for ever. */
  lemma RefusalBlocksAssessment(s: State, steps: seq<Step>)
    requires Coherent(s) && Stuck(s) && KeepsRunning(steps)
    ensures Run(s, steps).phase == s.phase && !Run(s, steps).engagement.assessment.ready
  {
    RunningRun(s, steps, s.engagement.started.value);
  }

  /** The shortest way into that: asking for a track right after the engage order. */
  lemma RepeatedTrackRequestBlocksAssessment(cfg: Config, scenario: Scenario, ticks: seq<Step>)
    requires cfg.Valid() && scenario.Valid() && forall step <- ticks :: step == Tick
    ensures var opening := [Connect(FireControlConsole, 101), Start, AcquireTrack, ReadyInterceptor, Engage, AcquireTrack];
            var t := Run(Init(cfg, scenario), opening + ticks);
            t.phase == EngageOrdered && !t.engagement.assessment.ready
  {
    var opening := [Connect(FireControlConsole, 101), Start, AcquireTrack, ReadyInterceptor, Engage, AcquireTrack];
    RunAppend(Init(cfg, scenario), opening, ticks);
    RepeatedRequest(cfg, scenario);
    hide Apply;
    RefusalBlocksAssessment(Run(Init(cfg, scenario), opening), ticks);
  }

  lemma RepeatedRequest(cfg: Config, scenario: Scenario)
    requires scenario.Valid()
    ensures var opening := [Connect(FireControlConsole, 101), Start, AcquireTrack, ReadyInterceptor, Engage, AcquireTrack];
            var t := Run(Init(cfg, scenario), opening);
            Coherent(t) && Stuck(t) && t.phase == EngageOrdered
  {
    ConsoleJoins(cfg, scenario);
    hide Init, Coherent, Run, Apply, ConnectClient, StartScenario, RequestTrack, ActivateAsset, IssueCommand;
    var s1, s2, s3, s4, s5, s6 := OpeningRun(Init(cfg, scenario));
    StartScenarioOutcome(s1);
    RequestTrackOutcome(s2);
    ActivateAssetOutcome(s3);
    IssueCommandOutcome(s4);
    RequestTrackOutcome(s5);
  }

  lemma OpeningRun(s0: State) returns (s1: State, s2: State, s3: State, s4: State, s5: State, s6: State)
    ensures s1 == ConnectClient(s0, FireControlConsole, 101) && s2 == StartScenario(s1).0 && s3 == RequestTrack(s2).0
    ensures s4 == ActivateAsset(s3).0 && s5 == IssueCommand(s4).0 && s6 == RequestTrack(s5).0
    ensures Run(s0, [Connect(FireControlConsole, 101), Start, AcquireTrack, ReadyInterceptor, Engage, AcquireTrack]) == s6
  {
    hide Run, Apply, ConnectClient, StartScenario, RequestTrack, ActivateAsset, IssueCommand;
    var a6 := [AcquireTrack];
    var a5 := [Engage] + a6;
    var a4 := [ReadyInterceptor] + a5;
    var a3 := [AcquireTrack] + a4;
    var a2 := [Start] + a3;
    s1 := RunCons(s0, Connect(FireControlConsole, 101), a2);
    s2 := RunCons(s1, Start, a3);
    s3 := RunCons(s2, AcquireTrack, a4);
    s4 := RunCons(s3, ReadyInterceptor, a5);
    s5 := RunCons(s4, Engage, a6);
    s6 := RunCons(s5, AcquireTrack, []);
    assert a6 == [AcquireTrack] + [];
    assert [Connect(FireControlConsole, 101)] + a2
        == [Connect(FireControlConsole, 101), Start, AcquireTrack, ReadyInterceptor, Engage, AcquireTrack];
  }

  lemma RunCons(s: State, step: Step, rest: seq<Step>) returns (t: State)
    ensures t == Apply(s, step) && Run(s, [step] + rest) == Run(t, rest) && Run(t, []) == t
    ensures step.Connect? ==> t == ConnectClient(s, step.role, step.senderId)
    ensures step == Start ==> t == StartScenario(s).0
    ensures step == AcquireTrack ==> t == RequestTrack(s).0
    ensures step == ReadyInterceptor ==> t == ActivateAsset(s).0
    ensures step == Engage ==> t == IssueCommand(s).0
  {
    hide ConnectClient, StartScenario, RequestTrack, ActivateAsset, IssueCommand;
    t := Apply(s, step);
    assert ([step] + rest)[1..] == rest;
  }

  lemma ConsoleJoins(cfg: Config, scenario: Scenario)
    requires scenario.Valid()
    ensures var s := ConnectClient(Init(cfg, scenario), FireControlConsole, 101);
            Coherent(s) && s.phase == Standby && s.console.connection == Connected
  {
    hide Say;
  }
}
