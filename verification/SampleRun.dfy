/** The baseline demonstration: the scripted command sequence that produces the sample artifacts. */
module SampleRun {
  import opened Text
  import opened SessionTypes
  import opened Messages
  import S = Session
  import L = Lifecycle
  import opened SimulationSession

  lemma TickIsCaptured(s: S.State)
    ensures S.AdvanceTick(s).log.snapshots != []
    ensures s.phase != Archived ==>
              var t := S.AdvanceTick(s);
              t.log.snapshots[|t.log.snapshots| - 1].assessment == t.engagement.assessment
  {
    hide Say, S.Motion, S.Assess;
  }

  lemma OrderIsCaptured(s: S.State)
    requires L.Coherent(s) && s.phase == InterceptorReady
    ensures var t := S.IssueCommand(s).0;
            && L.Coherent(t) && t.phase == EngageOrdered && t.engagement.order == Accepted
            && t.engagement.started == Some(t.tick) && !t.engagement.assessment.ready
            && t.scenario == s.scenario && t.scenario.engagementTimeoutTicks > 0
            && t.log.snapshots != [] && !t.log.snapshots[|t.log.snapshots| - 1].assessment.ready
  {
    L.IssueCommandOutcome(s);
    hide Say;
  }

  method LatestSnapshot(session: SimulationSession) returns (r: Result<Snapshot>)
    ensures r.Ok? <==> session.log.snapshots != []
    ensures r.Ok? ==> r.value == session.log.snapshots[|session.log.snapshots| - 1]
  {
    if session.log.snapshots == [] {
      r := Error("no snapshots recorded yet");
    } else {
      r := Ok(session.log.snapshots[|session.log.snapshots| - 1]);
    }
  }

  lemma ClientsKeep(s: S.State, role: Role, senderId: nat, reason: string)
    requires L.Coherent(s)
    ensures var t := S.ConnectClient(s, role, senderId);
            && L.Coherent(t) && t.phase == s.phase && t.tick == s.tick && t.scenario == s.scenario
            && (role == FireControlConsole ==> t.console.connection != Disconnected)
            && (role == TacticalDisplay ==> t.console == s.console)
    ensures var t := S.DisconnectClient(s, TacticalDisplay, reason);
            L.Coherent(t) && t.phase == s.phase && t.tick == s.tick && t.scenario == s.scenario && t.console == s.console
  {
    L.ClientStepsAreCoherent(s, S.Connect(role, senderId));
    L.ClientStepsAreCoherent(s, S.Disconnect(TacticalDisplay, reason));
    hide Say, L.Coherent;
  }

  /** Everything up to the engage order. `failure` is the exception of the first refused command. */
  method PrepareEngagement(session: SimulationSession, unguided: bool) returns (failure: Option<string>)
    requires session.State() == S.Init(session.cfg, session.scenario) && session.scenario.Valid()
    modifies session
    ensures failure == None
    ensures L.Coherent(session.State()) && session.phase == InterceptorReady
  {
    hide Say, L.Coherent, S.Init, S.ConnectClient, S.DisconnectClient, S.StartScenario, S.RequestTrack, S.ReleaseTrack,
         S.ActivateAsset, S.AdvanceTick;
    failure := None;
    FreshSession(session.cfg, session.scenario);
    ClientsKeep(session.State(), FireControlConsole, 101, "");
    session.ConnectClient(FireControlConsole, 101);
    ClientsKeep(session.State(), TacticalDisplay, 201, "");
    session.ConnectClient(TacticalDisplay, 201);

    L.StartScenarioOutcome(session.State());
    var result := session.StartScenario();
    if !result.accepted {
      failure := Some("baseline start_scenario rejected");
    }
    if failure.None? {
      L.RequestTrackOutcome(session.State());
      result := session.RequestTrack();
      if !result.accepted {
        failure := Some("baseline track_acquire rejected");
      }
    }
    if failure.None? {
      L.TickIsCoherent(session.State());
      session.AdvanceTick();
      L.ActivateAssetOutcome(session.State());
      result := session.ActivateAsset();
      if !result.accepted {
        failure := Some("baseline interceptor_ready rejected");
      }
    }
    if failure.None? && unguided {
      L.ReleaseTrackOutcome(session.State());
      result := session.ReleaseTrack();
      if !result.accepted {
        failure := Some("baseline track_drop rejected");
      }
    }
    if failure.None? {
      var reason := "viewer reconnect exercised for resilience evidence";
      ClientsKeep(session.State(), TacticalDisplay, 201, reason);
      session.DisconnectClient(TacticalDisplay, reason);
      ClientsKeep(session.State(), TacticalDisplay, 201, reason);
      session.ConnectClient(TacticalDisplay, 201);
    }
  }

  /** Ticks until the newest snapshot shows an assessment, at most as often as the timeout says. */
  method AwaitAssessment(session: SimulationSession)
    requires L.Coherent(session.State()) && session.phase == EngageOrdered && session.engagement.order == Accepted
    requires session.engagement.started == Some(session.tick) && session.scenario.engagementTimeoutTicks > 0
    requires session.log.snapshots != [] && !session.log.snapshots[|session.log.snapshots| - 1].assessment.ready
    modifies session
    ensures L.Coherent(session.State()) && session.phase == Assessed
  {
    hide Say, L.Coherent, S.AdvanceTick;
    var i := 0;
    ghost var t0 := session.tick;
    while i < session.scenario.engagementTimeoutTicks
          && !session.log.snapshots[|session.log.snapshots| - 1].assessment.ready
      invariant session.log.snapshots != []
      invariant L.Coherent(session.State())
      invariant session.phase in {EngageOrdered, Intercepting, Assessed}
      invariant session.log.snapshots[|session.log.snapshots| - 1].assessment.ready <==> session.phase == Assessed
      invariant session.phase != Assessed ==>
                  && session.engagement.order != Rejected && session.engagement.started == Some(t0)
                  && session.tick == t0 + i && i < session.scenario.engagementTimeoutTicks
      invariant i <= session.scenario.engagementTimeoutTicks
      decreases session.scenario.engagementTimeoutTicks - i
    {
      InFlightTick(session.State(), t0);
      TickIsCaptured(session.State());
      session.AdvanceTick();
      i := i + 1;
    }
  }

  /** Drives a fresh session through a whole engagement. For every valid scenario no command is
      refused and the run ends assessed. */
  method DriveSampleSessionSequence(session: SimulationSession, unguided: bool) returns (failure: Option<string>)
    requires session.State() == S.Init(session.cfg, session.scenario) && session.scenario.Valid()
    modifies session
    ensures failure == None
    ensures session.phase == Assessed && L.Ended(session.State())
  {
    hide Say, L.Coherent, S.IssueCommand, S.AdvanceTick, S.Init;
    failure := PrepareEngagement(session, unguided);
    OrderIsCaptured(session.State());
    L.IssueCommandOutcome(session.State());
    var result := session.IssueCommand();
    if !result.accepted {
      failure := Some("baseline engage_order rejected");
    }
    if failure.None? {
      AwaitAssessment(session);
    }
    AssessedHasEnded(session.State());
  }

  lemma AssessedHasEnded(s: S.State)
    requires L.Coherent(s) && s.phase == Assessed
    ensures L.Ended(s)
  {
  }

  lemma FreshSession(cfg: Config, scenario: Scenario)
    requires scenario.Valid()
    ensures L.Coherent(S.Init(cfg, scenario)) && S.Init(cfg, scenario).phase == Standby
  {
  }

  /** One tick of an undisturbed engagement: it is assessed, or it is younger than its timeout. */
  lemma InFlightTick(s: S.State, t0: nat)
    requires L.Coherent(s) && L.Underway(s) && s.engagement.order != Rejected && s.engagement.started == Some(t0)
    ensures var t := S.AdvanceTick(s);
            && L.Coherent(t) && t.scenario == s.scenario && t.tick == s.tick + 1
            && (t.engagement.assessment.ready <==> t.phase == Assessed)
            && t.phase in {Intercepting, Assessed}
            && (t.phase == Intercepting ==>
                  && t.engagement.order != Rejected && t.engagement.started == Some(t0)
                  && t.tick - t0 < t.scenario.engagementTimeoutTicks)
  {
    hide S.AdvanceTick, L.Coherent;
    L.TickIsCoherent(s);
    L.EngagementTimes(s);
    L.EngagementTimes(S.AdvanceTick(s));
  }
}
