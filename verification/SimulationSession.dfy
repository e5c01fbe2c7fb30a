/** The authoritative session as an object. `State()` is its value; every method computes the
    function of the same name in `Session`. */
module SimulationSession {
  import opened Numerics
  import opened Text
  import opened SessionTypes
  import opened Messages
  import Tracker
  import S = Session

  class SimulationSession {
    const cfg: Config
    var scenario: Scenario
    var phase: Phase
    var tick: nat
    var console: Client
    var display: Client
    var track: Track
    var filter: Filter
    var engagement: Engagement
    var world: World
    var exercised: Exercised
    var log: Log

    ghost function State(): S.State
      reads this
    {
      S.State(cfg, scenario, phase, tick, console, display, track, filter, engagement, world, exercised, log)
    }

    constructor (cfg: Config, scenario: Scenario)
      ensures State() == S.Init(cfg, scenario)
    {
      this.cfg := cfg;
      this.scenario := scenario;
      phase, tick := Standby, 0;
      console := Client(FireControlConsole, Disconnected, 0, false);
      display := Client(TacticalDisplay, Disconnected, 0, false);
      track, filter, engagement := NO_TRACK, NO_FILTER, NO_ENGAGEMENT;
      world := S.StartingWorld(scenario);
      exercised := Exercised(false, false, false);
      log := Log(0, CLOCK_BASE_MS, [], []);
    }

    // -------------------------------------------------------------------------
    // Log, clock, snapshots

    method NextTimestampMs() returns (now: int)
      modifies this`log
      ensures log == old(log).(clockMs := old(log).clockMs + cfg.intervalMs) && now == log.clockMs
    {
      log := log.(clockMs := log.clockMs + cfg.intervalMs);
      now := log.clockMs;
    }

    method PushEvent(eventType: EventType, source: string, ids: seq<string>, summary: string, details: string)
      modifies this`log
      ensures State() == S.PushEvent(old(State()), eventType, source, ids, summary, details)
    {
      var now := NextTimestampMs();
      log := log.(events := log.events + [Event(tick, now, eventType, source, ids, summary, details)]);
    }

    method RejectCommand(summary: string, reason: string, ids: seq<string>) returns (r: CommandResult)
      modifies this`log, this`engagement
      ensures (State(), r) == S.Reject(old(State()), summary, reason, ids)
    {
      PushEvent(EngageOrderRejected, Say(SimulationServer), ids, summary, reason);
      if !engagement.assessment.ready {
        engagement := engagement.(order := Rejected,
                                  assessment := engagement.assessment.(code := InvalidTransition, summary := reason));
      }
      r := CommandResult(false, reason, CommandAck);
    }

    method RecordSnapshot(packetLossPct: real)
      modifies this`log, this`display
      ensures State() == S.RecordSnapshot(old(State()), packetLossPct)
    {
      ghost var before := State();
      log := log.(sequence := log.sequence + 1);
      var now := NextTimestampMs();
      var m := cfg.math;
      var displayConnection := display.connection;
      var context := world.asset.active
        && (engagement.order in {Accepted, Executing, Completed} || engagement.assessment.ready);
      var predicted, tti, predictedValid, lock, offBoresight := ORIGIN, 0.0, false, false, 0.0;
      if context && track.active {
        var distance := m.Length(Sub(world.targetAt, world.assetAt));
        tti := distance / Max(0.1, scenario.interceptorSpeed as real);
        predicted := Add(world.targetAt, Scale(world.targetVelocity, tti));
        predictedValid := distance > 0.0;
        lock := world.seekerLock;
        offBoresight := world.offBoresightDeg;
      }
      var snapshot := Snapshot(
        Envelope(cfg.sessionId, SERVER_SENDER_ID, log.sequence), Header(tick, now, log.sequence), phase,
        scenario.worldWidth, scenario.worldHeight, world.target, world.asset, world.targetAt, world.assetAt,
        RoundToGrid(world.targetVelocity), world.targetVelocity, world.assetVelocity,
        m.HeadingDeg(world.targetVelocity), m.HeadingDeg(world.assetVelocity),
        scenario.interceptorSpeed, Max(1.0, scenario.interceptorSpeed as real * 0.28), scenario.interceptRadius,
        scenario.engagementTimeoutTicks, scenario.seekerFovDeg as real, lock, offBoresight, predictedValid,
        predicted, tti, track, engagement.interceptor, engagement.order, engagement.assessment, displayConnection,
        Telemetry(tick, S.TickIntervalMs(cfg.tickRateHz), packetLossPct, now), scenario.launchAngleDeg as real);
      assert snapshot == S.Capture(before, packetLossPct);
      log := log.(snapshots := log.snapshots + [snapshot]);
      if displayConnection == Reconnected {
        display := display.(connection := Connected);
      }
    }

    // -------------------------------------------------------------------------
    // Clients

    method ConnectClient(role: Role, senderId: nat)
      modifies this
      ensures State() == S.ConnectClient(old(State()), role, senderId)
    {
      hide Say, S.PushEvent;
      var client := if role == FireControlConsole then console else display;
      var reconnecting := client.hasConnectedBefore;
      client := Client(client.role, if reconnecting then Reconnected else Connected, senderId, true);
      if role == FireControlConsole { console := client; } else { display := client; }
      if reconnecting {
        exercised := exercised.(reconnect := true);
        PushEvent(ClientReconnected, RoleName(role), [], Say(StationBack), Say(StationResumed));
        PushEvent(ResilienceTriggered, Say(SimulationServer), [], Say(ReconnectExercised), Say(ResyncCase));
      } else {
        PushEvent(ClientJoined, RoleName(role), [], Say(StationOn),
                  Say(StationRegistered));
      }
    }

    method SetConnection(role: Role, connection: Connection)
      modifies this`console, this`display
      ensures State() == S.WithClient(old(State()), role, S.ClientOf(old(State()), role).(connection := connection))
    {
      if role == FireControlConsole {
        console := console.(connection := connection);
      } else {
        display := display.(connection := connection);
      }
    }

    method DisconnectClient(role: Role, reason: string)
      modifies this
      ensures State() == S.DisconnectClient(old(State()), role, reason)
    {
      hide Say, S.PushEvent;
      SetConnection(role, Disconnected);
      PushEvent(ClientLeft, RoleName(role), [], Say(StationOff), reason);
    }

    method TimeoutClient(role: Role, reason: string)
      modifies this
      ensures State() == S.TimeoutClient(old(State()), role, reason)
    {
      hide Say, S.PushEvent, S.RecordSnapshot;
      SetConnection(role, TimedOut);
      exercised := exercised.(timeout := true);
      PushEvent(ResilienceTriggered, Say(SimulationServer), [], Say(TimeoutExercised), reason);
      RecordSnapshot(0.0);
    }

    // -------------------------------------------------------------------------
    // Commands

    method ClearTrackState()
      modifies this`track, this`filter
      ensures track == NO_TRACK && filter == NO_FILTER
    {
      track, filter := NO_TRACK, NO_FILTER;
    }

    method SeedTrackStateFromTarget()
      modifies this`track, this`filter
      ensures State() == S.SeedTrack(old(State()))
    {
      var (newTrack, newFilter) := Tracker.Seed(cfg.math, world.targetAt, world.targetVelocity, tick);
      track, filter := newTrack, newFilter;
    }

    method ResetWorldStateFromScenario()
      modifies this`world
      ensures world == S.StartingWorld(scenario)
    {
      world := world.(targetAt := ToVec(scenario.targetStart), assetAt := ToVec(scenario.interceptorStart),
                      targetVelocity := ToVec(scenario.targetVelocity), assetVelocity := ORIGIN,
                      seekerLock := false, offBoresightDeg := 0.0);
      world := world.(target := Entity(TARGET_ID, scenario.targetStart, false),
                      asset := Entity(ASSET_ID, scenario.interceptorStart, false));
    }

    method StartScenario() returns (r: CommandResult)
      modifies this
      ensures (State(), r) == S.StartScenario(old(State()))
    {
      hide Say, S.PushEvent, S.RecordSnapshot, S.Reject;
      if console.connection == Disconnected {
        r := RejectCommand(Say(StartRejected),
                           Say(ConsoleMustConnect), []);
      } else if phase != Standby {
        r := RejectCommand(Say(StartRejected), Say(StartOnlyFromStandby), []);
      } else {
        phase := Detecting;
        world := world.(target := world.target.(active := true));
        ClearTrackState();
        engagement := engagement.(interceptor := Idle, order := NoOrder, assessment := NO_ASSESSMENT);
        PushEvent(SessionStarted, Say(SimulationServer), [world.target.id], Say(EngagementInitiated),
                  Say(LoopIsDetecting));
        RecordSnapshot(0.0);
        r := CommandResult(true, Say(ScenarioStarted), ScenarioStartAck);
      }
    }

    method ConfigureScenario(scenario: Scenario)
      modifies this
      ensures State() == S.ConfigureScenario(old(State()), scenario)
    {
      this.scenario := scenario;
      ResetWorldStateFromScenario();
      ClearTrackState();
      engagement := NO_ENGAGEMENT;
    }

    method ResetSession() returns (r: CommandResult)
      modifies this
      ensures (State(), r) == S.ResetSession(old(State()))
    {
      hide Say, S.PushEvent, S.RecordSnapshot;
      tick := 0;
      phase := Standby;
      ResetWorldStateFromScenario();
      ClearTrackState();
      engagement := NO_ENGAGEMENT;
      exercised := Exercised(false, false, false);
      log := log.(events := [], snapshots := []);
      if console.connection == Reconnected {
        console := console.(connection := Connected);
      }
      if display.connection == Reconnected {
        display := display.(connection := Connected);
      }
      RecordSnapshot(0.0);
      r := CommandResult(true, Say(SessionReset), CommandAck);
    }

    method RequestTrack() returns (r: CommandResult)
      modifies this
      ensures (State(), r) == S.RequestTrack(old(State()))
    {
      hide Say, S.PushEvent, S.RecordSnapshot, S.Reject, S.SeedTrack;
      if phase == Detecting {
        SeedTrackStateFromTarget();
        phase := Tracking;
        PushEvent(TrackUpdated, Say(ConsoleStation), [world.target.id],
                  Say(TrackEstablished), Say(FirstTrackDetails));
        RecordSnapshot(0.0);
        return CommandResult(true, Say(TrackAccepted), TrackAcquireAck);
      }
      if phase == InterceptorReady {
        if track.active {
          r := RejectCommand(Say(TrackRejected), Say(TrackAlreadyEstablished), [world.target.id]);
          return;
        }
        SeedTrackStateFromTarget();
        PushEvent(TrackUpdated, Say(ConsoleStation), [world.target.id, world.asset.id],
                  Say(TrackEstablished), Say(NextTrackDetails));
        RecordSnapshot(0.0);
        return CommandResult(true, Say(TrackAccepted), TrackAcquireAck);
      }
      if phase == EngageOrdered || phase == Intercepting {
        r := RejectCommand(Say(TrackRejected), Say(TrackLockedByOrder),
                           [world.target.id, world.asset.id]);
        return;
      }
      if phase == Assessed || phase == Archived {
        r := RejectCommand(Say(TrackRejected), Say(TrackLockedByArchive), [world.target.id]);
        return;
      }
      r := RejectCommand(Say(TrackRejected),
                         Say(TrackOutOfPhase), [world.target.id]);
    }

    method ReleaseTrack() returns (r: CommandResult)
      modifies this
      ensures (State(), r) == S.ReleaseTrack(old(State()))
    {
      hide Say, S.PushEvent, S.RecordSnapshot, S.Reject;
      if phase == Tracking {
        if !track.active {
          r := RejectCommand(Say(ReleaseRejected), Say(TrackAlreadyDropped), [world.target.id]);
          return;
        }
        ClearTrackState();
        phase := Detecting;
        PushEvent(TrackUpdated, Say(ConsoleStation), [world.target.id],
                  Say(TrackDropped), Say(DropToDetection));
        RecordSnapshot(0.0);
        return CommandResult(true, Say(TrackReleased), TrackDropAck);
      }
      if phase == InterceptorReady {
        if !track.active {
          r := RejectCommand(Say(ReleaseRejected), Say(TrackAlreadyDropped), [world.target.id, world.asset.id]);
          return;
        }
        ClearTrackState();
        PushEvent(TrackUpdated, Say(ConsoleStation), [world.target.id, world.asset.id],
                  Say(TrackDropped), Say(DropWhileReady));
        RecordSnapshot(0.0);
        return CommandResult(true, Say(TrackReleased), TrackDropAck);
      }
      if phase == EngageOrdered || phase == Intercepting {
        r := RejectCommand(Say(ReleaseRejected), Say(TrackLockedByOrder),
                           [world.target.id, world.asset.id]);
        return;
      }
      if phase == Assessed || phase == Archived {
        r := RejectCommand(Say(ReleaseRejected), Say(TrackLockedByArchive), [world.target.id]);
        return;
      }
      r := RejectCommand(Say(ReleaseRejected),
                         Say(ReleaseOutOfPhase), [world.target.id]);
    }

    method ActivateAsset() returns (r: CommandResult)
      modifies this
      ensures (State(), r) == S.ActivateAsset(old(State()))
    {
      hide Say, S.PushEvent, S.RecordSnapshot, S.Reject;
      if phase != Tracking {
        r := RejectCommand(Say(ActivationRejected),
                           Say(ActivationOutOfPhase), [world.asset.id]);
        return;
      }
      if !track.active {
        r := RejectCommand(Say(ActivationRejected),
                           Say(ActivationNeedsTrack), [world.asset.id]);
        return;
      }
      engagement := engagement.(interceptor := Ready);
      world := world.(asset := world.asset.(active := true));
      phase := InterceptorReady;
      PushEvent(InterceptorUpdated, Say(ConsoleStation), [world.asset.id], Say(WeaponReady),
                Say(InterceptorArmed));
      RecordSnapshot(0.0);
      r := CommandResult(true, Say(InterceptorIsReady), InterceptorReadyAck);
    }

    method IssueCommand() returns (r: CommandResult)
      modifies this
      ensures (State(), r) == S.IssueCommand(old(State()))
    {
      hide Say, S.PushEvent, S.RecordSnapshot, S.Reject;
      if phase != InterceptorReady {
        r := RejectCommand(Say(OrderRejected), Say(OrderOutOfPhase),
                           [world.asset.id, world.target.id]);
        return;
      }
      if engagement.interceptor != Ready {
        r := RejectCommand(Say(OrderRejected), Say(OrderNeedsReady),
                           [world.asset.id, world.target.id]);
        return;
      }
      engagement := engagement.(order := Accepted, started := Some(tick));
      phase := EngageOrdered;
      world := world.(assetVelocity := cfg.math.Launch(scenario.launchAngleDeg, scenario.interceptorSpeed));
      PushEvent(EngageOrderAccepted, Say(ConsoleStation), [world.asset.id, world.target.id],
                Say(OrderExecuted), Say(LaunchDetails(track.active, scenario.launchAngleDeg)));
      RecordSnapshot(0.0);
      r := CommandResult(true, Say(OrderAccepted), CommandAck);
    }

    method RecordTransportRejection(summary: string, reason: string, ids: seq<string>) returns (r: CommandResult)
      modifies this`log
      ensures (State(), r) == S.RecordTransportRejection(old(State()), summary, reason, ids)
    {
      PushEvent(EngageOrderRejected, Say(SimulationServer), ids, summary, reason);
      r := CommandResult(false, reason, CommandAck);
    }

    method ArchiveSession()
      modifies this
      ensures State() == S.ArchiveSession(old(State()))
    {
      hide Say, S.PushEvent, S.RecordSnapshot;
      if phase == Archived {
        return;
      }
      phase := Archived;
      PushEvent(SessionEnded, Say(SimulationServer), [world.target.id, world.asset.id], Say(RunArchived), Say(ArtifactsReady));
      RecordSnapshot(0.0);
    }

    // -------------------------------------------------------------------------
    // The tick

    method MoveTarget()
      modifies this`world
      ensures State() == S.MoveTarget(old(State()))
    {
      if world.target.active {
        var x := Bounce(Axis(world.targetAt.x, world.targetVelocity.x), scenario.worldWidth as real);
        var y := Bounce(Axis(world.targetAt.y, world.targetVelocity.y), scenario.worldHeight as real);
        world := world.(targetAt := Vec(x.position, y.position), targetVelocity := Vec(x.velocity, y.velocity));
        world := world.(target := world.target.(position := RoundToGrid(world.targetAt)));
      }
    }

    method UpdateTrackState()
      modifies this`track, this`filter
      ensures State() == S.UpdateTrack(old(State()))
    {
      if track.active && Tracker.Runnable(filter) {
        var before := filter;
        filter := Tracker.UpdateFilter(cfg.math, filter, world.targetAt, tick);
        track := Tracker.Publish(cfg.math, track, before, filter, tick);
      }
    }

    method SteeredVelocity() returns (velocity: Vec)
      ensures velocity == S.Steered(State())
    {
      var m := cfg.math;
      var cap := scenario.interceptorSpeed as real;
      velocity := world.assetVelocity;
      if track.active {
        var tti := m.Length(Sub(world.targetAt, world.assetAt)) / Max(0.1, cap);
        var predicted := Add(world.targetAt, Scale(world.targetVelocity, tti));
        var desired := Scale(m.Normalize(Sub(predicted, world.assetAt)), cap);
        var error := Sub(desired, velocity);
        velocity := Add(velocity, Scale(m.Normalize(error), Min(Max(1.0, cap * 0.28), m.Length(error))));
      }
    }

    method FlyInterceptor()
      modifies this`phase, this`engagement, this`world
      ensures State() == S.FlyInterceptor(S.BeginIntercept(old(State())))
    {
      hide S.Steered, S.Confined, CapSpeed, RoundToGrid;
      if engagement.order == Accepted && phase == EngageOrdered {
        phase := Intercepting;
        engagement := engagement.(interceptor := InFlight, order := Executing);
      }
      if phase == Intercepting && world.asset.active {
        var velocity := SteeredVelocity();
        velocity := CapSpeed(cfg.math, velocity, scenario.interceptorSpeed as real);
        world := world.(assetVelocity := velocity, assetAt := S.Confined(Add(world.assetAt, velocity), scenario));
        world := world.(asset := world.asset.(position := RoundToGrid(world.assetAt)));
      }
    }

    method PointSeeker()
      modifies this`world
      ensures State() == S.PointSeeker(old(State()))
    {
      if world.asset.active && engagement.order in {Accepted, Executing, Completed} && track.active {
        var los := Sub(world.targetAt, world.assetAt);
        var off := WrapAngleDeg(cfg.math.HeadingDeg(los) - cfg.math.HeadingDeg(world.assetVelocity));
        world := world.(offBoresightDeg := Abs(off),
                        seekerLock := cfg.math.Length(los) > 0.0 && Abs(off) <= scenario.seekerFovDeg as real);
      } else {
        world := world.(offBoresightDeg := 0.0, seekerLock := false);
      }
    }

    method AssessEngagement()
      modifies this
      ensures State() == S.Assess(old(State()))
    {
      hide Say, S.PushEvent;
      if engagement.order == Executing && phase == Intercepting {
        var distance := cfg.math.Length(Sub(world.targetAt, world.assetAt));
        var elapsed := if engagement.started.Some? then tick - engagement.started.value else 0;
        if distance <= scenario.interceptRadius as real {
          engagement := Engagement(Complete, Completed,
            Assessment(true, InterceptSuccess, Say(AssessedSuccess)), None);
          phase := Assessed;
          track := track.(active := false);
          world := world.(target := world.target.(active := false), targetVelocity := ORIGIN, assetVelocity := ORIGIN,
                          seekerLock := false, offBoresightDeg := 0.0);
          PushEvent(AssessmentProduced, Say(SimulationServer), [world.asset.id, world.target.id], Say(EngagementAssessed),
                    Say(SuccessDetails));
        } else if elapsed >= scenario.engagementTimeoutTicks {
          engagement := Engagement(Complete, Completed,
            Assessment(true, TimeoutObserved, Say(AssessedTimeout)), None);
          phase := Assessed;
          PushEvent(AssessmentProduced, Say(SimulationServer), [world.asset.id, world.target.id], Say(EngagementAssessed),
                    Say(TimeoutDetails));
        }
      }
    }

    method AdvanceTick()
      modifies this
      ensures State() == S.AdvanceTick(old(State()))
    {
      hide Say, S.PushEvent, S.RecordSnapshot, S.MoveTarget, S.UpdateTrack, S.FlyInterceptor, S.BeginIntercept,
           S.PointSeeker, S.Assess;
      hide S.ArchiveSession;
      if phase == Assessed {
        tick := tick + 1;
        ArchiveSession();
        return;
      }
      tick := tick + 1;
      MoveTarget();
      UpdateTrackState();
      FlyInterceptor();
      PointSeeker();
      AssessEngagement();
      var packetLoss := 0.0;
      if tick == 2 && !exercised.packetGap {
        exercised := exercised.(packetGap := true);
        packetLoss := 25.0;
        PushEvent(ResilienceTriggered, Say(SimulationServer), [world.target.id], Say(GapExercised), Say(GapDetails));
      }
      RecordSnapshot(packetLoss);
    }
  }
}
