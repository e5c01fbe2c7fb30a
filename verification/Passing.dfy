/** An interceptor that is too fast for its radius passes a tracked target at rest: a family of runs in
    which there are ticks enough to get there and no interception. */
module Passing {
  import opened Numerics
  import opened Vectors
  import opened Text
  import opened SessionTypes
  import opened Messages
  import opened Session
  import opened Guidance
  import opened Homing
  import K = Kinematics
  import L = Lifecycle
  import D = Decisions
  import Tracker

  /** The target rests on the way of the launch, `ticks` flights and a remainder away; the remainder and what
      a further flight passes it by are both more than the radius. The world is wide enough for that
      flight, and the timeout is at its end. */
  predicate Passes(scenario: Scenario, ticks: nat) {
    var speed, x := scenario.interceptorSpeed, scenario.targetStart.x;
    && scenario.Valid() && scenario.launchAngleDeg == 0 && scenario.targetVelocity == Grid(0, 0) && scenario.targetStart.y == 0
    && ticks * speed + scenario.interceptRadius < x < ticks * speed + speed - scenario.interceptRadius
    && ticks * speed + speed < scenario.worldWidth
    && scenario.engagementTimeoutTicks == ticks + 1
  }

  /** Angle zero points along the first axis. */
  ghost predicate Upright(m: Math) { m.Lawful() && m.cos(0.0) == 1.0 && m.sin(0.0) == 0.0 }

  function OnAxis(x: int): Vec { Vec(x as real, 0.0) }

  lemma AxisLength(m: Math, x: real)
    requires m.Lawful()
    ensures m.Length(Vec(x, 0.0)) == Abs(x)
  {
    hide Math.Lawful, Math.Length;
    AbsSquared(x);
    assert SquaredNorm(Vec(x, 0.0)) == Times(x, x);
    LengthIs(m, Vec(x, 0.0), Abs(x));
  }

  /** At full speed along the axis, with the target ahead, a tick goes on like that. */
  lemma FliesOn(m: Math, p: int, to: int, scenario: Scenario)
    requires m.Lawful() && scenario.Valid() && 0 <= p < to && p + scenario.interceptorSpeed < scenario.worldWidth
    ensures var v := OnAxis(scenario.interceptorSpeed);
            && NextVelocity(m, OnAxis(p), v, OnAxis(to), scenario) == v
            && NextPlace(m, OnAxis(p), v, OnAxis(to), scenario) == OnAxis(p + scenario.interceptorSpeed)
  {
    hide Math.Lawful, Math.Length, Times;
    var v, way := OnAxis(scenario.interceptorSpeed), Sub(OnAxis(to), OnAxis(p));
    AxisLength(m, (to - p) as real);
    assert way == Vec((to - p) as real, 0.0);
    AimIsAhead((to - p) as real, scenario.interceptorSpeed as real);
    assert Straight(m, OnAxis(p), OnAxis(to), scenario.interceptorSpeed as real) == v;
    AxisLength(m, 0.0);
    assert Sub(v, v) == Vec(0.0, 0.0);
    NoStep(Min(Acceleration(scenario), 0.0));
  }

  lemma AimIsAhead(d: real, speed: real)
    requires d > 0.0
    ensures Scale(Vec(d, 0.0), speed / d) == Vec(speed, 0.0)
  {
  }

  lemma NoStep(a: real)
    ensures Scale(ORIGIN, a) == ORIGIN
  {
  }

  /** The flight after `n` ticks. */
  ghost predicate Flying(s: State, t0: nat, n: nat) {
    var speed := s.scenario.interceptorSpeed;
    && Guided(s) && L.Underway(s) && s.engagement.order != Rejected && s.engagement.started == Some(t0) && s.tick == t0 + n
    && s.world.targetAt == OnAxis(s.scenario.targetStart.x)
    && s.world.assetAt == OnAxis(n * speed) && s.world.assetVelocity == OnAxis(speed)
  }

  /** Where the flight is after another tick: outside the radius. */
  lemma StaysOutside(s: State, ticks: nat, t0: nat, n: nat)
    requires Passes(s.scenario, ticks) && Flying(s, t0, n) && n <= ticks
    ensures var u := Motion(s);
            && Guided(s) && FliesNext(s)
            && u.world.assetAt == OnAxis(n * s.scenario.interceptorSpeed + s.scenario.interceptorSpeed)
            && u.world.assetVelocity == s.world.assetVelocity && u.world.targetAt == s.world.targetAt
            && !WithinRadius(u) && u.scenario == s.scenario
  {
    var speed, x, u := s.scenario.interceptorSpeed, s.scenario.targetStart.x, Motion(s);
    GuidedTick(s);
    Flights(n, ticks, speed, x, s.scenario.interceptRadius);
    FliesOn(s.cfg.math, n * speed, x, s.scenario);
    AxisLength(s.cfg.math, x as real - (n * speed + speed) as real);
    assert Sub(u.world.targetAt, u.world.assetAt) == Vec(x as real - (n * speed + speed) as real, 0.0);
    hide Motion, K.Physical, L.Coherent, Math.Lawful, Math.Length, NextVelocity, NextPlace, Scenario.Valid;
  }

  lemma Flights(n: nat, ticks: nat, speed: int, x: int, radius: int)
    requires n <= ticks && speed > 0 && radius > 0
    requires ticks * speed + radius < x < ticks * speed + speed - radius
    ensures 0 <= n * speed < x && n * speed <= ticks * speed
    ensures Abs((x - (n * speed + speed)) as real) > radius as real
  {
    if n < ticks { assert n * speed + speed <= ticks * speed by { Increasing(n + 1, ticks, speed); } }
  }

  lemma Increasing(a: nat, b: nat, k: int)
    requires a <= b && k > 0
    ensures a * k <= b * k
  {
  }

  lemma TickFliesOn(s: State, ticks: nat, t0: nat, n: nat)
    requires Passes(s.scenario, ticks) && Flying(s, t0, n) && n < ticks
    ensures Flying(AdvanceTick(s), t0, n + 1) && AdvanceTick(s).scenario == s.scenario
  {
    StaysOutside(s, ticks, t0, n);
    GuidedTick(s);
    Missed(Motion(s));
    TickShows(s);
    L.TickIsCoherent(s);
    K.TickIsPhysical(s);
    assert (n + 1) * s.scenario.interceptorSpeed == n * s.scenario.interceptorSpeed + s.scenario.interceptorSpeed;
    hide Motion, AdvanceTick, Assess, K.Physical, L.Coherent, Math.Lawful, WithinRadius, NextVelocity, NextPlace;
  }

  lemma LastTickTimesOut(s: State, ticks: nat, t0: nat)
    requires Passes(s.scenario, ticks) && Flying(s, t0, ticks)
    ensures AdvanceTick(s).engagement.assessment.code == TimeoutObserved
  {
    StaysOutside(s, ticks, t0, ticks);
    GuidedTick(s);
    Missed(Motion(s));
    TickShows(s);
    hide Motion, AdvanceTick, Assess, K.Physical, L.Coherent, Math.Lawful, WithinRadius, NextVelocity, NextPlace;
  }

  lemma Missed(u: State)
    requires u.phase == Intercepting && u.engagement.order == Executing && !WithinRadius(u)
    ensures if EngagementTicks(u) < u.scenario.engagementTimeoutTicks then Assess(u) == u
            else Assess(u).engagement.assessment.code == TimeoutObserved
  {
    hide Say, WithinRadius;
  }

  function Ticking(n: nat): seq<Step> { seq(n, _ => Tick) }

  lemma {:induction false} FlightTimesOut(s: State, ticks: nat, t0: nat, n: nat)
    requires Passes(s.scenario, ticks) && Flying(s, t0, n) && n <= ticks
    ensures Run(s, Ticking(ticks - n + 1)).engagement.assessment.code == TimeoutObserved
    decreases ticks - n
  {
    hide AdvanceTick, Flying, Passes;
    var steps := Ticking(ticks - n + 1);
    assert steps[0] == Tick && steps[1..] == Ticking(ticks - n);
    assert Run(s, steps) == Run(AdvanceTick(s), Ticking(ticks - n));
    if n == ticks {
      LastTickTimesOut(s, ticks, t0);
      assert Run(AdvanceTick(s), []) == AdvanceTick(s);
    } else {
      TickFliesOn(s, ticks, t0, n);
      FlightTimesOut(AdvanceTick(s), ticks, t0, n + 1);
    }
  }

  // ---------------------------------------------------------------------------
  // The run up to the launch

  function Opening(): seq<Step> { [Connect(FireControlConsole, 101), Start, AcquireTrack, ReadyInterceptor, Engage] }

  lemma OpeningRuns(s: State)
    ensures Run(s, Opening())
         == IssueCommand(ActivateAsset(RequestTrack(StartScenario(ConnectClient(s, FireControlConsole, 101)).0).0).0).0
  {
    hide ConnectClient, StartScenario, RequestTrack, ActivateAsset, IssueCommand;
    var o := Opening();
    assert o[1..][0] == Start && o[1..][1..][0] == AcquireTrack && o[1..][1..][1..][0] == ReadyInterceptor;
    assert o[1..][1..][1..][1..] == [Engage] && [Engage][1..] == [];
  }

  lemma Begins(cfg: Config, scenario: Scenario)
    requires scenario.Valid()
    ensures var t := StartScenario(ConnectClient(Init(cfg, scenario), FireControlConsole, 101)).0;
            && L.Coherent(t) && t.phase == Detecting && t.tick == 0 && t.scenario == scenario && t.cfg == cfg
            && t.world == D.Opened(StartingWorld(scenario))
  {
    hide Say, Capture, RoleName, Scenario.Valid;
  }

  lemma CommandsKeepConfig(s: State)
    ensures forall t <- {RequestTrack(s).0, ActivateAsset(s).0, IssueCommand(s).0} :: t.scenario == s.scenario && t.cfg == s.cfg
  {
    hide Say, Capture, Tracker.Seed, Math.Launch;
  }

  lemma LaunchIsOnAxis(m: Math, speed: int)
    requires Upright(m)
    ensures m.Launch(0, speed) == OnAxis(speed)
  {
    hide Math.Lawful;
  }

  lemma OpeningLaunches(cfg: Config, scenario: Scenario)
    requires scenario.Valid()
    ensures var t := Run(Init(cfg, scenario), Opening());
            && L.Coherent(t) && t.phase == EngageOrdered && t.track.active && t.tick == 0 && t.scenario == scenario && t.cfg == cfg
            && t.engagement.order == Accepted && t.engagement.started == Some(0)
            && t.world == StartingWorld(scenario).(
                            target := StartingWorld(scenario).target.(active := true),
                            asset := StartingWorld(scenario).asset.(active := true),
                            assetVelocity := cfg.math.Launch(scenario.launchAngleDeg, scenario.interceptorSpeed))
  {
    hide ConnectClient, StartScenario, RequestTrack, ActivateAsset, IssueCommand, L.Coherent, L.Refused, StartingWorld, Math.Launch,
         Scenario.Valid, Init, Run;
    OpeningRuns(Init(cfg, scenario));
    Begins(cfg, scenario);
    var s := StartScenario(ConnectClient(Init(cfg, scenario), FireControlConsole, 101)).0;
    var tracked := RequestTrack(s).0;
    var ready := ActivateAsset(tracked).0;
    L.RequestTrackOutcome(s);
    L.ActivateAssetOutcome(tracked);
    L.IssueCommandOutcome(ready);
    D.RequestIsRuled(s, "");
    D.ActivationIsRuled(tracked, "");
    D.OrderIsRuled(ready, "", "");
    CommandsKeepConfig(s);
    CommandsKeepConfig(tracked);
    CommandsKeepConfig(ready);
  }

  lemma LaunchFlies(cfg: Config, scenario: Scenario, ticks: nat)
    requires cfg.Valid() && Upright(cfg.math) && Passes(scenario, ticks)
    ensures var s := Run(Init(cfg, scenario), Opening());
            Reachable(s) && Flying(s, 0, 0) && s.scenario == scenario && s.cfg == cfg && s.engagement.order == Accepted
  {
    var s := Run(Init(cfg, scenario), Opening());
    OpeningLaunches(cfg, scenario);
    K.ReachableIsPhysical(s);
    LaunchIsOnAxis(cfg.math, scenario.interceptorSpeed);
    hide Run, Init, K.Physical, L.Coherent, Math.Lawful, Math.Length, Math.Launch, Opening;
  }

  lemma FlightIsShort(s: State, ticks: nat)
    requires Upright(s.cfg.math) && Passes(s.scenario, ticks) && Flying(s, 0, 0)
    ensures s.track.active && s.world.targetVelocity == ORIGIN
    ensures Distance(s) < (s.scenario.interceptorSpeed * s.scenario.engagementTimeoutTicks) as real
  {
    hide K.Physical, L.Coherent, Math.Lawful, Math.Length, Scenario.Valid, Times;
    var x := s.scenario.targetStart.x;
    AxisLength(s.cfg.math, x as real);
    TargetIsAhead(s, ticks);
  }

  lemma TargetIsAhead(s: State, ticks: nat)
    requires Passes(s.scenario, ticks) && Flying(s, 0, 0)
    ensures var x, speed := s.scenario.targetStart.x, s.scenario.interceptorSpeed;
            && Sub(s.world.targetAt, s.world.assetAt) == OnAxis(x) && 0 <= x < speed * s.scenario.engagementTimeoutTicks
  {
    hide K.Physical, L.Coherent, Math.Lawful, Math.Length;
    var x, speed := s.scenario.targetStart.x, s.scenario.interceptorSpeed;
    assert speed * (ticks + 1) == ticks * speed + speed && ticks * speed >= 0;
    assert 0 * speed == 0;
  }

  /** For every such scenario: the target is engaged, tracked and at rest, nothing is refused, and the timeout
      leaves more ticks than the flight to the target takes; and it is not intercepted. */
  lemma FastInterceptorPasses(cfg: Config, scenario: Scenario, ticks: nat)
    requires cfg.Valid() && Upright(cfg.math) && Passes(scenario, ticks)
    ensures var launched := Run(Init(cfg, scenario), Opening());
            && Reachable(launched) && launched.track.active && launched.engagement.order == Accepted
            && launched.world.targetVelocity == ORIGIN
            && Distance(launched) < (scenario.interceptorSpeed * scenario.engagementTimeoutTicks) as real
            && Run(launched, Ticking(ticks + 1)).engagement.assessment.code == TimeoutObserved
  {
    hide *;
    LaunchFlies(cfg, scenario, ticks);
    var s := Run(Init(cfg, scenario), Opening());
    FlightTimesOut(s, ticks, 0, 0);
    FlightIsShort(s, ticks);
  }
}
