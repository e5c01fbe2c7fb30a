/** Motion over whole runs: walls, speeds, the target's path in closed form, and how early an
    intercept can succeed. */
module Kinematics {
  import opened Numerics
  import opened Text
  import opened SessionTypes
  import opened Messages
  import opened Session
  import L = Lifecycle
  import Tracker

  predicate InWorld(v: Vec, scenario: Scenario) {
    0.0 <= v.x <= (scenario.worldWidth - 1) as real && 0.0 <= v.y <= (scenario.worldHeight - 1) as real
  }

  predicate NoFasterThan(v: Vec, limit: Vec) {
    Abs(v.x) <= Abs(limit.x) && Abs(v.y) <= Abs(limit.y)
  }

  /** Both bodies are inside the world and at their grid positions, the interceptor is no faster than its
      speed per tick, and the target no faster on either axis than the scenario says. */
  predicate Physical(w: World, scenario: Scenario) {
    && scenario.Valid()
    && InWorld(w.targetAt, scenario) && InWorld(w.assetAt, scenario)
    && SquaredNorm(w.assetVelocity) <= Times(scenario.interceptorSpeed as real, scenario.interceptorSpeed as real)
    && NoFasterThan(w.targetVelocity, ToVec(scenario.targetVelocity))
    && OnGrid(w.target.position, w.targetAt) && OnGrid(w.asset.position, w.assetAt)
  }

  function Speed(scenario: Scenario): Vec {
    Vec(scenario.interceptorSpeed as real, scenario.interceptorSpeed as real)
  }

  /** What one tick may do to the world: each body moves at most its speed on each axis. */
  predicate Moved(w: World, w': World, scenario: Scenario) {
    && NoFasterThan(w'.targetVelocity, w.targetVelocity)
    && NoFasterThan(Sub(w'.targetAt, w.targetAt), w.targetVelocity)
    && NoFasterThan(Sub(w'.assetAt, w.assetAt), Speed(scenario))
  }

  lemma RestIsSlow(speed: real)
    ensures SquaredNorm(ORIGIN) <= Times(speed, speed)
  {
    TimesSign(speed, speed);
    assert Times(0.0, 0.0) == 0.0;
    hide Times;
  }

  lemma StartingWorldIsPhysical(scenario: Scenario)
    requires scenario.Valid()
    ensures Physical(StartingWorld(scenario), scenario)
  {
    RestIsSlow(scenario.interceptorSpeed as real);
    hide Times, SquaredNorm;
  }

  lemma TargetMoves(s: State)
    requires Physical(s.world, s.scenario)
    ensures var t := MoveTarget(s);
            && Physical(t.world, s.scenario) && Moved(s.world, t.world, s.scenario)
            && t.world.assetAt == s.world.assetAt && t == s.(world := t.world)
  {
    var w := s.world;
    RoundedIsOnGrid(MoveTarget(s).world.targetAt);
    BounceStep(Axis(w.targetAt.x, w.targetVelocity.x), s.scenario.worldWidth as real);
    BounceStep(Axis(w.targetAt.y, w.targetVelocity.y), s.scenario.worldHeight as real);
    hide Times, Bounce, RoundToGrid;
  }

  lemma InterceptorFlies(s: State)
    requires s.cfg.math.Lawful() && Physical(s.world, s.scenario)
    ensures var t := FlyInterceptor(s);
            && Physical(t.world, s.scenario) && t == s.(world := t.world)
            && t.world.targetAt == s.world.targetAt && t.world.targetVelocity == s.world.targetVelocity
            && NoFasterThan(Sub(t.world.assetAt, s.world.assetAt), Speed(s.scenario))
  {
    var speed := s.scenario.interceptorSpeed as real;
    var v := CapSpeed(s.cfg.math, Steered(s), speed);
    CapSpeedBounds(s.cfg.math, Steered(s), speed);
    RoundedIsOnGrid(FlyInterceptor(s).world.assetAt);
    AxisBound(v, speed);
    hide Times, CapSpeed, Steered, Confined, SquaredNorm, RoundToGrid;
  }

  lemma MotionIsPhysical(s: State)
    requires s.cfg.math.Lawful() && Physical(s.world, s.scenario)
    ensures Physical(Motion(s).world, s.scenario) && Moved(s.world, Motion(s).world, s.scenario)
  {
    hide Physical, Tracker.Runnable, Tracker.UpdateFilter, Tracker.Publish, MoveTarget, FlyInterceptor;
    var s0 := s.(tick := s.tick + 1);
    var s1 := MoveTarget(s0);
    TargetMoves(s0);
    var s2 := BeginIntercept(UpdateTrack(s1));
    assert s2.world == s1.world && s2.scenario == s.scenario && s2.cfg == s.cfg;
    hide BeginIntercept, UpdateTrack;
    InterceptorFlies(s2);
    SeekerIsMassless(FlyInterceptor(s2));
    hide PointSeeker;
  }

  lemma SeekerIsMassless(s: State)
    ensures var w, w' := s.world, PointSeeker(s).world;
            && w'.targetAt == w.targetAt && w'.assetAt == w.assetAt
            && w'.targetVelocity == w.targetVelocity && w'.assetVelocity == w.assetVelocity
            && (Physical(w, s.scenario) ==> Physical(w', s.scenario))
  {
    hide Times, NormalizeAngleDeg;
  }

  lemma AssessedIsPhysical(s: State)
    requires Physical(s.world, s.scenario)
    ensures Physical(Assess(s).world, s.scenario)
    ensures Assess(s).world.targetAt == s.world.targetAt && Assess(s).world.assetAt == s.world.assetAt
    ensures NoFasterThan(Assess(s).world.targetVelocity, s.world.targetVelocity)
  {
    hide Say, Times, SquaredNorm, WithinRadius, InWorld, Scenario.Valid;
    RestIsSlow(s.scenario.interceptorSpeed as real);
  }

  /** What a tick does to the bodies. */
  lemma TickIsPhysical(s: State)
    requires s.cfg.math.Lawful() && Physical(s.world, s.scenario)
    ensures var t := AdvanceTick(s);
            && Physical(t.world, s.scenario) && Moved(s.world, t.world, s.scenario)
            && t.scenario == s.scenario && t.cfg == s.cfg && t.tick == s.tick + 1
    ensures s.phase != Assessed ==> AdvanceTick(s).world == Assess(Motion(s)).world
    ensures s.phase == Assessed ==> AdvanceTick(s).world == s.world
  {
    hide Say, Capture, Physical, Motion, Assess;
    L.MotionKeeps(s);
    MotionIsPhysical(s);
    AssessedIsPhysical(Motion(s));
    L.AssessmentOutcomes(Motion(s));
  }

  lemma CommandIsPhysical(s: State, step: Step)
    requires s.cfg.math.Lawful() && Physical(s.world, s.scenario) && L.IsCommand(step)
    ensures Physical(Apply(s, step).world, s.scenario)
    ensures Apply(s, step).scenario == s.scenario && Apply(s, step).cfg == s.cfg
    ensures var w, w' := s.world, Apply(s, step).world;
            w'.targetAt == w.targetAt && w'.assetAt == w.assetAt && w'.targetVelocity == w.targetVelocity
  {
    hide Physical, StartScenario, RequestTrack, ReleaseTrack, ActivateAsset, IssueCommand, Math.Lawful;
    if step == Engage { OrderIsPhysical(s); } else { OtherCommandIsPhysical(s, step); }
  }

  lemma OrderIsPhysical(s: State)
    requires s.cfg.math.Lawful() && Physical(s.world, s.scenario)
    ensures var t := IssueCommand(s).0;
            && Physical(t.world, s.scenario) && t.scenario == s.scenario && t.cfg == s.cfg
            && t.world.targetAt == s.world.targetAt && t.world.assetAt == s.world.assetAt
            && t.world.targetVelocity == s.world.targetVelocity
  {
    hide Say, Capture, Times, SquaredNorm, Math.Launch, Math.Lawful, Scenario.Valid;
    LaunchSpeed(s.cfg.math, s.scenario.launchAngleDeg, s.scenario.interceptorSpeed);
  }

  lemma OtherCommandIsPhysical(s: State, step: Step)
    requires Physical(s.world, s.scenario) && L.IsCommand(step) && step != Engage
    ensures var t := Apply(s, step);
            && Physical(t.world, s.scenario) && t.scenario == s.scenario && t.cfg == s.cfg
            && t.world.targetAt == s.world.targetAt && t.world.assetAt == s.world.assetAt
            && t.world.targetVelocity == s.world.targetVelocity
  {
    hide Say, Capture, Times, SquaredNorm, Tracker.Seed, Scenario.Valid, AdvanceTick, IssueCommand, ConnectClient,
         DisconnectClient, TimeoutClient, ConfigureScenario, ResetSession, ArchiveSession;
  }

  lemma OtherStepIsPhysical(s: State, step: Step)
    requires s.scenario.Valid() && Physical(s.world, s.scenario) && step != Tick && !L.IsCommand(step)
    ensures Physical(Apply(s, step).world, Apply(s, step).scenario) && Apply(s, step).cfg == s.cfg
    ensures step != Reset && !step.Configure? ==> Apply(s, step).world == s.world && Apply(s, step).scenario == s.scenario
  {
    hide Say, Capture, Physical, StartingWorld, AdvanceTick, RequestTrack, ReleaseTrack, StartScenario, ActivateAsset,
         IssueCommand, Scenario.Valid, RoleName;
    StartingWorldIsPhysical(s.scenario);
    if step.Configure? && step.scenario.Valid() { StartingWorldIsPhysical(step.scenario); }
  }

  lemma StepIsPhysical(s: State, step: Step)
    requires s.cfg.math.Lawful() && Physical(s.world, s.scenario)
    ensures Physical(Apply(s, step).world, Apply(s, step).scenario) && Apply(s, step).cfg == s.cfg
  {
    assert s.scenario.Valid();
    hide Physical, AdvanceTick, Apply;
    if step == Tick {
      TickIsPhysical(s);
      assert Apply(s, Tick) == AdvanceTick(s) by { TickApplies(s); }
    } else if L.IsCommand(step) {
      CommandIsPhysical(s, step);
    } else {
      OtherStepIsPhysical(s, step);
    }
  }

  lemma TickApplies(s: State)
    ensures Apply(s, Tick) == AdvanceTick(s)
  {
    hide AdvanceTick;
  }

  /** Every reachable state keeps both bodies in the world and within their speeds. */
  lemma {:induction false} RunIsPhysical(s: State, steps: seq<Step>)
    requires s.cfg.math.Lawful() && Physical(s.world, s.scenario)
    ensures Physical(Run(s, steps).world, Run(s, steps).scenario) && Run(s, steps).cfg == s.cfg
    decreases |steps|
  {
    if steps != [] {
      StepIsPhysical(s, steps[0]);
      hide Apply, Physical;
      RunIsPhysical(Apply(s, steps[0]), steps[1..]);
    }
  }

  lemma ReachableIsPhysical(s: State)
    requires Reachable(s)
    ensures Physical(s.world, s.scenario) && s.cfg.math.Lawful()
  {
    var cfg: Config, scenario: Scenario, steps: seq<Step> :|
      cfg.Valid() && scenario.Valid() && s == Run(Init(cfg, scenario), steps);
    StartingWorldIsPhysical(scenario);
    RunIsPhysical(Init(cfg, scenario), steps);
  }

  // ---------------------------------------------------------------------------
  // How early an intercept can succeed

  function Separation(w: World): Vec { Sub(w.targetAt, w.assetAt) }

  /** The ground two bodies can close on one axis in n ticks. */
  function Closing(n: nat, speed: real, velocity: real): real { n as real * (speed + Abs(velocity)) }

  lemma ClosingGrows(n: nat, speed: real, v: real, v': real)
    requires speed >= 0.0 && Abs(v') <= Abs(v)
    ensures Closing(n, speed, v') <= Closing(n, speed, v)
    ensures Closing(n + 1, speed, v) == Closing(n, speed, v) + speed + Abs(v)
  {
    TimesSign(n as real, Abs(v) - Abs(v'));
    assert Closing(n, speed, v) - Closing(n, speed, v') == Times(n as real, Abs(v) - Abs(v'));
  }

  /** An engagement whose assessment says success has both bodies within the intercept radius. */
  predicate SuccessIsClose(s: State) {
    s.engagement.assessment.code == InterceptSuccess ==> WithinRadius(s)
  }

  lemma RestingWorld(s: State)
    requires !s.world.target.active && s.phase !in {EngageOrdered, Intercepting}
    ensures Motion(s).world.targetAt == s.world.targetAt && Motion(s).world.assetAt == s.world.assetAt
    ensures Motion(s).phase == s.phase
  {
    hide Tracker.Runnable, Tracker.UpdateFilter, Tracker.Publish, NormalizeAngleDeg;
  }

  lemma SuccessTickIsClose(s: State)
    requires L.Coherent(s) && SuccessIsClose(s)
    ensures SuccessIsClose(AdvanceTick(s))
  {
    L.MotionKeeps(s);
    L.AssessmentOutcomes(Motion(s));
    if s.engagement.assessment.code == InterceptSuccess && s.phase != Assessed {
      RestingWorld(s);
    }
    hide Say, Capture, Motion, Assess;
  }

  ghost predicate Engaged(s: State, t0: nat) {
    s.cfg.math.Lawful() && Physical(s.world, s.scenario) && L.Coherent(s) && L.Since(s, t0) && SuccessIsClose(s)
  }

  predicate SamePlaces(w: World, w': World) {
    w'.targetAt == w.targetAt && w'.assetAt == w.assetAt && w'.targetVelocity == w.targetVelocity
  }

  lemma CommandKeepsSuccess(s: State, step: Step)
    requires s.cfg.math.Lawful() && Physical(s.world, s.scenario) && L.Coherent(s) && SuccessIsClose(s) && L.IsCommand(step)
    ensures SuccessIsClose(Apply(s, step))
  {
    CommandIsPhysical(s, step);
    hide Say, Capture, Tracker.Seed, Math.Launch, Physical, AdvanceTick, ConnectClient;
  }

  lemma EngagedStep(s: State, step: Step, t0: nat)
    requires Engaged(s, t0) && step != Archive && step != Reset
    ensures var t := Apply(s, step);
            && Engaged(t, t0) && t.scenario == s.scenario && t.cfg == s.cfg
            && (if step == Tick then Moved(s.world, t.world, s.scenario) else SamePlaces(s.world, t.world))
  {
    hide Physical, Apply, AdvanceTick, L.Coherent, L.Since, L.Stuck, L.Underway, SuccessIsClose, Moved;
    L.RunningStep(s, step, t0);
    if step == Tick {
      TickIsPhysical(s);
      SuccessTickIsClose(s);
      TickApplies(s);
    } else if L.IsCommand(step) {
      CommandIsPhysical(s, step);
      CommandKeepsSuccess(s, step);
    } else {
      QuietStep(s, step, t0);
    }
  }

  lemma QuietStep(s: State, step: Step, t0: nat)
    requires Engaged(s, t0) && step != Archive && step != Reset && step != Tick && !L.IsCommand(step)
    ensures var t := Apply(s, step);
            && t.world == s.world && t.scenario == s.scenario && t.cfg == s.cfg
            && t.engagement == s.engagement && (SuccessIsClose(s) ==> SuccessIsClose(t))
  {
    hide Say, Capture, Physical, AdvanceTick, L.Coherent;
  }

  /** The bodies of w can be apart by no more than those of w' and what n ticks can close. */
  predicate WithinReach(w: World, w': World, scenario: Scenario, n: nat) {
    var speed := scenario.interceptorSpeed as real;
    && Abs(Separation(w).x) <= Abs(Separation(w').x) + Closing(n, speed, w.targetVelocity.x)
    && Abs(Separation(w).y) <= Abs(Separation(w').y) + Closing(n, speed, w.targetVelocity.y)
  }

  lemma ReachExtends(w: World, w1: World, w': World, scenario: Scenario, n: nat, moved: bool)
    requires scenario.interceptorSpeed > 0 && WithinReach(w1, w', scenario, n)
    requires if moved then Moved(w, w1, scenario) else SamePlaces(w, w1)
    ensures WithinReach(w, w', scenario, if moved then n + 1 else n)
  {
    var speed := scenario.interceptorSpeed as real;
    ClosingGrows(n, speed, w.targetVelocity.x, w1.targetVelocity.x);
    ClosingGrows(n, speed, w.targetVelocity.y, w1.targetVelocity.y);
    hide Closing;
  }

  lemma NoReachNeeded(w: World, scenario: Scenario)
    ensures WithinReach(w, w, scenario, 0)
  {
  }

  /** Over any run of an engagement each axis closes by at most the two speeds per tick. */
  lemma {:induction false} ChaseIsBounded(s: State, steps: seq<Step>, t0: nat)
    requires Engaged(s, t0) && L.KeepsRunning(steps) && s.scenario.interceptorSpeed > 0
    ensures var t := Run(s, steps);
            && Engaged(t, t0) && t.scenario == s.scenario && t.cfg == s.cfg
            && WithinReach(s.world, t.world, s.scenario, L.Ticks(steps))
    decreases |steps|
  {
    hide Apply, Engaged, Moved, SamePlaces, WithinReach;
    if steps == [] {
      NoReachNeeded(s.world, s.scenario);
    } else {
      assert steps[0] in steps && forall step <- steps[1..] :: step in steps;
      var s1, rest := Apply(s, steps[0]), steps[1..];
      EngagedStep(s, steps[0], t0);
      ChaseIsBounded(s1, rest, t0);
      ReachExtends(s.world, s1.world, Run(s1, rest).world, s.scenario, L.Ticks(rest), steps[0] == Tick);
    }
  }

  /** An intercept k ticks after the launch needs, on each axis, the launch separation to be within
      the intercept radius plus what interceptor and target can close in k ticks. */
  lemma EarliestIntercept(s: State, steps: seq<Step>)
    requires s.cfg.math.Lawful() && Physical(s.world, s.scenario) && L.Coherent(s)
    requires s.phase == InterceptorReady && L.KeepsRunning(steps)
    requires Run(Apply(s, Engage), steps).engagement.assessment.code == InterceptSuccess
    ensures var k, radius, speed := L.Ticks(steps), s.scenario.interceptRadius as real, s.scenario.interceptorSpeed as real;
            && Abs(Separation(s.world).x) <= radius + Closing(k, speed, s.world.targetVelocity.x)
            && Abs(Separation(s.world).y) <= radius + Closing(k, speed, s.world.targetVelocity.y)
  {
    assert s.scenario.Valid();
    LaunchIsEngaged(s);
    hide Apply, Physical, L.Coherent, Engaged, WithinRadius, SamePlaces, WithinReach, Closing, Separation;
    var launched := Apply(s, Engage);
    ChaseIsBounded(launched, steps, s.tick);
    SuccessIsInReach(s, launched, Run(launched, steps), s.tick, L.Ticks(steps));
  }

  lemma SuccessIsInReach(s: State, launched: State, t: State, t0: nat, k: nat)
    requires s.scenario.Valid() && t.scenario == s.scenario && SamePlaces(s.world, launched.world)
    requires WithinReach(launched.world, t.world, s.scenario, k)
    requires Engaged(t, t0) && t.engagement.assessment.code == InterceptSuccess
    ensures var radius, speed := s.scenario.interceptRadius as real, s.scenario.interceptorSpeed as real;
            && Abs(Separation(s.world).x) <= radius + Closing(k, speed, s.world.targetVelocity.x)
            && Abs(Separation(s.world).y) <= radius + Closing(k, speed, s.world.targetVelocity.y)
  {
    assert t.cfg.math.Lawful() && WithinRadius(t);
    hide Physical, L.Coherent, WithinRadius, Closing;
    SuccessIsNear(t);
  }

  lemma SuccessIsNear(t: State)
    requires t.cfg.math.Lawful() && t.scenario.Valid() && WithinRadius(t)
    ensures Abs(Separation(t.world).x) <= t.scenario.interceptRadius as real
    ensures Abs(Separation(t.world).y) <= t.scenario.interceptRadius as real
  {
    LengthBound(t.cfg.math, Separation(t.world), t.scenario.interceptRadius as real);
    AxisBound(Separation(t.world), t.scenario.interceptRadius as real);
    hide Times, SquaredNorm;
  }

  lemma LaunchIsEngaged(s: State)
    requires s.cfg.math.Lawful() && Physical(s.world, s.scenario) && L.Coherent(s) && s.phase == InterceptorReady
    ensures var t := Apply(s, Engage);
            Engaged(t, s.tick) && t.scenario == s.scenario && t.cfg == s.cfg && SamePlaces(s.world, t.world)
  {
    hide L.Coherent, L.Refused, Physical, IssueCommand, Math.Lawful, SuccessIsClose;
    CommandIsPhysical(s, Engage);
    L.IssueCommandOutcome(s);
    OrderStartsTheClock(s);
    NoSuccessYet(IssueCommand(s).0);
  }

  lemma OrderStartsTheClock(s: State)
    ensures IssueCommand(s).1.accepted ==> IssueCommand(s).0.engagement.started == Some(s.tick)
  {
    hide Say, Capture, Math.Launch;
  }

  lemma NoSuccessYet(s: State)
    requires L.Coherent(s) && L.Underway(s)
    ensures SuccessIsClose(s)
  {
  }

  // ---------------------------------------------------------------------------
  // Steering

  lemma StepLength(m: Math, error: Vec, a: real)
    requires m.Lawful() && a >= 1.0
    ensures SquaredNorm(Scale(m.Normalize(error), Min(a, m.Length(error)))) <= Times(a, a)
  {
    hide Times, Math.Lawful, Math.Length;
    LengthSquared(m, error);
    TimesSign(a, a);
    var l := m.Length(error);
    if l > 0.00001 {
      UnitVector(error, l);
      ScaledSquaredNorm(m.Normalize(error), Min(a, l));
      TimesMonotone(Min(a, l), a);
    } else {
      NoStep();
    }
  }

  lemma StepArrives(m: Math, v: Vec, desired: Vec, a: real)
    requires 0.00001 < m.Length(Sub(desired, v)) <= a
    ensures var error := Sub(desired, v);
            Add(v, Scale(m.Normalize(error), Min(a, m.Length(error)))) == desired
  {
    Restored(Sub(desired, v), m.Length(Sub(desired, v)));
    hide Times, Math.Length;
  }

  /** A step as long as the acceleration is shorter than the error it does not cover. */
  lemma StepFallsShort(m: Math, error: Vec, a: real)
    requires m.Lawful() && 1.0 <= a < m.Length(error)
    ensures Scale(m.Normalize(error), Min(a, m.Length(error))) != error
  {
    hide Times, Math.Lawful, Math.Length;
    LengthSquared(m, error);
    var l := m.Length(error);
    UnitVector(error, l);
    ScaledSquaredNorm(m.Normalize(error), a);
    TimesMonotone(a, l);
  }

  lemma NoErrorNoStep(m: Math, a: real)
    requires m.Lawful()
    ensures Scale(m.Normalize(ORIGIN), Min(a, m.Length(ORIGIN))) == ORIGIN
  {
    hide Math.Lawful, Math.Length, Times, SquaredNorm;
    LengthSquared(m, ORIGIN);
    NoStep();
    RootOfZero(m.Length(ORIGIN));
  }

  lemma RootOfZero(l: real)
    requires l >= 0.0 && Times(l, l) == 0.0
    ensures l == 0.0
  {
    TimesSign(l, l);
    hide Times;
  }

  /** Which errors one step makes up for: none at all, and those that count as one and are within the
      acceleration. */
  lemma StepArrivesExactly(m: Math, v: Vec, desired: Vec, a: real)
    requires m.Lawful() && a >= 1.0
    ensures var error := Sub(desired, v);
            Add(v, Scale(m.Normalize(error), Min(a, m.Length(error)))) == desired
            <==> error == ORIGIN || 0.00001 < m.Length(error) <= a
  {
    hide Math.Lawful, Math.Length, Times, SquaredNorm;
    var error := Sub(desired, v);
    if error == ORIGIN {
      NoErrorNoStep(m, a);
    } else if m.Length(error) <= 0.00001 {
      NoStep();
    } else if m.Length(error) <= a {
      StepArrives(m, v, desired, a);
    } else {
      StepFallsShort(m, error, a);
      hide Scale, Math.Normalize;
    }
  }

  lemma AddedStep(v: Vec, step: Vec)
    ensures Sub(Add(v, step), v) == step && Sub(v, v) == ORIGIN
  {
  }

  /** One tick changes the velocity by no more than the acceleration. With a track it reaches the
      desired velocity exactly when it has it already, or is off by more than the length that counts
      as none and no more than the acceleration. Without a track it changes nothing. */
  lemma SteeringIsBounded(s: State)
    requires s.cfg.math.Lawful()
    ensures var v, a := s.world.assetVelocity, Acceleration(s.scenario);
            && SquaredNorm(Sub(Steered(s), v)) <= Times(a, a)
            && (!s.track.active ==> Steered(s) == v)
            && (s.track.active ==>
                  var error := Sub(DesiredVelocity(s), v);
                  Steered(s) == DesiredVelocity(s) <==> error == ORIGIN || 0.00001 < s.cfg.math.Length(error) <= a)
  {
    hide DesiredVelocity, Acceleration, Math.Lawful, Times, Math.Length, Math.Normalize, SquaredNorm, Add, Sub,
         Scale, Min;
    var m, v, a := s.cfg.math, s.world.assetVelocity, Acceleration(s.scenario);
    var error := Sub(DesiredVelocity(s), v);
    AccelerationIsPositive(s.scenario);
    StepLength(m, error, a);
    AddedStep(v, Scale(m.Normalize(error), Min(a, m.Length(error))));
    NoStep();
    TimesSign(a, a);
    StepArrivesExactly(m, v, DesiredVelocity(s), a);
  }

  lemma AccelerationIsPositive(scenario: Scenario)
    ensures Acceleration(scenario) >= 1.0
  {
  }

  lemma NoStep()
    ensures forall k: real :: Scale(ORIGIN, k) == ORIGIN
    ensures SquaredNorm(ORIGIN) == 0.0
  {
  }

  lemma Restored(v: Vec, l: real)
    requires l > 0.0
    ensures Scale(Vec(v.x / l, v.y / l), l) == v
  {
  }

  // ---------------------------------------------------------------------------
  // The target's path in closed form

  function XAxis(w: World): Axis { Axis(w.targetAt.x, w.targetVelocity.x) }
  function YAxis(w: World): Axis { Axis(w.targetAt.y, w.targetVelocity.y) }

  predicate TargetMovesOn(s: State, step: Step) {
    step == Tick && s.world.target.active && s.phase != Assessed
  }

  /** The ticks of a run on which the target moves. */
  function MotionTicks(s: State, steps: seq<Step>): nat
    decreases |steps|
  {
    if steps == [] then 0
    else (if TargetMovesOn(s, steps[0]) then 1 else 0) + MotionTicks(Apply(s, steps[0]), steps[1..])
  }

  /** Both axes of `w'` are those of `w` after n bounces; velocities only matter while the target lives. */
  predicate Bounced(w: World, w': World, scenario: Scenario, n: nat) {
    var x := BounceTimes(XAxis(w), scenario.worldWidth as real, n);
    var y := BounceTimes(YAxis(w), scenario.worldHeight as real, n);
    && w'.targetAt == Vec(x.position, y.position)
    && (w'.target.active ==> w.target.active && w'.targetVelocity == Vec(x.velocity, y.velocity))
  }

  lemma MotionBouncesTarget(s: State)
    ensures var w', n := Motion(s).world, if s.world.target.active then 1 else 0;
            && Bounced(s.world, w', s.scenario, n) && w'.target.active == s.world.target.active
  {
    var s1 := MoveTarget(s.(tick := s.tick + 1));
    assert BounceTimes(XAxis(s.world), s.scenario.worldWidth as real, 1) == Bounce(XAxis(s.world), s.scenario.worldWidth as real);
    assert BounceTimes(YAxis(s.world), s.scenario.worldHeight as real, 1) == Bounce(YAxis(s.world), s.scenario.worldHeight as real);
    hide Bounce, RoundToGrid, Tracker.Runnable, Tracker.UpdateFilter, Tracker.Publish, CapSpeed, Steered, Confined,
         NormalizeAngleDeg;
  }

  lemma AssessKeepsMotion(s: State)
    ensures var w, w' := s.world, Assess(s).world;
            && w'.targetAt == w.targetAt
            && (w'.target.active ==> w.target.active && w'.targetVelocity == w.targetVelocity)
  {
    hide Say, WithinRadius;
  }

  lemma TargetStep(s: State, step: Step)
    requires L.Coherent(s) && s.phase != Standby && step != Reset
    ensures var t := Apply(s, step);
            && L.Coherent(t) && t.phase != Standby && t.scenario == s.scenario
            && Bounced(s.world, t.world, s.scenario, if TargetMovesOn(s, step) then 1 else 0)
  {
    L.StepIsCoherent(s, step);
    if step == Tick {
      TargetTick(s);
      TickApplies(s);
      hide Apply, AdvanceTick, L.Coherent, Bounced;
    } else {
      hide Say, Capture, L.Coherent, AdvanceTick, Tracker.Seed, Math.Launch, Scenario.Valid;
      TargetRests(s, step);
    }
  }

  lemma TargetRests(s: State, step: Step)
    requires s.phase != Standby && step != Reset && step != Tick
    ensures var t := Apply(s, step);
            && t.phase != Standby && t.scenario == s.scenario
            && t.world.targetAt == s.world.targetAt && t.world.target == s.world.target
            && t.world.targetVelocity == s.world.targetVelocity
  {
    hide Say, Capture, AdvanceTick, Math.Launch, Scenario.Valid, RequestTrack, ReleaseTrack;
    TargetRestsTracked(s);
  }

  lemma TargetRestsTracked(s: State)
    requires s.phase != Standby
    ensures forall t <- {RequestTrack(s).0, ReleaseTrack(s).0} :: t.phase != Standby && t.scenario == s.scenario && t.world == s.world
  {
    hide Say, Capture, Tracker.Seed;
  }

  lemma TargetTick(s: State)
    requires L.Coherent(s) && s.phase != Standby
    ensures var t := AdvanceTick(s);
            && t.phase != Standby && t.scenario == s.scenario
            && Bounced(s.world, t.world, s.scenario, if TargetMovesOn(s, Tick) then 1 else 0)
  {
    L.TickIsCoherent(s);
    MotionBouncesTarget(s);
    AssessKeepsMotion(Motion(s));
    L.MotionKeeps(s);
    hide Say, Capture, Motion, Assess, Bounce, L.Coherent;
  }

  lemma {:induction false} BouncesAdd(a: Axis, limit: real, m: nat, n: nat)
    ensures BounceTimes(BounceTimes(a, limit, m), limit, n) == BounceTimes(a, limit, m + n)
  {
    hide Bounce;
    if n > 0 {
      BouncesAdd(a, limit, m, n - 1);
    }
  }

  lemma BouncedTwice(w: World, w1: World, w2: World, scenario: Scenario, m: nat, n: nat)
    requires Bounced(w, w1, scenario, m) && Bounced(w1, w2, scenario, n)
    requires !w1.target.active ==> n == 0
    ensures Bounced(w, w2, scenario, m + n)
  {
    BouncesAdd(XAxis(w), scenario.worldWidth as real, m, n);
    BouncesAdd(YAxis(w), scenario.worldHeight as real, m, n);
    hide Bounce;
  }

  /** From any started state to the next reset, the target's place is its place then, bounced once
      for every tick on which it moved. */
  lemma {:induction false} TargetBounces(s: State, steps: seq<Step>)
    requires L.Coherent(s) && s.phase != Standby && Reset !in steps
    ensures Bounced(s.world, Run(s, steps).world, s.scenario, MotionTicks(s, steps))
    ensures !s.world.target.active ==> MotionTicks(s, steps) == 0
    decreases |steps|
  {
    hide Apply, L.Coherent, Bounced;
    if steps == [] {
      assert Bounced(s.world, s.world, s.scenario, 0) by { NoBounce(s.world, s.scenario); }
    } else {
      var s1, rest := Apply(s, steps[0]), steps[1..];
      TargetStep(s, steps[0]);
      if !s.world.target.active { StaysInactive(s, steps[0]); }
      TargetBounces(s1, rest);
      BouncedTwice(s.world, s1.world, Run(s1, rest).world, s.scenario,
                   if TargetMovesOn(s, steps[0]) then 1 else 0, MotionTicks(s1, rest));
    }
  }

  lemma NoBounce(w: World, scenario: Scenario)
    ensures Bounced(w, w, scenario, 0)
  {
  }

  lemma StaysInactive(s: State, step: Step)
    requires L.Coherent(s) && s.phase != Standby && step != Reset && !s.world.target.active
    ensures !Apply(s, step).world.target.active
  {
    TargetStep(s, step);
    hide Apply, L.Coherent;
  }

  /** A coordinate that moves no faster than its span is a triangle wave of the straight path. */
  predicate OnTriangleWave(at: real, start: real, velocity: real, size: int, n: nat) {
    size > 1 && Abs(velocity) <= (size - 1) as real ==>
      at == TriangleWave(start + n as real * velocity, (size - 1) as real)
  }

  /** The closed form of the target's path, from any started state to the next reset. */
  lemma TargetFollowsTriangleWave(s: State, steps: seq<Step>)
    requires L.Coherent(s) && s.phase != Standby && Reset !in steps && InWorld(s.world.targetAt, s.scenario)
    ensures var w, at, n := s.world, Run(s, steps).world.targetAt, MotionTicks(s, steps);
            && OnTriangleWave(at.x, w.targetAt.x, w.targetVelocity.x, s.scenario.worldWidth, n)
            && OnTriangleWave(at.y, w.targetAt.y, w.targetVelocity.y, s.scenario.worldHeight, n)
  {
    TargetBounces(s, steps);
    var w, n := s.world, MotionTicks(s, steps);
    hide BounceTimes, Apply, L.Coherent, OnTriangleWave;
    AxisIsTriangleWave(w.targetAt.x, w.targetVelocity.x, s.scenario.worldWidth, n);
    AxisIsTriangleWave(w.targetAt.y, w.targetVelocity.y, s.scenario.worldHeight, n);
  }

  lemma AxisIsTriangleWave(x: real, v: real, size: int, n: nat)
    requires 0.0 <= x <= (size - 1) as real
    ensures OnTriangleWave(BounceTimes(Axis(x, v), size as real, n).position, x, v, size, n)
  {
    assert size as real - 1.0 == (size - 1) as real;
    if size > 1 && Abs(v) <= (size - 1) as real {
      BounceIsTriangleWave(x, v, size as real, n);
    }
    hide Bounce;
  }
}
