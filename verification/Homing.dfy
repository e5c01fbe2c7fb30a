/** A tracked target at rest is intercepted: the guidance over whole runs of an engagement. */
module Homing {
  import opened Numerics
  import opened Vectors
  import opened Text
  import opened SessionTypes
  import opened Messages
  import opened Session
  import opened Guidance
  import K = Kinematics
  import L = Lifecycle
  import Tracker

  function Distance(s: State): real { s.cfg.math.Length(Sub(s.world.targetAt, s.world.assetAt)) }

  /** How far the velocity is from full speed straight to the target. */
  function Error(s: State): real {
    Miss(s.cfg.math, s.world.assetAt, s.world.assetVelocity, s.world.targetAt, s.scenario)
  }

  predicate FliesNext(s: State) {
    s.phase == Intercepting || (s.phase == EngageOrdered && s.engagement.order == Accepted)
  }

  /** A tracked target at rest, and an interceptor under way to it. */
  ghost predicate Guided(s: State) {
    && s.cfg.math.Lawful() && K.Physical(s.world, s.scenario) && L.Coherent(s)
    && s.track.active && s.world.targetVelocity == ORIGIN && s.world.target.active && s.world.asset.active
  }

  lemma TargetStaysPut(s: State)
    requires Guided(s)
    ensures var t := UpdateTrack(MoveTarget(s.(tick := s.tick + 1)));
            && t.world.targetAt == s.world.targetAt && t.world.targetVelocity == ORIGIN
            && t == s.(tick := s.tick + 1, track := t.track, filter := t.filter, world := t.world)
            && t.world.assetAt == s.world.assetAt && t.world.assetVelocity == s.world.assetVelocity
            && t.world.asset == s.world.asset && t.track.active
  {
    L.TrackingKeeps(s);
    hide Tracker.UpdateFilter, Tracker.Runnable, RoundToGrid, Times, SquaredNorm, Math.Lawful, L.Coherent;
  }

  /** A tick flies the interceptor one step straight towards the target. */
  lemma MotionFliesStraight(s: State)
    requires Guided(s) && FliesNext(s)
    ensures var t, m, at, v, to := Motion(s), s.cfg.math, s.world.assetAt, s.world.assetVelocity, s.world.targetAt;
            && t.world.targetAt == to && t.world.targetVelocity == ORIGIN
            && t.world.assetVelocity == NextVelocity(m, at, v, to, s.scenario)
            && t.world.assetAt == NextPlace(m, at, v, to, s.scenario)
            && m.Length(t.world.assetVelocity) <= s.scenario.interceptorSpeed as real
  {
    TargetStaysPut(s);
    var s1 := BeginIntercept(UpdateTrack(MoveTarget(s.(tick := s.tick + 1))));
    assert s1.phase == Intercepting && s1.world.asset.active;
    hide UpdateTrack, MoveTarget;
    SteersStraight(s1);
    K.SeekerIsMassless(FlyInterceptor(s1));
    hide PointSeeker, Steered, CapSpeed, NextVelocity, K.Physical, L.Coherent, Math.Lawful, Math.Length, Confined,
         RoundToGrid;
  }

  lemma SteersStraight(s: State)
    requires s.cfg.math.Lawful() && K.Physical(s.world, s.scenario) && s.track.active && s.world.targetVelocity == ORIGIN
    ensures var m, speed := s.cfg.math, s.scenario.interceptorSpeed as real;
            var v' := NextVelocity(m, s.world.assetAt, s.world.assetVelocity, s.world.targetAt, s.scenario);
            Steered(s) == v' && CapSpeed(m, v', speed) == v' && m.Length(v') <= speed
  {
    var m, w, speed := s.cfg.math, s.world, s.scenario.interceptorSpeed as real;
    DesiredIsStraightToLead(s);
    RestingLead(m, w, speed);
    LengthBound(m, w.assetVelocity, speed);
    NeverTooFast(m, w.assetAt, w.assetVelocity, w.targetAt, s.scenario);
    hide Math.Lawful, Math.Length, Times, SquaredNorm, Straight, Lead, DesiredVelocity;
  }

  lemma RestingLead(m: Math, w: World, speed: real)
    requires speed > 0.0 && w.targetVelocity == ORIGIN
    ensures Lead(m, w, speed) == w.targetAt
  {
    hide Math.Length;
  }

  // ---------------------------------------------------------------------------
  // Whole runs

  /** What is gained in some ticks, at nine tenths of the speed. */
  function Gained(speed: real, ticks: int): real { Times(0.9 * speed, ticks as real) }

  /** The interceptor can turn in time, and has enough ticks left. */
  predicate InReach(s: State) {
    var speed := s.scenario.interceptorSpeed as real;
    && s.scenario.interceptorSpeed < 2 * s.scenario.interceptRadius
    && Distance(s) > s.scenario.interceptRadius as real
    && Aligns(Distance(s), Error(s), speed, Acceleration(s.scenario))
    && Effort(Distance(s), Error(s)) <= Gained(speed, s.scenario.engagementTimeoutTicks - EngagementTicks(s))
  }

  ghost predicate Homing(s: State, t0: nat) {
    && Guided(s) && L.Underway(s) && s.engagement.order != Rejected && s.engagement.started == Some(t0)
    && InReach(s)
  }

  /** What a tick shows is what its motion and assessment leave. */
  lemma TickShows(s: State)
    requires s.phase != Assessed
    ensures var t, u := AdvanceTick(s), Assess(Motion(s));
            && t.phase == u.phase && t.engagement == u.engagement && t.world == u.world && t.track == u.track
            && t.tick == u.tick && t.cfg == u.cfg && t.scenario == u.scenario
  {
    hide Say, Capture, Motion, Assess;
  }

  lemma MotionGains(s: State, u: State)
    requires Guided(s) && InReach(s) && u.cfg == s.cfg && u.scenario == s.scenario
    requires u.world.targetAt == s.world.targetAt
    requires var m, at, v, to := s.cfg.math, s.world.assetAt, s.world.assetVelocity, s.world.targetAt;
             && u.world.assetVelocity == NextVelocity(m, at, v, to, s.scenario)
             && u.world.assetAt == NextPlace(m, at, v, to, s.scenario)
    requires Distance(u) > s.scenario.interceptRadius as real
    ensures var speed := s.scenario.interceptorSpeed as real;
            && Aligns(Distance(u), Error(u), speed, Acceleration(s.scenario))
            && Effort(Distance(u), Error(u)) <= Effort(Distance(s), Error(s)) - 0.9 * speed
  {
    var m, at, v, to, speed := s.cfg.math, s.world.assetAt, s.world.assetVelocity, s.world.targetAt, s.scenario.interceptorSpeed as real;
    assert s.scenario.Valid();
    LengthBound(m, v, speed);
    FlightComesNear(m, at, v, to, s.scenario);
    if Distance(s) > speed + 0.5 { AimTurnsLittle(m, at, v, to, s.scenario); }
    ErrorIsBounded(m, at, v, to, s.scenario);
    hide Math.Lawful, Math.Length, NextVelocity, NextPlace, Miss, Left, Aligns, Effort, Times, SquaredNorm, Scenario.Valid;
    AccelerationIsEnough(s.scenario);
    TickGains(Distance(s), Error(s), Distance(u), Error(u), speed, Acceleration(s.scenario), s.scenario.interceptRadius as real);
  }

  lemma ErrorIsBounded(m: Math, at: Vec, v: Vec, to: Vec, scenario: Scenario)
    requires m.Lawful() && scenario.Valid() && m.Length(v) <= scenario.interceptorSpeed as real
    requires m.Length(Sub(to, at)) > 0.00001
    ensures 0.0 <= Miss(m, at, v, to, scenario) <= 2.0 * scenario.interceptorSpeed as real
  {
    hide Math.Lawful, Math.Length, Times, SquaredNorm, Straight;
    var aim := Straight(m, at, to, scenario.interceptorSpeed as real);
    Steering(m, at, v, to, scenario);
    LengthSquared(m, Sub(aim, v));
    var back := Scale(v, -1.0);
    assert Times(v.x, -1.0) == -v.x && Times(v.y, -1.0) == -v.y by { Negated(v); }
    Triangle(m, aim, back);
    ScaledLength(m, v, -1.0);
    assert Times(1.0, m.Length(v)) == m.Length(v) by { One(m.Length(v)); }
  }

  lemma Negated(v: Vec)
    ensures Times(v.x, -1.0) == -v.x && Times(v.y, -1.0) == -v.y
  {
  }

  lemma One(a: real)
    ensures Times(1.0, a) == a
  {
  }

  lemma AccelerationIsEnough(scenario: Scenario)
    ensures Acceleration(scenario) >= 1.0 && Acceleration(scenario) >= 0.28 * scenario.interceptorSpeed as real
  {
  }

  lemma HomingTick(s: State, t0: nat)
    requires Homing(s, t0)
    ensures var t := AdvanceTick(s);
            L.Coherent(t) && t.scenario == s.scenario && t.phase in {Intercepting, Assessed}
            && (Homing(t, t0) || !t.world.target.active)
  {
    L.TickIsCoherent(s);
    hide Motion, AdvanceTick, Assess, K.Physical, L.Coherent, Math.Lawful, InReach, Distance;
    if Distance(Motion(s)) > s.scenario.interceptRadius as real {
      FarTick(s, t0);
    } else {
      NearTick(s);
    }
  }

  /** What the tick of a guided engagement does before it is recorded. */
  lemma GuidedTick(s: State)
    requires Guided(s) && L.Underway(s) && s.engagement.order != Rejected
    ensures var u, m, at, v, to := Motion(s), s.cfg.math, s.world.assetAt, s.world.assetVelocity, s.world.targetAt;
            && u.cfg == s.cfg && u.scenario == s.scenario && u.tick == s.tick + 1
            && u.phase == Intercepting && u.engagement.order == Executing && u.engagement.started == s.engagement.started
            && u.track.active && u.world.target.active && u.world.asset.active
            && u.world.targetAt == to && u.world.targetVelocity == ORIGIN
            && u.world.assetVelocity == NextVelocity(m, at, v, to, s.scenario)
            && u.world.assetAt == NextPlace(m, at, v, to, s.scenario)
  {
    assert FliesNext(s);
    MotionFliesStraight(s);
    L.MotionKeeps(s);
    hide Motion, K.Physical, Math.Lawful, Math.Length, NextVelocity, NextPlace;
  }

  lemma NearTick(s: State)
    requires Guided(s) && L.Underway(s) && s.engagement.order != Rejected
    requires Distance(Motion(s)) <= s.scenario.interceptRadius as real
    ensures !AdvanceTick(s).world.target.active
  {
    GuidedTick(s);
    TickShows(s);
    SuccessEndsTarget(Motion(s));
    hide Motion, AdvanceTick, Assess, Guided;
  }

  lemma FarMotion(s: State)
    requires Guided(s) && L.Underway(s) && s.engagement.order != Rejected && s.engagement.started.Some? && InReach(s)
    requires Distance(Motion(s)) > s.scenario.interceptRadius as real
    ensures InReach(Motion(s)) && Assess(Motion(s)) == Motion(s)
  {
    var u := Motion(s);
    GuidedTick(s);
    MotionGains(s, u);
    assert Error(u) >= 0.0 by { LengthSquared(u.cfg.math, MissBy(u)); }
    Spent(Effort(Distance(s), Error(s)), Effort(Distance(u), Error(u)), s.scenario.interceptorSpeed as real,
          s.scenario.engagementTimeoutTicks - EngagementTicks(s));
    NothingAssessed(u);
    hide Motion, Assess, K.Physical, L.Coherent, Math.Lawful, Distance, Error, Aligns, Gained, NextVelocity, NextPlace,
         Acceleration;
  }

  function MissBy(s: State): Vec {
    Sub(Straight(s.cfg.math, s.world.assetAt, s.world.targetAt, s.scenario.interceptorSpeed as real), s.world.assetVelocity)
  }

  lemma FarTick(s: State, t0: nat)
    requires Homing(s, t0) && Distance(Motion(s)) > s.scenario.interceptRadius as real
    ensures Homing(AdvanceTick(s), t0)
  {
    GuidedTick(s);
    FarMotion(s);
    TickShows(s);
    L.TickIsCoherent(s);
    K.TickIsPhysical(s);
    SameReach(Motion(s), AdvanceTick(s));
    hide Motion, AdvanceTick, Assess, K.Physical, L.Coherent, Math.Lawful, InReach, Distance, NextVelocity, NextPlace;
  }

  lemma SameReach(u: State, t: State)
    requires t.cfg == u.cfg && t.scenario == u.scenario && t.world == u.world && t.tick == u.tick && t.engagement == u.engagement
    requires InReach(u)
    ensures InReach(t)
  {
    hide Math.Length, Aligns, Effort, Gained, Miss;
  }

  lemma NothingAssessed(u: State)
    requires Distance(u) > u.scenario.interceptRadius as real && EngagementTicks(u) < u.scenario.engagementTimeoutTicks
    ensures Assess(u) == u
  {
    hide Say, Math.Length;
  }

  /** An effort that is not spent leaves time before the timeout. */
  lemma Spent(effort: real, effort': real, speed: real, ticks: int)
    requires speed > 0.0 && effort <= Gained(speed, ticks) && 0.0 < effort' <= effort - 0.9 * speed
    ensures ticks > 1 && effort' <= Gained(speed, ticks - 1)
  {
    assert 0.9 * speed * (ticks as real) - 0.9 * speed == 0.9 * speed * (ticks - 1) as real;
    if ticks <= 1 { TimesSign(0.9 * speed, (1 - ticks) as real); }
  }

  lemma SuccessEndsTarget(u: State)
    requires u.engagement.order == Executing && u.phase == Intercepting && WithinRadius(u)
    ensures !Assess(u).world.target.active
  {
    hide Say, WithinRadius;
  }

  lemma QuietStepKeepsHoming(s: State, step: Step, t0: nat)
    requires Homing(s, t0) && !L.IsCommand(step) && step != Tick && step != Archive && step != Reset
    ensures Homing(Apply(s, step), t0)
  {
    L.StepIsCoherent(s, step);
    QuietStepKeepsFlight(s, step);
    SameReach(s, Apply(s, step));
    hide Apply, InReach, L.Coherent, K.Physical, Math.Lawful;
  }

  lemma QuietStepKeepsFlight(s: State, step: Step)
    requires s.phase != Standby && !L.IsCommand(step) && step != Tick && step != Archive && step != Reset
    ensures var t := Apply(s, step);
            && t.phase == s.phase && t.engagement == s.engagement && t.world == s.world && t.track == s.track
            && t.tick == s.tick && t.cfg == s.cfg && t.scenario == s.scenario
  {
    hide Say, Capture, AdvanceTick, StartScenario, RequestTrack, ReleaseTrack, ActivateAsset, IssueCommand;
  }

  lemma {:induction false} EndedTargetStays(s: State, steps: seq<Step>)
    requires L.Coherent(s) && s.phase != Standby && !s.world.target.active && Reset !in steps
    ensures !Run(s, steps).world.target.active
    decreases |steps|
  {
    hide Apply, L.Coherent;
    if steps != [] {
      K.TargetStep(s, steps[0]);
      K.StaysInactive(s, steps[0]);
      EndedTargetStays(Apply(s, steps[0]), steps[1..]);
    }
  }

  lemma {:induction false} HomingRun(s: State, steps: seq<Step>, t0: nat)
    requires Homing(s, t0) && L.KeepsRunning(steps) && !L.CommandedUnderway(s, steps)
    ensures Homing(Run(s, steps), t0) || !Run(s, steps).world.target.active
    decreases |steps|
  {
    if steps != [] {
      var t, rest := Apply(s, steps[0]), steps[1..];
      assert steps[0] in steps && forall step <- rest :: step in steps;
      assert L.Underway(s) && !L.IsCommand(steps[0]);
      hide Apply, Homing, L.Coherent;
      if steps[0] == Tick {
        K.TickApplies(s);
        HomingTick(s, t0);
      } else {
        QuietStepKeepsHoming(s, steps[0], t0);
      }
      if Homing(t, t0) { HomingRun(t, rest, t0); } else { EndedTargetStays(t, rest); }
    }
  }

  /** Engaging a tracked target at rest: when the diameter of the intercept radius is more than one
      tick's flight, the launch is outside that radius and either within one tick's acceleration of the
      aim or far enough away to turn, and the timeout leaves the ticks for it, then the target is
      intercepted, whatever else happens but commands, an archive or a reset. */
  lemma RestingTargetIsIntercepted(s: State, steps: seq<Step>)
    requires Reachable(s) && s.phase == InterceptorReady && s.track.active && s.world.targetVelocity == ORIGIN
    requires InReach(Apply(s, Engage))
    requires L.KeepsRunning(steps) && !L.CommandedUnderway(Apply(s, Engage), steps)
    requires L.Ticks(steps) >= s.scenario.engagementTimeoutTicks
    ensures Run(Apply(s, Engage), steps).engagement.assessment.code == InterceptSuccess
  {
    var launched := Apply(s, Engage);
    LaunchIsHoming(s);
    L.EngagementIsAssessedInTime(launched, steps);
    HomingRun(launched, steps, s.tick);
    hide Apply, Run, InReach, Guided, Reachable, L.CommandedUnderway, L.Ticks;
  }

  /** In terms of the scenario alone, for every launch angle: a target at rest that is thirty ticks' flight
      away is in reach if the timeout leaves nine tenths of the speed for its distance and twenty-two
      ticks' flight for turning. */
  lemma FarTargetIsInReach(s: State)
    requires Reachable(s) && s.phase == InterceptorReady && s.track.active && s.world.targetVelocity == ORIGIN
    requires s.scenario.interceptorSpeed < 2 * s.scenario.interceptRadius && Distance(s) > s.scenario.interceptRadius as real
    requires var speed := s.scenario.interceptorSpeed as real;
             30.0 * speed <= Distance(s) <= Gained(speed, s.scenario.engagementTimeoutTicks) - 22.0 * speed
    ensures InReach(Apply(s, Engage))
  {
    hide Reachable, L.Coherent, L.Refused, IssueCommand, Math.Lawful, Math.Length, Miss, Gained;
    var t, speed := Apply(s, Engage), s.scenario.interceptorSpeed as real;
    K.ReachableIsPhysical(s);
    K.CommandIsPhysical(s, Engage);
    L.ReachableIsCoherent(s);
    L.IssueCommandOutcome(s);
    OrderLaunches(s);
    LaunchIsSlow(t);
    ErrorIsBounded(t.cfg.math, t.world.assetAt, t.world.assetVelocity, t.world.targetAt, t.scenario);
  }

  lemma LaunchIsSlow(s: State)
    requires s.cfg.math.Lawful() && K.Physical(s.world, s.scenario)
    ensures s.scenario.Valid() && s.cfg.math.Length(s.world.assetVelocity) <= s.scenario.interceptorSpeed as real
  {
    hide Math.Lawful, Math.Length;
    LengthBound(s.cfg.math, s.world.assetVelocity, s.scenario.interceptorSpeed as real);
  }

  lemma LaunchIsHoming(s: State)
    requires Reachable(s) && s.phase == InterceptorReady && s.track.active && s.world.targetVelocity == ORIGIN
    requires InReach(Apply(s, Engage))
    ensures var t := Apply(s, Engage);
            Homing(t, s.tick) && t.tick == s.tick && t.scenario == s.scenario
  {
    hide Reachable, L.Coherent, L.Refused, K.Physical, IssueCommand, Math.Lawful, InReach;
    L.ReachableIsCoherent(s);
    K.ReachableIsPhysical(s);
    K.CommandIsPhysical(s, Engage);
    L.StepIsCoherent(s, Engage);
    L.IssueCommandOutcome(s);
    OrderLaunches(s);
  }

  lemma OrderLaunches(s: State)
    ensures var t := IssueCommand(s).0;
            && IssueCommand(s).1.accepted ==>
                 && t.engagement.started == Some(s.tick) && t.tick == s.tick && t.scenario == s.scenario
                 && t.track == s.track && t.cfg == s.cfg
                 && t.world == s.world.(assetVelocity := s.cfg.math.Launch(s.scenario.launchAngleDeg, s.scenario.interceptorSpeed))
  {
    hide Say, Capture, Math.Launch;
  }
}
