/** Where the track lies: between prediction and measurement after every measurement, never farther from
    the target than the larger of the prediction's error and the noise, and on the target itself as long as
    nothing is noisy and nothing bounces. */
module Estimation {
  import opened Numerics
  import opened SessionTypes
  import opened Messages
  import opened Session
  import L = Lifecycle
  import K = Kinematics
  import Tracker
  import T = TrackRuns

  /** Strictly between two different numbers, or where both are. */
  predicate Between(a: real, x: real, b: real) {
    if a == b then x == a else if a < b then a < x < b else b < x < a
  }

  /** A change in the direction of the residual, and shorter. */
  predicate Follows(change: real, residual: real) {
    if residual == 0.0 then change == 0.0 else if residual > 0.0 then 0.0 < change < residual else residual < change < 0.0
  }

  lemma PartFollows(gain: real, residual: real)
    requires 0.0 < gain < 1.0
    ensures Follows(gain * residual, residual)
  {
    TimesSign(gain, residual);
    TimesSign(gain, -residual);
    TimesSign(1.0 - gain, residual);
    TimesSign(1.0 - gain, -residual);
    Distributed(gain, residual);
    Negated(gain, residual);
    Negated(1.0 - gain, residual);
    hide Times;
  }

  lemma Distributed(a: real, b: real)
    ensures Times(a, b) == a * b && Times(1.0 - a, b) == b - Times(a, b)
  {
  }

  lemma Negated(a: real, b: real)
    ensures Times(a, -b) == -Times(a, b)
  {
  }

  /** What a measurement does to a filter: the estimate goes part of the way from the prediction to the
      measurement, and the velocity changes in the same direction. */
  predicate Pulled(predicted: Filter, measurement: Vec, g: Filter) {
    && Between(predicted.estimate.x, g.estimate.x, measurement.x) && Between(predicted.estimate.y, g.estimate.y, measurement.y)
    && Follows(g.velocity.x - predicted.velocity.x, measurement.x - predicted.estimate.x)
    && Follows(g.velocity.y - predicted.velocity.y, measurement.y - predicted.estimate.y)
    && g.measurement == measurement && g.measurementValid
  }

  lemma CorrectionPulls(f: Filter, measurement: Vec)
    requires T.Positive(f)
    ensures Pulled(f, measurement, Tracker.Correct(f, measurement))
  {
    var g, at, v, p, q := Tracker.Correct(f, measurement), f.estimate, f.velocity, f.positionVariance, f.velocityVariance;
    AxisPulled(p.x, q.x, at.x, v.x, measurement.x, g.estimate.x, g.velocity.x);
    AxisPulled(p.y, q.y, at.y, v.y, measurement.y, g.estimate.y, g.velocity.y);
    hide Tracker.Gain, Tracker.Shrunk, Between, Follows;
  }

  lemma AxisPulled(p: real, q: real, at: real, v: real, measured: real, at': real, v': real)
    requires p > 0.0 && q > 0.0
    requires at' == at + Tracker.Gain(p, 25.0) * (measured - at) && v' == v + Tracker.Gain(q, 100.0) * (measured - at)
    ensures Between(at, at', measured) && Follows(v' - v, measured - at)
  {
    GainFollows(p, 25.0, measured - at);
    GainFollows(q, 100.0, measured - at);
    hide Tracker.Gain;
  }

  lemma GainFollows(variance: real, noise: real, residual: real)
    requires variance > 0.0 && noise > 0.0
    ensures Follows(Tracker.Gain(variance, noise) * residual, residual)
  {
    Tracker.GainBounds(variance, noise);
    PartFollows(Tracker.Gain(variance, noise), residual);
    hide Tracker.Gain, Follows;
  }

  /** The corrected estimate is the mean of prediction and measurement, each weighted with the other's
      variance, and its information is the sum of theirs. */
  lemma CorrectionIsWeightedMean(f: Filter, measurement: Vec)
    requires T.Positive(f)
    ensures var g, p, r := Tracker.Correct(f, measurement), f.positionVariance, Tracker.MEASUREMENT_VARIANCE;
            && g.estimate.x * (p.x + r) == f.estimate.x * r + measurement.x * p.x
            && g.estimate.y * (p.y + r) == f.estimate.y * r + measurement.y * p.y
            && g.positionVariance.x * (p.x + r) == p.x * r && g.positionVariance.y * (p.y + r) == p.y * r
            && g.velocityVariance.x * (f.velocityVariance.x + 4.0 * r) == f.velocityVariance.x * (4.0 * r)
            && g.velocityVariance.y * (f.velocityVariance.y + 4.0 * r) == f.velocityVariance.y * (4.0 * r)
            && (g.velocity.x - f.velocity.x) * (f.velocityVariance.x + 4.0 * r) == f.velocityVariance.x * (measurement.x - f.estimate.x)
            && (g.velocity.y - f.velocity.y) * (f.velocityVariance.y + 4.0 * r) == f.velocityVariance.y * (measurement.y - f.estimate.y)
  {
    var p, v, r := f.positionVariance, f.velocityVariance, Tracker.MEASUREMENT_VARIANCE;
    Weighted(p.x, r, f.estimate.x, measurement.x);
    Weighted(p.y, r, f.estimate.y, measurement.y);
    Weighted(v.x, 4.0 * r, f.estimate.x, measurement.x);
    Weighted(v.y, 4.0 * r, f.estimate.y, measurement.y);
    hide Tracker.Gain, Tracker.Shrunk;
  }

  lemma Weighted(p: real, r: real, a: real, b: real)
    requires p > 0.0 && r > 0.0
    ensures (a + Tracker.Gain(p, r) * (b - a)) * (p + r) == a * r + b * p
    ensures Tracker.Shrunk(p, r) * (p + r) == p * r
    ensures (Tracker.Gain(p, r) * (b - a)) * (p + r) == p * (b - a)
  {
    var g, s := Tracker.Gain(p, r), p + r;
    assert g * s == p;
    assert (g * (b - a)) * s == (g * s) * (b - a);
    assert (p * (1.0 - g)) * s == p * (s - g * s);
  }

  /** Any number of predictions in a row. */
  function Coasting(f: Filter, n: nat): Filter { if n == 0 then f else Tracker.Predict(Coasting(f, n - 1)) }

  /** Coasting in closed form: the estimate moves straight, the velocity variance grows evenly, and the
      position variance with its sum. */
  lemma {:induction false} CoastingInClosedForm(f: Filter, n: nat)
    ensures var g, k := Coasting(f, n), n as real;
            && g.velocity == f.velocity
            && g.estimate == Vec(f.estimate.x + k * f.velocity.x, f.estimate.y + k * f.velocity.y)
            && g.velocityVariance == Vec(f.velocityVariance.x + 1.5 * k, f.velocityVariance.y + 1.5 * k)
            && g.positionVariance == Vec(f.positionVariance.x + k * (f.velocityVariance.x + 4.0) + 0.75 * (k * (k - 1.0)),
                                         f.positionVariance.y + k * (f.velocityVariance.y + 4.0) + 0.75 * (k * (k - 1.0)))
  {
    if n > 0 {
      CoastingInClosedForm(f, n - 1);
      var k := n as real;
      OneStepMore(k, f.velocity.x, f.velocityVariance.x);
      OneStepMore(k, f.velocity.y, f.velocityVariance.y);
      assert (n - 1) as real == k - 1.0;
    }
  }

  lemma OneStepMore(k: real, v: real, w: real)
    ensures (k - 1.0) * v + v == k * v
    ensures (k - 1.0) * (w + 4.0) + 0.75 * ((k - 1.0) * (k - 2.0)) + (w + 1.5 * (k - 1.0) + 4.0)
         == k * (w + 4.0) + 0.75 * (k * (k - 1.0))
  {
  }

  /** The measurement noise stays within 3.5 and 3. */
  lemma NoiseIsBounded(m: Math, tick: nat)
    requires m.Lawful()
    ensures Abs(m.Noise(tick).x) <= 3.5 && Abs(m.Noise(tick).y) <= 3.0
  {
    var a, b := tick as real * 0.63 + 0.4, tick as real * 0.47 + 0.9;
    WithinOne(m.sin(a), m.cos(a));
    WithinOne(m.cos(b), m.sin(b));
  }

  lemma WithinOne(a: real, b: real)
    requires Times(a, a) + Times(b, b) == 1.0
    ensures -1.0 <= a <= 1.0
  {
    TimesSign(b, b);
    AbsSquared(a);
    if Abs(a) > 1.0 { TimesMonotone(1.0, Abs(a)); }
  }

  /** Where the target has moved to, and what the tracker would say without a measurement. */
  function TargetNext(s: State): Vec { MoveTarget(s.(tick := s.tick + 1)).world.targetAt }

  /** Pulled from `before` to `after` by a measurement, without losing the target. */
  predicate Approaches(before: Track, after: Track, target: Vec, measured: Vec) {
    var predicted := Add(before.estimatedPosition, before.estimatedVelocity);
    && after.measurementPosition == measured && after.measurementValid && after.ageTicks == 0 && after.missedUpdates == 0
    && Between(predicted.x, after.estimatedPosition.x, measured.x)
    && Between(predicted.y, after.estimatedPosition.y, measured.y)
    && Follows(after.estimatedVelocity.x - before.estimatedVelocity.x, measured.x - predicted.x)
    && Follows(after.estimatedVelocity.y - before.estimatedVelocity.y, measured.y - predicted.y)
    && Abs(after.estimatedPosition.x - target.x) <= Max(Abs(predicted.x - target.x), 3.5)
    && Abs(after.estimatedPosition.y - target.y) <= Max(Abs(predicted.y - target.y), 3.0)
  }

  lemma UpdateApproaches(m: Math, before: Track, f: Filter, target: Vec, tick: nat, after: Track)
    requires m.Lawful() && T.Positive(f) && Tracker.MeasurementAvailable(tick) && T.Published(before, f)
    requires Tracker.Runnable(f) && T.Published(after, Tracker.UpdateFilter(m, f, target, tick))
    ensures Approaches(before, after, target, Add(target, m.Noise(tick)))
  {
    PredictionIsPositive(f);
    CorrectionPulls(Tracker.Predict(f), Add(target, m.Noise(tick)));
    NoiseIsBounded(m, tick);
    hide Tracker.MeasurementAvailable, Tracker.Correct, Math.Lawful, Math.Noise;
  }

  /** In every reachable state: a tick that takes a measurement pulls the published track from where it
      was going to be towards the measurement, and leaves it no farther from the target, on either
      axis, than the larger of the prediction's error and the noise. */
  lemma FreshMeasurementPullsTrack(s: State)
    requires Reachable(s) && s.phase != Assessed && s.track.active && Tracker.MeasurementAvailable(s.tick + 1)
    ensures var measured := Add(TargetNext(s), s.cfg.math.Noise(s.tick + 1));
            && Approaches(s.track, AdvanceTick(s).track, TargetNext(s), measured)
            && AdvanceTick(s).track.residualDistance
               == s.cfg.math.Length(Sub(measured, Add(s.track.estimatedPosition, s.track.estimatedVelocity)))
  {
    hide Reachable, AdvanceTick, MoveTarget, T.Readable, Tracker.Bounded, Tracker.Late, Tracker.MeasurementAvailable,
         Tracker.UpdateFilter, Math.Lawful, Math.Noise, Math.Length, T.Positive, K.Physical,
         Between, Follows;
    T.ReachableTracksAreBounded(s);
    K.ReachableIsPhysical(s);
    TickPublishes(s);
    T.TickUpdatesFilter(s);
    UpdateApproaches(s.cfg.math, s.track, s.filter, TargetNext(s), s.tick + 1, AdvanceTick(s).track);
    TickShowsResidual(s);
  }

  lemma PredictionIsPositive(f: Filter)
    requires T.Positive(f)
    ensures T.Positive(Tracker.Predict(f)) && Tracker.Runnable(Tracker.Predict(f))
  {
  }

  /** A tick publishes the updated filter. */
  lemma TickPublishes(s: State)
    requires s.phase != Assessed && s.track.active && T.Positive(s.filter) && T.Published(s.track, s.filter)
    ensures T.Published(AdvanceTick(s).track, AdvanceTick(s).filter)
  {
    hide AdvanceTick, Motion, Assess, MoveTarget, UpdateTrack, T.Positive, Tracker.Bounded, Tracker.Late;
    T.TickKeepsTrack(s);
    T.AssessKeepsFilter(Motion(s));
    T.MotionUpdatesTrack(s);
    T.MoveKeepsTrack(s.(tick := s.tick + 1));
    T.UpdateIsSound(MoveTarget(s.(tick := s.tick + 1)));
    UpdateKeepsActive(MoveTarget(s.(tick := s.tick + 1)));
  }

  lemma TickShowsResidual(s: State)
    requires s.phase != Assessed && s.track.active && Tracker.Runnable(s.filter) && Tracker.MeasurementAvailable(s.tick + 1)
    ensures AdvanceTick(s).track.residualDistance
         == s.cfg.math.Length(Sub(AdvanceTick(s).filter.measurement, Add(s.filter.estimate, s.filter.velocity)))
  {
    hide AdvanceTick, Motion, Assess, MoveTarget, UpdateTrack, Tracker.MeasurementAvailable, Math.Length;
    T.TickKeepsTrack(s);
    T.AssessKeepsFilter(Motion(s));
    T.MotionUpdatesTrack(s);
    T.MoveKeepsTrack(s.(tick := s.tick + 1));
    UpdateShowsResidual(MoveTarget(s.(tick := s.tick + 1)));
    assert MoveTarget(s.(tick := s.tick + 1)).cfg == s.cfg by { MoveKeepsConfig(s.(tick := s.tick + 1)); }
  }

  lemma MoveKeepsConfig(s: State)
    ensures MoveTarget(s).cfg == s.cfg
  {
    hide Bounce, RoundToGrid;
  }

  lemma UpdateShowsResidual(s: State)
    requires s.track.active && Tracker.Runnable(s.filter) && Tracker.MeasurementAvailable(s.tick)
    ensures var t := UpdateTrack(s);
            t.track.residualDistance == s.cfg.math.Length(Sub(t.filter.measurement, Add(s.filter.estimate, s.filter.velocity)))
  {
    hide Tracker.MeasurementAvailable, Tracker.Gain, Tracker.Shrunk, Math.Length, Math.Noise;
  }

  /** A track that is established starts on the target, with a measurement that is off by the noise alone. */
  lemma TrackStartsOnTarget(s: State)
    requires s.cfg.math.Lawful() && RequestTrack(s).1.accepted
    ensures var t, w, m := RequestTrack(s).0.track, s.world, s.cfg.math;
            && t.active && t.estimatedPosition == w.targetAt && t.estimatedVelocity == w.targetVelocity && t.measurementValid
            && Abs(t.measurementPosition.x - w.targetAt.x) <= 3.5 && Abs(t.measurementPosition.y - w.targetAt.y) <= 3.0
            && Sub(t.measurementPosition, w.targetAt) == m.Noise(s.tick)
            && t.residualDistance == m.Length(Sub(t.measurementPosition, w.targetAt))
            && t.covarianceTrace == 96.0 && t.ageTicks == 0 && t.missedUpdates == 0
  {
    NoiseIsBounded(s.cfg.math, s.tick);
    SeedShowsMeasurement(s.cfg.math, s.world.targetAt, s.world.targetVelocity, s.tick);
    hide Say, Capture, Math.Lawful, Math.Noise, Math.Length, Tracker.Seed;
  }

  lemma SeedShowsMeasurement(m: Math, at: Vec, velocity: Vec, tick: nat)
    ensures var t := Tracker.Seed(m, at, velocity, tick).0;
            && t.active && t.estimatedPosition == at && t.estimatedVelocity == velocity && t.measurementValid
            && Sub(t.measurementPosition, at) == m.Noise(tick) && t.residualDistance == m.Length(Sub(t.measurementPosition, at))
  {
    hide Math.Noise, Math.Length;
  }

  lemma UpdateKeepsActive(s: State)
    ensures UpdateTrack(s).track.active == s.track.active
  {
    hide Tracker.UpdateFilter, Tracker.Runnable;
  }

  // ---------------------------------------------------------------------------
  // Without noise and without walls

  predicate Still(a: Axis, limit: real) { 0.0 <= a.position + a.velocity <= limit - 1.0 }

  /** A step that neither bounces the target nor takes a noisy measurement. */
  predicate Calm(s: State, step: Step) {
    step == Tick && s.phase != Assessed ==>
      && (s.world.target.active ==>
            && Still(Axis(s.world.targetAt.x, s.world.targetVelocity.x), s.scenario.worldWidth as real)
            && Still(Axis(s.world.targetAt.y, s.world.targetVelocity.y), s.scenario.worldHeight as real))
      && (Tracker.MeasurementAvailable(s.tick + 1) ==> s.cfg.math.Noise(s.tick + 1) == ORIGIN)
  }

  predicate CalmRun(s: State, steps: seq<Step>)
    decreases |steps|
  {
    steps == [] || (Calm(s, steps[0]) && CalmRun(Apply(s, steps[0]), steps[1..]))
  }

  /** An active track is where the target is, and as fast. */
  predicate Exact(s: State) {
    s.track.active ==>
      && s.world.target.active
      && s.track.estimatedPosition == s.world.targetAt && s.track.estimatedVelocity == s.world.targetVelocity
  }

  lemma StillAxis(a: Axis, limit: real)
    requires 0.0 <= a.position <= limit - 1.0 && Still(a, limit)
    ensures Bounce(a, limit) == Axis(a.position + a.velocity, a.velocity)
  {
  }

  lemma CalmTarget(s: State)
    requires Calm(s, Tick) && s.phase != Assessed && s.world.target.active && K.InWorld(s.world.targetAt, s.scenario)
    ensures var w := MoveTarget(s.(tick := s.tick + 1)).world;
            w.targetAt == Add(s.world.targetAt, s.world.targetVelocity) && w.targetVelocity == s.world.targetVelocity
  {
    StillAxis(Axis(s.world.targetAt.x, s.world.targetVelocity.x), s.scenario.worldWidth as real);
    StillAxis(Axis(s.world.targetAt.y, s.world.targetVelocity.y), s.scenario.worldHeight as real);
    hide Bounce, RoundToGrid, Tracker.MeasurementAvailable, Math.Noise;
  }

  lemma CalmUpdate(m: Math, f: Filter, target: Vec, tick: nat)
    requires Tracker.Runnable(f) && target == Add(f.estimate, f.velocity)
    requires Tracker.MeasurementAvailable(tick) ==> m.Noise(tick) == ORIGIN
    ensures var g := Tracker.UpdateFilter(m, f, target, tick); g.estimate == target && g.velocity == f.velocity
  {
    hide Tracker.MeasurementAvailable, Tracker.Gain, Tracker.Shrunk, Math.Noise;
  }

  lemma CalmTickIsExact(s: State)
    requires Reachable(s) && Exact(s) && Calm(s, Tick)
    ensures Exact(AdvanceTick(s))
  {
    hide Reachable, AdvanceTick, Motion, Assess, MoveTarget, Calm, Tracker.Bounded, Tracker.Late, Tracker.UpdateFilter,
         T.Positive, T.Readable, K.Physical;
    T.ReachableTracksAreBounded(s);
    T.TickKeepsTrack(s);
    K.ReachableIsPhysical(s);
    ExactTickWorld(s);
    if s.track.active && s.phase != Assessed {
      TickPublishes(s);
      T.TickUpdatesFilter(s);
      CalmTarget(s);
      assert Tracker.MeasurementAvailable(s.tick + 1) ==> s.cfg.math.Noise(s.tick + 1) == ORIGIN by { CalmIsQuiet(s); }
      CalmUpdate(s.cfg.math, s.filter, TargetNext(s), s.tick + 1);
    }
  }

  lemma CalmIsQuiet(s: State)
    requires Calm(s, Tick) && s.phase != Assessed
    ensures Tracker.MeasurementAvailable(s.tick + 1) ==> s.cfg.math.Noise(s.tick + 1) == ORIGIN
  {
    hide Tracker.MeasurementAvailable, Math.Noise;
  }

  /** Where the target is after a tick that leaves the track active. */
  lemma ExactTickWorld(s: State)
    ensures var t := AdvanceTick(s);
            && (t.track.active ==> s.track.active)
            && (s.phase == Assessed ==> t.world == s.world)
            && (s.phase != Assessed && t.track.active ==>
                  var w := MoveTarget(s.(tick := s.tick + 1)).world;
                  t.world.targetAt == w.targetAt && t.world.targetVelocity == w.targetVelocity
                  && t.world.target.active == s.world.target.active)
  {
    hide AdvanceTick, Motion, Assess, MoveTarget;
    T.TickKeepsTrack(s);
    L.MotionKeeps(s);
    MotionMovesTarget(s);
    TrackedTargetStays(Motion(s));
  }

  lemma MotionMovesTarget(s: State)
    ensures var w, w' := MoveTarget(s.(tick := s.tick + 1)).world, Motion(s).world;
            w'.targetAt == w.targetAt && w'.targetVelocity == w.targetVelocity
  {
    hide MoveTarget, Tracker.UpdateFilter, Tracker.Runnable, Tracker.Publish, Steered, CapSpeed, Confined, RoundToGrid,
         NormalizeAngleDeg;
  }

  lemma TrackedTargetStays(s: State)
    ensures Assess(s).track.active ==> s.track.active && Assess(s).world == s.world
  {
    hide Say, WithinRadius;
  }

  lemma ExactStep(s: State, step: Step)
    requires Reachable(s) && Exact(s) && Calm(s, step)
    ensures Exact(Apply(s, step))
  {
    L.ReachableIsCoherent(s);
    if step == Tick {
      hide Reachable, Apply, AdvanceTick, L.Coherent;
      CalmTickIsExact(s);
      K.TickApplies(s);
    } else {
      hide Reachable;
      OtherStepIsExact(s, step);
    }
  }

  lemma OtherStepIsExact(s: State, step: Step)
    requires L.Coherent(s) && Exact(s) && step != Tick
    ensures Exact(Apply(s, step))
  {
    hide Say, Capture, RoleName, Math.Launch, Math.Noise, StartingWorld, Scenario.Valid, AdvanceTick, Tracker.CovarianceTrace;
  }

  /** From the first session on, and over any commands, clients and resets: as long as the target meets no
      wall and no measurement is noisy, an active track is exactly where the target is, with its
      velocity, whether measurements come, are skipped, or are missed. */
  lemma {:induction false} CalmRunIsExact(s: State, steps: seq<Step>)
    requires Reachable(s) && Exact(s) && CalmRun(s, steps)
    ensures Exact(Run(s, steps))
    decreases |steps|
  {
    hide Reachable, Apply, Calm, Exact;
    if steps != [] {
      ExactStep(s, steps[0]);
      ReachableStep(s, steps[0]);
      CalmRunIsExact(Apply(s, steps[0]), steps[1..]);
    }
  }

  lemma CalmSessionTracksExactly(cfg: Config, scenario: Scenario, steps: seq<Step>)
    requires cfg.Valid() && scenario.Valid() && CalmRun(Init(cfg, scenario), steps)
    ensures Exact(Run(Init(cfg, scenario), steps))
  {
    assert Run(Init(cfg, scenario), []) == Init(cfg, scenario);
    CalmRunIsExact(Init(cfg, scenario), steps);
    hide CalmRun, Run, Config.Valid, Scenario.Valid;
  }
}
