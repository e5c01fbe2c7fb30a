/** The track filter: seeding, prediction and measurement update, and its bounds. */
module Tracker {
  import opened Numerics
  import opened SessionTypes

  const MEASUREMENT_VARIANCE := 25.0

  predicate MeasurementDue(tick: nat) { tick % 3 == 0 }
  predicate MeasurementAvailable(tick: nat) { MeasurementDue(tick) && tick / 3 % 5 != 3 }

  function Gain(variance: real, noise: real): real
    requires variance + noise > 0.0
  {
    variance / (variance + noise)
  }

  function Shrunk(variance: real, noise: real): real
    requires variance + noise > 0.0
  {
    variance * (1.0 - Gain(variance, noise))
  }

  function CovarianceTrace(p: Vec, v: Vec): real { p.x + p.y + v.x + v.y }

  function Seed(m: Math, targetWorld: Vec, targetVelocity: Vec, tick: nat): (Track, Filter) {
    var measurement := Add(targetWorld, m.Noise(tick));
    var filter := Filter(targetWorld, targetVelocity, measurement, Vec(36.0, 36.0), Vec(12.0, 12.0), true, 0, 0);
    (Track(true, targetWorld, targetVelocity, measurement, true, m.Length(Sub(measurement, targetWorld)),
           CovarianceTrace(filter.positionVariance, filter.velocityVariance), 0, 0),
     filter)
  }

  function Predict(f: Filter): Filter {
    f.(estimate := Add(f.estimate, f.velocity),
       positionVariance := Vec(f.positionVariance.x + (f.velocityVariance.x + 4.0),
                               f.positionVariance.y + (f.velocityVariance.y + 4.0)),
       velocityVariance := Vec(f.velocityVariance.x + 1.5, f.velocityVariance.y + 1.5))
  }

  /** Variances are at least zero whenever the filter runs. */
  predicate Runnable(f: Filter) {
    && f.positionVariance.x >= 0.0 && f.positionVariance.y >= 0.0
    && f.velocityVariance.x >= 0.0 && f.velocityVariance.y >= 0.0
  }

  function Correct(f: Filter, measurement: Vec): Filter
    requires Runnable(f)
  {
    var residual := Sub(measurement, f.estimate);
    var p, v := f.positionVariance, f.velocityVariance;
    var velocityNoise := MEASUREMENT_VARIANCE * 4.0;
    Filter(
      Vec(f.estimate.x + Gain(p.x, MEASUREMENT_VARIANCE) * residual.x,
          f.estimate.y + Gain(p.y, MEASUREMENT_VARIANCE) * residual.y),
      Vec(f.velocity.x + Gain(v.x, velocityNoise) * residual.x,
          f.velocity.y + Gain(v.y, velocityNoise) * residual.y),
      measurement,
      Vec(Shrunk(p.x, MEASUREMENT_VARIANCE), Shrunk(p.y, MEASUREMENT_VARIANCE)),
      Vec(Shrunk(v.x, velocityNoise), Shrunk(v.y, velocityNoise)),
      true, 0, 0)
  }

  function Coast(f: Filter, tick: nat): Filter {
    f.(ageTicks := f.ageTicks + 1,
       missedUpdates := if MeasurementDue(tick) then f.missedUpdates + 1 else f.missedUpdates)
  }

  function UpdateFilter(m: Math, f: Filter, targetWorld: Vec, tick: nat): Filter
    requires Runnable(f)
  {
    if MeasurementAvailable(tick) then Correct(Predict(f), Add(targetWorld, m.Noise(tick)))
    else Coast(Predict(f), tick)
  }

  function Publish(m: Math, track: Track, before: Filter, f: Filter, tick: nat): Track {
    Track(track.active, f.estimate, f.velocity, f.measurement, f.measurementValid,
          if MeasurementAvailable(tick) then m.Length(Sub(f.measurement, Predict(before).estimate))
          else track.residualDistance,
          CovarianceTrace(f.positionVariance, f.velocityVariance), f.ageTicks, f.missedUpdates)
  }

  // ---------------------------------------------------------------------------
  // Bounds

  /** Ticks since the schedule last offered a measurement. The cycle is 15 ticks long and
      offers measurements at offsets 0, 3, 6 and 12. */
  function SinceAvailable(tick: nat): nat {
    var r := tick % 15;
    if r < 3 then r else if r < 6 then r - 3 else if r < 12 then r - 6 else r - 12
  }

  function MissedSince(tick: nat): nat { if 9 <= tick % 15 < 12 then 1 else 0 }

  /** Upper bounds of the variances `age` ticks after the last measurement. */
  function VelocityBound(age: nat): real { 26.0 + 1.5 * age as real }
  function PositionBound(age: nat): real {
    if age == 0 then 36.0 else if age == 1 then 55.0 else PositionBound(age - 1) + VelocityBound(age - 1) + 4.0
  }

  /** Ticks until the schedule offers the next measurement. */
  function UntilAvailable(tick: nat): nat {
    var r := tick % 15;
    if r < 3 then 3 - r else if r < 6 then 6 - r else if r < 12 then 12 - r else 15 - r
  }

  /** The velocity variance that the next measurement will meet. */
  function Ahead(f: Filter, tick: nat): real { f.velocityVariance.x + 1.5 * UntilAvailable(tick) as real }

  /** Bounds of that variance in the four stretches of the cycle, each kept by the one before. */
  function AheadBound(tick: nat): real {
    var r := tick % 15;
    if r < 3 then 26.5 else if r < 6 then 25.5 else if r < 12 then 29.5 else 27.5
  }

  /** What is left of the bounds once a tick has gone by without an update. */
  ghost predicate Late(f: Filter, tick: nat) {
    && f.positionVariance.x == f.positionVariance.y && f.velocityVariance.x == f.velocityVariance.y
    && 0.0 < f.positionVariance.x && 0.0 < f.velocityVariance.x && Ahead(f, tick) <= 35.0
  }

  /** The ticks after `from`, up to `to`, at which the schedule expects a measurement. */
  function Dues(from: nat, to: nat): nat
    decreases to - from
  {
    if to <= from then 0 else Dues(from, to - 1) + if MeasurementDue(to) then 1 else 0
  }

  /** The counters count: ticks since the last measurement, and those of them that should have brought one. */
  ghost predicate Counts(f: Filter, tick: nat) { f.ageTicks <= tick && f.missedUpdates == Dues(tick - f.ageTicks, tick) }

  ghost predicate Bounded(f: Filter, tick: nat) {
    && f.positionVariance.x == f.positionVariance.y && f.velocityVariance.x == f.velocityVariance.y
    && 0.0 < f.velocityVariance.x <= VelocityBound(f.ageTicks)
    && 0.0 < f.positionVariance.x <= PositionBound(f.ageTicks)
    && (f.ageTicks > 0 ==> f.positionVariance.x < PositionBound(f.ageTicks))
    && (f.ageTicks == 0 ==> f.positionVariance.x < 25.0 || (f.positionVariance.x == 36.0 && f.velocityVariance.x == 12.0))
    && f.ageTicks <= SinceAvailable(tick)
    && f.missedUpdates <= MissedSince(tick)
    && Ahead(f, tick) <= AheadBound(tick) && Counts(f, tick)
  }

  lemma SeedIsBounded(m: Math, targetWorld: Vec, targetVelocity: Vec, tick: nat)
    ensures Bounded(Seed(m, targetWorld, targetVelocity, tick).1, tick)
  {
  }

  lemma GainBounds(variance: real, noise: real)
    requires variance > 0.0 && noise > 0.0
    ensures 0.0 < Gain(variance, noise) < 1.0
    ensures 0.0 < Shrunk(variance, noise) < noise
  {
    hide Gain, Shrunk;
    var g := Gain(variance, noise);
    GainRange(variance, noise);
    ShrunkIsNoiseShare(variance, noise, g);
    ProperShare(noise, g, Shrunk(variance, noise));
  }

  lemma ProperShare(whole: real, share: real, part: real)
    requires whole > 0.0 && 0.0 < share < 1.0 && part == whole * share
    ensures 0.0 < part < whole
  {
    var rest := 1.0 - share;
    PositiveProduct(whole, share, part);
    PositiveProduct(whole, rest, whole - part);
  }

  lemma PositiveProduct(a: real, b: real, c: real)
    requires a > 0.0 && b > 0.0 && c == a * b
    ensures c > 0.0
  {
  }

  lemma GainRange(variance: real, noise: real)
    requires variance > 0.0 && noise > 0.0
    ensures 0.0 < Gain(variance, noise) < 1.0
  {
    var g := Gain(variance, noise);
    assert g * (variance + noise) == variance;
  }

  lemma ShrunkIsNoiseShare(variance: real, noise: real, g: real)
    requires variance > 0.0 && noise > 0.0 && g == Gain(variance, noise)
    ensures Shrunk(variance, noise) == noise * g
  {
    var s := variance + noise;
    assert g * s == variance && (1.0 - g) * s == noise;
    assert variance * (1.0 - g) == g * s * (1.0 - g);
  }

  /** Of fifteen ticks four take a measurement, and one that is due is missed. */
  lemma ScheduleIs(tick: nat)
    ensures MeasurementAvailable(tick) <==> tick % 15 in {0, 3, 6, 12}
    ensures MeasurementDue(tick) && !MeasurementAvailable(tick) <==> tick % 15 == 9
  {
    var n := tick / 3;
    assert tick == 15 * (n / 5) + 3 * (n % 5) + tick % 3;
  }

  lemma ScheduleGap(tick: nat)
    ensures MeasurementAvailable(tick) <==> tick % 15 in {0, 3, 6, 12}
    ensures SinceAvailable(tick) <= 5
    ensures !MeasurementAvailable(tick + 1) ==> SinceAvailable(tick + 1) == SinceAvailable(tick) + 1
    ensures !MeasurementAvailable(tick + 1) && MeasurementDue(tick + 1) ==> MissedSince(tick) == 0 && MissedSince(tick + 1) == 1
    ensures !MeasurementAvailable(tick + 1) && !MeasurementDue(tick + 1) ==> MissedSince(tick + 1) == MissedSince(tick)
  {
    Cycle(tick);
    Cycle(tick + 1);
    NextRemainder(tick);
    hide MeasurementAvailable, MeasurementDue;
  }

  lemma NextRemainder(tick: nat)
    ensures (tick + 1) % 15 == if tick % 15 == 14 then 0 else tick % 15 + 1
  {
  }

  lemma Cycle(tick: nat)
    ensures MeasurementAvailable(tick) <==> tick % 15 in {0, 3, 6, 12}
    ensures MeasurementDue(tick) <==> tick % 15 in {0, 3, 6, 9, 12}
  {
    var q, r := tick / 15, tick % 15;
    var k := r / 3;
  }

  /** The next measurement comes one tick closer with every tick, up to the tick that offers it. */
  lemma Countdown(tick: nat)
    ensures 1 <= UntilAvailable(tick) <= 6 && AheadBound(tick) <= 29.5
    ensures !MeasurementAvailable(tick + 1) ==>
              UntilAvailable(tick + 1) == UntilAvailable(tick) - 1 && AheadBound(tick + 1) == AheadBound(tick)
    ensures MeasurementAvailable(tick + 1) ==> UntilAvailable(tick) == 1
    ensures MeasurementAvailable(tick + 1) ==>
              (AheadBound(tick), AheadBound(tick + 1), UntilAvailable(tick + 1))
              in {(26.5, 25.5, 3), (25.5, 29.5, 6), (29.5, 27.5, 3), (27.5, 26.5, 3)}
  {
    Cycle(tick + 1);
    NextRemainder(tick);
    hide MeasurementAvailable, MeasurementDue;
  }

  /** A measurement shrinks the variance so far that it grows to no more than the next bound. */
  lemma ShrinksEnough(w: real, before: real, share: real, after: real)
    requires 0.0 < w <= before && 0.0 < share < 1.0 && (1.0 - share) * before <= 100.0 * share <= after
    ensures Shrunk(w, 100.0) <= after
  {
    GainBounds(w, 100.0);
    ShrunkIsNoiseShare(w, 100.0, Gain(w, 100.0));
    GainIsAtMost(w, before, share);
    hide Gain, Shrunk;
  }

  lemma GainIsAtMost(w: real, before: real, share: real)
    requires 0.0 < w <= before && 0.0 < share < 1.0 && (1.0 - share) * before <= 100.0 * share
    ensures Gain(w, 100.0) <= share
  {
    var g := Gain(w, 100.0);
    assert g * (w + 100.0) == w;
    assert w <= share * (w + 100.0);
    if g > share {
    }
  }

  /** Six ticks of growth from 26 shrink back to at most 26. */
  lemma VelocityVarianceReturns(w: real)
    requires 0.0 < w <= 35.0
    ensures 0.0 < Shrunk(w, 100.0) <= 26.0
  {
    GainBounds(w, 100.0);
    ShrinksEnough(w, 35.0, 0.26, 26.0);
    hide Shrunk;
  }

  lemma MeasuredStaysAhead(w: real, tick: nat)
    requires MeasurementAvailable(tick + 1) && 0.0 < w <= AheadBound(tick)
    ensures Shrunk(w, 100.0) + 1.5 * UntilAvailable(tick + 1) as real <= AheadBound(tick + 1)
  {
    hide MeasurementAvailable, Shrunk;
    Countdown(tick);
    hide AheadBound, UntilAvailable;
    if AheadBound(tick) == 26.5 { ShrinksEnough(w, 26.5, 0.21, 21.0); }
    else if AheadBound(tick) == 25.5 { ShrinksEnough(w, 25.5, 0.205, 20.5); }
    else if AheadBound(tick) == 29.5 { ShrinksEnough(w, 29.5, 0.23, 23.0); }
    else { ShrinksEnough(w, 27.5, 0.22, 22.0); }
  }

  /** Whatever tick the archive skips, the next measurement meets a variance of at most 35. */
  lemma BoundedIsLate(f: Filter, tick: nat)
    requires Bounded(f, tick)
    ensures Late(f, tick) && Late(f, tick + 1)
  {
    hide MeasurementAvailable, VelocityBound, PositionBound, SinceAvailable, MissedSince;
    Countdown(tick);
    hide AheadBound, UntilAvailable;
  }

  /** An update of a filter that has missed a tick: a measurement still leaves the position variance
      below the measurement variance and the velocity variance at most 26. */
  lemma UpdateKeepsLate(m: Math, f: Filter, targetWorld: Vec, tick: nat)
    requires Late(f, tick)
    ensures Runnable(f) && Late(UpdateFilter(m, f, targetWorld, tick + 1), tick + 1)
    ensures MeasurementAvailable(tick + 1) ==>
              var g := UpdateFilter(m, f, targetWorld, tick + 1);
              && g.positionVariance.x < 25.0 && g.positionVariance.y < 25.0
              && g.velocityVariance.x <= 26.0 && g.velocityVariance.y <= 26.0
              && g.ageTicks == 0 && g.missedUpdates == 0
  {
    Countdown(tick);
    Countdown(tick + 1);
    var p := Predict(f);
    if MeasurementAvailable(tick + 1) {
      GainBounds(p.positionVariance.x, MEASUREMENT_VARIANCE);
      GainBounds(p.velocityVariance.x, 100.0);
      VelocityVarianceReturns(p.velocityVariance.x);
      hide Gain, Shrunk, UntilAvailable, AheadBound;
      var g := UpdateFilter(m, f, targetWorld, tick + 1);
      assert g.positionVariance.x == Shrunk(p.positionVariance.x, 25.0);
      assert g.velocityVariance.x == Shrunk(p.velocityVariance.x, 100.0);
    }
  }

  lemma UpdateCounts(m: Math, f: Filter, targetWorld: Vec, tick: nat)
    requires Runnable(f) && Counts(f, tick)
    ensures Counts(UpdateFilter(m, f, targetWorld, tick + 1), tick + 1)
  {
    hide MeasurementAvailable, MeasurementDue, Gain, Shrunk;
  }

  /** One filter step keeps the bounds. A fresh measurement always leaves the position
      variance below the measurement variance and the velocity variance at most 26. */
  lemma UpdateKeepsBounds(m: Math, f: Filter, targetWorld: Vec, tick: nat)
    requires Bounded(f, tick)
    ensures Runnable(f) && Bounded(UpdateFilter(m, f, targetWorld, tick + 1), tick + 1)
    ensures MeasurementAvailable(tick + 1) ==>
              var g := UpdateFilter(m, f, targetWorld, tick + 1);
              && g.positionVariance.x < 25.0 && g.positionVariance.y < 25.0
              && g.velocityVariance.x <= 26.0 && g.velocityVariance.y <= 26.0
              && g.ageTicks == 0 && g.missedUpdates == 0
    ensures MeasurementAvailable(tick + 1) ==>
              var p := Predict(f);
              && 0.0 < Gain(p.positionVariance.x, 25.0) < 1.0 && 0.0 < Gain(p.positionVariance.y, 25.0) < 1.0
              && 0.0 < Gain(p.velocityVariance.x, 100.0) < 1.0 && 0.0 < Gain(p.velocityVariance.y, 100.0) < 1.0
  {
    ScheduleGap(tick);
    Countdown(tick);
    UpdateCounts(m, f, targetWorld, tick);
    hide Counts;
    var p := Predict(f);
    if MeasurementAvailable(tick + 1) {
      GainBounds(p.positionVariance.x, MEASUREMENT_VARIANCE);
      GainBounds(p.velocityVariance.x, 100.0);
      VelocityVarianceReturns(p.velocityVariance.x);
      MeasuredStaysAhead(p.velocityVariance.x, tick);
      hide Gain, Shrunk, UntilAvailable, AheadBound;
      var g := UpdateFilter(m, f, targetWorld, tick + 1);
      assert g.positionVariance.x == Shrunk(p.positionVariance.x, 25.0);
      assert g.velocityVariance.x == Shrunk(p.velocityVariance.x, 100.0);
    }
  }

  lemma BoundedTrace(f: Filter, tick: nat)
    requires Bounded(f, tick)
    ensures f.ageTicks <= 5 && f.missedUpdates <= 1
    ensures 0.0 < CovarianceTrace(f.positionVariance, f.velocityVariance) < 447.0
  {
    ScheduleGap(tick);
    assert PositionBound(2) == 86.5;
    assert PositionBound(3) == 119.5;
    assert PositionBound(4) == 154.0;
    assert PositionBound(5) == 190.0;
    assert PositionBound(f.ageTicks) <= 190.0;
  }
}
