/** Where the guidance leads: towards the predicted intercept, and onto a tracked target at rest. */
module Guidance {
  import opened Numerics
  import opened Vectors
  import opened SessionTypes
  import opened Session
  import K = Kinematics

  /** Clamping into the world brings a point no farther from any point of the world. */
  lemma ClampingIsNear(m: Math, at: Vec, from: Vec, scenario: Scenario)
    requires m.Lawful() && K.InWorld(from, scenario)
    ensures m.Length(Sub(Confined(at, scenario), from)) <= m.Length(Sub(at, from))
  {
    ShorterOnBothAxes(m, Sub(Confined(at, scenario), from), Sub(at, from));
    hide Math.Lawful, Math.Length;
  }


  // ---------------------------------------------------------------------------
  // One step of steering

  /** Full speed straight from one place to another, and none when they are too close to tell a direction. */
  function Straight(m: Math, from: Vec, to: Vec, speed: real): Vec {
    var way := Sub(to, from);
    if m.Length(way) <= 0.00001 then ORIGIN else Scale(way, speed / m.Length(way))
  }

  /** Where the target will be once the interceptor could have covered the present distance. */
  function Lead(m: Math, w: World, speed: real): Vec
    requires speed > 0.0
  {
    Add(w.targetAt, Scale(w.targetVelocity, m.Length(Sub(w.targetAt, w.assetAt)) / speed))
  }

  lemma StraightIsScaledDirection(m: Math, way: Vec, speed: real)
    requires m.Length(way) > 0.00001
    ensures Scale(m.Normalize(way), speed) == Scale(way, speed / m.Length(way))
  {
    hide Math.Length;
    Regroup(way.x, m.Length(way), speed);
    Regroup(way.y, m.Length(way), speed);
  }

  lemma Regroup(a: real, l: real, k: real)
    requires l > 0.0
    ensures Times(a / l, k) == Times(a, k / l)
  {
    var u, t := a / l, k / l;
    assert a == u * l && k == t * l;
    assert u * (t * l) == (u * l) * t;
  }

  lemma DesiredIsStraightToLead(s: State)
    requires s.cfg.math.Lawful() && s.scenario.interceptorSpeed > 0
    ensures var m, speed := s.cfg.math, s.scenario.interceptorSpeed as real;
            DesiredVelocity(s) == Straight(m, s.world.assetAt, Lead(m, s.world, speed), speed)
  {
    var m, w, speed := s.cfg.math, s.world, s.scenario.interceptorSpeed as real;
    var way := Sub(Lead(m, w, speed), w.assetAt);
    if m.Length(way) > 0.00001 { StraightIsScaledDirection(m, way, speed); }
    hide Math.Length, Math.Lawful;
    assert Times(0.0, speed) == 0.0;
  }

  /** The step goes part of the way to the velocity aimed at. */
  lemma StepIsPartOfTheWay(m: Math, v: Vec, aim: Vec, a: real) returns (share: real)
    requires m.Lawful() && a >= 1.0
    ensures 0.0 <= share <= 1.0
    ensures var error := Sub(aim, v);
            var steered := Add(v, Scale(m.Normalize(error), Min(a, m.Length(error))));
            && steered == Add(v, Scale(error, share)) && Sub(aim, steered) == Scale(error, 1.0 - share)
            && var l := m.Length(error);
               m.Length(Sub(aim, steered)) == if l <= 0.00001 then l else l - Min(a, l)
  {
    hide Math.Lawful, Math.Length;
    var error := Sub(aim, v);
    var l := m.Length(error);
    if l <= 0.00001 {
      share := 0.0;
      assert Times(error.x, 0.0) == Times(error.y, 0.0) == 0.0;
      assert forall k: real :: Times(0.0, k) == 0.0;
      assert Scale(error, 1.0) == error;
    } else {
      share := Min(a, l) / l;
      StraightIsScaledDirection(m, error, Min(a, l));
      Share(Min(a, l), l);
      Rest(error, share);
      ScaledLength(m, error, 1.0 - share);
    }
    hide Times;
  }

  lemma Share(part: real, whole: real)
    requires 0.0 <= part <= whole && whole > 0.0
    ensures 0.0 <= part / whole <= 1.0
    ensures Times(1.0 - part / whole, whole) == whole - part
  {
  }

  lemma Rest(v: Vec, share: real)
    ensures Sub(v, Scale(v, share)) == Scale(v, 1.0 - share)
  {
  }

  /** With a track, each tick shortens the distance of the velocity to the one aimed at by exactly the
      acceleration, or to nothing; and full speed, held for some time, leads from the interceptor to
      the predicted intercept. */
  lemma SteersToTheIntercept(s: State) returns (aim: Vec, ticks: real)
    requires s.cfg.math.Lawful() && s.scenario.interceptorSpeed > 0 && s.track.active
    ensures var m, w, speed := s.cfg.math, s.world, s.scenario.interceptorSpeed as real;
            var way := Sub(Lead(m, w, speed), w.assetAt);
            if m.Length(way) <= 0.00001 then aim == ORIGIN
            else ticks > 0.0 && Scale(aim, ticks) == way && SquaredNorm(aim) == Times(speed, speed)
    ensures var m := s.cfg.math;
            var error := m.Length(Sub(aim, s.world.assetVelocity));
            m.Length(Sub(aim, Steered(s))) == if error <= 0.00001 then error else error - Min(Acceleration(s.scenario), error)
  {
    hide Math.Lawful, Math.Length, Times, SquaredNorm;
    var m, w, speed := s.cfg.math, s.world, s.scenario.interceptorSpeed as real;
    var way := Sub(Lead(m, w, speed), w.assetAt);
    aim, ticks := Straight(m, w.assetAt, Lead(m, w, speed), speed), m.Length(way) / speed;
    DesiredIsStraightToLead(s);
    if m.Length(way) > 0.00001 { StraightIsFullSpeed(m, way, speed); }
    var share := StepIsPartOfTheWay(m, w.assetVelocity, aim, Acceleration(s.scenario));
  }

  lemma StraightIsFullSpeed(m: Math, way: Vec, speed: real)
    requires m.Lawful() && m.Length(way) > 0.00001 && speed > 0.0
    ensures m.Length(way) / speed > 0.0
    ensures Scale(Scale(way, speed / m.Length(way)), m.Length(way) / speed) == way
    ensures SquaredNorm(Scale(way, speed / m.Length(way))) == Times(speed, speed)
    ensures m.Length(Scale(way, speed / m.Length(way))) == speed
  {
    hide Math.Lawful, Math.Length;
    var l := m.Length(way);
    Inverse(speed, l);
    TakenBack(way.x, speed / l, l / speed);
    TakenBack(way.y, speed / l, l / speed);
    ScaledLength(m, way, speed / l);
    LengthSquared(m, Scale(way, speed / l));
    hide SquaredNorm;
  }

  lemma Inverse(a: real, b: real)
    requires a > 0.0 && b > 0.0
    ensures a / b > 0.0 && b / a > 0.0 && (a / b) * (b / a) == 1.0 && Times(a / b, b) == a
  {
    var q, r := a / b, b / a;
    assert q * b == a && r * a == b;
    assert (q * r) * a == q * (r * a);
    assert (q * r - 1.0) * a == 0.0;
  }

  lemma TakenBack(x: real, k: real, j: real)
    requires k * j == 1.0
    ensures Times(Times(x, k), j) == x
  {
    assert x * k * j == x * (k * j);
  }

  // ---------------------------------------------------------------------------
  // One tick of flight towards a place

  /** The velocity and place after a tick that aims straight at `to`. */
  function NextVelocity(m: Math, at: Vec, v: Vec, to: Vec, scenario: Scenario): Vec {
    var error := Sub(Straight(m, at, to, scenario.interceptorSpeed as real), v);
    Add(v, Scale(m.Normalize(error), Min(Acceleration(scenario), m.Length(error))))
  }

  function NextPlace(m: Math, at: Vec, v: Vec, to: Vec, scenario: Scenario): Vec {
    Confined(Add(at, NextVelocity(m, at, v, to, scenario)), scenario)
  }

  function Miss(m: Math, at: Vec, v: Vec, to: Vec, scenario: Scenario): real {
    m.Length(Sub(Straight(m, at, to, scenario.interceptorSpeed as real), v))
  }

  /** What a tick leaves of the error, before the aim moves. */
  function Left(error: real, a: real): real { if error <= 0.00001 then error else error - Min(a, error) }

  lemma VelocityStaysSlow(m: Math, v: Vec, aim: Vec, share: real, speed: real)
    requires m.Lawful() && 0.0 <= share <= 1.0 && m.Length(v) <= speed && m.Length(aim) <= speed
    ensures m.Length(Add(v, Scale(Sub(aim, v), share))) <= speed
  {
    hide Math.Lawful, Math.Length;
    var a, b := Scale(v, 1.0 - share), Scale(aim, share);
    Mixed(v.x, aim.x, share);
    Mixed(v.y, aim.y, share);
    Triangle(m, a, b);
    ScaledLength(m, v, 1.0 - share);
    ScaledLength(m, aim, share);
    MixedIsAtMost(m.Length(v), m.Length(aim), share, speed);
    hide Times;
  }

  lemma StraightIsSlow(m: Math, from: Vec, to: Vec, speed: real)
    requires m.Lawful() && speed > 0.0
    ensures m.Length(Straight(m, from, to, speed)) <= speed
  {
    hide Math.Lawful, Math.Length, Times, SquaredNorm;
    if m.Length(Sub(to, from)) > 0.00001 {
      StraightIsFullSpeed(m, Sub(to, from), speed);
    } else {
      ZeroSquare();
      LengthIs(m, ORIGIN, 0.0);
    }
  }

  lemma ZeroSquare()
    ensures Times(0.0, 0.0) == SquaredNorm(ORIGIN) == 0.0
  {
  }

  lemma NeverTooFast(m: Math, at: Vec, v: Vec, to: Vec, scenario: Scenario)
    requires m.Lawful() && scenario.Valid() && m.Length(v) <= scenario.interceptorSpeed as real
    ensures m.Length(NextVelocity(m, at, v, to, scenario)) <= scenario.interceptorSpeed as real
  {
    hide Math.Lawful, Math.Length, Times, SquaredNorm;
    var aim := Straight(m, at, to, scenario.interceptorSpeed as real);
    StraightIsSlow(m, at, to, scenario.interceptorSpeed as real);
    var share := StepIsPartOfTheWay(m, v, aim, Acceleration(scenario));
    VelocityStaysSlow(m, v, aim, share, scenario.interceptorSpeed as real);
  }

  /** In no reachable state does the steering exceed the speed: the cap that follows it never acts. */
  lemma SpeedCapIsIdle(s: State)
    requires Reachable(s)
    ensures CapSpeed(s.cfg.math, Steered(s), s.scenario.interceptorSpeed as real) == Steered(s)
  {
    K.ReachableIsPhysical(s);
    hide Reachable, Math.Lawful, Math.Length, Times, SquaredNorm;
    var m, w, speed := s.cfg.math, s.world, s.scenario.interceptorSpeed as real;
    LengthBound(m, w.assetVelocity, speed);
    if s.track.active {
      DesiredIsStraightToLead(s);
      NeverTooFast(m, w.assetAt, w.assetVelocity, Lead(m, w, speed), s.scenario);
      hide Straight;
    }
  }

  lemma Mixed(v: real, aim: real, share: real)
    ensures v + Times(aim - v, share) == Times(v, 1.0 - share) + Times(aim, share)
  {
  }

  lemma MixedIsAtMost(l: real, k: real, share: real, speed: real)
    requires 0.0 <= share <= 1.0 && l <= speed && k <= speed
    ensures Times(1.0 - share, l) + Times(share, k) <= speed
  {
    TimesSign(1.0 - share, speed - l);
    TimesSign(share, speed - k);
  }

  lemma Opposite(m: Math, a: Vec, b: Vec)
    requires m.Lawful()
    ensures m.Length(Sub(a, b)) == m.Length(Sub(b, a))
  {
    ShorterOnBothAxes(m, Sub(a, b), Sub(b, a));
    ShorterOnBothAxes(m, Sub(b, a), Sub(a, b));
    hide Math.Lawful, Math.Length;
  }

  /** The pieces of a tick: the way ahead, the velocity aimed at, and the new velocity. */
  lemma Steering(m: Math, at: Vec, v: Vec, to: Vec, scenario: Scenario)
    requires m.Lawful() && scenario.Valid() && m.Length(v) <= scenario.interceptorSpeed as real
    requires m.Length(Sub(to, at)) > 0.00001
    ensures var speed, way := scenario.interceptorSpeed as real, Sub(to, at);
            var aim := Straight(m, at, to, speed);
            && m.Length(NextVelocity(m, at, v, to, scenario)) <= speed && m.Length(aim) == speed
            && aim == Scale(way, speed / m.Length(way))
            && m.Length(Sub(aim, NextVelocity(m, at, v, to, scenario))) == Left(Miss(m, at, v, to, scenario), Acceleration(scenario))
  {
    hide Math.Lawful, Math.Length, Times, SquaredNorm;
    var speed, way := scenario.interceptorSpeed as real, Sub(to, at);
    StraightIsFullSpeed(m, way, speed);
    NeverTooFast(m, at, v, to, scenario);
    var share := StepIsPartOfTheWay(m, v, Straight(m, at, to, speed), Acceleration(scenario));
  }

  /** The way left if the interceptor flew exactly as aimed. */
  lemma IdealFlight(m: Math, way: Vec, speed: real)
    requires m.Lawful() && m.Length(way) > 0.00001
    ensures var k := 1.0 - speed / m.Length(way);
            && Sub(way, Scale(way, speed / m.Length(way))) == Scale(way, k)
            && m.Length(Scale(way, k)) == Abs(m.Length(way) - speed)
  {
    hide Math.Lawful, Math.Length;
    var l := m.Length(way);
    Rest(way, speed / l);
    ScaledLength(m, way, 1.0 - speed / l);
    ShortenedBy(l, speed);
    hide Times;
  }

  lemma ShortenedBy(l: real, speed: real)
    requires l > 0.0
    ensures Times(Abs(1.0 - speed / l), l) == Abs(l - speed)
  {
    var q := speed / l;
    assert q * l == speed;
    assert (1.0 - q) * l == l - speed;
  }

  /** After the tick the place is within the left-over error of where the aim would have led. */
  lemma FlightComesNear(m: Math, at: Vec, v: Vec, to: Vec, scenario: Scenario)
    requires m.Lawful() && scenario.Valid() && m.Length(v) <= scenario.interceptorSpeed as real
    requires K.InWorld(at, scenario) && K.InWorld(to, scenario) && m.Length(Sub(to, at)) > 0.00001
    ensures var speed, d := scenario.interceptorSpeed as real, m.Length(Sub(to, at));
            var d' := m.Length(Sub(to, NextPlace(m, at, v, to, scenario)));
            && d' <= Abs(d - speed) + Left(Miss(m, at, v, to, scenario), Acceleration(scenario))
            && d' >= d - speed
  {
    hide Math.Lawful, Math.Length, Times, SquaredNorm, Straight, Left, Confined, Scenario.Valid;
    Steering(m, at, v, to, scenario);
    var speed, way := scenario.interceptorSpeed as real, Sub(to, at);
    var aim, v', at' := Straight(m, at, to, speed), NextVelocity(m, at, v, to, scenario), NextPlace(m, at, v, to, scenario);
    hide NextVelocity, Miss;
    var free := Add(at, v');
    ClampingIsNear(m, free, to, scenario);
    ClampingIsNear(m, free, at, scenario);
    Opposite(m, at', to);
    Opposite(m, free, to);
    IdealFlight(m, way, speed);
    assert Sub(to, free) == Add(Sub(way, aim), Sub(aim, v'));
    Triangle(m, Sub(way, aim), Sub(aim, v'));
    assert way == Add(Sub(to, at'), Sub(at', at)) && Sub(free, at) == v';
    Triangle(m, Sub(to, at'), Sub(at', at));
  }

  lemma BetweenPlacesOfTheWorld(at: Vec, to: Vec, k: real, scenario: Scenario)
    requires K.InWorld(at, scenario) && K.InWorld(to, scenario) && 0.0 <= k <= 1.0
    ensures K.InWorld(Add(at, Scale(Sub(to, at), k)), scenario)
  {
    Between(at.x, to.x, k);
    Between(at.y, to.y, k);
    hide Times;
  }

  lemma Between(a: real, b: real, k: real)
    requires 0.0 <= k <= 1.0
    ensures Times(b - a, k) <= if a <= b then b - a else 0.0
    ensures Times(b - a, k) >= if a <= b then 0.0 else b - a
  {
    TimesSign(b - a, k);
    TimesSign(b - a, 1.0 - k);
    TimesSign(a - b, k);
    TimesSign(a - b, 1.0 - k);
  }

  /** A unit vector along the way. */
  lemma Direction(m: Math, way: Vec, speed: real) returns (u: Vec)
    requires m.Lawful() && m.Length(way) > 0.00001
    ensures SquaredNorm(u) == 1.0 && way == Scale(u, m.Length(way))
    ensures Scale(way, speed / m.Length(way)) == Scale(u, speed)
    ensures Scale(way, 1.0 - speed / m.Length(way)) == Scale(u, m.Length(way) - speed)
  {
    hide Math.Lawful, Math.Length;
    var l := m.Length(way);
    u := Vec(way.x / l, way.y / l);
    LengthSquared(m, way);
    UnitVector(way, l);
    Along(way.x, l, speed);
    Along(way.y, l, speed);
    hide Times, SquaredNorm;
  }

  lemma Along(a: real, l: real, k: real)
    requires l > 0.0
    ensures Times(a / l, l) == a && Times(a, k / l) == Times(a / l, k) && Times(a, 1.0 - k / l) == Times(a / l, l - k)
  {
    Regroup(a, l, k);
    var u := a / l;
    assert u * l == a;
    assert a * (1.0 - k / l) == a - a * (k / l);
  }

  /** The aim turns by no more than the left-over error in proportion to the distance. */
  lemma AimTurnsLittle(m: Math, at: Vec, v: Vec, to: Vec, scenario: Scenario)
    requires m.Lawful() && scenario.Valid() && m.Length(v) <= scenario.interceptorSpeed as real
    requires K.InWorld(at, scenario) && K.InWorld(to, scenario)
    requires m.Length(Sub(to, at)) > scenario.interceptorSpeed as real + 0.5
    ensures var speed, d := scenario.interceptorSpeed as real, m.Length(Sub(to, at));
            var left := Left(Miss(m, at, v, to, scenario), Acceleration(scenario));
            var v', at' := NextVelocity(m, at, v, to, scenario), NextPlace(m, at, v, to, scenario);
            Times(d - speed, Miss(m, at', v', to, scenario) - left) <= Times(speed, left)
  {
    assert scenario.interceptorSpeed > 0;
    hide Math.Lawful, Math.Length, Times, SquaredNorm, Left, Confined, Scenario.Valid;
    FlightComesNear(m, at, v, to, scenario);
    Steering(m, at, v, to, scenario);
    var speed, way := scenario.interceptorSpeed as real, Sub(to, at);
    var aim, v', at' := Straight(m, at, to, speed), NextVelocity(m, at, v, to, scenario), NextPlace(m, at, v, to, scenario);
    var left := Left(Miss(m, at, v, to, scenario), Acceleration(scenario));
    hide NextVelocity;
    var d, way' := m.Length(way), Sub(to, at');
    var w := Direction(m, way, speed);
    var u := Direction(m, way', speed);
    IdealFlight(m, way, speed);
    DirectionsAreNear(m, way', Sub(way, aim), u, w, m.Length(way'), d - speed);
    assert Sub(way', Sub(way, aim)) == Sub(Add(at, aim), at');
    AimStaysInWorld(at, to, d, speed, scenario);
    ClampingIsNear(m, Add(at, v'), Add(at, aim), scenario);
    Opposite(m, at', Add(at, aim));
    assert Sub(Add(at, v'), Add(at, aim)) == Sub(v', aim);
    Opposite(m, v', aim);
    TurnedAim(m, u, w, v', speed, left, d - speed);
  }

  lemma AimStaysInWorld(at: Vec, to: Vec, d: real, speed: real, scenario: Scenario)
    requires K.InWorld(at, scenario) && K.InWorld(to, scenario) && d >= speed > 0.0
    ensures K.InWorld(Add(at, Scale(Sub(to, at), speed / d)), scenario)
  {
    Share(speed, d);
    BetweenPlacesOfTheWorld(at, to, speed / d, scenario);
    hide Times;
  }

  lemma TurnedAim(m: Math, u: Vec, w: Vec, v': Vec, speed: real, left: real, r: real)
    requires m.Lawful() && speed > 0.0 && r > 0.0 && Times(r, m.Length(Sub(u, w))) <= left
    requires m.Length(Sub(Scale(w, speed), v')) == left
    ensures Times(r, m.Length(Sub(Scale(u, speed), v')) - left) <= Times(speed, left)
  {
    hide Math.Lawful, Math.Length;
    var turn := Scale(Sub(u, w), speed);
    Differ(u.x, w.x, speed);
    Differ(u.y, w.y, speed);
    assert Sub(Scale(u, speed), v') == Add(turn, Sub(Scale(w, speed), v'));
    Triangle(m, turn, Sub(Scale(w, speed), v'));
    ScaledLength(m, Sub(u, w), speed);
    TurnIsBounded(r, speed, m.Length(Sub(u, w)), m.Length(Sub(Scale(u, speed), v')) - left, left);
    hide Times;
  }

  lemma Differ(a: real, b: real, k: real)
    ensures Times(a - b, k) == Times(a, k) - Times(b, k)
  {
  }

  lemma TurnIsBounded(r: real, speed: real, angle: real, growth: real, left: real)
    requires r > 0.0 && speed > 0.0 && Times(r, angle) <= left && growth <= Times(speed, angle)
    ensures Times(r, growth) <= Times(speed, left)
  {
    assert r * growth <= r * (speed * angle);
    assert r * (speed * angle) == speed * (r * angle);
  }

  // ---------------------------------------------------------------------------
  // Coming home

  /** The interceptor is aligned with its aim, or far enough away to turn into it. */
  predicate Aligns(d: real, miss: real, speed: real, a: real) { miss <= a || d >= 14.0 * speed + 8.0 * miss }

  /** How far there is to go, counting what turning costs. */
  function Effort(d: real, miss: real): real { d + 11.0 * miss }

  /** A tick either ends within the radius, or stays on the way with nine tenths of the speed gained. */
  lemma TickGains(d: real, miss: real, d': real, miss': real, speed: real, a: real, radius: real)
    requires speed >= 1.0 && a >= 1.0 && a >= 0.28 * speed && 2.0 * radius >= speed + 1.0 && d > radius
    requires 0.0 <= miss <= 2.0 * speed && Aligns(d, miss, speed, a)
    requires d' <= Abs(d - speed) + Left(miss, a)
    requires d > speed + 0.5 ==> d' >= d - speed && Times(d - speed, miss' - Left(miss, a)) <= Times(speed, Left(miss, a))
    ensures d' <= radius || (Aligns(d', miss', speed, a) && Effort(d', miss') <= Effort(d, miss) - 0.9 * speed)
  {
    if miss <= a {
      if d' > radius { AlignedTickGains(d - speed, miss' - Left(miss, a), speed, Left(miss, a)); }
    } else {
      TurningTickGains(d - speed, miss' - Left(miss, a), speed, Left(miss, a));
    }
    hide Times;
  }

  lemma AlignedTickGains(r: real, growth: real, speed: real, left: real)
    requires speed >= 1.0 && left <= 0.00001 && 2.0 * r >= speed && Times(r, growth) <= Times(speed, left)
    ensures growth <= 0.00002
  {
    if growth > 0.00002 {
      assert r * growth > r * 0.00002;
      assert speed * left <= speed * 0.00001;
    }
  }

  lemma TurningTickGains(r: real, growth: real, speed: real, left: real)
    requires speed >= 1.0 && left >= 0.0 && r >= 13.0 * speed && Times(r, growth) <= Times(speed, left)
    ensures 13.0 * growth <= left
  {
    if growth > 0.0 {
      TimesSign(r - 13.0 * speed, growth);
      TimesSign(speed, 13.0 * growth - left);
    }
  }
}
