/** Vectors, rounding and the motion helpers of the simulation.

    Real numbers stand for `float`. Square root and the trigonometric functions are foreign:
    they are the fields of a `Math` value, of which only the textbook laws are known. */
module Numerics {

  datatype Vec = Vec(x: real, y: real)
  datatype Grid = Grid(x: int, y: int)

  datatype Math = Math(sqrt: real -> real, sin: real -> real, cos: real -> real, atan2: (real, real) -> real) {
    ghost predicate Lawful() {
      && (forall a {:trigger sqrt(a)} :: a >= 0.0 ==> sqrt(a) >= 0.0 && Times(sqrt(a), sqrt(a)) == a)
      && (forall a {:trigger sin(a)} {:trigger cos(a)} :: Times(cos(a), cos(a)) + Times(sin(a), sin(a)) == 1.0)
      && (forall x, y {:trigger atan2(y, x)} :: x != 0.0 || y != 0.0 ==>
            var l := sqrt(Times(x, x) + Times(y, y));
            Times(cos(atan2(y, x)), l) == x && Times(sin(atan2(y, x)), l) == y)
    }

    function Length(v: Vec): real { sqrt(SquaredNorm(v)) }

    function Normalize(v: Vec): Vec {
      if Length(v) <= 0.00001 then Vec(0.0, 0.0) else Vec(v.x / Length(v), v.y / Length(v))
    }

    function HeadingDeg(v: Vec): real {
      if Abs(v.x) <= 0.00001 && Abs(v.y) <= 0.00001 then 0.0
      else atan2(v.y, v.x) * 180.0 / 3.1415926535
    }

    function Noise(tick: nat): Vec {
      Vec(sin(tick as real * 0.63 + 0.4) * 3.5, cos(tick as real * 0.47 + 0.9) * 3.0)
    }

    /** The launch velocity of an interceptor of the given speed. */
    function LaunchAt(angleDeg: real, speed: int): Vec {
      var a := angleDeg * 3.1415926535 / 180.0;
      Scale(Vec(cos(a), sin(a)), speed as real)
    }

    function Launch(angleDeg: int, speed: int): Vec { LaunchAt(angleDeg as real, speed) }
  }

  function Abs(a: real): real { if a < 0.0 then -a else a }
  function Min(a: real, b: real): real { if b < a then b else a }
  function Max(a: real, b: real): real { if a < b then b else a }
  function Clamp(value: real, lo: real, hi: real): real { Max(lo, Min(value, hi)) }

  function Times(a: real, b: real): real { a * b }

  function Add(a: Vec, b: Vec): Vec { Vec(a.x + b.x, a.y + b.y) }
  function Sub(a: Vec, b: Vec): Vec { Vec(a.x - b.x, a.y - b.y) }
  function Scale(v: Vec, k: real): Vec { Vec(Times(v.x, k), Times(v.y, k)) }
  function SquaredNorm(v: Vec): real { Times(v.x, v.x) + Times(v.y, v.y) }

  /** `std::lround`: halves go away from zero. */
  function Lround(a: real): int {
    if a >= 0.0 then (a + 0.5).Floor else -((-a + 0.5).Floor)
  }

  function RoundToGrid(v: Vec): Grid { Grid(Lround(v.x), Lround(v.y)) }

  /** A grid position is the nearest one. */
  predicate OnGrid(position: Grid, at: Vec) {
    Abs(position.x as real - at.x) <= 0.5 && Abs(position.y as real - at.y) <= 0.5
  }

  lemma RoundedIsOnGrid(at: Vec)
    ensures OnGrid(RoundToGrid(at), at)
  {
  }


  // ---------------------------------------------------------------------------
  // Headings

  function NormalizeAngleDeg(value: real): real
    decreases if value > 180.0 then value else if value < -180.0 then -value else 0.0
  {
    if value > 180.0 then NormalizeAngleDeg(value - 360.0)
    else if value < -180.0 then NormalizeAngleDeg(value + 360.0)
    else value
  }

  lemma {:induction false} NormalizedAngleIsTheSameDirection(value: real) returns (turns: int)
    ensures -180.0 <= NormalizeAngleDeg(value) <= 180.0
    ensures NormalizeAngleDeg(value) == value + 360.0 * turns as real
    decreases if value > 180.0 then value else if value < -180.0 then -value else 0.0
  {
    if value > 180.0 {
      var k := NormalizedAngleIsTheSameDirection(value - 360.0);
      turns := k - 1;
    } else if value < -180.0 {
      var k := NormalizedAngleIsTheSameDirection(value + 360.0);
      turns := k + 1;
    } else {
      turns := 0;
    }
  }

  method WrapAngleDeg(value: real) returns (r: real)
    ensures r == NormalizeAngleDeg(value)
    ensures -180.0 <= r <= 180.0
  {
    r := value;
    while r > 180.0
      invariant NormalizeAngleDeg(r) == NormalizeAngleDeg(value)
      decreases r
    {
      r := r - 360.0;
    }
    while r < -180.0
      invariant NormalizeAngleDeg(r) == NormalizeAngleDeg(value)
      invariant r <= 180.0
      decreases -r
    {
      r := r + 360.0;
    }
  }

  // ---------------------------------------------------------------------------
  // Guidance

  /** The velocity is pulled back to the given speed when it is faster. */
  function CapSpeed(m: Math, v: Vec, cap: real): Vec {
    if m.Length(v) > cap && m.Length(v) > 0.0 then Scale(m.Normalize(v), cap) else v
  }

  lemma CapSpeedBounds(m: Math, v: Vec, cap: real)
    requires m.Lawful() && cap >= 1.0
    ensures SquaredNorm(CapSpeed(m, v, cap)) <= Times(cap, cap)
    ensures SquaredNorm(v) <= Times(cap, cap) ==> CapSpeed(m, v, cap) == v
  {
    LengthBound(m, v, cap);
    var l := m.Length(v);
    if l > cap {
      LengthSquared(m, v);
      UnitVector(v, l);
      ScaledSquaredNorm(m.Normalize(v), cap);
    }
  }

  lemma LengthSquared(m: Math, v: Vec)
    requires m.Lawful()
    ensures m.Length(v) >= 0.0 && Times(m.Length(v), m.Length(v)) == SquaredNorm(v)
  {
    TimesSign(v.x, v.x);
    TimesSign(v.y, v.y);
    hide Times;
    assert SquaredNorm(v) >= 0.0;
  }

  lemma LengthBound(m: Math, v: Vec, bound: real)
    requires m.Lawful() && bound >= 0.0
    ensures m.Length(v) <= bound <==> SquaredNorm(v) <= Times(bound, bound)
  {
    LengthSquared(m, v);
    var l := m.Length(v);
    if l <= bound { TimesMonotone(l, bound); } else { TimesMonotone(bound, l); }
    hide Times;
  }

  /** A vector no longer than `bound` is no longer than `bound` on each axis. */
  lemma AxisBound(v: Vec, bound: real)
    requires bound >= 0.0 && SquaredNorm(v) <= Times(bound, bound)
    ensures Abs(v.x) <= bound && Abs(v.y) <= bound
  {
    TimesSign(v.x, v.x);
    TimesSign(v.y, v.y);
    AbsSquared(v.x);
    AbsSquared(v.y);
    if Abs(v.x) > bound { TimesMonotone(bound, Abs(v.x)); }
    if Abs(v.y) > bound { TimesMonotone(bound, Abs(v.y)); }
    hide Times;
  }

  lemma LaunchSpeed(m: Math, angleDeg: int, speed: int)
    requires m.Lawful()
    ensures SquaredNorm(m.Launch(angleDeg, speed)) == Times(speed as real, speed as real)
  {
    var a := angleDeg as real * 3.1415926535 / 180.0;
    var u := Vec(m.cos(a), m.sin(a));
    assert SquaredNorm(u) == 1.0 by { hide Times; }
    ScaledSquaredNorm(u, speed as real);
    hide Times;
  }

  lemma UnitVector(v: Vec, l: real)
    requires l > 0.0 && Times(l, l) == SquaredNorm(v)
    ensures SquaredNorm(Vec(v.x / l, v.y / l)) == 1.0
  {
    var u := Vec(v.x / l, v.y / l);
    TimesSign(l, l);
    ScaledSquare(u.x, l, v.x);
    ScaledSquare(u.y, l, v.y);
    hide Times;
    Cancel(Times(u.x, u.x), Times(u.y, u.y), Times(l, l), Times(v.x, v.x), Times(v.y, v.y));
  }

  lemma ScaledSquaredNorm(u: Vec, k: real)
    requires SquaredNorm(u) == 1.0
    ensures SquaredNorm(Scale(u, k)) == Times(k, k)
  {
    ScaledSquare(u.x, k, Times(u.x, k));
    ScaledSquare(u.y, k, Times(u.y, k));
    hide Times;
    Distribute(Times(u.x, u.x), Times(u.y, u.y), Times(k, k));
  }

  // Laws of multiplication. Proofs about speeds use these instead of `*` itself.

  lemma TimesSign(a: real, b: real)
    ensures a > 0.0 && b > 0.0 ==> Times(a, b) > 0.0
    ensures (a >= 0.0 && b >= 0.0) || (a <= 0.0 && b <= 0.0) ==> Times(a, b) >= 0.0
  {
  }

  lemma AbsSquared(a: real)
    ensures Times(Abs(a), Abs(a)) == Times(a, a)
  {
  }

  lemma Distribute(a: real, b: real, f: real)
    ensures a * f + b * f == (a + b) * f
  {
  }

  lemma Cancel(a: real, b: real, f: real, g: real, h: real)
    requires f > 0.0 && g == a * f && h == b * f && g + h == f
    ensures a + b == 1.0
  {
    assert (a + b - 1.0) * f == 0.0;
  }

  lemma ScaledSquare(a: real, k: real, c: real)
    requires c == a * k
    ensures Times(c, c) == Times(a, a) * Times(k, k)
  {
    assert (a * k) * (a * k) == (a * a) * (k * k);
  }

  lemma TimesMonotone(a: real, b: real)
    requires 0.0 <= a <= b
    ensures Times(a, a) <= Times(b, b)
    ensures a < b ==> Times(a, a) < Times(b, b)
  {
    TimesSign(b - a, a);
    TimesSign(b - a, b);
    assert Times(b, b) - Times(a, a) == Times(b - a, a) + Times(b - a, b);
    hide Times;
  }

  // ---------------------------------------------------------------------------
  // Motion along one axis between two walls

  datatype Axis = Axis(position: real, velocity: real)

  function Bounce(a: Axis, limit: real): Axis {
    if limit <= 1.0 || a.velocity == 0.0 then
      a.(position := Clamp(a.position, 0.0, Max(0.0, limit - 1.0)))
    else
      var p := a.position + a.velocity;
      var reflected :=
        if p < 0.0 then Axis(-p, -a.velocity)
        else if p > limit - 1.0 then Axis((limit - 1.0) - (p - (limit - 1.0)), -a.velocity)
        else a.(position := p);
      reflected.(position := Clamp(reflected.position, 0.0, limit - 1.0))
  }

  function BounceTimes(a: Axis, limit: real, n: nat): Axis {
    if n == 0 then a else Bounce(BounceTimes(a, limit, n - 1), limit)
  }

  /** What every step keeps, whatever the speed: the wall is respected, the speed is
      conserved, and no step is longer than the speed. */
  lemma BounceStep(a: Axis, limit: real)
    requires limit >= 1.0 && 0.0 <= a.position <= limit - 1.0
    ensures 0.0 <= Bounce(a, limit).position <= limit - 1.0
    ensures Abs(Bounce(a, limit).velocity) == Abs(a.velocity)
    ensures Abs(Bounce(a, limit).position - a.position) <= Abs(a.velocity)
  {
  }

  /** The triangle wave of period 2 * span that unfolds the reflections. */
  function TriangleWave(u: real, span: real): real
    requires span > 0.0
  {
    var m := u - 2.0 * span * (u / (2.0 * span)).Floor as real;
    if m <= span then m else 2.0 * span - m
  }

  /** Position and velocity are the straight-line motion `u`, `v0` seen through `k` periods. */
  ghost predicate Unfolds(a: Axis, u: real, v0: real, span: real, k: int) {
    || (a.velocity == v0 && a.position == u - 2.0 * span * k as real)
    || (a.velocity == -v0 && a.position == 2.0 * span * k as real - u)
  }

  lemma BounceKeepsUnfolding(a: Axis, u: real, v0: real, limit: real, k: int) returns (k': int)
    requires limit > 1.0 && 0.0 <= a.position <= limit - 1.0 && Abs(v0) <= limit - 1.0
    requires Unfolds(a, u, v0, limit - 1.0, k)
    ensures Unfolds(Bounce(a, limit), u + v0, v0, limit - 1.0, k')
    ensures 0.0 <= Bounce(a, limit).position <= limit - 1.0
  {
    var span := limit - 1.0;
    var p := a.position + a.velocity;
    k' := k;
    assert 2.0 * span * (k + 1) as real == 2.0 * span * k as real + 2.0 * span;
    assert 2.0 * span * (k - 1) as real == 2.0 * span * k as real - 2.0 * span;
    if p > span {
      k' := if a.velocity == v0 && a.position == u - 2.0 * span * k as real then k + 1 else k - 1;
    }
  }

  lemma TriangleWaveIsUnique(p: real, u: real, span: real, k: int)
    requires span > 0.0 && 0.0 <= p <= span
    requires p == u - 2.0 * span * k as real || p == 2.0 * span * k as real - u
    ensures p == TriangleWave(u, span)
  {
    var period := 2.0 * span;
    var q := u / period;
    assert u == q * period;
    if p == u - period * k as real {
      assert p == (q - k as real) * period;
      QuotientRange(q - k as real, period, p);
      assert q.Floor == k;
    } else {
      assert -p == (q - k as real) * period;
      QuotientRange(k as real - q, period, p);
      assert q.Floor == k - 1;
      assert period * (k - 1) as real == period * k as real - period;
    }
  }

  lemma UnfoldedIsTriangleWave(a: Axis, u: real, v0: real, span: real, k: int)
    requires span > 0.0 && 0.0 <= a.position <= span && Unfolds(a, u, v0, span, k)
    ensures a.position == TriangleWave(u, span) && a.velocity in {v0, -v0}
  {
    TriangleWaveIsUnique(a.position, u, span, k);
  }

  lemma QuotientRange(q: real, period: real, p: real)
    requires period > 0.0 && 0.0 <= p < period && p == q * period
    ensures 0.0 <= q < 1.0 && (p > 0.0 ==> q > 0.0)
  {
    assert q < 0.0 ==> q * period < 0.0;
    assert q >= 1.0 ==> (q - 1.0) * period >= 0.0;
    assert (q - 1.0) * period == p - period;
  }

  /** Where the motion would be after n steps if there were no walls. */
  function Unreflected(x0: real, v0: real, n: nat): real {
    if n == 0 then x0 else Unreflected(x0, v0, n - 1) + v0
  }

  lemma {:induction false} UnreflectedIsLinear(x0: real, v0: real, n: nat)
    ensures Unreflected(x0, v0, n) == x0 + n as real * v0
  {
    if n > 0 {
      UnreflectedIsLinear(x0, v0, n - 1);
      assert n as real * v0 == (n - 1) as real * v0 + v0;
    }
  }

  lemma {:induction false} BounceUnfolds(x0: real, v0: real, limit: real, n: nat) returns (k: int)
    requires limit > 1.0 && 0.0 <= x0 <= limit - 1.0 && Abs(v0) <= limit - 1.0
    ensures Unfolds(BounceTimes(Axis(x0, v0), limit, n), Unreflected(x0, v0, n), v0, limit - 1.0, k)
    ensures 0.0 <= BounceTimes(Axis(x0, v0), limit, n).position <= limit - 1.0
  {
    if n == 0 {
      k := 0;
    } else {
      var j := BounceUnfolds(x0, v0, limit, n - 1);
      var before := BounceTimes(Axis(x0, v0), limit, n - 1);
      var u := Unreflected(x0, v0, n - 1);
      k := BounceKeepsUnfolding(before, u, v0, limit, j);
      assert BounceTimes(Axis(x0, v0), limit, n) == Bounce(before, limit);
    }
  }

  /** Bouncing motion in closed form: after n steps the position is the triangle wave of
      the unreflected motion, and the velocity is the initial one up to sign. */
  lemma BounceIsTriangleWave(x0: real, v0: real, limit: real, n: nat)
    requires limit > 1.0 && 0.0 <= x0 <= limit - 1.0 && Abs(v0) <= limit - 1.0
    ensures BounceTimes(Axis(x0, v0), limit, n).position == TriangleWave(x0 + n as real * v0, limit - 1.0)
    ensures BounceTimes(Axis(x0, v0), limit, n).velocity in {v0, -v0}
  {
    var k := BounceUnfolds(x0, v0, limit, n);
    var a := BounceTimes(Axis(x0, v0), limit, n);
    var u := Unreflected(x0, v0, n);
    UnfoldedIsTriangleWave(a, u, v0, limit - 1.0, k);
    UnreflectedIsLinear(x0, v0, n);
    assert u == x0 + n as real * v0;
  }

  /** Within the speed limit the closing clamp of a step never changes anything. */
  lemma ClampIsIdle(a: Axis, limit: real)
    requires limit > 1.0 && 0.0 <= a.position <= limit - 1.0
    requires a.velocity != 0.0 && Abs(a.velocity) <= limit - 1.0
    ensures var p := a.position + a.velocity;
            Bounce(a, limit).position ==
            (if p < 0.0 then -p else if p > limit - 1.0 then 2.0 * (limit - 1.0) - p else p)
  {
  }
}
