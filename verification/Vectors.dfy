/** Lengths of vectors: the triangle inequality and its consequences. */
module Vectors {
  import opened Numerics

  function Dot(a: Vec, b: Vec): real { Times(a.x, b.x) + Times(a.y, b.y) }

  lemma SquareOfSum(a: Vec, b: Vec)
    ensures SquaredNorm(Add(a, b)) == SquaredNorm(a) + 2.0 * Dot(a, b) + SquaredNorm(b)
  {
    SquareOfTwo(a.x, b.x);
    SquareOfTwo(a.y, b.y);
    hide Times;
  }

  lemma SquareOfTwo(a: real, b: real)
    ensures Times(a + b, a + b) == Times(a, a) + 2.0 * Times(a, b) + Times(b, b)
  {
  }

  /** No product of vectors exceeds that of their lengths. */
  lemma CauchySchwarz(m: Math, a: Vec, b: Vec)
    requires m.Lawful()
    ensures Dot(a, b) <= Times(m.Length(a), m.Length(b))
  {
    hide Math.Lawful, Math.Length;
    LengthSquared(m, a);
    LengthSquared(m, b);
    var l, k, d := m.Length(a), m.Length(b), Dot(a, b);
    Lagrange(a, b, l, k);
    TimesSign(l, k);
    if d > Times(l, k) { TimesMonotone(Times(l, k), d); }
    hide Times;
  }

  lemma Lagrange(a: Vec, b: Vec, l: real, k: real)
    requires Times(l, l) == SquaredNorm(a) && Times(k, k) == SquaredNorm(b)
    ensures Times(Dot(a, b), Dot(a, b)) <= Times(Times(l, k), Times(l, k))
  {
    var c := a.x * b.y - a.y * b.x;
    ScaledSquare(l, k, Times(l, k));
    TimesSign(c, c);
    LagrangeIdentity(a.x, a.y, b.x, b.y);
  }

  lemma LagrangeIdentity(x: real, y: real, u: real, v: real)
    ensures (x * x + y * y) * (u * u + v * v) == (x * u + y * v) * (x * u + y * v) + (x * v - y * u) * (x * v - y * u)
  {
    assert (x * u) * (y * v) == (x * v) * (y * u);
    assert (x * x) * (u * u) == (x * u) * (x * u) && (y * y) * (v * v) == (y * v) * (y * v);
    assert (x * x) * (v * v) == (x * v) * (x * v) && (y * y) * (u * u) == (y * u) * (y * u);
  }

  lemma Triangle(m: Math, a: Vec, b: Vec)
    requires m.Lawful()
    ensures m.Length(Add(a, b)) <= m.Length(a) + m.Length(b)
  {
    hide Math.Lawful, Math.Length, SquaredNorm, Dot;
    LengthSquared(m, a);
    LengthSquared(m, b);
    SquareOfSum(a, b);
    CauchySchwarz(m, a, b);
    SquareOfTwo(m.Length(a), m.Length(b));
    LengthBound(m, Add(a, b), m.Length(a) + m.Length(b));
    hide Times;
  }

  /** The length is the only non-negative root. */
  lemma LengthIs(m: Math, v: Vec, l: real)
    requires m.Lawful() && l >= 0.0 && Times(l, l) == SquaredNorm(v)
    ensures m.Length(v) == l
  {
    hide Math.Lawful, Math.Length;
    LengthSquared(m, v);
    if m.Length(v) < l { TimesMonotone(m.Length(v), l); }
    if l < m.Length(v) { TimesMonotone(l, m.Length(v)); }
    hide Times, SquaredNorm;
  }

  lemma ScaledLength(m: Math, v: Vec, k: real)
    requires m.Lawful()
    ensures m.Length(Scale(v, k)) == Times(Abs(k), m.Length(v))
  {
    hide Math.Lawful, Math.Length;
    LengthSquared(m, v);
    var l := m.Length(v);
    TimesSign(Abs(k), l);
    ScaledSquare(v.x, k, Times(v.x, k));
    ScaledSquare(v.y, k, Times(v.y, k));
    ScaledSquare(Abs(k), l, Times(Abs(k), l));
    AbsSquared(k);
    Distribute(Times(v.x, v.x), Times(v.y, v.y), Times(k, k));
    Commute(Times(k, k), Times(l, l));
    hide Times;
    LengthIs(m, Scale(v, k), Times(Abs(k), l));
  }

  lemma Commute(a: real, b: real)
    ensures a * b == b * a
  {
  }

  lemma ShorterOnBothAxes(m: Math, a: Vec, b: Vec)
    requires m.Lawful() && Abs(a.x) <= Abs(b.x) && Abs(a.y) <= Abs(b.y)
    ensures m.Length(a) <= m.Length(b)
  {
    hide Math.Lawful, Math.Length;
    LengthSquared(m, b);
    TimesMonotone(Abs(a.x), Abs(b.x));
    TimesMonotone(Abs(a.y), Abs(b.y));
    AbsSquared(a.x);
    AbsSquared(a.y);
    AbsSquared(b.x);
    AbsSquared(b.y);
    LengthBound(m, a, m.Length(b));
    hide Times;
  }

  /** Directions differ by no more than the vectors do, measured at the shorter one. */
  lemma DirectionsAreNear(m: Math, x: Vec, y: Vec, u: Vec, w: Vec, l: real, r: real)
    requires m.Lawful() && l >= r > 0.0 && SquaredNorm(u) == 1.0 && SquaredNorm(w) == 1.0
    requires x == Scale(u, l) && y == Scale(w, r)
    ensures Times(r, m.Length(Sub(u, w))) <= m.Length(Sub(x, y))
  {
    hide Math.Lawful, Math.Length;
    var c := Dot(u, w);
    UnitsDiffer(u, w);
    ScaledDifference(u, w, l, r);
    ScaledSquaredLength(m, Sub(u, w), r);
    SharperByLength(l, r, c);
    LengthSquared(m, Sub(u, w));
    LengthSquared(m, Sub(x, y));
    var a, b := Times(r, m.Length(Sub(u, w))), m.Length(Sub(x, y));
    TimesSign(r, m.Length(Sub(u, w)));
    if a > b { TimesMonotone(b, a); }
    hide Times, SquaredNorm, Dot;
  }

  lemma ScaledSquaredLength(m: Math, v: Vec, r: real)
    requires m.Lawful()
    ensures Times(Times(r, m.Length(v)), Times(r, m.Length(v))) == Times(r, r) * SquaredNorm(v)
  {
    hide Math.Lawful, Math.Length, SquaredNorm;
    LengthSquared(m, v);
    ScaledSquare(r, m.Length(v), Times(r, m.Length(v)));
  }

  lemma UnitsDiffer(u: Vec, w: Vec)
    requires SquaredNorm(u) == 1.0 && SquaredNorm(w) == 1.0
    ensures SquaredNorm(Sub(u, w)) == 2.0 - 2.0 * Dot(u, w) >= 0.0
  {
    SquareOfTwo(u.x, -w.x);
    SquareOfTwo(u.y, -w.y);
    NegatedFactor(u.x, w.x);
    NegatedFactor(u.y, w.y);
    TimesSign(u.x - w.x, u.x - w.x);
    TimesSign(u.y - w.y, u.y - w.y);
    hide Times;
  }

  lemma NegatedFactor(a: real, b: real)
    ensures Times(a, -b) == -Times(a, b) && Times(-b, -b) == Times(b, b)
  {
  }

  lemma ScaledDifference(u: Vec, w: Vec, l: real, r: real)
    requires SquaredNorm(u) == 1.0 && SquaredNorm(w) == 1.0
    ensures SquaredNorm(Sub(Scale(u, l), Scale(w, r))) == Times(l, l) + Times(r, r) - 2.0 * Times(l, r) * Dot(u, w)
  {
    AxisDifference(u.x, w.x, l, r);
    AxisDifference(u.y, w.y, l, r);
    var p, q := Times(u.x, u.x), Times(u.y, u.y);
    var s, t := Times(w.x, w.x), Times(w.y, w.y);
    assert Times(l, l) * p + Times(l, l) * q == Times(l, l) * (p + q);
    assert Times(r, r) * s + Times(r, r) * t == Times(r, r) * (s + t);
    hide Times;
  }

  lemma AxisDifference(a: real, b: real, l: real, r: real)
    ensures Times(Times(a, l) - Times(b, r), Times(a, l) - Times(b, r))
         == Times(l, l) * Times(a, a) + Times(r, r) * Times(b, b) - 2.0 * Times(l, r) * Times(a, b)
  {
    var p, q := a * l, b * r;
    assert (p - q) * (p - q) == p * p + q * q - 2.0 * (p * q);
    assert p * p == (l * l) * (a * a) && q * q == (r * r) * (b * b) && p * q == (l * r) * (a * b);
  }

  lemma SharperByLength(l: real, r: real, c: real)
    requires l >= r > 0.0 && c <= 1.0
    ensures Times(r, r) * (2.0 - 2.0 * c) <= Times(l, l) + Times(r, r) - 2.0 * Times(l, r) * c
  {
    var d, f := l - r, l + r - 2.0 * r * c;
    assert r * c <= r;
    assert d * f >= 0.0;
    assert d * f == l * l - r * r - 2.0 * (l * r) * c + 2.0 * (r * r) * c;
  }
}
