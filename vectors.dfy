/** Two-dimensional vector primitives used throughout the simulation (the
    gl-vec2 operations the source calls), on exact reals, together with the
    square-root oracle and the exact sign function. */
module Vectors {

  datatype Vec = Vec(x: real, y: real)

  datatype Color = Color(r: real, g: real, b: real)

  const Zero: Vec := Vec(0.0, 0.0)

  function Add(a: Vec, b: Vec): Vec { Vec(a.x + b.x, a.y + b.y) }

  function Sub(a: Vec, b: Vec): Vec { Vec(a.x - b.x, a.y - b.y) }

  function Scale(a: Vec, s: real): Vec { Vec(a.x * s, a.y * s) }

  /** vec2.scaleAndAdd(out, a, b, s): a + b * s */
  function ScaleAndAdd(a: Vec, b: Vec, s: real): Vec { Vec(a.x + b.x * s, a.y + b.y * s) }

  function Dot(a: Vec, b: Vec): real { a.x * b.x + a.y * b.y }

  function DistSq(a: Vec, b: Vec): real { Dot(Sub(a, b), Sub(a, b)) }

  /** Math.sqrt is not interpreted: every operation that needs it takes it as a
      parameter of which only this property is assumed. */
  ghost predicate IsSqrt(sqrt: real -> real) {
    forall v {:trigger sqrt(v)} :: v >= 0.0 ==> sqrt(v) >= 0.0 && sqrt(v) * sqrt(v) == v
  }

  /** vec2.length */
  function Length(a: Vec, sqrt: real -> real): real { sqrt(Dot(a, a)) }

  /** Math.sign on a real argument. */
  function Sign(v: real): (s: real)
    ensures s * v >= 0.0 && (s == 0.0 <==> v == 0.0) && (s == 1.0 || s == 0.0 || s == -1.0)
  {
    if v > 0.0 then 1.0 else if v < 0.0 then -1.0 else 0.0
  }

  lemma MulAssociative(p: real, q: real, r: real)
    ensures (p * q) * r == p * (q * r)
  {}

  /** Scaling the vector that is added is scaling the factor it is added with. */
  lemma ScaleAndAddScaled(a: Vec, b: Vec, s: real, m: real)
    ensures ScaleAndAdd(a, Scale(b, s), m) == ScaleAndAdd(a, b, s * m)
  {
    var bs := Scale(b, s);
    var sm := s * m;
    MulAssociative(b.x, s, m);
    MulAssociative(b.y, s, m);
    assert ScaleAndAdd(a, bs, m) == Vec(a.x + bs.x * m, a.y + bs.y * m);
    assert ScaleAndAdd(a, b, sm) == Vec(a.x + b.x * sm, a.y + b.y * sm);
    assert bs.x * m == b.x * sm;
    assert bs.y * m == b.y * sm;
  }

  lemma MulNonNegative(a: real, b: real)
    requires a >= 0.0 && b >= 0.0
    ensures a * b >= 0.0
  {}

  lemma MulPositive(a: real, b: real)
    requires a > 0.0 && b > 0.0
    ensures a * b > 0.0
  {}

  lemma ScaledDistSq(a: Vec, b: Vec, s: real)
    ensures DistSq(Scale(a, s), Scale(b, s)) == (s * s) * DistSq(a, b)
  {
    assert (a.x * s - b.x * s) * (a.x * s - b.x * s) == (s * s) * ((a.x - b.x) * (a.x - b.x));
    assert (a.y * s - b.y * s) * (a.y * s - b.y * s) == (s * s) * ((a.y - b.y) * (a.y - b.y));
  }

  lemma SquareTimesPositive(s: real, d: real)
    requires s > 0.0 && d > 0.0
    ensures (s * s) * d > 0.0
  {
    MulPositive(s, d);
    MulPositive(s, s * d);
    assert (s * s) * d == s * (s * d);
  }

  lemma SquareNonNegative(a: real)
    ensures a * a >= 0.0
  {
    if a < 0.0 {
      MulPositive(-a, -a);
      assert (-a) * (-a) == a * a;
    } else {
      MulNonNegative(a, a);
    }
  }

  lemma DotSelfNonNegative(a: Vec)
    ensures Dot(a, a) >= 0.0
  {
    SquareNonNegative(a.x);
    SquareNonNegative(a.y);
  }

  lemma SquareStrictlyMonotone(b: real, s: real)
    requires 0.0 <= b < s
    ensures b * b < s * s
  {
    MulPositive(s - b, s + b);
    assert (s - b) * (s + b) == s * s - b * b;
  }

  /** A square root of a positive number is positive, and it is at most
      `bound` exactly when the number is at most `bound * bound`. */
  lemma SqrtBound(sqrt: real -> real, v: real, bound: real)
    requires IsSqrt(sqrt) && v >= 0.0 && bound >= 0.0
    ensures (sqrt(v) <= bound) <==> (v <= bound * bound)
    ensures v > 0.0 ==> sqrt(v) > 0.0
  {
    var s := sqrt(v);
    assert s >= 0.0 && s * s == v;
    if s < bound {
      SquareStrictlyMonotone(s, bound);
    } else if s > bound {
      SquareStrictlyMonotone(bound, s);
    }
  }

  lemma MulStrictlyMonotone(a: real, b: real, c: real)
    requires a < b && c > 0.0
    ensures a * c < b * c
  {}

  /** A quotient of a positive number by a larger one lies in (0, 1]. */
  lemma QuotientAtMostOne(a: real, b: real)
    requires 0.0 < a <= b
    ensures 0.0 < a / b <= 1.0
  {
    var q := a / b;
    assert q * b == a;
    if q > 1.0 {
      MulStrictlyMonotone(1.0, q, b);
    }
  }
}
