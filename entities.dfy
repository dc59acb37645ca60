/** The simulation's constants and its three entities: capsule obstacles,
    fluid particles and emitters, with the implicit functions of capsules and
    emitters (simulation.js, lines 13-119). */
module Entities {
  import opened Vectors

  type Positive = r: real | r > 0.0 witness 1.0

  /** The world-scale factor; its value lives in data_types.js, which is not
      part of this model, so only its positivity is known. */
  const WorldScale: Positive

  const WorldMin: Vec := Vec(-0.6, -0.6)
  const WorldMax: Vec := Vec(0.6, 0.9)
  const ScaledWorldMin: Vec := Scale(WorldMin, WorldScale)
  const ScaledWorldMax: Vec := Scale(WorldMax, WorldScale)

  const ParticleRadius: real := 0.015 * WorldScale
  /** The SPH support radius. */
  const H: real := ParticleRadius

  const CapsuleColor: Color := Color(0.0, 0.5, 0.0)

  const Gravity: real := 0.03
  const Sigma: real := 0.9
  const Beta: real := 0.3
  const CollisionDamping: real := 1.0 / 5.0
  const RestDensity: real := 10.0
  const Stiffness: real := 0.009
  const NearStiffness: real := 1.2

  /** Math.PI as a double. */
  const Pi: real := 3.141592653589793

  datatype Capsule = Capsule(p0: Vec, p1: Vec, radius: real, color: Color)

  datatype Particle = Particle(
    position: Vec,
    velocity: Vec,
    color: Color,
    radius: real,
    o: Vec,          // position at the start of the previous advance
    f: Vec,          // displacement to apply at the start of the next frame
    isNew: bool,
    density: real,
    nearDensity: real)

  datatype Emitter = Emitter(
    position: Vec,   // in unscaled world units
    frequency: real, // emission period
    timer: real,
    radius: real,
    color: Color,
    baseAngle: real,
    angleVelocity: real,
    angle: real,
    strength: real,
    velRand: real)

  /** The Capsule constructor: endpoints and radius given in world units are
      stored in scaled world units. */
  function NewCapsule(p0: Vec, p1: Vec, radius: real, color: Color): (c: Capsule)
    ensures Scale(c.p0, 1.0 / WorldScale) == p0 && Scale(c.p1, 1.0 / WorldScale) == p1
    ensures c.radius / WorldScale == radius && c.color == color
  {
    Capsule(Scale(p0, WorldScale), Scale(p1, WorldScale), radius * WorldScale, color)
  }

  /** The Particle constructor. The density fields are left undefined by the
      source and are always reset before they are read; the model starts them
      at zero. */
  function NewParticle(position: Vec, velocity: Vec, color: Color): (p: Particle)
    ensures Scale(p.position, 1.0 / WorldScale) == position
    ensures Scale(p.velocity, 1.0 / WorldScale) == velocity
    ensures p.o == p.position && p.f == Zero && p.isNew && p.radius == H && p.color == color
  {
    var pos := Scale(position, WorldScale);
    Particle(pos, Scale(velocity, WorldScale), color, ParticleRadius,
             pos, Zero, true, 0.0, 0.0)
  }

  /** The Emitter constructor, with its default tunables. */
  function NewEmitter(position: Vec): (e: Emitter)
    ensures e.position == position && e.timer == 0.0 && e.radius > 0.0
  {
    Emitter(position, 0.05, 0.0, 0.015, Color(0.0, 0.0, 1.0),
            70.0, 0.0, 0.0, 0.006, 2.0)
  }

  /** The projection parameter divides by the squared length of the segment,
      so it exists only for capsules of non-zero length. */
  predicate NonDegenerate(c: Capsule) {
    DistSq(c.p1, c.p0) > 0.0
  }

  /** clamp(t, 0.0, 1.0) */
  function Clamp01(t: real): (r: real)
    ensures 0.0 <= r <= 1.0
    ensures 0.0 <= t <= 1.0 ==> r == t
    ensures t < 0.0 ==> r == 0.0
    ensures t > 1.0 ==> r == 1.0
  {
    if t < 0.0 then 0.0 else if t > 1.0 then 1.0 else t
  }

  /** Unclamped parameter of the projection of `x` on the capsule's line. */
  function Projection(c: Capsule, x: Vec): real
    requires NonDegenerate(c)
  {
    var d := Sub(c.p1, c.p0);
    -Dot(Sub(c.p0, x), d) / Dot(d, d)
  }

  /** The point of the capsule's segment that the source treats as closest
      to `x`. */
  function ClosestPoint(c: Capsule, x: Vec): Vec
    requires NonDegenerate(c)
  {
    ScaleAndAdd(c.p0, Sub(c.p1, c.p0), Clamp01(Projection(c, x)))
  }

  /** The point at parameter `s` of the capsule's segment. */
  function SegmentPoint(c: Capsule, s: real): Vec {
    ScaleAndAdd(c.p0, Sub(c.p1, c.p0), s)
  }

  /** Capsule.prototype.eval: positive outside, negative inside. */
  function CapsuleEval(c: Capsule, x: Vec, sqrt: real -> real): (fx: real)
    requires NonDegenerate(c)
    // fx + radius is the Euclidean distance from x to the closest point
    ensures IsSqrt(sqrt) ==>
      fx + c.radius >= 0.0 &&
      (fx + c.radius) * (fx + c.radius) == DistSq(x, ClosestPoint(c, x))
  {
    var q := ClosestPoint(c, x);
    SubSquaredSymmetric(q, x);
    DotSelfNonNegative(Sub(q, x));
    Length(Sub(q, x), sqrt) - c.radius
  }

  /** The test `eval(x) <= 0` that handleCollision and removeCapsule make.
      For a capsule of zero length the source's eval divides 0 by 0, and a
      NaN compares false, so such a capsule never contains anything. */
  predicate Contains(c: Capsule, x: Vec, sqrt: real -> real) {
    NonDegenerate(c) && CapsuleEval(c, x, sqrt) <= 0.0
  }

  /** Emitter.prototype.eval: positive outside the emitter's disc. */
  function EmitterEval(e: Emitter, x: Vec, sqrt: real -> real): (fx: real)
    // fx + radius is the Euclidean distance from x to the emitter
    ensures IsSqrt(sqrt) ==>
      fx + e.radius >= 0.0 &&
      (fx + e.radius) * (fx + e.radius) == DistSq(e.position, x)
  {
    DotSelfNonNegative(Sub(e.position, x));
    Length(Sub(e.position, x), sqrt) - e.radius
  }

  // ---------------------------------------------------------------------
  // Geometry of the capsule's implicit function

  lemma SubSquaredSymmetric(a: Vec, b: Vec)
    ensures Dot(Sub(a, b), Sub(a, b)) == DistSq(b, a)
  {
    assert (a.x - b.x) * (a.x - b.x) == (b.x - a.x) * (b.x - a.x);
    assert (a.y - b.y) * (a.y - b.y) == (b.y - a.y) * (b.y - a.y);
  }

  /** Squared distance from `x` to the segment point at `s`, as a quadratic in `s`. */
  lemma SegmentDistanceExpansion(c: Capsule, x: Vec, s: real)
    ensures var w := Sub(x, c.p0); var d := Sub(c.p1, c.p0);
      DistSq(x, SegmentPoint(c, s)) == Dot(w, w) - 2.0 * s * Dot(w, d) + s * s * Dot(d, d)
  {
    var w := Sub(x, c.p0);
    var d := Sub(c.p1, c.p0);
    assert Sub(x, SegmentPoint(c, s)) == Vec(w.x - s * d.x, w.y - s * d.y);
    assert (w.x - s * d.x) * (w.x - s * d.x) == w.x * w.x - 2.0 * s * (w.x * d.x) + s * s * (d.x * d.x);
    assert (w.y - s * d.y) * (w.y - s * d.y) == w.y * w.y - 2.0 * s * (w.y * d.y) + s * s * (d.y * d.y);
  }

  /** The sign fact behind the clamping: with `t` the clamp of `ts` to [0, 1],
      (s - t) * (s + t - 2 ts) is non-negative for every `s` in [0, 1]. */
  lemma ClampedMinimizes(ts: real, s: real)
    requires 0.0 <= s <= 1.0
    ensures (s - Clamp01(ts)) * (s + Clamp01(ts) - 2.0 * ts) >= 0.0
  {
    var t := Clamp01(ts);
    if ts < 0.0 {
      MulNonNegative(s, s - 2.0 * ts);
    } else if ts > 1.0 {
      MulNonNegative(1.0 - s, 2.0 * ts - s - 1.0);
      assert (s - 1.0) * (s + 1.0 - 2.0 * ts) == (1.0 - s) * (2.0 * ts - s - 1.0);
    } else {
      assert s + t - 2.0 * ts == s - t;
      SquareNonNegative(s - t);
    }
  }

  lemma ProjectionTimesLength(c: Capsule, x: Vec)
    requires NonDegenerate(c)
    ensures Projection(c, x) * DistSq(c.p1, c.p0) == Dot(Sub(x, c.p0), Sub(c.p1, c.p0))
  {
    var d := Sub(c.p1, c.p0);
    assert -Dot(Sub(c.p0, x), d) == Dot(Sub(x, c.p0), d) by {
      assert (c.p0.x - x.x) * d.x == -((x.x - c.p0.x) * d.x);
      assert (c.p0.y - x.y) * d.y == -((x.y - c.p0.y) * d.y);
    }
  }

  lemma QuadraticDifference(dd: real, wd: real, ts: real, s: real, t: real)
    requires ts * dd == wd
    ensures (s * s * dd - 2.0 * s * wd) - (t * t * dd - 2.0 * t * wd)
         == dd * ((s - t) * (s + t - 2.0 * ts))
  {
    assert 2.0 * s * wd == 2.0 * s * ts * dd;
    assert 2.0 * t * wd == 2.0 * t * ts * dd;
    assert (s - t) * (s + t - 2.0 * ts) == s * s - t * t - 2.0 * ts * s + 2.0 * ts * t;
  }

  /** The point the source projects onto is the nearest point of the
      segment: no point of the segment is closer to `x`. */
  lemma ClosestPointIsNearest(c: Capsule, x: Vec, s: real)
    requires NonDegenerate(c) && 0.0 <= s <= 1.0
    ensures DistSq(x, ClosestPoint(c, x)) <= DistSq(x, SegmentPoint(c, s))
  {
    var w := Sub(x, c.p0);
    var d := Sub(c.p1, c.p0);
    var dd := Dot(d, d);
    var wd := Dot(w, d);
    var ts := Projection(c, x);
    var t := Clamp01(ts);
    ProjectionTimesLength(c, x);
    assert ClosestPoint(c, x) == SegmentPoint(c, t);
    SegmentDistanceExpansion(c, x, s);
    SegmentDistanceExpansion(c, x, t);
    QuadraticDifference(dd, wd, ts, s, t);
    ClampedMinimizes(ts, s);
    MulNonNegative(dd, (s - t) * (s + t - 2.0 * ts));
  }

  /** Inside-or-on-the-border of a capsule is being within its radius of the
      closest point. */
  lemma CapsuleEvalSign(c: Capsule, x: Vec, sqrt: real -> real)
    requires NonDegenerate(c) && IsSqrt(sqrt) && c.radius >= 0.0
    ensures CapsuleEval(c, x, sqrt) <= 0.0 <==> DistSq(x, ClosestPoint(c, x)) <= c.radius * c.radius
  {
    var q := ClosestPoint(c, x);
    SubSquaredSymmetric(q, x);
    DotSelfNonNegative(Sub(q, x));
    SqrtBound(sqrt, Dot(Sub(q, x), Sub(q, x)), c.radius);
  }

  /** A point the capsule's implicit function calls outside is farther than
      the radius from every point of the segment; one it calls inside is
      within the radius of a point of the segment. */
  lemma CapsuleEvalMeaning(c: Capsule, x: Vec, sqrt: real -> real)
    requires NonDegenerate(c) && IsSqrt(sqrt) && c.radius >= 0.0
    ensures CapsuleEval(c, x, sqrt) > 0.0 ==>
      forall s :: 0.0 <= s <= 1.0 ==> DistSq(x, SegmentPoint(c, s)) > c.radius * c.radius
    ensures CapsuleEval(c, x, sqrt) <= 0.0 ==>
      exists s :: 0.0 <= s <= 1.0 && DistSq(x, SegmentPoint(c, s)) <= c.radius * c.radius
  {
    CapsuleEvalSign(c, x, sqrt);
    forall s | 0.0 <= s <= 1.0
      ensures DistSq(x, ClosestPoint(c, x)) <= DistSq(x, SegmentPoint(c, s))
    {
      ClosestPointIsNearest(c, x, s);
    }
    var t := Clamp01(Projection(c, x));
    assert ClosestPoint(c, x) == SegmentPoint(c, t);
  }

  /** The emitter hit-test: the implicit function is non-positive exactly
      within the emitter's radius. */
  lemma EmitterEvalSign(e: Emitter, x: Vec, sqrt: real -> real)
    requires IsSqrt(sqrt) && e.radius >= 0.0
    ensures EmitterEval(e, x, sqrt) <= 0.0 <==> DistSq(e.position, x) <= e.radius * e.radius
  {
    DotSelfNonNegative(Sub(e.position, x));
    SqrtBound(sqrt, Dot(Sub(e.position, x), Sub(e.position, x)), e.radius);
  }
}
