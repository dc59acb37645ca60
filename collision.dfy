/** Particle-capsule collision response (Simulation.prototype.handleCollision,
    simulation.js lines 381-428), as functions on a particle position. */
module Collision {
  import opened Vectors
  import opened Entities

  /** The source divides by |x - q| whenever the particle is inside or on the
      capsule; that division is defined only when x is not the closest point
      itself. */
  predicate ContactDefined(x: Vec, c: Capsule, sqrt: real -> real) {
    !Contains(c, x, sqrt) || Length(Sub(x, ClosestPoint(c, x)), sqrt) != 0.0
  }

  /** The position after resolving a collision of position `x` with capsule `c`. */
  function CollideOne(x: Vec, c: Capsule, sqrt: real -> real): (y: Vec)
    requires ContactDefined(x, c, sqrt)
    ensures !Contains(c, x, sqrt) ==> y == x
    // a contained particle is pushed away from the closest point, never toward it
    ensures Contains(c, x, sqrt) && IsSqrt(sqrt) ==>
      exists k :: k >= 0.0 && y == ScaleAndAdd(x, Sub(x, ClosestPoint(c, x)), k)
  {
    if Contains(c, x, sqrt) then
      var q := ClosestPoint(c, x);
      var fx := CapsuleEval(c, x, sqrt);
      var xq := Sub(x, q);
      var n := Scale(xq, -Sign(fx) / Length(xq, sqrt));
      var k := (-Sign(fx) / Length(xq, sqrt)) * (-fx * CollisionDamping);
      PushFactor(fx, xq, sqrt);
      ScaleAndAddScaled(x, xq, -Sign(fx) / Length(xq, sqrt), -fx * CollisionDamping);
      ScaleAndAdd(x, n, -fx * CollisionDamping)
    else
      x
  }

  /** Inside or on a capsule, the factor the source scales x - q by is
      non-negative. */
  lemma PushFactor(fx: real, xq: Vec, sqrt: real -> real)
    requires fx <= 0.0 && Length(xq, sqrt) != 0.0
    ensures IsSqrt(sqrt) ==> (-Sign(fx) / Length(xq, sqrt)) * (-fx * CollisionDamping) >= 0.0
  {
    if IsSqrt(sqrt) {
      var len := Length(xq, sqrt);
      DotSelfNonNegative(xq);
      assert len > 0.0;
      MulNonNegative(-Sign(fx) / len, -fx * CollisionDamping);
    }
  }

  /** Every capsule in turn sees the position that the previous ones produced. */
  predicate CollisionDefined(x: Vec, bodies: seq<Capsule>, sqrt: real -> real)
    decreases |bodies|
  {
    bodies == [] ||
    (ContactDefined(x, bodies[0], sqrt) &&
     CollisionDefined(CollideOne(x, bodies[0], sqrt), bodies[1..], sqrt))
  }

  /** The position after resolving collisions with every capsule, in order. */
  function CollideAll(x: Vec, bodies: seq<Capsule>, sqrt: real -> real): (y: Vec)
    requires CollisionDefined(x, bodies, sqrt)
    ensures (forall k :: 0 <= k < |bodies| ==> !Contains(bodies[k], x, sqrt)) ==> y == x
    decreases |bodies|
  {
    if bodies == [] then x
    else CollideAll(CollideOne(x, bodies[0], sqrt), bodies[1..], sqrt)
  }

  /** Outside the capsule, exactly on its border, and for a capsule of zero
      length, nothing moves. */
  lemma CollideOneOutside(x: Vec, c: Capsule, sqrt: real -> real)
    requires ContactDefined(x, c, sqrt)
    requires !NonDegenerate(c) || CapsuleEval(c, x, sqrt) >= 0.0
    ensures CollideOne(x, c, sqrt) == x
  {
  }

  lemma UnitScaling(xq: Vec, len: real, k: real)
    requires len > 0.0 && Dot(xq, xq) == len * len && k >= 0.0
    ensures Dot(Scale(xq, 1.0 / len), Scale(xq, 1.0 / len)) == 1.0
    ensures DistSq(ScaleAndAdd(xq, Scale(xq, 1.0 / len), k), Zero) == (len + k) * (len + k)
  {
    var u := 1.0 / len;
    assert u * len == 1.0;
    assert Dot(Scale(xq, u), Scale(xq, u)) == u * u * Dot(xq, xq) by {
      assert (xq.x * u) * (xq.x * u) == u * u * (xq.x * xq.x);
      assert (xq.y * u) * (xq.y * u) == u * u * (xq.y * xq.y);
    }
    assert u * u * (len * len) == (u * len) * (u * len);
    var m := 1.0 + u * k;
    assert ScaleAndAdd(xq, Scale(xq, u), k) == Scale(xq, m);
    assert Sub(Scale(xq, m), Zero) == Scale(xq, m);
    assert Dot(Scale(xq, m), Scale(xq, m)) == m * m * Dot(xq, xq) by {
      assert (xq.x * m) * (xq.x * m) == m * m * (xq.x * xq.x);
      assert (xq.y * m) * (xq.y * m) == m * m * (xq.y * xq.y);
    }
    assert m * len == len + k by {
      assert u * k * len == (u * len) * k;
    }
    assert m * m * (len * len) == (m * len) * (m * len);
  }

  /** Strictly inside the capsule, the particle is pushed outward, along the
      unit vector from the closest point q to it, by |Fx| * collisionDamping;
      so its distance from q grows by exactly that amount. */
  lemma CollideOneInside(x: Vec, c: Capsule, sqrt: real -> real)
    requires NonDegenerate(c) && ContactDefined(x, c, sqrt) && IsSqrt(sqrt)
    requires CapsuleEval(c, x, sqrt) < 0.0
    ensures var q := ClosestPoint(c, x);
      var len := Length(Sub(x, q), sqrt);
      var fx := CapsuleEval(c, x, sqrt);
      var u := Scale(Sub(x, q), 1.0 / len);
      len > 0.0 &&
      Dot(u, u) == 1.0 &&
      CollideOne(x, c, sqrt) == ScaleAndAdd(x, u, -fx * CollisionDamping) &&
      DistSq(CollideOne(x, c, sqrt), q) == (len - fx * CollisionDamping) * (len - fx * CollisionDamping)
  {
    var q := ClosestPoint(c, x);
    var xq := Sub(x, q);
    var len := Length(xq, sqrt);
    var fx := CapsuleEval(c, x, sqrt);
    var k := -fx * CollisionDamping;
    DotSelfNonNegative(xq);
    assert len >= 0.0 && len * len == Dot(xq, xq);
    assert len > 0.0;
    assert -Sign(fx) / len == 1.0 / len;
    var r := CollideOne(x, c, sqrt);
    assert r == ScaleAndAdd(x, Scale(xq, 1.0 / len), k);
    UnitScaling(xq, len, k);
    assert Sub(r, q) == Sub(ScaleAndAdd(xq, Scale(xq, 1.0 / len), k), Zero);
  }

  /** A position that no capsule contains is left where it is. */
  lemma {:induction false} CollideAllOutside(x: Vec, bodies: seq<Capsule>, sqrt: real -> real)
    requires forall k :: 0 <= k < |bodies| ==> !Contains(bodies[k], x, sqrt)
    ensures CollisionDefined(x, bodies, sqrt) && CollideAll(x, bodies, sqrt) == x
    decreases |bodies|
  {
    if bodies != [] {
      assert !Contains(bodies[0], x, sqrt);
      assert CollideOne(x, bodies[0], sqrt) == x;
      assert forall k :: 0 <= k < |bodies[1..]| ==> bodies[1..][k] == bodies[k + 1];
      CollideAllOutside(x, bodies[1..], sqrt);
    }
  }
}
