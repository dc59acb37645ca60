/** The particle part of one frame of Simulation.prototype.update
    (simulation.js lines 189-231) as functions on the particle list, and the
    invariants one frame establishes. */
module Frame {
  import opened Vectors
  import opened Seqs
  import opened Entities
  import opened Collision
  import opened Passes

  /** First loop, per particle before its viscosity call: apply last frame's
      displacement, reset the accumulators, re-derive the velocity from the
      position change unless the particle is new, and add gravity. */
  function Prepare(p: Particle): (r: Particle)
    ensures Prepared(p, r)
    // the velocity is the position change since the snapshot (kept as it
    // was for a new particle), plus gravity
    ensures var base := if p.isNew then p.velocity else Sub(r.position, p.o);
      r.velocity == Add(base, Vec(0.0, Gravity))
  {
    var pos := Add(p.position, p.f);
    var vel := if !p.isNew then Scale(Sub(pos, p.o), 1.0 / 1.0) else p.velocity;
    p.(position := pos, f := Zero, nearDensity := 0.0, density := 0.0,
       velocity := Vec(vel.x, vel.y + Gravity * 1.0), isNew := false)
  }

  /** What the first loop guarantees of a particle, whatever its neighbours
      later do to its velocity. */
  ghost predicate Prepared(before: Particle, after: Particle) {
    after.position == Add(before.position, before.f) && after.o == before.o &&
    after.f == Zero && after.density == 0.0 && after.nearDensity == 0.0 && !after.isNew &&
    after.color == before.color && after.radius == before.radius
  }

  /** The first loop, from particle i on. */
  function Phase1From(ps: seq<Particle>, i: nat, near: Neighbours, sqrt: real -> real): (r: seq<Particle>)
    requires NeighboursBelow(near, |ps|) && IsSqrt(sqrt)
    ensures |r| == |ps|
    decreases |ps| - i
  {
    if i >= |ps| then ps
    else
      var ps1 := ps[i := Prepare(ps[i])];
      assert IndicesBelow(near(ps1[i].position, i), |ps1|);
      Phase1From(ViscosityFrom(ps1, i, near(ps1[i].position, i), 1.0, sqrt), i + 1, near, sqrt)
  }

  /** Second loop, per particle: snapshot the position and advance it by the
      velocity. */
  function Advance(p: Particle): (r: Particle)
    ensures r.o == p.position && Sub(r.position, r.o) == p.velocity
    ensures r == p.(o := r.o, position := r.position)
  {
    p.(o := p.position, position := Add(p.position, p.velocity))
  }

  /** Second loop for particle i up to the collision: advance, then the
      density contributions of its neighbours. */
  function AdvanceAndDensities(ps: seq<Particle>, i: nat, near: Neighbours, sqrt: real -> real): (r: seq<Particle>)
    requires i < |ps| && NeighboursBelow(near, |ps|) && IsSqrt(sqrt)
    ensures |r| == |ps|
  {
    var ps1 := ps[i := Advance(ps[i])];
    assert IndicesBelow(near(ps1[i].position, i), |ps1|);
    DensityFrom(ps1, i, near(ps1[i].position, i), sqrt)
  }

  /** Every collision of the second loop, from particle i on, is defined. */
  ghost predicate Phase2Defined(ps: seq<Particle>, i: nat, bodies: seq<Capsule>, near: Neighbours, sqrt: real -> real)
    requires NeighboursBelow(near, |ps|) && IsSqrt(sqrt)
    decreases |ps| - i
  {
    i >= |ps| ||
    (var ps2 := AdvanceAndDensities(ps, i, near, sqrt);
     CollisionDefined(ps2[i].position, bodies, sqrt) &&
     Phase2Defined(ps2[i := ps2[i].(position := CollideAll(ps2[i].position, bodies, sqrt))],
                   i + 1, bodies, near, sqrt))
  }

  /** The second loop, from particle i on. */
  function Phase2From(ps: seq<Particle>, i: nat, bodies: seq<Capsule>, near: Neighbours, sqrt: real -> real): (r: seq<Particle>)
    requires NeighboursBelow(near, |ps|) && IsSqrt(sqrt)
    requires Phase2Defined(ps, i, bodies, near, sqrt)
    ensures |r| == |ps|
    decreases |ps| - i
  {
    if i >= |ps| then ps
    else
      var ps2 := AdvanceAndDensities(ps, i, near, sqrt);
      Phase2From(ps2[i := ps2[i].(position := CollideAll(ps2[i].position, bodies, sqrt))],
                 i + 1, bodies, near, sqrt)
  }

  ghost predicate FrameDefined(ps: seq<Particle>, bodies: seq<Capsule>, near: Neighbours, sqrt: real -> real) {
    NeighboursBelow(near, |ps|) && IsSqrt(sqrt) &&
    Phase2Defined(Phase1From(ps, 0, near, sqrt), 0, bodies, near, sqrt)
  }

  /** The particles after one frame's passes: both loops and the relaxation. */
  function FrameParticles(ps: seq<Particle>, bodies: seq<Capsule>, near: Neighbours, sqrt: real -> real): (r: seq<Particle>)
    requires FrameDefined(ps, bodies, near, sqrt)
    ensures |r| == |ps|
  {
    var ps1 := Phase1From(ps, 0, near, sqrt);
    var ps2 := Phase2From(ps1, 0, bodies, near, sqrt);
    RelaxFrom(ps2, 0, near, 1.0, sqrt)
  }

  // ---------------------------------------------------------------------
  // Invariants of a frame

  /** After the first loop every particle has been prepared: displacement
      applied, accumulators at zero, no longer new. */
  lemma {:induction false} Phase1FromPrepares(ps: seq<Particle>, i: nat, near: Neighbours, sqrt: real -> real)
    requires NeighboursBelow(near, |ps|) && IsSqrt(sqrt)
    ensures var r := Phase1From(ps, i, near, sqrt);
      (forall k :: 0 <= k < i && k < |ps| ==> r[k] == ps[k].(velocity := r[k].velocity)) &&
      (forall k :: i <= k < |ps| ==> Prepared(ps[k], r[k]))
    decreases |ps| - i
  {
    if i < |ps| {
      var ps1 := ps[i := Prepare(ps[i])];
      assert IndicesBelow(near(ps1[i].position, i), |ps1|);
      var ps2 := ViscosityFrom(ps1, i, near(ps1[i].position, i), 1.0, sqrt);
      Phase1FromPrepares(ps2, i + 1, near, sqrt);
      var r := Phase1From(ps2, i + 1, near, sqrt);
      assert r == Phase1From(ps, i, near, sqrt);
      forall k | i <= k < |ps|
        ensures Prepared(ps[k], r[k])
      {
        if k == i {
          assert r[k] == ps2[k].(velocity := r[k].velocity);
          assert ps2[k] == ps1[k].(velocity := ps2[k].velocity);
        } else {
          assert Prepared(ps2[k], r[k]);
          assert ps2[k] == ps[k].(velocity := ps2[k].velocity);
        }
      }
    }
  }

  /** The second loop only moves particles and adds to their densities: it
      leaves the pending displacement and the new-flag alone. */
  lemma {:induction false} Phase2FromKeeps(ps: seq<Particle>, i: nat, bodies: seq<Capsule>, near: Neighbours, sqrt: real -> real)
    requires NeighboursBelow(near, |ps|) && IsSqrt(sqrt)
    requires Phase2Defined(ps, i, bodies, near, sqrt)
    ensures var r := Phase2From(ps, i, bodies, near, sqrt);
      forall k :: 0 <= k < |ps| ==>
        r[k].f == ps[k].f && r[k].isNew == ps[k].isNew &&
        r[k].density >= ps[k].density && r[k].nearDensity >= ps[k].nearDensity
    decreases |ps| - i
  {
    if i < |ps| {
      var ps1 := ps[i := Advance(ps[i])];
      var ps2 := AdvanceAndDensities(ps, i, near, sqrt);
      assert OnlyDensitiesGrew(ps1, ps2);
      var ps3 := ps2[i := ps2[i].(position := CollideAll(ps2[i].position, bodies, sqrt))];
      Phase2FromKeeps(ps3, i + 1, bodies, near, sqrt);
    }
  }

  lemma {:induction false} VecSumOfZeros(vs: seq<Vec>)
    requires forall k :: 0 <= k < |vs| ==> vs[k] == Zero
    ensures VecSum(vs) == Zero
    decreases |vs|
  {
    if vs != [] {
      VecSumOfZeros(vs[1..]);
    }
  }

  /** After a frame no particle is new, every density and near density is
      non-negative, and the pending displacements, rebuilt by the relaxation
      from zero, sum to zero. */
  lemma FrameInvariants(ps: seq<Particle>, bodies: seq<Capsule>, near: Neighbours, sqrt: real -> real)
    requires FrameDefined(ps, bodies, near, sqrt)
    ensures var r := FrameParticles(ps, bodies, near, sqrt);
      (forall k :: 0 <= k < |r| ==> !r[k].isNew && r[k].density >= 0.0 && r[k].nearDensity >= 0.0) &&
      VecSum(Forces(r)) == Zero
  {
    var ps1 := Phase1From(ps, 0, near, sqrt);
    Phase1FromPrepares(ps, 0, near, sqrt);
    var ps2 := Phase2From(ps1, 0, bodies, near, sqrt);
    Phase2FromKeeps(ps1, 0, bodies, near, sqrt);
    VecSumOfZeros(Forces(ps2));
    RelaxFromConserves(ps2, 0, near, 1.0, sqrt);
  }
}
