/** The Simulation object of simulation.js: its particle, capsule and emitter
    lists, the capsule being drawn, the particle cap, the frame update that
    drives the passes, and the editing operations behind the GUI. Mouse
    positions arrive already mapped to scaled world coordinates (mapMousePos
    is not part of this model). */
module Sim {
  import opened Vectors
  import opened Seqs
  import opened Entities
  import opened Collision
  import opened Passes
  import opened Frame
  import opened Emission

  datatype Option<T> = None | Some(value: T)

  const CapsuleRadius: real := 0.03
  const FrameRadius: real := 0.06

  /** The four walls of the frame and three obstacles the simulation starts with. */
  function InitialBodies(): (bodies: seq<Capsule>)
    ensures |bodies| == 7
    ensures forall k :: 0 <= k < 7 ==> bodies[k].color == CapsuleColor
    ensures forall k :: 0 <= k < 4 ==> bodies[k].radius == FrameRadius * WorldScale
    ensures forall k :: 4 <= k < 7 ==> bodies[k].radius == CapsuleRadius * WorldScale
  {
    [NewCapsule(WorldMin, Vec(WorldMax.x, WorldMin.y), FrameRadius, CapsuleColor),
     NewCapsule(Vec(WorldMin.x * 0.7, WorldMax.y), Vec(WorldMax.x, WorldMax.y), FrameRadius, CapsuleColor),
     NewCapsule(WorldMin, Vec(WorldMin.x, WorldMax.y), FrameRadius, CapsuleColor),
     NewCapsule(Vec(WorldMax.x, WorldMin.y), WorldMax, FrameRadius, CapsuleColor),
     NewCapsule(Vec(0.1, 0.8), Vec(0.3, 0.5), CapsuleRadius, CapsuleColor),
     NewCapsule(Vec(0.6, 0.0), Vec(0.3, 0.3), CapsuleRadius, CapsuleColor),
     NewCapsule(Vec(-0.5, -0.3), Vec(0.2, 0.4), CapsuleRadius, CapsuleColor)]
  }

  lemma NewCapsuleNonDegenerate(p0: Vec, p1: Vec, radius: real, color: Color)
    requires DistSq(p1, p0) > 0.0
    ensures NonDegenerate(NewCapsule(p0, p1, radius, color))
  {
    ScaledDistSq(p1, p0, WorldScale);
    SquareTimesPositive(WorldScale, DistSq(p1, p0));
  }

  /** Every capsule of the initial scene has non-zero length, so its
      implicit function is defined. */
  lemma InitialBodiesNonDegenerate()
    ensures forall k :: 0 <= k < |InitialBodies()| ==> NonDegenerate(InitialBodies()[k])
  {
    var b := InitialBodies();
    NewCapsuleNonDegenerate(WorldMin, Vec(WorldMax.x, WorldMin.y), FrameRadius, CapsuleColor);
    NewCapsuleNonDegenerate(Vec(WorldMin.x * 0.7, WorldMax.y), Vec(WorldMax.x, WorldMax.y), FrameRadius, CapsuleColor);
    NewCapsuleNonDegenerate(WorldMin, Vec(WorldMin.x, WorldMax.y), FrameRadius, CapsuleColor);
    NewCapsuleNonDegenerate(Vec(WorldMax.x, WorldMin.y), WorldMax, FrameRadius, CapsuleColor);
    NewCapsuleNonDegenerate(Vec(0.1, 0.8), Vec(0.3, 0.5), CapsuleRadius, CapsuleColor);
    NewCapsuleNonDegenerate(Vec(0.6, 0.0), Vec(0.3, 0.3), CapsuleRadius, CapsuleColor);
    NewCapsuleNonDegenerate(Vec(-0.5, -0.3), Vec(0.2, 0.4), CapsuleRadius, CapsuleColor);
  }

  /** A particle survives culling when its position lies in the scaled world
      box on both axes, borders included. */
  predicate InWorld(p: Particle): (b: bool)
    // in unscaled world units: inside [-0.6, 0.6] x [-0.6, 0.9]
    ensures b <==> WorldMin.x <= p.position.x / WorldScale <= WorldMax.x &&
                   WorldMin.y <= p.position.y / WorldScale <= WorldMax.y
  {
    UnscaledBound(WorldMin.x, p.position.x);
    UnscaledBound(WorldMin.y, p.position.y);
    UnscaledBound(WorldMax.x, p.position.x);
    UnscaledBound(WorldMax.y, p.position.y);
    !(p.position.x < ScaledWorldMin.x || p.position.y < ScaledWorldMin.y ||
      p.position.x > ScaledWorldMax.x || p.position.y > ScaledWorldMax.y)
  }

  /** Comparing a scaled coordinate with a scaled bound is comparing the
      unscaled ones. */
  lemma UnscaledBound(bound: real, v: real)
    ensures bound * WorldScale <= v <==> bound <= v / WorldScale
    ensures v <= bound * WorldScale <==> v / WorldScale <= bound
  {
    var u := v / WorldScale;
    assert u * WorldScale == v;
    if bound < u {
      MulStrictlyMonotone(bound, u, WorldScale);
    } else if u < bound {
      MulStrictlyMonotone(u, bound, WorldScale);
    }
  }

  /** The least index from k on of an emitter whose disc contains x, or -1. */
  function FirstHit(es: seq<Emitter>, x: Vec, sqrt: real -> real, k: nat): (r: int)
    ensures r == -1 || k <= r < |es|
    ensures r == -1 ==> forall j :: k <= j < |es| ==> EmitterEval(es[j], x, sqrt) > 0.0
    ensures r != -1 ==>
      EmitterEval(es[r], x, sqrt) <= 0.0 && forall j :: k <= j < r ==> EmitterEval(es[j], x, sqrt) > 0.0
    decreases |es| - k
  {
    if k >= |es| then -1
    else if EmitterEval(es[k], x, sqrt) <= 0.0 then k
    else FirstHit(es, x, sqrt, k + 1)
  }

  /** Dividing a mapped mouse position by the world scale and letting a
      constructor multiply it back gives the position itself. */
  lemma UnscaleRescale(v: Vec)
    ensures Scale(Scale(v, 1.0 / WorldScale), WorldScale) == v
  {
    var u := 1.0 / WorldScale;
    assert u * WorldScale == 1.0;
    assert v.x * u * WorldScale == v.x * (u * WorldScale);
    assert v.y * u * WorldScale == v.y * (u * WorldScale);
  }

  class Simulation {
    var particles: seq<Particle>
    /** The capsule being drawn: its p0 is fixed, its p1 follows the mouse. */
    var newCapsule: Option<Capsule>
    var collisionBodies: seq<Capsule>
    var emitters: seq<Emitter>
    var isLimitParticles: bool
    var maxParticles: int

    constructor ()
      ensures particles == [] && newCapsule == None
      ensures collisionBodies == InitialBodies()
      ensures forall k :: 0 <= k < |collisionBodies| ==> NonDegenerate(collisionBodies[k])
      ensures emitters == [NewEmitter(Vec(-0.1, -0.15))]
      ensures isLimitParticles && maxParticles == 1500
    {
      particles := [];
      newCapsule := None;
      collisionBodies := InitialBodies();
      emitters := [NewEmitter(Vec(-0.1, -0.15))];
      isLimitParticles := true;
      maxParticles := 1500;
      InitialBodiesNonDegenerate();
    }

    /** reset: drop every particle; capsules and emitters stay. */
    method Reset()
      modifies this`particles
      ensures particles == []
    {
      particles := [];
    }

    /** removeOutOfBoundsParticles: the splice-and-step-back loop. */
    method RemoveOutOfBoundsParticles()
      modifies this`particles
      ensures particles == Filter(InWorld, old(particles))
      ensures forall p :: p in particles <==> p in old(particles) && InWorld(p)
    {
      var i: int := 0;
      while i < |particles|
        invariant 0 <= i <= |particles|
        invariant forall k :: 0 <= k < i ==> InWorld(particles[k])
        invariant Filter(InWorld, particles) == Filter(InWorld, old(particles))
        decreases |particles| - i
      {
        var p := particles[i].position;
        if p.x < ScaledWorldMin.x || p.y < ScaledWorldMin.y ||
           p.x > ScaledWorldMax.x || p.y > ScaledWorldMax.y {
          FilterSkipsRejected(InWorld, particles, i);
          particles := particles[..i] + particles[i + 1..];
          i := i - 1;
        }
        i := i + 1;
      }
      FilterIdentity(InWorld, particles);
      FilterKeepsExactly(InWorld, old(particles));
    }

    /** emitParticles: each emitter in turn advances its timer and, when it
        fires, appends three particles. */
    method EmitParticles(delta: real, cos: Trig, sin: Trig, rand: Random)
      modifies this`particles, this`emitters
      ensures (emitters, particles) ==
        EmitFrom(old(emitters), 0, old(particles), isLimitParticles, maxParticles, delta, cos, sin, rand)
    {
      var es, ps := emitters, particles;
      var i := 0;
      while i < |es|
        invariant 0 <= i <= |es| == |old(emitters)|
        invariant EmitFrom(es, i, ps, isLimitParticles, maxParticles, delta, cos, sin, rand) ==
          EmitFrom(old(emitters), 0, old(particles), isLimitParticles, maxParticles, delta, cos, sin, rand)
      {
        var emitter;
        emitter, ps := StepEmitter(es[i], i, ps, delta, cos, sin, rand);
        es := es[i := emitter];
        i := i + 1;
      }
      assert EmitFrom(es, i, ps, isLimitParticles, maxParticles, delta, cos, sin, rand) == (es, ps);
      emitters, particles := es, ps;
    }

    /** The body of the emitter loop for emitter number i: the timer, the
        emission test, the two angle advances and the three pushes. */
    method StepEmitter(e: Emitter, i: nat, ps: seq<Particle>, delta: real, cos: Trig, sin: Trig, rand: Random)
      returns (emitter: Emitter, ps': seq<Particle>)
      ensures (emitter, ps') == EmitOne(e, i, ps, isLimitParticles, maxParticles, delta, cos, sin, rand)
    {
      ps' := ps;
      emitter := e.(timer := e.timer + delta);
      ghost var timed := emitter;
      if emitter.timer > emitter.frequency && (!isLimitParticles || |ps'| < maxParticles) {
        if emitter.angleVelocity == 0.0 {
          emitter := emitter.(angle := emitter.baseAngle);
        } else {
          emitter := emitter.(angle := emitter.angle + emitter.angleVelocity);
        }
        assert emitter.angle == JetAngle(timed);
        var theta := emitter.angle * (Pi / 180.0);
        theta := Pi * 2.0 - theta;
        emitter := emitter.(angle := emitter.angle + emitter.angleVelocity);
        var strength := emitter.strength;
        var velocity := Vec(strength * cos(theta), strength * sin(theta));
        var v := Vec(-velocity.y, velocity.x);
        var a := emitter.velRand * 0.0001;
        assert velocity == JetVelocity(timed, cos, sin) by {
          assert strength == timed.strength && theta == Theta(JetAngle(timed));
        }
        assert emitter.position == timed.position && emitter.color == timed.color && a == timed.velRand * 0.0001;
        ps' := PushJet(timed, i, ps', emitter.position, emitter.color, velocity, v, a, cos, sin, rand);
        emitter := emitter.(timer := 0.0);
        EmitOneWhenFiring(e, i, ps, isLimitParticles, maxParticles, delta, cos, sin, rand);
      }
    }

    /** The j loop of an emission event: push the particles at offsets -1, 0
        and 1 along `v`, each with the jet velocity and its own jitter. */
    method PushJet(ghost e: Emitter, i: nat, ps: seq<Particle>, position: Vec, color: Color,
                   velocity: Vec, v: Vec, a: real, cos: Trig, sin: Trig, rand: Random)
      returns (ps': seq<Particle>)
      requires position == e.position && color == e.color
      requires velocity == JetVelocity(e, cos, sin) && v == Perpendicular(velocity)
      requires a == e.velRand * 0.0001
      ensures ps' == ps + Jet(e, i, cos, sin, rand)
    {
      ghost var jet := [Spawned(e, i, -1, cos, sin, rand), Spawned(e, i, 0, cos, sin, rand),
                        Spawned(e, i, 1, cos, sin, rand)];
      ps' := ps;
      var j := -1;
      while j <= 1
        invariant -1 <= j <= 2
        invariant ps' == ps + jet[..j + 1]
      {
        var p := ScaleAndAdd(position, v, 0.8 * (j as real));
        var particle := NewParticle(p, Vec(velocity.x + RandomArbitrary(-a, a, rand(i, j, 0)),
                                           velocity.y + RandomArbitrary(-a, a, rand(i, j, 1))),
                                    color);
        assert particle == jet[j + 1] by {
          assert particle == Spawned(e, i, j, cos, sin, rand);
        }
        assert jet[..j + 2] == jet[..j + 1] + [particle];
        ps' := ps' + [particle];
        j := j + 1;
      }
      assert jet[..3] == jet == Jet(e, i, cos, sin, rand);
    }

    /** doViscosityImpules for particle i. */
    method DoViscosityImpulses(i: nat, delta: real, near: Neighbours, sqrt: real -> real)
      requires i < |particles| && IndicesBelow(near(particles[i].position, i), |particles|) && IsSqrt(sqrt)
      modifies this`particles
      ensures particles == ViscosityFrom(old(particles), i, near(old(particles)[i].position, i), delta, sqrt)
    {
      var js := near(particles[i].position, i);
      var j := 0;
      while j < |js|
        invariant 0 <= j <= |js| && |particles| == |old(particles)|
        invariant ViscosityFrom(particles, i, js[j..], delta, sqrt) == ViscosityFrom(old(particles), i, js, delta, sqrt)
      {
        assert js[j..][1..] == js[j + 1..];
        particles := ViscosityPair(particles, i, js[j], delta, sqrt);
        j := j + 1;
      }
    }

    /** computeDensities for particle i. */
    method ComputeDensities(i: nat, near: Neighbours, sqrt: real -> real)
      requires i < |particles| && IndicesBelow(near(particles[i].position, i), |particles|) && IsSqrt(sqrt)
      modifies this`particles
      ensures particles == DensityFrom(old(particles), i, near(old(particles)[i].position, i), sqrt)
    {
      var js := near(particles[i].position, i);
      var j := 0;
      while j < |js|
        invariant 0 <= j <= |js| && |particles| == |old(particles)|
        invariant DensityFrom(particles, i, js[j..], sqrt) == DensityFrom(old(particles), i, js, sqrt)
      {
        assert js[j..][1..] == js[j + 1..];
        particles := DensityPair(particles, i, js[j], sqrt);
        j := j + 1;
      }
    }

    /** handleCollision for particle i: every capsule in turn. */
    method HandleCollision(i: nat, sqrt: real -> real)
      requires i < |particles|
      requires CollisionDefined(particles[i].position, collisionBodies, sqrt)
      modifies this`particles
      ensures particles == old(particles)[i := old(particles)[i].(position :=
        CollideAll(old(particles)[i].position, collisionBodies, sqrt))]
    {
      var x := particles[i].position;
      var b := 0;
      while b < |collisionBodies|
        invariant 0 <= b <= |collisionBodies|
        invariant CollisionDefined(x, collisionBodies[b..], sqrt)
        invariant CollideAll(x, collisionBodies[b..], sqrt) ==
          CollideAll(old(particles)[i].position, collisionBodies, sqrt)
      {
        assert collisionBodies[b..][1..] == collisionBodies[b + 1..];
        x := CollideOne(x, collisionBodies[b], sqrt);
        b := b + 1;
      }
      particles := particles[i := particles[i].(position := x)];
    }

    /** doubleDensityRelaxation: every particle pushes its neighbours with its
        own pressures. */
    method DoubleDensityRelaxation(delta: real, near: Neighbours, sqrt: real -> real)
      requires NeighboursBelow(near, |particles|) && IsSqrt(sqrt)
      modifies this`particles
      ensures particles == RelaxFrom(old(particles), 0, near, delta, sqrt)
    {
      var i := 0;
      while i < |particles|
        invariant 0 <= i <= |particles| == |old(particles)|
        invariant RelaxFrom(particles, i, near, delta, sqrt) == RelaxFrom(old(particles), 0, near, delta, sqrt)
      {
        var pressure := Stiffness * (particles[i].density - RestDensity);
        var nearPressure := NearStiffness * particles[i].nearDensity;
        var js := near(particles[i].position, i);
        ghost var start := particles;
        assert IndicesBelow(js, |start|);
        var j := 0;
        while j < |js|
          invariant 0 <= j <= |js| && |particles| == |start|
          invariant RelaxNeighbours(particles, i, js[j..], pressure, nearPressure, delta, sqrt) ==
            RelaxNeighbours(start, i, js, pressure, nearPressure, delta, sqrt)
        {
          assert js[j..][1..] == js[j + 1..];
          particles := RelaxPair(particles, i, js[j], pressure, nearPressure, delta, sqrt);
          j := j + 1;
        }
        i := i + 1;
      }
    }

    /** update: the drawn capsule follows the mouse, emitters fire, particles
        outside the world are culled, then the two particle loops and the
        relaxation run with time step 1. The spatial hash of the frame is
        `near`, filled from the culled list. */
    method Update(mouse: Vec, delta: real, cos: Trig, sin: Trig, rand: Random,
                  near: Neighbours, sqrt: real -> real)
      requires IsSqrt(sqrt)
      requires FrameDefined(Filter(InWorld, EmitFrom(emitters, 0, particles, isLimitParticles, maxParticles,
                                                     delta, cos, sin, rand).1),
                            collisionBodies, near, sqrt)
      modifies this`particles, this`emitters, this`newCapsule
      ensures newCapsule == if old(newCapsule).Some? then Some(old(newCapsule).value.(p1 := mouse)) else None
      ensures var (es, emitted) := EmitFrom(old(emitters), 0, old(particles), isLimitParticles, maxParticles,
                                            delta, cos, sin, rand);
        emitters == es && particles == FrameParticles(Filter(InWorld, emitted), collisionBodies, near, sqrt)
      ensures forall k :: 0 <= k < |particles| ==>
        !particles[k].isNew && particles[k].density >= 0.0 && particles[k].nearDensity >= 0.0
      ensures VecSum(Forces(particles)) == Zero
      ensures isLimitParticles && |old(particles)| < maxParticles + 3 ==> |particles| < maxParticles + 3
    {
      if newCapsule.Some? {
        newCapsule := Some(newCapsule.value.(p1 := mouse));
      }
      EmitParticles(delta, cos, sin, rand);
      RemoveOutOfBoundsParticles();
      StepFluid(near, sqrt);
      if isLimitParticles && |old(particles)| < maxParticles + 3 {
        EmitFromRespectsCap(old(emitters), 0, old(particles), maxParticles, delta, cos, sin, rand);
      }
    }

    /** The particle part of update after culling: the two particle loops
        and the relaxation, with time step 1. */
    method StepFluid(near: Neighbours, sqrt: real -> real)
      requires FrameDefined(particles, collisionBodies, near, sqrt)
      modifies this`particles
      ensures particles == FrameParticles(old(particles), collisionBodies, near, sqrt)
      ensures forall k :: 0 <= k < |particles| ==>
        !particles[k].isNew && particles[k].density >= 0.0 && particles[k].nearDensity >= 0.0
      ensures VecSum(Forces(particles)) == Zero
    {
      PredictAndDamp(near, sqrt);
      AdvanceAndCollide(near, sqrt);
      DoubleDensityRelaxation(1.0, near, sqrt);
      FrameInvariants(old(particles), collisionBodies, near, sqrt);
    }

    /** The first particle loop of update: apply the pending displacement,
        reset the accumulators, predict the velocity, add gravity and apply
        the viscosity impulses. */
    method PredictAndDamp(near: Neighbours, sqrt: real -> real)
      requires NeighboursBelow(near, |particles|) && IsSqrt(sqrt)
      modifies this`particles
      ensures particles == Phase1From(old(particles), 0, near, sqrt)
    {
      var i := 0;
      while i < |particles|
        invariant 0 <= i <= |particles| == |old(particles)|
        invariant Phase1From(particles, i, near, sqrt) == Phase1From(old(particles), 0, near, sqrt)
      {
        particles := particles[i := Prepare(particles[i])];
        assert IndicesBelow(near(particles[i].position, i), |particles|);
        DoViscosityImpulses(i, 1.0, near, sqrt);
        i := i + 1;
      }
    }

    /** The second particle loop of update: snapshot and advance each
        particle, accumulate the densities, resolve the collisions. */
    method AdvanceAndCollide(near: Neighbours, sqrt: real -> real)
      requires NeighboursBelow(near, |particles|) && IsSqrt(sqrt)
      requires Phase2Defined(particles, 0, collisionBodies, near, sqrt)
      modifies this`particles
      ensures particles == Phase2From(old(particles), 0, collisionBodies, near, sqrt)
    {
      var i := 0;
      while i < |particles|
        invariant 0 <= i <= |particles| == |old(particles)|
        invariant Phase2Defined(particles, i, collisionBodies, near, sqrt)
        invariant Phase2From(particles, i, collisionBodies, near, sqrt) ==
          Phase2From(old(particles), 0, collisionBodies, near, sqrt)
      {
        particles := particles[i := Advance(particles[i])];
        assert IndicesBelow(near(particles[i].position, i), |particles|);
        ComputeDensities(i, near, sqrt);
        HandleCollision(i, sqrt);
        i := i + 1;
      }
    }

    /** addCapsule: the first call starts a capsule at the mouse, the second
        commits it to the collision bodies. */
    method AddCapsule(mouse: Vec, capsuleRadius: real)
      modifies this`newCapsule, this`collisionBodies
      ensures old(newCapsule).Some? ==>
        collisionBodies == old(collisionBodies) + [old(newCapsule).value] && newCapsule == None
      ensures old(newCapsule).None? ==>
        collisionBodies == old(collisionBodies) &&
        newCapsule == Some(Capsule(mouse, mouse, capsuleRadius * WorldScale, CapsuleColor))
    {
      if newCapsule.Some? {
        collisionBodies := collisionBodies + [newCapsule.value];
        newCapsule := None;
      } else {
        var c := NewCapsule(Scale(mouse, 1.0 / WorldScale), Zero, capsuleRadius, CapsuleColor);
        c := c.(p1 := mouse);
        UnscaleRescale(mouse);
        newCapsule := Some(c);
      }
    }

    /** cancelAddCapsule: abandon the capsule being drawn. */
    method CancelAddCapsule()
      modifies this`newCapsule
      ensures newCapsule == None
    {
      newCapsule := None;
    }

    /** removeCapsule: drop every capsule under the mouse, keeping the
        others in order. */
    method RemoveCapsule(mouse: Vec, sqrt: real -> real)
      modifies this`collisionBodies
      ensures collisionBodies == Filter(c => !Contains(c, mouse, sqrt), old(collisionBodies))
      ensures forall c :: c in collisionBodies <==> c in old(collisionBodies) && !Contains(c, mouse, sqrt)
    {
      ghost var keep := c => !Contains(c, mouse, sqrt);
      var iBody: int := 0;
      while iBody < |collisionBodies|
        invariant 0 <= iBody <= |collisionBodies|
        invariant forall k :: 0 <= k < iBody ==> keep(collisionBodies[k])
        invariant Filter(keep, collisionBodies) == Filter(keep, old(collisionBodies))
        decreases |collisionBodies| - iBody
      {
        var body := collisionBodies[iBody];
        if Contains(body, mouse, sqrt) {
          FilterSkipsRejected(keep, collisionBodies, iBody);
          collisionBodies := collisionBodies[..iBody] + collisionBodies[iBody + 1..];
          iBody := iBody - 1;
        }
        iBody := iBody + 1;
      }
      FilterIdentity(keep, collisionBodies);
      FilterKeepsExactly(keep, old(collisionBodies));
    }

    /** addEmitter: a default emitter at the mouse, stored unscaled. */
    method AddEmitter(mouse: Vec)
      modifies this`emitters
      ensures emitters == old(emitters) + [NewEmitter(Scale(mouse, 1.0 / WorldScale))]
    {
      emitters := emitters + [NewEmitter(Scale(mouse, 1.0 / WorldScale))];
    }

    /** findEmitter: the index of the first emitter under the mouse, or -1. */
    method FindEmitter(mouse: Vec, sqrt: real -> real) returns (i: int)
      ensures i == FirstHit(emitters, Scale(mouse, 1.0 / WorldScale), sqrt, 0)
      ensures i == -1 || 0 <= i < |emitters|
    {
      var x := Scale(mouse, 1.0 / WorldScale);
      i := 0;
      while i < |emitters|
        invariant 0 <= i <= |emitters|
        invariant FirstHit(emitters, x, sqrt, i) == FirstHit(emitters, x, sqrt, 0)
      {
        if EmitterEval(emitters[i], x, sqrt) <= 0.0 {
          return;
        }
        i := i + 1;
      }
      return -1;
    }

    /** removeEmitter: drop the first emitter under the mouse, if any. */
    method RemoveEmitter(mouse: Vec, sqrt: real -> real)
      modifies this`emitters
      ensures var i := FirstHit(old(emitters), Scale(mouse, 1.0 / WorldScale), sqrt, 0);
        emitters == if i == -1 then old(emitters) else old(emitters)[..i] + old(emitters)[i + 1..]
    {
      var i := FindEmitter(mouse, sqrt);
      if i != -1 {
        emitters := emitters[..i] + emitters[i + 1..];
      }
    }

    /** selectEmitter: the first emitter under the mouse, if any. */
    method SelectEmitter(mouse: Vec, sqrt: real -> real) returns (r: Option<Emitter>)
      ensures var i := FirstHit(emitters, Scale(mouse, 1.0 / WorldScale), sqrt, 0);
        r == if i == -1 then None else Some(emitters[i])
    {
      var i := FindEmitter(mouse, sqrt);
      if i != -1 {
        return Some(emitters[i]);
      } else {
        return None;
      }
    }
  }
}
