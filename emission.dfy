/** Particle emission (Simulation.prototype.emitParticles, simulation.js
    lines 329-378) as functions on the emitter and particle lists. Math.cos,
    Math.sin and Math.random are not interpreted: cos and sin are parameters,
    and each random draw is a parameter indexed by the emitter, the offset j
    and the axis, of which only its range [0, 1) is known. */
module Emission {
  import opened Vectors
  import opened Entities

  type Trig = real -> real

  /** The Math.random() draw for emitter i, offset j and axis 0 (x) or 1 (y). */
  type Random = (nat, int, nat) -> real

  ghost predicate IsRandom(rand: Random) {
    forall i, j, axis :: 0.0 <= rand(i, j, axis) < 1.0
  }

  /** getRandomArbitrary(min, max) for a given draw of Math.random(). */
  function RandomArbitrary(min: real, max: real, draw: real): (r: real)
    ensures min <= max && 0.0 <= draw < 1.0 ==> min <= r <= max
  {
    var r := draw * (max - min) + min;
    DrawInRange(min, max, draw, r);
    r
  }

  lemma DrawInRange(min: real, max: real, draw: real, r: real)
    requires r == draw * (max - min) + min
    ensures min <= max && 0.0 <= draw < 1.0 ==> min <= r <= max
  {
    if min <= max && 0.0 <= draw < 1.0 {
      MulNonNegative(draw, max - min);
      MulNonNegative(1.0 - draw, max - min);
      assert (1.0 - draw) * (max - min) == (max - min) - draw * (max - min);
    }
  }

  /** The timer has passed the period and the particle cap, when enabled,
      is not yet reached. */
  predicate Fires(e: Emitter, count: nat, limit: bool, maxParticles: int) {
    e.timer > e.frequency && (!limit || count < maxParticles)
  }

  /** The angle, in degrees, the jet direction is taken from: the base angle
      when the emitter does not rotate, else the angle advanced once. */
  function JetAngle(e: Emitter): real {
    if e.angleVelocity == 0.0 then e.baseAngle else e.angle + e.angleVelocity
  }

  function Theta(angle: real): real {
    Pi * 2.0 - angle * (Pi / 180.0)
  }

  function JetVelocity(e: Emitter, cos: Trig, sin: Trig): Vec {
    var theta := Theta(JetAngle(e));
    Vec(e.strength * cos(theta), e.strength * sin(theta))
  }

  /** The jet velocity turned by a quarter turn: the line the three
      particles are placed on. */
  function Perpendicular(v: Vec): Vec {
    Vec(-v.y, v.x)
  }

  /** The particle spawned at offset j in {-1, 0, 1} by emitter number i. */
  function Spawned(e: Emitter, i: nat, j: int, cos: Trig, sin: Trig, rand: Random): (p: Particle)
    ensures Unscaled(p) == ScaleAndAdd(e.position, Perpendicular(JetVelocity(e, cos, sin)), 0.8 * (j as real))
    ensures p.isNew && p.f == Zero && p.o == p.position && p.color == e.color && p.radius == H
  {
    var velocity := JetVelocity(e, cos, sin);
    var v := Perpendicular(velocity);
    var a := e.velRand * 0.0001;
    var p := ScaleAndAdd(e.position, v, 0.8 * (j as real));
    NewParticle(p, Vec(velocity.x + RandomArbitrary(-a, a, rand(i, j, 0)),
                       velocity.y + RandomArbitrary(-a, a, rand(i, j, 1))),
                e.color)
  }

  /** A particle's position in unscaled world units. */
  function Unscaled(p: Particle): Vec {
    Scale(p.position, 1.0 / WorldScale)
  }

  /** The three particles of one emission event, for offsets -1, 0 and 1:
      the middle one at the emitter, the outer ones equally spaced on either
      side along the jet velocity turned a quarter turn. */
  function Jet(e: Emitter, i: nat, cos: Trig, sin: Trig, rand: Random): (r: seq<Particle>)
    ensures |r| == 3 && Unscaled(r[1]) == e.position
    ensures var step := Scale(Perpendicular(JetVelocity(e, cos, sin)), 0.8);
      Sub(Unscaled(r[1]), Unscaled(r[0])) == step && Sub(Unscaled(r[2]), Unscaled(r[1])) == step
    ensures forall n :: 0 <= n < 3 ==> r[n].isNew && r[n].color == e.color
  {
    [Spawned(e, i, -1, cos, sin, rand), Spawned(e, i, 0, cos, sin, rand), Spawned(e, i, 1, cos, sin, rand)]
  }

  /** One iteration of the emitter loop, for emitter number i. */
  function EmitOne(e: Emitter, i: nat, ps: seq<Particle>, limit: bool, maxParticles: int,
                   delta: real, cos: Trig, sin: Trig, rand: Random): (r: (Emitter, seq<Particle>))
    ensures |r.1| == |ps| || |r.1| == |ps| + 3
    ensures r.1[..|ps|] == ps
    ensures r.0.position == e.position && r.0.frequency == e.frequency
  {
    var e1 := e.(timer := e.timer + delta);
    if Fires(e1, |ps|, limit, maxParticles) then
      var angle := JetAngle(e1);
      (e1.(angle := angle + e1.angleVelocity, timer := 0.0), ps + Jet(e1, i, cos, sin, rand))
    else
      (e1, ps)
  }

  /** The emitter loop from emitter number i on. */
  function EmitFrom(es: seq<Emitter>, i: nat, ps: seq<Particle>, limit: bool, maxParticles: int,
                    delta: real, cos: Trig, sin: Trig, rand: Random): (r: (seq<Emitter>, seq<Particle>))
    ensures |r.0| == |es|
    decreases |es| - i
  {
    if i >= |es| then (es, ps)
    else
      var (e, ps1) := EmitOne(es[i], i, ps, limit, maxParticles, delta, cos, sin, rand);
      EmitFrom(es[i := e], i + 1, ps1, limit, maxParticles, delta, cos, sin, rand)
  }

  /** EmitOne unfolded for an emitter that fires. */
  lemma EmitOneWhenFiring(e: Emitter, i: nat, ps: seq<Particle>, limit: bool, maxParticles: int,
                          delta: real, cos: Trig, sin: Trig, rand: Random)
    requires Fires(e.(timer := e.timer + delta), |ps|, limit, maxParticles)
    ensures var e1 := e.(timer := e.timer + delta);
      EmitOne(e, i, ps, limit, maxParticles, delta, cos, sin, rand) ==
      (e1.(angle := JetAngle(e1) + e1.angleVelocity, timer := 0.0),
       ps + Jet(e1, i, cos, sin, rand))
  {
  }

  // ---------------------------------------------------------------------
  // What one emission step does

  /** The timer grows by delta; when it then exceeds the period and the cap
      allows, exactly three particles are appended and the timer restarts
      at zero, else nothing is appended and the timer keeps its value. Only
      the timer and the angle of the emitter change. */
  lemma EmitOneEffect(e: Emitter, i: nat, ps: seq<Particle>, limit: bool, maxParticles: int,
                      delta: real, cos: Trig, sin: Trig, rand: Random)
    ensures var (e', ps') := EmitOne(e, i, ps, limit, maxParticles, delta, cos, sin, rand);
      var fired := e.timer + delta > e.frequency && (!limit || |ps| < maxParticles);
      e' == e.(timer := e'.timer, angle := e'.angle) &&
      (fired ==> e'.timer == 0.0 && |ps'| == |ps| + 3 && ps'[..|ps|] == ps) &&
      (!fired ==> e'.timer == e.timer + delta && e'.angle == e.angle && ps' == ps)
  {
  }

  /** On an emission event a non-rotating emitter ends at its base angle,
      and a rotating one advances by twice its angular velocity (once before
      the direction is taken and once after). */
  lemma EmitOneAngle(e: Emitter, i: nat, ps: seq<Particle>, limit: bool, maxParticles: int,
                     delta: real, cos: Trig, sin: Trig, rand: Random)
    requires e.timer + delta > e.frequency && (!limit || |ps| < maxParticles)
    ensures var (e', _) := EmitOne(e, i, ps, limit, maxParticles, delta, cos, sin, rand);
      (e.angleVelocity == 0.0 ==> e'.angle == e.baseAngle) &&
      (e.angleVelocity != 0.0 ==> e'.angle == e.angle + 2.0 * e.angleVelocity)
  {
  }

  /** The particle spawned at offset j: on the line through the emitter
      perpendicular to the jet, at 0.8 * j times the jet velocity's length
      from the emitter; new, with no pending displacement, its snapshot at
      its position, the emitter's colour, and the jet velocity plus a jitter
      of at most a = velRand * 0.0001 per axis. Position and velocity are
      scaled by the world scale exactly once. */
  lemma SpawnedParticle(e: Emitter, i: nat, j: int, cos: Trig, sin: Trig, rand: Random)
    requires IsRandom(rand) && e.velRand >= 0.0
    ensures var p := Spawned(e, i, j, cos, sin, rand);
      var jet := JetVelocity(e, cos, sin);
      var a := e.velRand * 0.0001;
      var unscaledVelocity := Scale(p.velocity, 1.0 / WorldScale);
      Scale(p.position, 1.0 / WorldScale) == ScaleAndAdd(e.position, Perpendicular(jet), 0.8 * (j as real)) &&
      (j == 0 ==> Scale(p.position, 1.0 / WorldScale) == e.position) &&
      p.isNew && p.f == Zero && p.o == p.position && p.color == e.color &&
      -a <= unscaledVelocity.x - jet.x <= a && -a <= unscaledVelocity.y - jet.y <= a
  {
    if j == 0 {
      assert ScaleAndAdd(e.position, Perpendicular(JetVelocity(e, cos, sin)), 0.8 * (j as real)) == e.position;
    }
  }

  /** On an emission event the three new particles are appended after the
      existing ones: the ones spawned at offsets -1, 0 and 1, in that order
      (see SpawnedParticle for what each of them is). */
  lemma EmitOneParticles(e: Emitter, i: nat, ps: seq<Particle>, limit: bool, maxParticles: int,
                         delta: real, cos: Trig, sin: Trig, rand: Random)
    requires e.timer + delta > e.frequency && (!limit || |ps| < maxParticles)
    ensures var (_, ps') := EmitOne(e, i, ps, limit, maxParticles, delta, cos, sin, rand);
      |ps'| == |ps| + 3 && ps'[..|ps|] == ps &&
      forall n :: |ps| <= n < |ps| + 3 ==> ps'[n] == Spawned(e, i, n - |ps| - 1, cos, sin, rand)
  {
    var e1 := e.(timer := e.timer + delta);
    EmitOneWhenFiring(e, i, ps, limit, maxParticles, delta, cos, sin, rand);
    JetIgnoresTimer(e, e1.timer, i, cos, sin, rand);
    var jet := Jet(e, i, cos, sin, rand);
    var ps' := EmitOne(e, i, ps, limit, maxParticles, delta, cos, sin, rand).1;
    assert ps' == ps + jet;
    forall n | |ps| <= n < |ps| + 3
      ensures ps'[n] == Spawned(e, i, n - |ps| - 1, cos, sin, rand)
    {
      assert ps'[n] == jet[n - |ps|];
    }
  }

  /** The particles of a jet do not depend on the emitter's timer. */
  lemma JetIgnoresTimer(e: Emitter, timer: real, i: nat, cos: Trig, sin: Trig, rand: Random)
    ensures Jet(e.(timer := timer), i, cos, sin, rand) == Jet(e, i, cos, sin, rand)
  {
    var e1 := e.(timer := timer);
    assert JetAngle(e1) == JetAngle(e);
    assert JetVelocity(e1, cos, sin) == JetVelocity(e, cos, sin);
    forall j: int
      ensures Spawned(e1, i, j, cos, sin, rand) == Spawned(e, i, j, cos, sin, rand)
    {
    }
  }

  // ---------------------------------------------------------------------
  // What the whole emitter loop does

  /** The loop only appends particles, at most three per emitter, and leaves
      the emitters' positions and their number unchanged. */
  lemma {:induction false} EmitFromAppends(es: seq<Emitter>, i: nat, ps: seq<Particle>, limit: bool, maxParticles: int,
                                           delta: real, cos: Trig, sin: Trig, rand: Random)
    requires i <= |es|
    ensures var (es', ps') := EmitFrom(es, i, ps, limit, maxParticles, delta, cos, sin, rand);
      |ps| <= |ps'| <= |ps| + 3 * (|es| - i) && ps'[..|ps|] == ps &&
      forall k :: 0 <= k < |es| ==> es'[k].position == es[k].position
    decreases |es| - i
  {
    if i < |es| {
      var (e, ps1) := EmitOne(es[i], i, ps, limit, maxParticles, delta, cos, sin, rand);
      EmitOneEffect(es[i], i, ps, limit, maxParticles, delta, cos, sin, rand);
      EmitFromAppends(es[i := e], i + 1, ps1, limit, maxParticles, delta, cos, sin, rand);
      var (es', ps') := EmitFrom(es[i := e], i + 1, ps1, limit, maxParticles, delta, cos, sin, rand);
      assert ps'[..|ps|] == ps1[..|ps1|][..|ps|];
    }
  }

  /** With the cap enabled, emission only starts below the cap, so a list
      shorter than maxParticles + 3 stays shorter than maxParticles + 3. */
  lemma {:induction false} EmitFromRespectsCap(es: seq<Emitter>, i: nat, ps: seq<Particle>, maxParticles: int,
                                               delta: real, cos: Trig, sin: Trig, rand: Random)
    requires |ps| < maxParticles + 3
    ensures |EmitFrom(es, i, ps, true, maxParticles, delta, cos, sin, rand).1| < maxParticles + 3
    decreases |es| - i
  {
    if i < |es| {
      var (e, ps1) := EmitOne(es[i], i, ps, true, maxParticles, delta, cos, sin, rand);
      EmitOneEffect(es[i], i, ps, true, maxParticles, delta, cos, sin, rand);
      EmitFromRespectsCap(es[i := e], i + 1, ps1, maxParticles, delta, cos, sin, rand);
    }
  }

  /** A fresh emitter (period 0.05, no rotation, base angle 70 degrees)
      driven with delta = 0.06 emits three particles at its base angle; a
      following step with delta = 0.01 emits none. */
  lemma FreshEmitterScenario(position: Vec, ps: seq<Particle>, cos: Trig, sin: Trig, rand: Random)
    ensures var (e1, ps1) := EmitOne(NewEmitter(position), 0, ps, false, 0, 0.06, cos, sin, rand);
      var (e2, ps2) := EmitOne(e1, 0, ps1, false, 0, 0.01, cos, sin, rand);
      |ps1| == |ps| + 3 && e1.angle == 70.0 && e1.timer == 0.0 &&
      ps2 == ps1 && e2.timer == 0.01
  {
  }
}
