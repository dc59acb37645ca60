/** The per-frame particle passes of Simulation.prototype.update as functions
    on the particle list: the reset and prediction step, the viscosity impulses
    (doViscosityImpules), the density estimate (computeDensities), the advance
    and collision step, and the double density relaxation
    (doubleDensityRelaxation). Neighbour candidates come from the spatial hash,
    which is not modelled: it is a function from the querying particle's
    position and index to indices into the particle list. */
module Passes {
  import opened Vectors
  import opened Seqs
  import opened Entities

  /** The spatial hash of one frame: candidates near the particle at the
      given index and position. */
  type Neighbours = (Vec, nat) -> seq<nat>

  predicate IndicesBelow(js: seq<nat>, n: nat) {
    forall k :: 0 <= k < |js| ==> js[k] < n
  }

  /** The hash was filled from a list of `n` particles. */
  ghost predicate NeighboursBelow(near: Neighbours, n: nat) {
    forall x, i :: IndicesBelow(near(x, i), n)
  }

  function Velocities(ps: seq<Particle>): (vs: seq<Vec>)
    ensures |vs| == |ps| && forall k :: 0 <= k < |ps| ==> vs[k] == ps[k].velocity
  {
    seq(|ps|, k requires 0 <= k < |ps| => ps[k].velocity)
  }

  function Forces(ps: seq<Particle>): (fs: seq<Vec>)
    ensures |fs| == |ps| && forall k :: 0 <= k < |ps| ==> fs[k] == ps[k].f
  {
    seq(|ps|, k requires 0 <= k < |ps| => ps[k].f)
  }

  // ---------------------------------------------------------------------
  // Which parts of the particles a pass may change

  ghost predicate OnlyVelocitiesChanged(a: seq<Particle>, b: seq<Particle>) {
    |a| == |b| && forall k :: 0 <= k < |a| ==> b[k] == a[k].(velocity := b[k].velocity)
  }

  ghost predicate OnlyDensitiesGrew(a: seq<Particle>, b: seq<Particle>) {
    |a| == |b| &&
    forall k :: 0 <= k < |a| ==>
      b[k] == a[k].(density := b[k].density, nearDensity := b[k].nearDensity) &&
      b[k].density >= a[k].density && b[k].nearDensity >= a[k].nearDensity
  }

  ghost predicate OnlyForcesChanged(a: seq<Particle>, b: seq<Particle>) {
    |a| == |b| && forall k :: 0 <= k < |a| ==> b[k] == a[k].(f := b[k].f)
  }

  // ---------------------------------------------------------------------
  // The neighbour filter shared by the three pair passes

  /** A candidate pair interacts when 0 < r2 <= h * h. */
  predicate Accepted(pi: Vec, pj: Vec) {
    var r2 := DistSq(pi, pj);
    !(r2 <= 0.0 || r2 > H * H)
  }

  lemma SelfNotAccepted(p: Vec)
    ensures !Accepted(p, p)
  {
    assert Sub(p, p) == Zero;
  }

  /** For an accepted pair, the distance r lies in (0, h] and the kernel
      weight a = 1 - r / h in [0, 1). */
  lemma AcceptedKernel(pi: Vec, pj: Vec, sqrt: real -> real)
    requires Accepted(pi, pj) && IsSqrt(sqrt)
    ensures var r := sqrt(DistSq(pi, pj));
      0.0 < r <= H && 0.0 <= 1.0 - r / H < 1.0
  {
    var r2 := DistSq(pi, pj);
    SqrtBound(sqrt, r2, H);
    QuotientAtMostOne(sqrt(r2), H);
  }

  // ---------------------------------------------------------------------
  // Viscosity impulses (simulation.js lines 234-284)

  /** The impulse magnitude T along the unit separation, clamped by the
      closing speed u. */
  function ViscosityImpulse(u: real, oneMinusQ: real, delta: real): (t: real)
    ensures u > 0.0 ==> t <= u
    ensures u <= 0.0 ==> t >= u
  {
    if u > 0.0 then
      var t0 := delta * oneMinusQ * (Sigma * u + Beta * u * u) * 0.5;
      if t0 < u then t0 else u
    else
      var t0 := delta * oneMinusQ * (Sigma * u - Beta * u * u) * 0.5;
      if t0 > u then t0 else u
  }

  /** With a non-negative kernel weight and time step, the impulse has the
      sign of the closing speed and never exceeds it in magnitude. */
  lemma ViscosityImpulseBounds(u: real, oneMinusQ: real, delta: real)
    requires oneMinusQ >= 0.0 && delta >= 0.0
    ensures u > 0.0 ==> 0.0 <= ViscosityImpulse(u, oneMinusQ, delta) <= u
    ensures u <= 0.0 ==> u <= ViscosityImpulse(u, oneMinusQ, delta) <= 0.0
  {
    MulNonNegative(delta, oneMinusQ);
    SquareNonNegative(u);
    var w := delta * oneMinusQ;
    if u > 0.0 {
      MulNonNegative(Beta, u * u);
      MulNonNegative(w, Sigma * u + Beta * u * u);
    } else {
      MulNonNegative(Beta, u * u);
      MulNonNegative(w, -(Sigma * u - Beta * u * u));
      assert w * (Sigma * u - Beta * u * u) == -(w * (-(Sigma * u - Beta * u * u)));
    }
  }

  /** One candidate pair (i, j) of the viscosity pass. */
  function ViscosityPair(ps: seq<Particle>, i: nat, j: nat, delta: real, sqrt: real -> real): (r: seq<Particle>)
    requires i < |ps| && j < |ps| && IsSqrt(sqrt)
    ensures OnlyVelocitiesChanged(ps, r)
    ensures forall k :: 0 <= k < |ps| && k != i && k != j ==> r[k] == ps[k]
    ensures Accepted(ps[i].position, ps[j].position) ==>
      var rr := sqrt(DistSq(ps[i].position, ps[j].position));
      var n := Scale(Sub(ps[i].position, ps[j].position), 1.0 / rr);
      var t := ViscosityImpulse(Dot(Sub(ps[i].velocity, ps[j].velocity), n), 1.0 - rr / H, delta);
      Sub(ps[i].velocity, r[i].velocity) == Scale(n, t) && Sub(r[j].velocity, ps[j].velocity) == Scale(n, t)
  {
    var dp := Sub(ps[i].position, ps[j].position);
    var r2 := Dot(dp, dp);
    if !Accepted(ps[i].position, ps[j].position) then ps
    else
      assert i != j by { SelfNotAccepted(ps[i].position); }
      AcceptedKernel(ps[i].position, ps[j].position, sqrt);
      var r := sqrt(r2);
      var n := Scale(dp, 1.0 / r);
      var oneMinusQ := 1.0 - r / H;
      var u := Dot(Sub(ps[i].velocity, ps[j].velocity), n);
      var t := ViscosityImpulse(u, oneMinusQ, delta);
      var impulse := Scale(n, t);
      var ps1 := ps[i := ps[i].(velocity := ScaleAndAdd(ps[i].velocity, impulse, -1.0))];
      ps1[j := ps1[j].(velocity := ScaleAndAdd(ps1[j].velocity, impulse, 1.0))]
  }

  /** An accepted pair receives exactly opposite velocity changes, so the
      sum of all velocities is unchanged; any other candidate changes nothing. */
  lemma ViscosityPairConserves(ps: seq<Particle>, i: nat, j: nat, delta: real, sqrt: real -> real)
    requires i < |ps| && j < |ps| && IsSqrt(sqrt)
    ensures var r := ViscosityPair(ps, i, j, delta, sqrt);
      VecSum(Velocities(r)) == VecSum(Velocities(ps)) &&
      (Accepted(ps[i].position, ps[j].position) ==>
        i != j && Sub(r[i].velocity, ps[i].velocity) == Sub(ps[j].velocity, r[j].velocity)) &&
      (!Accepted(ps[i].position, ps[j].position) ==> r == ps)
  {
    var r := ViscosityPair(ps, i, j, delta, sqrt);
    if Accepted(ps[i].position, ps[j].position) {
      SelfNotAccepted(ps[i].position);
      var d := Sub(ps[i].velocity, r[i].velocity);
      assert r[j].velocity == Add(ps[j].velocity, d);
      assert Velocities(r) == Velocities(ps)[i := Sub(ps[i].velocity, d)][j := Add(ps[j].velocity, d)];
      OppositeUpdatesKeepSum(Velocities(ps), i, j, d);
    }
  }

  /** doViscosityImpules for particle i over its candidate list. */
  function ViscosityFrom(ps: seq<Particle>, i: nat, js: seq<nat>, delta: real, sqrt: real -> real): (r: seq<Particle>)
    requires i < |ps| && IndicesBelow(js, |ps|) && IsSqrt(sqrt)
    ensures OnlyVelocitiesChanged(ps, r)
    decreases |js|
  {
    if js == [] then ps
    else ViscosityFrom(ViscosityPair(ps, i, js[0], delta, sqrt), i, js[1..], delta, sqrt)
  }

  /** The whole viscosity call for one particle conserves the velocity sum. */
  lemma {:induction false} ViscosityFromConserves(ps: seq<Particle>, i: nat, js: seq<nat>, delta: real, sqrt: real -> real)
    requires i < |ps| && IndicesBelow(js, |ps|) && IsSqrt(sqrt)
    ensures VecSum(Velocities(ViscosityFrom(ps, i, js, delta, sqrt))) == VecSum(Velocities(ps))
    decreases |js|
  {
    if js != [] {
      ViscosityPairConserves(ps, i, js[0], delta, sqrt);
      ViscosityFromConserves(ViscosityPair(ps, i, js[0], delta, sqrt), i, js[1..], delta, sqrt);
    }
  }

  // ---------------------------------------------------------------------
  // Density estimation (simulation.js lines 287-315)

  /** The kernel weight a = 1 - r / h of an accepted pair. */
  function Weight(pi: Vec, pj: Vec, sqrt: real -> real): (a: real)
    requires Accepted(pi, pj) && IsSqrt(sqrt)
    ensures 0.0 <= a < 1.0
  {
    AcceptedKernel(pi, pj, sqrt);
    1.0 - sqrt(DistSq(pi, pj)) / H
  }

  /** One candidate pair (i, j) of computeDensities. */
  function DensityPair(ps: seq<Particle>, i: nat, j: nat, sqrt: real -> real): (r: seq<Particle>)
    requires i < |ps| && j < |ps| && IsSqrt(sqrt)
    ensures OnlyDensitiesGrew(ps, r)
    ensures forall k :: 0 <= k < |ps| && k != i && k != j ==> r[k] == ps[k]
  {
    if !Accepted(ps[i].position, ps[j].position) then ps
    else
      assert i != j by { SelfNotAccepted(ps[i].position); }
      var a := Weight(ps[i].position, ps[j].position, sqrt);
      var aa := a * a;
      var aaa := aa * a;
      MulNonNegative(a, a);
      MulNonNegative(aa, a);
      var ps1 := ps[i := ps[i].(density := ps[i].density + aa, nearDensity := ps[i].nearDensity + aaa)];
      ps1[j := ps1[j].(density := ps1[j].density + aa, nearDensity := ps1[j].nearDensity + aaa)]
  }

  /** Both particles of an accepted pair receive the same increments, a^2 to
      the density and a^3 to the near density, with a = 1 - r / h in [0, 1). */
  lemma DensityPairSymmetric(ps: seq<Particle>, i: nat, j: nat, sqrt: real -> real)
    requires i < |ps| && j < |ps| && IsSqrt(sqrt)
    requires Accepted(ps[i].position, ps[j].position)
    ensures var r := DensityPair(ps, i, j, sqrt);
      var a := Weight(ps[i].position, ps[j].position, sqrt);
      i != j &&
      r[i].density == ps[i].density + a * a && r[j].density == ps[j].density + a * a &&
      r[i].nearDensity == ps[i].nearDensity + a * a * a && r[j].nearDensity == ps[j].nearDensity + a * a * a
  {
    assert i != j by { SelfNotAccepted(ps[i].position); }
    var r := DensityPair(ps, i, j, sqrt);
    var a := Weight(ps[i].position, ps[j].position, sqrt);
    assert r[i].density == ps[i].density + a * a;
    assert r[j].density == ps[j].density + a * a;
    assert r[i].nearDensity == ps[i].nearDensity + a * a * a;
    assert r[j].nearDensity == ps[j].nearDensity + a * a * a;
  }

  /** computeDensities for particle i over its candidate list. */
  function DensityFrom(ps: seq<Particle>, i: nat, js: seq<nat>, sqrt: real -> real): (r: seq<Particle>)
    requires i < |ps| && IndicesBelow(js, |ps|) && IsSqrt(sqrt)
    ensures OnlyDensitiesGrew(ps, r)
    decreases |js|
  {
    if js == [] then ps
    else DensityFrom(DensityPair(ps, i, js[0], sqrt), i, js[1..], sqrt)
  }

  // ---------------------------------------------------------------------
  // Double density relaxation (simulation.js lines 431-462)

  /** The displacement magnitude D of a pair with kernel weight a, split
      evenly between the two particles. */
  function RelaxMagnitude(pressure: real, nearPressure: real, a: real, delta: real): real {
    delta * delta * (pressure * a + nearPressure * a * a) * 0.5
  }

  /** One candidate pair (i, j) of the relaxation, with particle i's pressures. */
  function RelaxPair(ps: seq<Particle>, i: nat, j: nat, pressure: real, nearPressure: real,
                     delta: real, sqrt: real -> real): (r: seq<Particle>)
    requires i < |ps| && j < |ps| && IsSqrt(sqrt)
    ensures OnlyForcesChanged(ps, r)
    ensures forall k :: 0 <= k < |ps| && k != i && k != j ==> r[k] == ps[k]
    ensures Accepted(ps[i].position, ps[j].position) ==>
      var rr := sqrt(DistSq(ps[i].position, ps[j].position));
      var da := Scale(Sub(ps[i].position, ps[j].position), RelaxMagnitude(pressure, nearPressure, 1.0 - rr / H, delta) / rr);
      Sub(r[i].f, ps[i].f) == da && Sub(ps[j].f, r[j].f) == da
  {
    var dp := Sub(ps[i].position, ps[j].position);
    var r2 := Dot(dp, dp);
    if !Accepted(ps[i].position, ps[j].position) then ps
    else
      assert i != j by { SelfNotAccepted(ps[i].position); }
      AcceptedKernel(ps[i].position, ps[j].position, sqrt);
      var r := sqrt(r2);
      var a := 1.0 - r / H;
      var da := Scale(dp, RelaxMagnitude(pressure, nearPressure, a, delta) / r);
      var ps1 := ps[i := ps[i].(f := ScaleAndAdd(ps[i].f, da, 1.0))];
      ps1[j := ps1[j].(f := ScaleAndAdd(ps1[j].f, da, -1.0))]
  }

  /** An accepted pair receives exactly opposite displacements, so the sum of
      all pending displacements is unchanged. */
  lemma RelaxPairConserves(ps: seq<Particle>, i: nat, j: nat, pressure: real, nearPressure: real,
                           delta: real, sqrt: real -> real)
    requires i < |ps| && j < |ps| && IsSqrt(sqrt)
    ensures var r := RelaxPair(ps, i, j, pressure, nearPressure, delta, sqrt);
      VecSum(Forces(r)) == VecSum(Forces(ps)) &&
      (Accepted(ps[i].position, ps[j].position) ==>
        i != j && Sub(r[i].f, ps[i].f) == Sub(ps[j].f, r[j].f)) &&
      (!Accepted(ps[i].position, ps[j].position) ==> r == ps)
  {
    var r := RelaxPair(ps, i, j, pressure, nearPressure, delta, sqrt);
    if Accepted(ps[i].position, ps[j].position) {
      SelfNotAccepted(ps[i].position);
      var d := Sub(r[j].f, ps[j].f);
      assert r[i].f == Sub(ps[i].f, d);
      assert Forces(r) == Forces(ps)[i := Sub(ps[i].f, d)][j := Add(ps[j].f, d)];
      OppositeUpdatesKeepSum(Forces(ps), i, j, d);
    }
  }

  function RelaxNeighbours(ps: seq<Particle>, i: nat, js: seq<nat>, pressure: real, nearPressure: real,
                           delta: real, sqrt: real -> real): (r: seq<Particle>)
    requires i < |ps| && IndicesBelow(js, |ps|) && IsSqrt(sqrt)
    ensures OnlyForcesChanged(ps, r)
    decreases |js|
  {
    if js == [] then ps
    else RelaxNeighbours(RelaxPair(ps, i, js[0], pressure, nearPressure, delta, sqrt),
                         i, js[1..], pressure, nearPressure, delta, sqrt)
  }

  lemma {:induction false} RelaxNeighboursConserves(ps: seq<Particle>, i: nat, js: seq<nat>,
      pressure: real, nearPressure: real, delta: real, sqrt: real -> real)
    requires i < |ps| && IndicesBelow(js, |ps|) && IsSqrt(sqrt)
    ensures VecSum(Forces(RelaxNeighbours(ps, i, js, pressure, nearPressure, delta, sqrt))) == VecSum(Forces(ps))
    decreases |js|
  {
    if js != [] {
      RelaxPairConserves(ps, i, js[0], pressure, nearPressure, delta, sqrt);
      RelaxNeighboursConserves(RelaxPair(ps, i, js[0], pressure, nearPressure, delta, sqrt),
                               i, js[1..], pressure, nearPressure, delta, sqrt);
    }
  }

  function Pressure(p: Particle): real { Stiffness * (p.density - RestDensity) }

  function NearPressure(p: Particle): real { NearStiffness * p.nearDensity }

  /** doubleDensityRelaxation from particle i on. */
  function RelaxFrom(ps: seq<Particle>, i: nat, near: Neighbours, delta: real, sqrt: real -> real): (r: seq<Particle>)
    requires NeighboursBelow(near, |ps|) && IsSqrt(sqrt)
    ensures OnlyForcesChanged(ps, r)
    decreases |ps| - i
  {
    if i >= |ps| then ps
    else
      var ps1 := RelaxNeighbours(ps, i, near(ps[i].position, i), Pressure(ps[i]), NearPressure(ps[i]), delta, sqrt);
      RelaxFrom(ps1, i + 1, near, delta, sqrt)
  }

  /** The relaxation as a whole leaves the total pending displacement unchanged. */
  lemma {:induction false} RelaxFromConserves(ps: seq<Particle>, i: nat, near: Neighbours, delta: real, sqrt: real -> real)
    requires NeighboursBelow(near, |ps|) && IsSqrt(sqrt)
    ensures VecSum(Forces(RelaxFrom(ps, i, near, delta, sqrt))) == VecSum(Forces(ps))
    decreases |ps| - i
  {
    if i < |ps| {
      assert IndicesBelow(near(ps[i].position, i), |ps|);
      var ps1 := RelaxNeighbours(ps, i, near(ps[i].position, i), Pressure(ps[i]), NearPressure(ps[i]), delta, sqrt);
      RelaxNeighboursConserves(ps, i, near(ps[i].position, i), Pressure(ps[i]), NearPressure(ps[i]), delta, sqrt);
      RelaxFromConserves(ps1, i + 1, near, delta, sqrt);
    }
  }
}
