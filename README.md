# 2D SPH water simulation — Dafny model

This project models the simulation core of a 2D particle-based water
simulation (`simulation.js`). The core follows Clavet et al., "Particle-based
Viscoelastic Fluid Simulation". The model covers:

- the three entity kinds: capsule obstacles, fluid particles and emitters,
  with their constructors and implicit functions;
- one frame of `update`:
  - emitters fire, and particles outside the world are culled;
  - the first particle loop applies the pending displacement, resets the
    accumulators, predicts the velocity, adds gravity and applies viscosity
    impulses;
  - the second loop advances the particles, accumulates the two densities and
    resolves collisions against every capsule;
  - a double density relaxation then rebuilds the pending displacements;
- the editing operations behind the GUI: drawing, committing, cancelling and
  removing capsules; adding, finding, selecting and removing emitters; reset.

Module layout:

| file | module | what it holds |
|---|---|---|
| `vectors.dfy` | `Vectors` | `Vec`, the gl-vec2 operations on exact reals, the square-root oracle `IsSqrt`, `Math.sign` |
| `seqs.dfy` | `Seqs` | an order-preserving `Filter` (the splice loops), `VecSum` |
| `entities.dfy` | `Entities` | constants, the `Capsule`/`Particle`/`Emitter` datatypes, constructors, `eval`s |
| `collision.dfy` | `Collision` | `handleCollision` as functions on a position |
| `passes.dfy` | `Passes` | viscosity, densities and relaxation as functions on the particle list |
| `frame.dfy` | `Frame` | the two particle loops of `update` and the invariants of a frame |
| `emission.dfy` | `Emission` | `emitParticles` as functions on the emitter and particle lists |
| `simulation.dfy` | `Sim` | the `Simulation` class: fields updated in place by methods with loops |

The class methods carry the source's loops. They mutate the class fields and
are proved against the functions of the other modules. Each loop's
invariant says that the function applied to the remaining work equals the
function applied to all of it. The properties the source promises are lemmas
about those functions.

`Math.sqrt`, `Math.cos`, `Math.sin` and `Math.random` are not interpreted:
- `sqrt` is a parameter; the model assumes only `sqrt(v) >= 0` and
  `sqrt(v) * sqrt(v) == v` for `v >= 0` (`IsSqrt`);
- `cos` and `sin` are parameters;
- each `Math.random()` draw is the value of a parameter
  `rand(emitter index, j, axis)`, known only to lie in `[0, 1)` (`IsRandom`).

The spatial hash is a parameter `near` of type `Neighbours`. It maps the
querying particle's position and index to candidate indices below the list
length.

## Model

| member | source | states |
|---|---|---|
| Vectors.Sign | simulation.js:421 | `Math.sign`: the result is -1, 0 or 1, has the sign of its argument, and is 0 exactly at 0 |
| Entities.NewCapsule | simulation.js:13-20 | endpoints and radius are stored multiplied by WORLD_SCALE: dividing by it gives the arguments back; the colour is kept |
| Entities.NewParticle | simulation.js:22-36 | position and velocity are scaled once by WORLD_SCALE; `o` equals the position, `f` is zero, `isNew` is set, the radius is the support radius `h` |
| Entities.NewEmitter | simulation.js:65-80 | the emitter keeps its (unscaled) position, starts with timer 0 and has a positive radius |
| Entities.Clamp01 | simulation.js:52 | `clamp(t, 0, 1)` is in [0, 1], equals t inside it, 0 below and 1 above |
| Entities.CapsuleEval | simulation.js:42-59 | `Capsule.prototype.eval`: `Fx + radius` is non-negative and is the Euclidean distance from x to the closest point q of the segment |
| Entities.ClosestPointIsNearest | simulation.js:48-55 | the point q computed from the clamped projection parameter is no farther from x than any point of the segment |
| Entities.CapsuleEvalSign | simulation.js:42-59 | `Capsule.eval(x) <= 0` exactly when the squared distance from x to q is at most radius squared |
| Entities.CapsuleEvalMeaning | simulation.js:38-59 | a positive `eval` means every segment point is farther than the radius (outside); a non-positive one means some segment point is within it |
| Entities.EmitterEval | simulation.js:82-91 | `Emitter.prototype.eval`: `Fx + radius` is non-negative and is the Euclidean distance from x to the emitter |
| Entities.EmitterEvalSign | simulation.js:82-91 | `Emitter.eval(x) <= 0` exactly when x lies within the emitter's radius of its position |
| Collision.CollideOne | simulation.js:396-426 | the body of the capsule loop: a capsule that does not contain the particle leaves it where it is; one that does moves it by a non-negative multiple of x - q, away from the closest point |
| Collision.CollideAll | simulation.js:389-427 | `handleCollision`'s capsule loop, every capsule in order: a particle that no capsule contains is not moved |
| Collision.CollideOneOutside | simulation.js:410-425 | a capsule whose implicit function is non-negative at the particle leaves it where it is (the normal is scaled by `-sign(0)` = 0 on the border); so does a zero-length capsule, whose implicit function is NaN and fails the test `Fx <= 0` |
| Collision.CollideOneInside | simulation.js:413-424 | strictly inside, the particle moves by `-Fx * collisionDamping` along the unit vector from q to it, so its distance from q grows by exactly that amount |
| Collision.CollideAllOutside | simulation.js:389-427 | a particle that no capsule contains is not moved by the collision loop |
| Passes.SelfNotAccepted | simulation.js:243-246 | the guard `r2 <= 0 \|\| r2 > h*h` rejects a particle paired with itself |
| Passes.AcceptedKernel | simulation.js:243-253 | for an accepted pair 0 < r <= h, so `1 - r/h` lies in [0, 1) |
| Passes.ViscosityImpulse | simulation.js:260-275 | T is capped by u: at most u when u > 0, at least u otherwise |
| Passes.ViscosityImpulseBounds | simulation.js:260-275 | with non-negative kernel and time step, T lies between 0 and u |
| Passes.ViscosityPair | simulation.js:237-281 | one candidate pair changes only the velocities of particles i and j; for an accepted pair, i loses and j gains exactly T·n, where n is the unit separation and T the clamped impulse `ViscosityImpulse(u, 1 − r/h, delta)` of the closing speed u |
| Passes.ViscosityPairConserves | simulation.js:277-281 | the velocity changes of i and j are opposite vectors, so the sum of velocities is unchanged; a rejected pair changes nothing |
| Passes.ViscosityFrom | simulation.js:234-283 | `doViscosityImpules` changes only velocities and keeps the list length |
| Passes.ViscosityFromConserves | simulation.js:234-283 | the whole viscosity call for one particle keeps the sum of velocities |
| Passes.Weight | simulation.js:303-304 | the kernel weight `a = 1 - r/h` of an accepted pair lies in [0, 1) |
| Passes.DensityPair | simulation.js:290-314 | one pair only increases the densities of i and j and changes nothing else |
| Passes.DensityPairSymmetric | simulation.js:303-313 | i and j receive the same increments, a² to density and a³ to near density, both non-negative |
| Passes.DensityFrom | simulation.js:287-315 | `computeDensities` only increases densities and near densities |
| Passes.RelaxPair | simulation.js:441-458 | one pair changes only the pending displacements f of i and j; for an accepted pair, f of i gains and f of j loses exactly DA = dp · D / r, with D = delta² (P·a + Pnear·a²) / 2 and a = 1 − r/h |
| Passes.RelaxPairConserves | simulation.js:454-458 | the changes to f of i and j are opposite vectors, so the sum of f is unchanged; a rejected pair changes nothing |
| Passes.RelaxNeighbours | simulation.js:441-459 | a particle's relaxation loop changes only f |
| Passes.RelaxNeighboursConserves | simulation.js:441-459 | a particle's relaxation loop keeps the sum of f |
| Passes.RelaxFrom | simulation.js:431-462 | `doubleDensityRelaxation` changes only f |
| Passes.RelaxFromConserves | simulation.js:431-462 | `doubleDensityRelaxation` keeps the sum of f over all particles |
| Frame.Prepare | simulation.js:192-208 | the first loop's work on one particle: moved by f; f, density and near density reset to 0; no longer new; velocity is the position change since `o` (kept for a new particle) plus gravity |
| Frame.Phase1FromPrepares | simulation.js:189-211 | after the first loop (`Phase1From`), which keeps the number of particles, every particle has moved by last frame's f and has f = 0, density 0, near density 0, `isNew` cleared, and unchanged colour, radius and o |
| Frame.Advance | simulation.js:219-220 | the snapshot `o` is the old position and the new position is `o` plus the velocity; nothing else changes |
| Frame.Phase2FromKeeps | simulation.js:214-228 | the second loop (`Phase2From`), which keeps the number of particles, leaves f and `isNew` alone and only increases densities |
| Frame.FrameInvariants | simulation.js:189-231 | after a frame (`FrameParticles`: both loops and the relaxation, number of particles kept) no particle is new, all densities are non-negative, and the rebuilt displacements f sum to zero |
| Seqs.Filter | simulation.js:317-327 | the order-keeping filter that the splice loops compute: never longer than its input, every kept element passes the test and comes from the input |
| Seqs.FilterKeepsExactly | simulation.js:317-327 | a splice-filter keeps exactly the elements that pass the test |
| Seqs.FilterSkipsRejected | simulation.js:322-325 | splicing out an element that fails the test and stepping back does not change the final result |
| Seqs.FilterIdempotent | simulation.js:317-327 | culling twice removes nothing more than culling once |
| Seqs.FilterIdentity | simulation.js:317-327 | the cull leaves the list unchanged exactly when every particle passes the test |
| Emission.RandomArbitrary | simulation.js:156-158 | `getRandomArbitrary(min, max)` lies in [min, max] for a draw in [0, 1) |
| Emission.Spawned | simulation.js:363-372 | one push of the j loop: the particle's unscaled position is the emitter position + 0.8·j·v; it is new, with f = 0, o = position, radius h and the emitter's colour |
| Emission.Jet | simulation.js:363-373 | the three particles of one event: the middle one sits at the emitter and the outer ones are equally spaced on either side, 0.8·v apart (unscaled); all are new, in the emitter's colour |
| Emission.EmitOne | simulation.js:332-376 | one iteration of the emitter loop appends zero or three particles after the old ones and never moves the emitter or changes its period |
| Emission.EmitOneEffect | simulation.js:334-375 | the timer grows by delta; when it then exceeds the period and the cap allows, exactly three particles are appended after the old ones and the timer is 0; otherwise nothing is appended and the timer keeps its new value; only timer and angle change |
| Emission.EmitOneAngle | simulation.js:342-352 | on emission a non-rotating emitter ends at its base angle, a rotating one advances by twice its angular velocity |
| Emission.SpawnedParticle | simulation.js:356-372 | the particle at offset j lies at emitter position + 0.8·j·v (v the jet velocity turned a quarter turn), scaled once by WORLD_SCALE; the middle one is at the emitter; it is new, with f = 0, o = position, the emitter's colour, and velocity within ±velRand·0.0001 of the jet velocity per axis |
| Emission.EmitOneParticles | simulation.js:363-372 | the three appended particles are the ones spawned at j = -1, 0, 1 |
| Emission.EmitFromAppends | simulation.js:329-378 | the emitter loop (`EmitFrom`) keeps the number of emitters, only appends particles, at most three per emitter, and no emitter moves |
| Emission.EmitFromRespectsCap | simulation.js:338 | with the cap on, fewer than maxParticles + 3 particles stay fewer than maxParticles + 3 |
| Emission.FreshEmitterScenario | simulation.js:65-80 | a default emitter stepped by 0.06 emits three particles at its base angle 70 and resets its timer; a further step of 0.01 emits nothing |
| Sim.InitialBodies | simulation.js:136-145 | seven capsules in the capsule colour: four frame walls of radius FRAME_RADIUS and three obstacles of radius CAPSULE_RADIUS, scaled |
| Sim.InitialBodiesNonDegenerate | simulation.js:139-145 | every initial capsule has non-zero length, so its implicit function is a number and it takes part in collisions |
| Sim.NewCapsuleNonDegenerate | simulation.js:13-20 | scaling by WORLD_SCALE keeps a capsule of non-zero length non-degenerate |
| Sim.UnscaleRescale | simulation.js:527-529 | dividing a mapped mouse position by WORLD_SCALE and letting a constructor scale it again gives the position back |
| Sim.InWorld | simulation.js:321-322 | the cull test keeps a particle exactly when its unscaled position lies in [-0.6, 0.6] × [-0.6, 0.9], borders included |
| Sim.FirstHit | simulation.js:537-545 | the least index whose emitter contains the point, or -1 when none does |
| Sim.Simulation.constructor | simulation.js:123-153 | no particles and no capsule being drawn; the seven initial capsules; one default emitter at (-0.1, -0.15); cap on at 1500 |
| Sim.Simulation.Reset | simulation.js:163-165 | the particle list becomes empty; nothing else changes |
| Sim.Simulation.RemoveOutOfBoundsParticles | simulation.js:317-327 | the new list is the old one filtered by "inside the scaled world box on both axes", order kept; its members are exactly the old members inside the box |
| Sim.Simulation.EmitParticles | simulation.js:329-378 | emitters and particles become those of the emission functions |
| Sim.Simulation.StepEmitter | simulation.js:332-375 | one iteration of the emitter loop computes exactly `EmitOne` |
| Sim.Simulation.PushJet | simulation.js:363-373 | the j loop of an emission event appends exactly the three particles of `Jet`, after the old ones |
| Sim.Simulation.DoViscosityImpulses | simulation.js:234-283 | the particle list becomes `ViscosityFrom` of the old one |
| Sim.Simulation.ComputeDensities | simulation.js:287-315 | the particle list becomes `DensityFrom` of the old one |
| Sim.Simulation.HandleCollision | simulation.js:381-428 | only particle i changes, and only its position, to the result of colliding with every capsule in order |
| Sim.Simulation.DoubleDensityRelaxation | simulation.js:431-462 | the particle list becomes `RelaxFrom` of the old one |
| Sim.Simulation.PredictAndDamp | simulation.js:189-211 | the first particle loop computes `Phase1From` |
| Sim.Simulation.AdvanceAndCollide | simulation.js:214-228 | the second particle loop computes `Phase2From` |
| Sim.Simulation.StepFluid | simulation.js:187-231 | the two loops and the relaxation compute `FrameParticles`; afterwards no particle is new, densities are non-negative and f sums to zero |
| Sim.Simulation.Update | simulation.js:167-231 | the drawn capsule's p1 follows the mouse; emitters fire, the list is culled and one frame is run; the frame invariants hold and the particle cap bound is kept |
| Sim.Simulation.AddCapsule | simulation.js:511-525 | first call: a capsule from the mouse to the mouse, radius scaled, becomes the drawn one; second call: the drawn capsule is appended to the bodies and drawing ends |
| Sim.Simulation.CancelAddCapsule | simulation.js:565-567 | drawing ends; the bodies are unchanged |
| Sim.Simulation.RemoveCapsule | simulation.js:493-509 | exactly the capsules whose implicit function is non-positive at the mouse are removed (never a zero-length one, whose test compares NaN); the others keep their order |
| Sim.Simulation.AddEmitter | simulation.js:527-530 | a default emitter at the mouse divided by WORLD_SCALE is appended |
| Sim.Simulation.FindEmitter | simulation.js:533-546 | the least index of an emitter containing the mouse (divided by WORLD_SCALE), or -1 |
| Sim.Simulation.RemoveEmitter | simulation.js:549-554 | the first emitter under the mouse is spliced out; without one nothing changes |
| Sim.Simulation.SelectEmitter | simulation.js:556-563 | the first emitter under the mouse, or nothing |

## Left out

- Rendering (`draw`, the renderer, canvas sizes) is left out: it does not affect the simulation state.
- `mapMousePos`, `getMinPos` and `getMaxPos` are left out. They are pixel-to-world conversions; every operation takes the already mapped mouse position as an input point.
- `spatial_hash.js` is not part of this model. The hash is a parameter `near` that returns candidate indices below the list length. Which particles it returns is not modelled.
- `data_types.js` is not part of this model. `WORLD_SCALE` is a positive constant of unknown value.
- Floating-point rounding, NaN and infinities are left out. Arithmetic is on exact reals. The two divisions by zero in the collision code are handled as follows:
  - For a zero-length capsule, `eval` divides 0 by 0. The resulting NaN makes `Fx <= 0` false, so the source ignores such a capsule in `handleCollision` and `removeCapsule`. The model's `Contains` is false for it, with the same effect.
  - A particle inside or on a capsule must not sit exactly on the closest point. There the source divides by `|x - q| = 0` and writes NaN into the position; the model makes this case a precondition (`ContactDefined`).
- `Math.sqrt`, `Math.cos`, `Math.sin` and `Math.random` are oracles passed as parameters. Only the properties listed above are assumed of them.
- Particles, capsules and emitters are values held in sequences, not shared objects. So the model does not capture aliasing. For example, the emitter returned by `selectEmitter` is a copy, whereas the GUI edits the live object. GUI-bound `{val: …}` wrappers are plain fields.
- The density fields of a new particle are undefined in the source; the model starts them at 0. They are reset before being read.
- The module-level `timeCount` variable is left out; nothing reads or writes it.
- Parts of `emitParticles` and `update` are separate methods, which keeps each proof small; the statements are those of the source, in the same order. `StepEmitter` is the body of the emitter loop, and `PushJet` its inner j loop. `PredictAndDamp` and `AdvanceAndCollide` are the two particle loops of `update`. `StepFluid` runs both loops and then the relaxation.

Behaviour of simulation.js worth noting, modelled as written:
- The three emitted particles are offset by `0.8·j·v`, where v is the jet velocity turned a quarter turn, so its length is `strength`. The offset is not a multiple of the support radius.
- The spatial hash is filled once per frame, from the culled list (simulation.js:187). All three pair passes query it, including the density pass after the particles have advanced; it is not rebuilt before that pass. The model uses one `near` per frame accordingly.
- `handleCollision` has no guard against division by zero. The model handles the two cases as listed above. The pair passes divide only by `r`, after the filter `r2 > 0`.
- The `Emitter` constructor ignores its `frequency` argument and always uses 0.05.
- The emitter angle advances twice per emission event when `angleVelocity != 0`: once before the direction is taken and once after. This is modelled as written (`EmitOneAngle`).
