# Hyperion engine core in Dafny

A verified model of the simulation and scene core of Hyperion, a toy game-engine editor written in Python. It covers four parts.

- **Component records** (`engine/core/component.py`): the component base class, the defaults of `Transform`, `Renderable` and `PhysicsBody`, and the body's in-place force accumulator.
- **Scene graph** (`engine/core/scene.py`): an `Entity` keeps its components in a dictionary keyed by type name. A `Scene` keeps its entities twice: in an ordered list and in an id-to-entity dictionary. `add_entity` does not check for duplicates, so the two views can disagree: after a duplicate add and one removal the list still holds the entity while the map no longer has its id. `SceneGraph.DuplicateSurvivesRemoval` proves the list half from `RemoveFirst` and restates the map half as the dictionary update followed by the delete.
- **SPH fluid step** (`engine/physics/sph.py`): a structure-of-arrays particle store and the pass pipeline:
  - density and pressure;
  - pressure, viscosity and gravity forces;
  - semi-implicit Euler integration with box collisions;
  - zeroing of the force buffer.

  The cubic-spline kernel and its gradient are polynomials in `q = r / h` (module `SphKernel`). Each pass is a method over arrays, proved against a function on sequences. The helper loops are separate methods so that each proof stays small: `NeighbourDensity`, `PairForces` and `Collide` are per-particle inner loops, and `Fill` initialises arrays.
- **Fracture** (`engine/physics/fracture.py`):
  - the Voronoi piece generation: region filtering and the XZ bounding rectangle extruded to the object's height;
  - the break-off rule that turns pieces into dynamic fragments;
  - the `DestructibleCube` state machine: health, a single fracture, fragments.

Outside influences become parameters:
- **Square root** (`np.sqrt`) is the parameter `sqrt: real -> real`. Lemmas that need a true root require `ExactRoot(sqrt)` or `NonNegativeRoot(sqrt)`.
- **Voronoi tessellation** (scipy's `Voronoi`) is the parameter `tessellate: seq<Point2> -> Voronoi`.
- **Random draws** (every `np.random` draw) are elements of sequences the caller supplies: the seed and impact offsets, the break-off factors, the fragment velocities and the initial particle positions.
- **Python's `id(self)`** is an `Entity` constructor argument.

Numbers are mathematical reals. π is the constant `SphKernel.Pi`.

Two details of the code that the model keeps as written:
- **Gravity:** the force pass adds only `gravity[1]`, to the y component (`engine/physics/sph.py:131`). `Sph.GravityKick` does the same, and `Sph.GravityOnlyOnY` states that gravity's x and z components never reach a force.
- **Gradient:** the gradient constant `24/(π h⁵)` (`engine/physics/sph.py:173`) is half of what differentiating `8/(π h⁴) W` with respect to r gives. `SphKernel.GradientIsHalfRadialDerivative` states the factor.

## Model

| member | source | states |
|---|---|---|
| Components.Component.constructor | engine/core/component.py:9-11 | a new component has no owning entity and is active |
| Components.Component.Update | engine/core/component.py:13-15 | the base per-frame hook changes nothing |
| Components.Transform.constructor | engine/core/component.py:20-23 | each absent argument defaults: position and rotation to (0,0,0), scale to (1,1,1); a given argument is kept |
| Components.Renderable.constructor | engine/core/component.py:52-55 | keeps the given mesh and material and is visible |
| Components.PhysicsBody.constructor | engine/core/component.py:60-65 | an absent mass is 1.0 and an absent is_static is false, given values are kept; velocity, acceleration and the fresh length-3 force buffer are zero |
| Components.PhysicsBody.AddForce | engine/core/component.py:67-69 | the buffer becomes the old force plus the argument, componentwise; mass, is_static, velocity and acceleration are unchanged |
| Components.PhysicsBody.ClearForces | engine/core/component.py:71-73 | every buffer component is 0 and nothing else changes |
| Components.AccumulatedIsTotal | engine/core/component.py:67-69 | successive add_force calls leave the start value plus the vector sum of the forces |
| Components.ClearedThenAccumulated | engine/core/component.py:67-73 | after clear_forces, successive add_force calls leave exactly the sum of the forces |
| SceneGraph.Attach | engine/core/scene.py:19-22 | the component is stored under its type name, replacing any earlier one; every other key keeps its value |
| SceneGraph.Detach | engine/core/scene.py:29-32 | only the named key disappears; an absent key leaves the dictionary unchanged |
| SceneGraph.IndexOf | engine/core/scene.py:52 | the index of the first occurrence: it holds the entity and no earlier slot does |
| SceneGraph.RemoveFirst | engine/core/scene.py:52 | list.remove: an absent entity changes nothing; otherwise exactly one copy of that entity leaves the multiset and the length drops by one |
| SceneGraph.IndexOfPrefix | engine/core/scene.py:52 | appending to a list that already holds the entity does not move its first occurrence |
| SceneGraph.Entity.constructor | engine/core/scene.py:12-17 | an absent name is "", a given name is kept; the id is kept; the entity is active, has no components and gets a default Transform |
| SceneGraph.Entity.AddComponent | engine/core/scene.py:19-23 | components become Attach(old, c); c's entity back-reference is this entity; nothing else changes |
| SceneGraph.Entity.GetComponent | engine/core/scene.py:25-27 | Some exactly when the type is a key, and then the stored component |
| SceneGraph.Entity.RemoveComponent | engine/core/scene.py:29-32 | components become Detach(old, type): only that key goes, and an absent type is a no-op |
| SceneGraph.Scene.constructor | engine/core/scene.py:37-39 | a new scene has no entities and an empty id map |
| SceneGraph.Scene.AddEntity | engine/core/scene.py:43-47 | appends without a duplicate check, maps the id to the entity, returns the same entity |
| SceneGraph.Scene.RemoveEntity | engine/core/scene.py:49-54 | an entity not in the list changes nothing; otherwise only its first occurrence leaves the list and its id leaves the map |
| SceneGraph.Scene.FindEntityByName | engine/core/scene.py:56-61 | None exactly when no entity has the name; otherwise the entity at the first position holding that name |
| SceneGraph.Scene.Update | engine/core/scene.py:63-69 | the components reached are exactly those of the active entities of the list |
| SceneGraph.DuplicateSurvivesRemoval | engine/core/scene.py:43-54 | adding an already listed entity and then removing it leaves a copy in the list (the list half, proved from RemoveFirst); the map half restates the dictionary update and delete that AddEntity and RemoveEntity perform: the id is no longer a key |
| SphKernel.KernelConstant | engine/physics/sph.py:41 | the normalisation 8/(π h⁴) is positive for h > 0 |
| SphKernel.GradientConstant | engine/physics/sph.py:173 | the gradient normalisation 24/(π h⁵) is positive for h > 0 |
| SphKernel.BranchesMeetAtHalf | engine/physics/sph.py:111-115 | both kernel branches give 1/4 at q = 0.5, so the kernel there is C/4 |
| SphKernel.Kernel | engine/physics/sph.py:110-116 | on [0, 1] the kernel lies between 0 and its peak 8/(π h⁴) at q = 0; KernelPositive, KernelVanishesAtSupportEdge and KernelContinuousAtHalf state the rest |
| SphKernel.InnerBranchBound | engine/physics/sph.py:113 | 1 - 6q² + 6q³ is at least 1/4 on [0, 1/2] |
| SphKernel.OuterBranchPositive | engine/physics/sph.py:115 | 2(1 - q)³ is positive below q = 1 |
| SphKernel.KernelPositive | engine/physics/sph.py:110-116 | the kernel is positive for 0 ≤ q < 1 |
| SphKernel.KernelVanishesAtSupportEdge | engine/physics/sph.py:115 | the kernel is 0 at q = 1 |
| SphKernel.InnerBranchNearHalf | engine/physics/sph.py:113 | on [0, 1/2] the inner branch lies within 2(1/2 - q) above its value at 1/2 |
| SphKernel.OuterBranchNearHalf | engine/physics/sph.py:115 | on [1/2, 1] the outer branch lies within 2(q - 1/2) below its value at 1/2 |
| SphKernel.KernelContinuousAtHalf | engine/physics/sph.py:110-116 | continuity at the branch point: on [0, 1] the kernel differs from C/4 by at most 2C·abs(q - 1/2) |
| SphKernel.InnerGradient | engine/physics/sph.py:172-173 | on [0, 1/2] the inner gradient branch lies in [-G/3, 0], with its minimum -G/3 at q = 1/3 |
| SphKernel.OuterGradient | engine/physics/sph.py:174-176 | on [1/2, 1] the outer gradient branch lies in [-G/4, 0] |
| SphKernel.GradientMagnitude | engine/physics/sph.py:169-176 | on [0, 1] the gradient magnitude lies in [-G/3, 0]; GradientNonPositive extends the sign to every q ≥ 0 |
| SphKernel.KernelGradient | engine/physics/sph.py:167-182 | r ≤ 1e-8 gives the zero vector; otherwise, when r is the length of d, the gradient's component along d/r is the gradient magnitude |
| SphKernel.GradientAlongOffset | engine/physics/sph.py:167-182 | the gradient is parallel to the offset d, as the source builds it from d / r times the magnitude: each pair of its components is in the ratio of d's |
| SphKernel.GradientNonPositive | engine/physics/sph.py:172-176 | the gradient magnitude is ≤ 0 for q ≥ 0 and < 0 strictly inside (0, 1), on both branches |
| SphKernel.GradientBranchesMeetAtHalf | engine/physics/sph.py:172-176 | InnerGradient and OuterGradient both give -G/4 at q = 0.5, and so does GradientMagnitude |
| SphKernel.GradientZeroWhenCoincident | engine/physics/sph.py:179-182 | r ≤ 1e-8 gives the zero vector |
| SphKernel.GradientPointsInward | engine/physics/sph.py:167-182 | the gradient for offset d never has a positive component along d |
| SphKernel.InnerSlopeIsDerivative | engine/physics/sph.py:113 | on the inner branch, a change of the kernel over a step e is e times KernelSlope plus C·e²·(18q + 6e - 6) |
| SphKernel.OuterSlopeIsDerivative | engine/physics/sph.py:115 | on the outer branch, a change of the kernel over a step e is e times KernelSlope plus C·e²·(6(1 - q) - 2e) |
| SphKernel.GradientIsHalfRadialDerivative | engine/physics/sph.py:167-176 | 2h times the gradient magnitude is the kernel's slope in q: the gradient is half of dW/dr |
| Sph.FlooredDensity | engine/physics/sph.py:118 | max(sum, 0.1 rest): at least the floor and the sum, and one of the two |
| Sph.Pressure | engine/physics/sph.py:119 | pressure times rest density is pressure_constant times (density - rest density) |
| Sph.DensityContribution | engine/physics/sph.py:98-116 | only another particle strictly inside the smoothing radius contributes, and under a non-negative root a contribution lies between 0 and 8/(π h⁴) |
| Sph.PressureSign | engine/physics/sph.py:119 | with pressure_constant = stiffness·rest, pressure is stiffness·(ρ - ρ0): zero at rest, positive above, negative below |
| Sph.DistSqSymmetric | engine/physics/sph.py:102-105 | the squared distance is symmetric and non-negative |
| Sph.DensityContributionSymmetric | engine/physics/sph.py:98-116 | j adds to i's density exactly what i adds to j's |
| Sph.ContributionNonNegative | engine/physics/sph.py:107-116 | no pair lowers a density, given a non-negative root |
| Sph.DensitySumNonNegative | engine/physics/sph.py:94-116 | the unfloored density sum is never negative |
| Sph.NeighbourInsideSupport | engine/physics/sph.py:107-111 | dist² < h² gives 0 ≤ q < 1 under an exact root, so the q ≤ 1 test always passes |
| Sph.NeighbourContributesPositively | engine/physics/sph.py:97-116 | every j ≠ i within the radius adds a positive amount |
| Sph.NoNeighbourNoDensity | engine/physics/sph.py:97-116 | with no j ≠ i within the radius the sum is 0 |
| Sph.NoInteractionNoPairForce | engine/physics/sph.py:136-159 | without a pair passing j ≠ i, dist² < h² and r > 1e-8, the pressure and viscosity forces are zero |
| Sph.GravityOnlyOnY | engine/physics/sph.py:131 | the force depends on gravity's y component only, and the external part is (0, g.y, 0) |
| Sph.GravityKick | engine/physics/sph.py:131 | the kick adds exactly (0, g.y, 0) to the force |
| Sph.IsolatedParticleFeelsOnlyGravity | engine/physics/sph.py:129-163 | a particle with no interacting partner gets exactly (0, g.y, 0) |
| Sph.PressurePushesApart | engine/physics/sph.py:150-155 | a non-negative pressure term adds no force component toward the partner |
| Sph.ClampAxesPerAxis | engine/physics/sph.py:199-205 | handling axes in order treats each one as if it were alone; unhandled axes are untouched |
| Sph.Advance | engine/physics/sph.py:190-196 | v becomes v + f·dt and p moves by v·dt + f·dt², the semi-implicit Euler step |
| Sph.ClampAxis | engine/physics/sph.py:199-205 | with lo ≤ hi on the axis, the coordinate ends inside [lo, hi]; a coordinate already inside changes nothing; one outside has its velocity component multiplied by the damping; the other axes are untouched |
| Sph.StepStaysInBox | engine/physics/sph.py:188-205 | with min ≤ max, the new position lies in [boundary_min, boundary_max] |
| Sph.DampingOnlyOnClampedAxis | engine/physics/sph.py:199-205 | an axis that left the box is set to the face and its velocity multiplied by the damping; any other axis keeps the Euler result |
| Sph.ClampAxesOnAxis | engine/physics/sph.py:199-205 | for any state, axis a of the three-axis boundary pass is set to the face and damped when outside, and kept when inside |
| Sph.FreeStepIsSemiImplicitEuler | engine/physics/sph.py:190-196 | inside the box a step is v += f·dt, then p += v·dt with the new velocity |
| Sph.ZeroStepIsIdentity | engine/physics/sph.py:188-205 | dt = 0 leaves a particle inside the box unchanged |
| Sph.CalculateDensitiesAndPressures | engine/physics/sph.py:87-119 | every density is the floored kernel sum over the other particles; every pressure is the equation of state of that density |
| Sph.NeighbourDensity | engine/physics/sph.py:94-116 | particle i's loop returns DensitySum over all particles |
| Sph.CalculateForces | engine/physics/sph.py:122-163 | every force is the old force, plus gravity's y, plus the pressure and viscosity sums over interacting pairs |
| Sph.PairForces | engine/physics/sph.py:133-159 | particle i's loop returns PressureForce and ViscosityForce over all particles |
| Sph.IntegrateMotion | engine/physics/sph.py:185-205 | every particle's new position and velocity are IntegrateParticle of its old ones and its force |
| Sph.Collide | engine/physics/sph.py:198-205 | the axis loop equals ClampAxes over all three axes |
| Sph.Fill | engine/physics/sph.py:84 | every element becomes the value |
| Sph.SPHSystem.constructor | engine/physics/sph.py:13-42 | every absent argument takes its default (5000 particles, h = 0.1, rest density 1000, viscosity 0.1, stiffness 3, gravity (0, -9.81, 0)) and a given one is kept; velocities, pressures and forces are zero, densities are the rest density, the box is (-3,-1,-3)..(3,5,3) with damping -0.5, and the two constants are as the source computes them |
| Sph.SPHSystem.ComputeForces | engine/physics/sph.py:44-69 | the density and force passes: floored densities, their pressures, and each force equal to ForceOn of the new store |
| Sph.SPHSystem.Update | engine/physics/sph.py:44-84 | one step is the density pass, the force pass from the zeroed buffer, and IntegrateParticle with those forces; afterwards the invariants hold again (density floor, zero forces, every particle in the box); dt = 0 changes no particle of a store that was inside the box |
| Sph.StepsStayInBox | engine/physics/sph.py:186-205 | after the integration pass every particle is in the box, and a zero step leaves a contained store as it was |
| Sph.LoneParticleDensity | engine/physics/sph.py:94-118 | a single particle has density sum 0 and gets the floor 0.1 rest |
| Fracture.Scatter | engine/physics/fracture.py:48-53 | the start list followed, in order, by center + offset·size for each offset |
| Fracture.ScatterPoints | engine/physics/fracture.py:48-53 | the appending loop builds exactly Scatter |
| Fracture.MinOf | engine/physics/fracture.py:70 | vertices.min: an element that no element is below |
| Fracture.MaxOf | engine/physics/fracture.py:71 | vertices.max: an element that no element exceeds |
| Fracture.BoxPiece | engine/physics/fracture.py:77-84 | the piece's centre ∓ half its size gives back the two corners |
| Fracture.PieceOf | engine/physics/fracture.py:66-84 | the piece runs in y from the object's bottom to its top |
| Fracture.PieceCoversRegion | engine/physics/fracture.py:66-78 | every vertex of the region lies in the piece's XZ rectangle |
| Fracture.PieceIsTight | engine/physics/fracture.py:70-78 | each of the rectangle's four edges passes through a vertex of the region |
| Fracture.UsableRegionIndices | engine/physics/fracture.py:61-66 | a region without -1 of a well-indexed tessellation indexes only existing vertices |
| Fracture.PiecesBound | engine/physics/fracture.py:59-86 | no more pieces than regions, and none when every region is empty or contains -1 |
| Fracture.PiecesComeFromUsableRegions | engine/physics/fracture.py:61-84 | every piece is the piece of a non-empty region without -1 |
| Fracture.UsableRegionsYieldPieces | engine/physics/fracture.py:61-84 | every non-empty region without -1 yields its piece |
| Fracture.PiecesSpanObjectHeight | engine/physics/fracture.py:44-78 | every piece's y size is the object's and its y centre is the object's |
| Fracture.BreakOffBands | engine/physics/fracture.py:101 | volume < 0.1 always breaks off, ≥ 0.5 never, in between exactly when the factor is < 1 |
| Fracture.BreaksOff | engine/physics/fracture.py:101 | a piece that breaks off has volume < 0.5, and every piece under 0.1 breaks off |
| Fracture.MakeFragment | engine/physics/fracture.py:103-115 | the fragment is dynamic, carries the drawn velocity, and gives back its piece: the same box, and volume = mass / 1000 |
| Fracture.FragmentsBound | engine/physics/fracture.py:90-117 | no more fragments than pieces, and none when no piece breaks off |
| Fracture.FragmentsComeFromBrokenPieces | engine/physics/fracture.py:92-115 | every fragment is that of a piece that breaks off |
| Fracture.BrokenPiecesYieldFragments | engine/physics/fracture.py:92-115 | every piece that breaks off yields its fragment |
| Fracture.FragmentsAreDynamic | engine/physics/fracture.py:103-106 | every fragment is not static and has mass 1000 × its piece's volume |
| Fracture.SmallPiecesAlwaysBreak | engine/physics/fracture.py:101 | pieces under 0.1 are always in the output; with all pieces ≥ 0.5 the output is empty |
| Fracture.GenerateVoronoiFracture | engine/physics/fracture.py:40-86 | the pieces are those of the tessellation of the fracture points plus five scattered seeds, each as tall as the object and centred on it in y |
| Fracture.CalculateFracturePieces | engine/physics/fracture.py:88-117 | the loop keeps exactly the pieces that break off, in order, as fragments |
| Fracture.FractureObject | engine/physics/fracture.py:17-38 | generation, then selection; never more fragments than regions |
| Fracture.DestructibleCube.constructor | engine/physics/fracture.py:123-129 | health 100, intact, no fragments |
| Fracture.DestructibleCube.ApplyDamage | engine/physics/fracture.py:131-159 | health drops by exactly the damage; the cube fractures exactly when it was intact and health is now ≤ 0; otherwise intact and fragments are unchanged. In terms of is_broken: broken afterwards exactly when broken before or health is now ≤ 0, and a cube already broken keeps its fragments, so it never fractures again |
| Fracture.DestructibleCube.Fracture | engine/physics/fracture.py:138-155 | the fragments are those of the impact point plus three scattered points; the cube is no longer intact; health is unchanged |
| Fracture.DestructibleCube.GetFragments | engine/physics/fracture.py:161-163 | empty while intact, the fragments once broken; under the invariant "intact implies no fragments" that is always the stored list |

## Left out

- Rendering, the Qt application shell and main.py: GPU calls, GUI plumbing and demo wiring outside the simulation core.
- `Transform.get_matrix` and the camera's placeholder matrices: trigonometric floating-point matrix code.
- `Camera`, `Scene.camera` and `Scene.lights`: unused containers with no behaviour.
- Floating-point behaviour: float32 storage, rounding, NaN and infinity. The model computes over reals, so numeric force values are exact, not float32.
- `np.sqrt` and π: the root is the parameter `sqrt`, and π is a fixed real constant. Only the positivity of 8/(π h⁴) and 24/(π h⁵) matters to the proofs.
- `prange` parallelism: each pass is a sequential loop. Iterations only write to their own index, so order does not matter.
- All random draws (initial positions, seed and impact offsets, break-off factors, fragment velocities) are parameters. Only the initial positions are constrained: `Sph.SPHSystem.constructor` requires them inside [-1, 1]³, the range of the source's uniform draw, so that the store starts inside the boundary box. The ranges of the other draws are not required, because no proof depends on them.
- scipy's `Voronoi`: it is the parameter `tessellate`. `Fracture.WellIndexed` states the indexing guarantee scipy gives. Degenerate seed sets, for which scipy raises, are not modelled.
- Momentum conservation of the pressure force: the source's pressure term divides only by `densities[j]`, so the pair forces are not antisymmetric.
- Python truthiness of `x or default` on numpy arrays: optional arguments are `Option` values, so a given array is simply kept. In the source, `Transform(position=piece['position'])` (`engine/physics/fracture.py:112`) passes a length-3 numpy array, and `position or [...]` (`engine/core/component.py:21`) raises `ValueError` for it. So every fracture that breaks off at least one piece raises out of `apply_damage` before `self.intact = False` (`engine/physics/fracture.py:155`), and the cube stays intact with health ≤ 0. The same holds for a gravity array passed to `SPHSystem` (`engine/physics/sph.py:26`). The model's "a cube fractures exactly once" holds under the `Option` reading only.
- Duck typing: an `Entity` attaches only `Components.Component` objects. `Renderable` and `PhysicsBody` are separate classes, and type names are an explicit `typeName` field.
- SceneGraph.Scene.Update: the model attaches only `Components.Component` objects, whose `update` hook is the base class's no-op, so in the model every component reached has the hook. In the source, `Transform`, `Renderable` and `PhysicsBody` have no `update` method, and `hasattr` (`engine/core/scene.py:68`) skips them. The method returns the set of components reached as a ghost value.
- Fracture.FractureObject: fragments are values (`Fragment`) holding the fields the source puts into a new `Transform` and `PhysicsBody`, not freshly allocated objects. The body's acceleration and force buffer, which start at zero, are not carried.
- Fracture.CalculateFracturePieces: `stress_threshold` is computed by the source but never read, so it is omitted. The velocity for piece k is `kicks[k]`, not the next value of one shared random stream.
- Fracture.DestructibleCube.ApplyDamage: the draws need to be adequate only when a fracture happens. The fracture system's unused `voronoi_points` list is not modelled.
- Sph.SPHSystem.constructor: initial positions are a caller-supplied sequence inside [-1, 1]³, standing for the uniform draw. The constructor also requires h > 0 and rest density > 0, which the store's invariant needs. The source itself fails only for h = 0 (division by zero at `engine/physics/sph.py:41`) or rest density 0 (`engine/physics/sph.py:119`), and runs with negative values.
