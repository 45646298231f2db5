/**
 * The SPH fluid simulator (engine/physics/sph.py): a structure-of-arrays
 * particle store and the per-step pipeline density/pressure pass, force
 * pass, integration with box collisions, force reset.
 *
 * The square root the passes take of squared distances (`np.sqrt`) is a
 * parameter `sqrt`; the lemmas that need it to be a real square root say so.
 */
module Sph {
  import opened Wrappers
  import opened Vectors
  import opened SphKernel

  /** `dx*dx + dy*dy + dz*dz` for the offset `a - b`. */
  function DistSq(a: Vec3, b: Vec3): real {
    var d := Sub(a, b);
    d.x * d.x + d.y * d.y + d.z * d.z
  }

  /** `sqrt` never returns a negative number for a non-negative argument. */
  ghost predicate NonNegativeRoot(sqrt: real -> real) {
    forall x :: 0.0 <= x ==> 0.0 <= sqrt(x)
  }

  /** `sqrt` is the real square root on non-negative arguments. */
  ghost predicate ExactRoot(sqrt: real -> real) {
    forall x :: 0.0 <= x ==> 0.0 <= sqrt(x) && sqrt(x) * sqrt(x) == x
  }

  // ---------------------------------------------------------------------
  // Density and pressure

  /**
   * What particle j adds to particle i's density: the kernel at q = r / h
   * when j != i, dist^2 < h^2 and q <= 1; nothing otherwise. Only another
   * particle strictly within the smoothing radius contributes, and what it
   * contributes lies between 0 and the kernel's peak when the root is exact.
   */
  function DensityContribution(ps: seq<Vec3>, i: nat, j: nat, h: real, sqrt: real -> real): (c: real)
    requires i < |ps| && j < |ps| && h > 0.0
    ensures c != 0.0 ==> i != j && DistSq(ps[i], ps[j]) < h * h
    ensures NonNegativeRoot(sqrt) ==> 0.0 <= c <= KernelConstant(h)
  {
    if i == j then 0.0
    else
      var distSq := DistSq(ps[i], ps[j]);
      if distSq < h * h then
        var q := sqrt(distSq) / h;
        if q <= 1.0 then Kernel(q, h) else 0.0
      else 0.0
  }

  /** The density sum of particle i over the particles j < m. */
  function DensitySum(ps: seq<Vec3>, i: nat, m: nat, h: real, sqrt: real -> real): real
    requires i < |ps| && m <= |ps| && h > 0.0
  {
    if m == 0 then 0.0
    else DensitySum(ps, i, m - 1, h, sqrt) + DensityContribution(ps, i, m - 1, h, sqrt)
  }

  /** `max(sum, rest_density * 0.1)`: the density floor. */
  function FlooredDensity(sum: real, restDensity: real): (d: real)
    ensures d >= restDensity * 0.1 && d >= sum
    ensures d == sum || d == restDensity * 0.1
  {
    if sum >= restDensity * 0.1 then sum else restDensity * 0.1
  }

  /** The equation of state `pressure_constant * (density / rest_density - 1)`. */
  function Pressure(density: real, restDensity: real, pressureConstant: real): (p: real)
    requires restDensity != 0.0
    ensures p * restDensity == pressureConstant * (density - restDensity)
  {
    assert density / restDensity * restDensity == density;
    pressureConstant * (density / restDensity - 1.0)
  }

  /**
   * With pressure_constant = stiffness * rest_density the pressure is
   * stiffness * (density - rest_density): zero at rest density, positive
   * above it and negative below it.
   */
  lemma PressureSign(density: real, restDensity: real, stiffness: real)
    requires restDensity > 0.0 && stiffness > 0.0
    ensures Pressure(density, restDensity, stiffness * restDensity) == stiffness * (density - restDensity)
    ensures density == restDensity ==> Pressure(density, restDensity, stiffness * restDensity) == 0.0
    ensures density > restDensity ==> Pressure(density, restDensity, stiffness * restDensity) > 0.0
    ensures density < restDensity ==> Pressure(density, restDensity, stiffness * restDensity) < 0.0
  {
    var ratio := density / restDensity;
    assert restDensity * ratio == density;
    calc {
      Pressure(density, restDensity, stiffness * restDensity);
    ==
      (stiffness * restDensity) * (ratio - 1.0);
    ==
      stiffness * (restDensity * ratio - restDensity);
    ==
      stiffness * (density - restDensity);
    }
    assert density > restDensity ==> stiffness * (density - restDensity) > 0.0;
    assert density < restDensity ==> stiffness * (restDensity - density) > 0.0;
  }

  /** Squared distance does not depend on the order of the pair. */
  lemma DistSqSymmetric(a: Vec3, b: Vec3)
    ensures DistSq(a, b) == DistSq(b, a)
    ensures DistSq(a, b) >= 0.0
  {
    var d := Sub(a, b);
    var e := Sub(b, a);
    assert e.x * e.x == d.x * d.x && e.y * e.y == d.y * d.y && e.z * e.z == d.z * d.z;
    assert d.x * d.x >= 0.0 && d.y * d.y >= 0.0 && d.z * d.z >= 0.0;
  }

  /** Kernel symmetry: j contributes to i's density exactly what i contributes to j's. */
  lemma DensityContributionSymmetric(ps: seq<Vec3>, i: nat, j: nat, h: real, sqrt: real -> real)
    requires i < |ps| && j < |ps| && h > 0.0
    ensures DensityContribution(ps, i, j, h, sqrt) == DensityContribution(ps, j, i, h, sqrt)
  {
    DistSqSymmetric(ps[i], ps[j]);
  }

  /** A kernel contribution is never negative when the root is non-negative. */
  lemma ContributionNonNegative(ps: seq<Vec3>, i: nat, j: nat, h: real, sqrt: real -> real)
    requires i < |ps| && j < |ps| && h > 0.0 && NonNegativeRoot(sqrt)
    ensures DensityContribution(ps, i, j, h, sqrt) >= 0.0
  {
    if i != j {
      var distSq := DistSq(ps[i], ps[j]);
      DistSqSymmetric(ps[i], ps[j]);
      if distSq < h * h {
        var q := sqrt(distSq) / h;
        assert q >= 0.0;
        if q < 1.0 {
          KernelPositive(q, h);
        } else if q == 1.0 {
          KernelVanishesAtSupportEdge(h);
        }
      }
    }
  }

  /** The unfloored density sum is never negative. */
  lemma {:induction false} DensitySumNonNegative(ps: seq<Vec3>, i: nat, m: nat, h: real, sqrt: real -> real)
    requires i < |ps| && m <= |ps| && h > 0.0 && NonNegativeRoot(sqrt)
    ensures DensitySum(ps, i, m, h, sqrt) >= 0.0
  {
    if m > 0 {
      DensitySumNonNegative(ps, i, m - 1, h, sqrt);
      ContributionNonNegative(ps, i, m - 1, h, sqrt);
    }
  }

  /** With an exact root, dist^2 < h^2 gives q = r / h < 1, so the source's `q <= 1` test always passes. */
  lemma NeighbourInsideSupport(distSq: real, h: real, sqrt: real -> real)
    requires h > 0.0 && 0.0 <= distSq < h * h && ExactRoot(sqrt)
    ensures 0.0 <= sqrt(distSq) / h < 1.0
  {
    var r := sqrt(distSq);
    assert r >= 0.0 && r * r == distSq;
    if r >= h {
      MulMonotone(h, r, r);
      MulMonotone(h, r, h);
      assert false;
    }
    var q := r / h;
    assert q * h == r;
    if q >= 1.0 {
      MulMonotone(1.0, q, h);
      assert false;
    }
  }

  /** Multiplying by a non-negative factor keeps order. */
  lemma MulMonotone(a: real, b: real, c: real)
    requires 0.0 <= a <= b && 0.0 <= c
    ensures a * c <= b * c
  {
    assert b * c - a * c == (b - a) * c;
  }

  /** Every true neighbour (j != i within the radius) adds a positive amount, given an exact root. */
  lemma NeighbourContributesPositively(ps: seq<Vec3>, i: nat, j: nat, h: real, sqrt: real -> real)
    requires i < |ps| && j < |ps| && h > 0.0 && ExactRoot(sqrt)
    requires i != j && DistSq(ps[i], ps[j]) < h * h
    ensures DensityContribution(ps, i, j, h, sqrt) > 0.0
  {
    var distSq := DistSq(ps[i], ps[j]);
    DistSqSymmetric(ps[i], ps[j]);
    NeighbourInsideSupport(distSq, h, sqrt);
    KernelPositive(sqrt(distSq) / h, h);
  }

  /** Only neighbours count: with no j != i within the radius the sum is zero. */
  lemma {:induction false} NoNeighbourNoDensity(ps: seq<Vec3>, i: nat, m: nat, h: real, sqrt: real -> real)
    requires i < |ps| && m <= |ps| && h > 0.0
    requires forall j :: 0 <= j < m && j != i ==> DistSq(ps[i], ps[j]) >= h * h
    ensures DensitySum(ps, i, m, h, sqrt) == 0.0
  {
    if m > 0 {
      NoNeighbourNoDensity(ps, i, m - 1, h, sqrt);
    }
  }

  // ---------------------------------------------------------------------
  // Forces

  /** A snapshot of the particle store the force pass reads. */
  datatype Particles = Particles(positions: seq<Vec3>, velocities: seq<Vec3>, densities: seq<real>, pressures: seq<real>)
  {
    predicate Sized(n: nat) {
      |positions| == n && |velocities| == n && |densities| == n && |pressures| == n
    }

    predicate DensitiesNonZero() {
      forall j :: 0 <= j < |densities| ==> densities[j] != 0.0
    }
  }

  /** The pair (i, j) exerts a force: j != i, dist^2 < h^2 and r > 1e-8. */
  predicate Interacts(ps: seq<Vec3>, i: nat, j: nat, h: real, sqrt: real -> real)
    requires i < |ps| && j < |ps|
  {
    i != j && DistSq(ps[i], ps[j]) < h * h && sqrt(DistSq(ps[i], ps[j])) > Epsilon
  }

  /** The kernel gradient for the pair, along the offset from j to i. */
  function PairGradient(ps: seq<Vec3>, i: nat, j: nat, h: real, sqrt: real -> real): Vec3
    requires i < |ps| && j < |ps| && h > 0.0
  {
    KernelGradient(Sub(ps[i], ps[j]), sqrt(DistSq(ps[i], ps[j])), h)
  }

  /** `grad * (p_i + p_j) / (2 rho_j)`, the pressure term the pair subtracts. */
  function PairPressure(st: Particles, i: nat, j: nat, h: real, sqrt: real -> real): Vec3
    requires st.Sized(|st.positions|) && st.DensitiesNonZero()
    requires i < |st.positions| && j < |st.positions| && h > 0.0
  {
    Scale(PairGradient(st.positions, i, j, h, sqrt), (st.pressures[i] + st.pressures[j]) / (2.0 * st.densities[j]))
  }

  /** `viscosity * (v_j - v_i) * (grad / rho_j)`, the viscosity term the pair adds. */
  function PairViscosity(st: Particles, i: nat, j: nat, h: real, viscosity: real, sqrt: real -> real): Vec3
    requires st.Sized(|st.positions|) && st.DensitiesNonZero()
    requires i < |st.positions| && j < |st.positions| && h > 0.0
  {
    Mul(Scale(Sub(st.velocities[j], st.velocities[i]), viscosity), Div(PairGradient(st.positions, i, j, h, sqrt), st.densities[j]))
  }

  /** The pressure force on i accumulated over j < m. */
  function PressureForce(st: Particles, i: nat, m: nat, h: real, sqrt: real -> real): Vec3
    requires st.Sized(|st.positions|) && st.DensitiesNonZero()
    requires i < |st.positions| && m <= |st.positions| && h > 0.0
  {
    if m == 0 then Zero
    else
      var before := PressureForce(st, i, m - 1, h, sqrt);
      if Interacts(st.positions, i, m - 1, h, sqrt) then Sub(before, PairPressure(st, i, m - 1, h, sqrt)) else before
  }

  /** The viscosity force on i accumulated over j < m. */
  function ViscosityForce(st: Particles, i: nat, m: nat, h: real, viscosity: real, sqrt: real -> real): Vec3
    requires st.Sized(|st.positions|) && st.DensitiesNonZero()
    requires i < |st.positions| && m <= |st.positions| && h > 0.0
  {
    if m == 0 then Zero
    else
      var before := ViscosityForce(st, i, m - 1, h, viscosity, sqrt);
      if Interacts(st.positions, i, m - 1, h, sqrt) then Add(before, PairViscosity(st, i, m - 1, h, viscosity, sqrt)) else before
  }

  /** `forces[i, 1] += gravity[1]`: only the y component of gravity is applied. */
  function GravityKick(f: Vec3, gravity: Vec3): (r: Vec3)
    ensures Sub(r, f) == Vec3(0.0, gravity.y, 0.0)
  {
    f.With(1, f.y + gravity.y)
  }

  /** The force the pass leaves on particle i when the buffer starts at zero. */
  function ForceOn(st: Particles, i: nat, h: real, viscosity: real, gravity: Vec3, sqrt: real -> real): Vec3
    requires st.Sized(|st.positions|) && st.DensitiesNonZero()
    requires i < |st.positions| && h > 0.0
  {
    var n := |st.positions|;
    Add(Add(GravityKick(Zero, gravity), PressureForce(st, i, n, h, sqrt)), ViscosityForce(st, i, n, h, viscosity, sqrt))
  }

  /** A particle no other particle interacts with receives no pressure and no viscosity force. */
  lemma {:induction false} NoInteractionNoPairForce(st: Particles, i: nat, m: nat, h: real, viscosity: real, sqrt: real -> real)
    requires st.Sized(|st.positions|) && st.DensitiesNonZero()
    requires i < |st.positions| && m <= |st.positions| && h > 0.0
    requires forall j :: 0 <= j < m ==> !Interacts(st.positions, i, j, h, sqrt)
    ensures PressureForce(st, i, m, h, sqrt) == Zero
    ensures ViscosityForce(st, i, m, h, viscosity, sqrt) == Zero
  {
    if m > 0 {
      NoInteractionNoPairForce(st, i, m - 1, h, viscosity, sqrt);
    }
  }

  /**
   * External force is gravity's y component alone: x and z get none, and the
   * force does not depend on gravity's x and z.
   */
  lemma GravityOnlyOnY(st: Particles, i: nat, h: real, viscosity: real, g1: Vec3, g2: Vec3, sqrt: real -> real)
    requires st.Sized(|st.positions|) && st.DensitiesNonZero()
    requires i < |st.positions| && h > 0.0
    requires g1.y == g2.y
    ensures ForceOn(st, i, h, viscosity, g1, sqrt) == ForceOn(st, i, h, viscosity, g2, sqrt)
    ensures GravityKick(Zero, g1) == Vec3(0.0, g1.y, 0.0)
  {
  }

  /** A particle with no interacting partner feels exactly (0, gravity.y, 0). */
  lemma IsolatedParticleFeelsOnlyGravity(st: Particles, i: nat, h: real, viscosity: real, gravity: Vec3, sqrt: real -> real)
    requires st.Sized(|st.positions|) && st.DensitiesNonZero()
    requires i < |st.positions| && h > 0.0
    requires forall j :: 0 <= j < |st.positions| ==> !Interacts(st.positions, i, j, h, sqrt)
    ensures ForceOn(st, i, h, viscosity, gravity, sqrt) == Vec3(0.0, gravity.y, 0.0)
  {
    NoInteractionNoPairForce(st, i, |st.positions|, h, viscosity, sqrt);
  }

  /**
   * Pressure pushes apart: when the pair's pressure term is non-negative, the
   * force it adds to i has no component toward j.
   */
  lemma PressurePushesApart(st: Particles, i: nat, j: nat, h: real, sqrt: real -> real)
    requires st.Sized(|st.positions|) && st.DensitiesNonZero()
    requires i < |st.positions| && j < |st.positions| && h > 0.0 && NonNegativeRoot(sqrt)
    requires (st.pressures[i] + st.pressures[j]) / (2.0 * st.densities[j]) >= 0.0
    ensures Dot(Sub(Zero, PairPressure(st, i, j, h, sqrt)), Sub(st.positions[i], st.positions[j])) >= 0.0
  {
    var d := Sub(st.positions[i], st.positions[j]);
    var r := sqrt(DistSq(st.positions[i], st.positions[j]));
    DistSqSymmetric(st.positions[i], st.positions[j]);
    var g := PairGradient(st.positions, i, j, h, sqrt);
    var t := (st.pressures[i] + st.pressures[j]) / (2.0 * st.densities[j]);
    GradientPointsInward(d, r, h);
    var dot := Dot(g, d);
    assert dot <= 0.0;
    calc {
      Dot(Sub(Zero, PairPressure(st, i, j, h, sqrt)), d);
    == { NegatedScaleDot(g, t, d); }
      t * (0.0 - dot);
    >= { MulMonotone(0.0, t, 0.0 - dot); }
      0.0;
    }
  }

  /** `(0 - g * t) . d == t * (0 - g . d)`. */
  lemma NegatedScaleDot(g: Vec3, t: real, d: Vec3)
    ensures Dot(Sub(Zero, Scale(g, t)), d) == t * (0.0 - Dot(g, d))
  {
  }

  // ---------------------------------------------------------------------
  // Integration and boundary

  /** A particle's position and velocity. */
  datatype Kinematics = Kinematics(position: Vec3, velocity: Vec3)

  /**
   * Semi-implicit Euler: `v += f dt`, then `p += v dt` with the new
   * velocity, so the position moves by v dt + f dt^2 (explicit Euler would
   * move it by v dt only).
   */
  function Advance(p: Vec3, v: Vec3, f: Vec3, dt: real): (k: Kinematics)
    ensures k.velocity == Add(v, Scale(f, dt))
    ensures k.position == Add(Add(p, Scale(v, dt)), Scale(f, dt * dt))
  {
    var v' := Add(v, Scale(f, dt));
    Kinematics(Add(p, Scale(v', dt)), v')
  }

  /** Collision with the faces of one axis: clamp the coordinate and damp that velocity component. */
  function ClampAxis(k: Kinematics, axis: nat, lo: Vec3, hi: Vec3, damping: real): (r: Kinematics)
    requires axis < 3
    ensures lo.At(axis) <= hi.At(axis) ==> lo.At(axis) <= r.position.At(axis) <= hi.At(axis)
    ensures lo.At(axis) <= k.position.At(axis) <= hi.At(axis) ==> r == k
    ensures !(lo.At(axis) <= k.position.At(axis) <= hi.At(axis)) ==> r.velocity.At(axis) == k.velocity.At(axis) * damping
    ensures forall a :: 0 <= a < 3 && a != axis ==>
      r.position.At(a) == k.position.At(a) && r.velocity.At(a) == k.velocity.At(a)
  {
    var p := k.position.At(axis);
    if p < lo.At(axis) then
      Kinematics(k.position.With(axis, lo.At(axis)), k.velocity.With(axis, k.velocity.At(axis) * damping))
    else if p > hi.At(axis) then
      Kinematics(k.position.With(axis, hi.At(axis)), k.velocity.With(axis, k.velocity.At(axis) * damping))
    else k
  }

  /** The axes 0 .. n-1 handled in order. */
  function ClampAxes(k: Kinematics, n: nat, lo: Vec3, hi: Vec3, damping: real): Kinematics
    requires n <= 3
  {
    if n == 0 then k else ClampAxis(ClampAxes(k, n - 1, lo, hi, damping), n - 1, lo, hi, damping)
  }

  /** The number of axes the boundary loop visits. */
  const Dimensions: nat := 3

  /** One particle's integration step with box collisions. */
  function IntegrateParticle(p: Vec3, v: Vec3, f: Vec3, dt: real, lo: Vec3, hi: Vec3, damping: real): Kinematics {
    ClampAxes(Advance(p, v, f, dt), Dimensions, lo, hi, damping)
  }

  predicate BoxOrdered(lo: Vec3, hi: Vec3) {
    forall a :: 0 <= a < 3 ==> lo.At(a) <= hi.At(a)
  }

  /** Handling axes 0 .. n-1 treats each of them as if it were alone and leaves the others as they were. */
  lemma {:induction false} ClampAxesPerAxis(k: Kinematics, n: nat, lo: Vec3, hi: Vec3, damping: real)
    requires n <= 3
    ensures forall a :: 0 <= a < 3 ==>
      ClampAxes(k, n, lo, hi, damping).position.At(a) ==
        (if a < n then ClampAxis(k, a, lo, hi, damping).position.At(a) else k.position.At(a))
    ensures forall a :: 0 <= a < 3 ==>
      ClampAxes(k, n, lo, hi, damping).velocity.At(a) ==
        (if a < n then ClampAxis(k, a, lo, hi, damping).velocity.At(a) else k.velocity.At(a))
  {
    if n > 0 {
      ClampAxesPerAxis(k, n - 1, lo, hi, damping);
    }
  }

  /** Boundary containment: after a step every coordinate lies in [boundary_min, boundary_max]. */
  lemma StepStaysInBox(p: Vec3, v: Vec3, f: Vec3, dt: real, lo: Vec3, hi: Vec3, damping: real)
    requires BoxOrdered(lo, hi)
    ensures InBox(IntegrateParticle(p, v, f, dt, lo, hi, damping).position, lo, hi)
  {
    ClampAxesPerAxis(Advance(p, v, f, dt), Dimensions, lo, hi, damping);
  }

  /**
   * Only a clamped axis is damped: an axis whose advanced coordinate left the
   * box is set to the face and its velocity multiplied by the damping; every
   * other axis keeps the semi-implicit Euler result.
   */
  lemma DampingOnlyOnClampedAxis(p: Vec3, v: Vec3, f: Vec3, dt: real, lo: Vec3, hi: Vec3, damping: real, a: nat)
    requires a < 3
    ensures var k := Advance(p, v, f, dt);
            var r := IntegrateParticle(p, v, f, dt, lo, hi, damping);
            if k.position.At(a) < lo.At(a) then
              r.position.At(a) == lo.At(a) && r.velocity.At(a) == k.velocity.At(a) * damping
            else if k.position.At(a) > hi.At(a) then
              r.position.At(a) == hi.At(a) && r.velocity.At(a) == k.velocity.At(a) * damping
            else
              r.position.At(a) == k.position.At(a) && r.velocity.At(a) == k.velocity.At(a)
  {
    ClampAxesOnAxis(Advance(p, v, f, dt), lo, hi, damping, a);
  }

  /** Axis a of r is axis a of k after the boundary rule: set to the face and damped when outside, kept when inside. */
  ghost predicate ClampedOn(r: Kinematics, k: Kinematics, a: nat, lo: Vec3, hi: Vec3, damping: real)
    requires a < 3
  {
    if k.position.At(a) < lo.At(a) then
      r.position.At(a) == lo.At(a) && r.velocity.At(a) == k.velocity.At(a) * damping
    else if k.position.At(a) > hi.At(a) then
      r.position.At(a) == hi.At(a) && r.velocity.At(a) == k.velocity.At(a) * damping
    else
      r.position.At(a) == k.position.At(a) && r.velocity.At(a) == k.velocity.At(a)
  }

  /** Axis a of the full boundary pass, for any advanced state k. */
  lemma ClampAxesOnAxis(k: Kinematics, lo: Vec3, hi: Vec3, damping: real, a: nat)
    requires a < 3
    ensures ClampedOn(ClampAxes(k, Dimensions, lo, hi, damping), k, a, lo, hi, damping)
  {
    // The three steps of the pass; only step a touches axis a.
    var k1 := ClampAxis(k, 0, lo, hi, damping);
    var k2 := ClampAxis(k1, 1, lo, hi, damping);
    var k3 := ClampAxis(k2, 2, lo, hi, damping);
    assert ClampAxes(k, 1, lo, hi, damping) == k1 by { assert ClampAxes(k, 0, lo, hi, damping) == k; }
    assert ClampAxes(k, 2, lo, hi, damping) == k2;
    assert ClampAxes(k, Dimensions, lo, hi, damping) == k3;
    if a == 0 {
      assert ClampedOn(k1, k, 0, lo, hi, damping);
      assert ClampedOn(k3, k, 0, lo, hi, damping) by { SameOnAxis(k1, k3, k, 0, lo, hi, damping); }
    } else if a == 1 {
      assert ClampedOn(k2, k1, 1, lo, hi, damping);
      assert ClampedOn(k2, k, 1, lo, hi, damping);
      assert ClampedOn(k3, k, 1, lo, hi, damping) by { SameOnAxis(k2, k3, k, 1, lo, hi, damping); }
    } else {
      assert ClampedOn(k3, k2, 2, lo, hi, damping);
      assert k2.position.At(2) == k.position.At(2) && k2.velocity.At(2) == k.velocity.At(2);
    }
  }

  /** A later step that leaves axis a alone keeps ClampedOn for axis a. */
  lemma SameOnAxis(r: Kinematics, r': Kinematics, k: Kinematics, a: nat, lo: Vec3, hi: Vec3, damping: real)
    requires a < 3 && ClampedOn(r, k, a, lo, hi, damping)
    requires r'.position.At(a) == r.position.At(a) && r'.velocity.At(a) == r.velocity.At(a)
    ensures ClampedOn(r', k, a, lo, hi, damping)
  {
  }

  /** Inside the box the step is plain semi-implicit Euler: velocity first, then position with the new velocity. */
  lemma FreeStepIsSemiImplicitEuler(p: Vec3, v: Vec3, f: Vec3, dt: real, lo: Vec3, hi: Vec3, damping: real)
    requires InBox(Add(p, Scale(Add(v, Scale(f, dt)), dt)), lo, hi)
    ensures IntegrateParticle(p, v, f, dt, lo, hi, damping)
            == Kinematics(Add(p, Scale(Add(v, Scale(f, dt)), dt)), Add(v, Scale(f, dt)))
  {
    var k := Advance(p, v, f, dt);
    var r := IntegrateParticle(p, v, f, dt, lo, hi, damping);
    ClampAxesPerAxis(k, Dimensions, lo, hi, damping);
    assert r.position.At(0) == k.position.At(0) && r.position.At(1) == k.position.At(1) && r.position.At(2) == k.position.At(2);
    assert r.velocity.At(0) == k.velocity.At(0) && r.velocity.At(1) == k.velocity.At(1) && r.velocity.At(2) == k.velocity.At(2);
  }

  /** A zero time step leaves a particle inside the box where it was, with the velocity it had. */
  lemma ZeroStepIsIdentity(p: Vec3, v: Vec3, f: Vec3, lo: Vec3, hi: Vec3, damping: real)
    requires InBox(p, lo, hi)
    ensures IntegrateParticle(p, v, f, 0.0, lo, hi, damping) == Kinematics(p, v)
  {
    assert Advance(p, v, f, 0.0) == Kinematics(p, v);
    FreeStepIsSemiImplicitEuler(p, v, f, 0.0, lo, hi, damping);
  }

  // ---------------------------------------------------------------------
  // The three passes over the arrays

  /** sph.py `calculate_densities_and_pressures`. */
  method CalculateDensitiesAndPressures(positions: array<Vec3>, densities: array<real>, pressures: array<real>,
                                        smoothingRadius: real, restDensity: real, pressureConstant: real,
                                        particleCount: nat, sqrt: real -> real)
    requires positions.Length == particleCount && densities.Length == particleCount && pressures.Length == particleCount
    requires densities != pressures
    requires smoothingRadius > 0.0 && restDensity > 0.0
    modifies densities, pressures
    ensures forall i :: 0 <= i < particleCount ==>
      densities[i] == FlooredDensity(DensitySum(positions[..], i, particleCount, smoothingRadius, sqrt), restDensity)
    ensures forall i :: 0 <= i < particleCount ==>
      pressures[i] == Pressure(densities[i], restDensity, pressureConstant)
  {
    ghost var ps := positions[..];
    var i := 0;
    while i < particleCount
      invariant 0 <= i <= particleCount
      invariant forall k :: 0 <= k < i ==>
        densities[k] == FlooredDensity(DensitySum(ps, k, particleCount, smoothingRadius, sqrt), restDensity)
      invariant forall k :: 0 <= k < i ==> pressures[k] == Pressure(densities[k], restDensity, pressureConstant)
    {
      var density := NeighbourDensity(positions, i, smoothingRadius, particleCount, sqrt);
      var floored := if density >= restDensity * 0.1 then density else restDensity * 0.1;
      densities[i] := floored;
      pressures[i] := Pressure(floored, restDensity, pressureConstant);
      assert densities[i] == floored;
      i := i + 1;
    }
  }

  /** The body of the density pass for particle i: the kernel sum over every other particle. */
  method NeighbourDensity(positions: array<Vec3>, i: nat, h: real, particleCount: nat, sqrt: real -> real)
    returns (density: real)
    requires positions.Length == particleCount && i < particleCount && h > 0.0
    ensures density == DensitySum(positions[..], i, particleCount, h, sqrt)
  {
    var hSq := h * h;
    density := 0.0;
    var j := 0;
    while j < particleCount
      invariant 0 <= j <= particleCount
      invariant density == DensitySum(positions[..], i, j, h, sqrt)
    {
      if i != j {
        var distSq := DistSq(positions[i], positions[j]);
        if distSq < hSq {
          var r := sqrt(distSq);
          var q := r / h;
          if q <= 1.0 {
            // the source writes the cubic-spline formula out here
            density := density + Kernel(q, h);
          }
        }
      }
      j := j + 1;
    }
  }

  /** sph.py `calculate_forces`; `kernelConstant` is passed but not used, as in the source. */
  method CalculateForces(positions: array<Vec3>, velocities: array<Vec3>, densities: array<real>, pressures: array<real>,
                         forces: array<Vec3>, smoothingRadius: real, viscosity: real, kernelConstant: real,
                         gravity: Vec3, particleCount: nat, sqrt: real -> real)
    requires positions.Length == particleCount && velocities.Length == particleCount && forces.Length == particleCount
    requires densities.Length == particleCount && pressures.Length == particleCount
    requires forces != positions && forces != velocities
    requires smoothingRadius > 0.0
    requires forall j :: 0 <= j < particleCount ==> densities[j] != 0.0
    modifies forces
    ensures var st := Particles(positions[..], velocities[..], densities[..], pressures[..]);
      forall i :: 0 <= i < particleCount ==>
        forces[i] == Add(Add(GravityKick(old(forces[i]), gravity), PressureForce(st, i, particleCount, smoothingRadius, sqrt)),
                         ViscosityForce(st, i, particleCount, smoothingRadius, viscosity, sqrt))
  {
    ghost var st := Particles(positions[..], velocities[..], densities[..], pressures[..]);
    var h := smoothingRadius;
    var i := 0;
    while i < particleCount
      invariant 0 <= i <= particleCount
      invariant forall k :: 0 <= k < i ==>
        forces[k] == Add(Add(GravityKick(old(forces[k]), gravity), PressureForce(st, k, particleCount, h, sqrt)),
                         ViscosityForce(st, k, particleCount, h, viscosity, sqrt))
      invariant forall k :: i <= k < particleCount ==> forces[k] == old(forces[k])
    {
      forces[i] := forces[i].With(1, forces[i].y + gravity.y);
      var pressureForce, viscosityForce := PairForces(positions, velocities, densities, pressures, i,
                                                      h, viscosity, particleCount, sqrt);
      forces[i] := Add(forces[i], pressureForce);
      forces[i] := Add(forces[i], viscosityForce);
      i := i + 1;
    }
  }

  /** The inner loop of `calculate_forces` for particle i: its pressure and viscosity forces. */
  method PairForces(positions: array<Vec3>, velocities: array<Vec3>, densities: array<real>, pressures: array<real>,
                    i: nat, h: real, viscosity: real, particleCount: nat, sqrt: real -> real)
    returns (pressureForce: Vec3, viscosityForce: Vec3)
    requires positions.Length == particleCount && velocities.Length == particleCount
    requires densities.Length == particleCount && pressures.Length == particleCount
    requires i < particleCount && h > 0.0
    requires forall j :: 0 <= j < particleCount ==> densities[j] != 0.0
    ensures var st := Particles(positions[..], velocities[..], densities[..], pressures[..]);
      pressureForce == PressureForce(st, i, particleCount, h, sqrt) &&
      viscosityForce == ViscosityForce(st, i, particleCount, h, viscosity, sqrt)
  {
    ghost var st := Particles(positions[..], velocities[..], densities[..], pressures[..]);
    var hSq := h * h;
    pressureForce, viscosityForce := Zero, Zero;
    var j := 0;
    while j < particleCount
      invariant 0 <= j <= particleCount
      invariant pressureForce == PressureForce(st, i, j, h, sqrt)
      invariant viscosityForce == ViscosityForce(st, i, j, h, viscosity, sqrt)
    {
      assert st.positions[i] == positions[i] && st.positions[j] == positions[j];
      assert st.velocities[i] == velocities[i] && st.velocities[j] == velocities[j];
      assert st.densities[j] == densities[j] && st.pressures[i] == pressures[i] && st.pressures[j] == pressures[j];
      if i != j {
        var d := Sub(positions[i], positions[j]);
        var distSq := DistSq(positions[i], positions[j]);
        if distSq < hSq {
          var r := sqrt(distSq);
          if r > Epsilon {
            var gradKernel := KernelGradient(d, r, h);
            var pressureTerm := (pressures[i] + pressures[j]) / (2.0 * densities[j]);
            pressureForce := Sub(pressureForce, Scale(gradKernel, pressureTerm));
            var velDiff := Sub(velocities[j], velocities[i]);
            viscosityForce := Add(viscosityForce, Mul(Scale(velDiff, viscosity), Div(gradKernel, densities[j])));
          }
        }
      }
      j := j + 1;
    }
  }

  /** sph.py `integrate_motion`. */
  method IntegrateMotion(positions: array<Vec3>, velocities: array<Vec3>, forces: array<Vec3>, dt: real,
                         boundaryMin: Vec3, boundaryMax: Vec3, boundaryDamping: real, particleCount: nat)
    requires positions.Length == particleCount && velocities.Length == particleCount && forces.Length == particleCount
    requires positions != velocities && forces != positions && forces != velocities
    modifies positions, velocities
    ensures forall i :: 0 <= i < particleCount ==>
      Kinematics(positions[i], velocities[i]) ==
        IntegrateParticle(old(positions[i]), old(velocities[i]), forces[i], dt, boundaryMin, boundaryMax, boundaryDamping)
  {
    var i := 0;
    while i < particleCount
      invariant 0 <= i <= particleCount
      invariant forall k :: 0 <= k < i ==>
        Kinematics(positions[k], velocities[k]) ==
          IntegrateParticle(old(positions[k]), old(velocities[k]), forces[k], dt, boundaryMin, boundaryMax, boundaryDamping)
      invariant forall k :: i <= k < particleCount ==> positions[k] == old(positions[k]) && velocities[k] == old(velocities[k])
    {
      var acceleration := forces[i];
      var velocity := Add(velocities[i], Scale(acceleration, dt));
      var position := Add(positions[i], Scale(velocity, dt));
      position, velocity := Collide(position, velocity, boundaryMin, boundaryMax, boundaryDamping);
      positions[i] := position;
      velocities[i] := velocity;
      i := i + 1;
    }
  }

  /** The boundary loop of `integrate_motion` for one particle, axis by axis. */
  method Collide(position: Vec3, velocity: Vec3, boundaryMin: Vec3, boundaryMax: Vec3, boundaryDamping: real)
    returns (position': Vec3, velocity': Vec3)
    ensures Kinematics(position', velocity') ==
      ClampAxes(Kinematics(position, velocity), Dimensions, boundaryMin, boundaryMax, boundaryDamping)
  {
    position', velocity' := position, velocity;
    var axis := 0;
    while axis < 3
      invariant 0 <= axis <= 3
      invariant Kinematics(position', velocity') ==
        ClampAxes(Kinematics(position, velocity), axis, boundaryMin, boundaryMax, boundaryDamping)
    {
      if position'.At(axis) < boundaryMin.At(axis) {
        position' := position'.With(axis, boundaryMin.At(axis));
        velocity' := velocity'.With(axis, velocity'.At(axis) * boundaryDamping);
      } else if position'.At(axis) > boundaryMax.At(axis) {
        position' := position'.With(axis, boundaryMax.At(axis));
        velocity' := velocity'.With(axis, velocity'.At(axis) * boundaryDamping);
      }
      axis := axis + 1;
    }
  }

  /** numpy's `fill`: every element of `a` becomes `value`. */
  method Fill(a: array<Vec3>, value: Vec3)
    modifies a
    ensures forall k :: 0 <= k < a.Length ==> a[k] == value
  {
    var k := 0;
    while k < a.Length
      invariant 0 <= k <= a.Length
      invariant forall j :: 0 <= j < k ==> a[j] == value
    {
      a[k] := value;
      k := k + 1;
    }
  }

  // ---------------------------------------------------------------------
  // The simulator

  const DefaultParticleCount: nat := 5000
  const DefaultSmoothingRadius := 0.1
  const DefaultRestDensity := 1000.0
  const DefaultViscosity := 0.1
  const DefaultPressureStiffness := 3.0
  const DefaultGravity := Vec3(0.0, -9.81, 0.0)

  class SPHSystem {
    const particleCount: nat
    const smoothingRadius: real
    const restDensity: real
    const viscosity: real
    const pressureStiffness: real
    const gravity: Vec3
    const positions: array<Vec3>
    const velocities: array<Vec3>
    const densities: array<real>
    const pressures: array<real>
    const forces: array<Vec3>
    const boundaryMin: Vec3
    const boundaryMax: Vec3
    const boundaryDamping: real
    const kernelConstant: real
    const pressureConstant: real

    /** The store's shape and the invariants every step keeps: the density floor and a zeroed force buffer. */
    ghost predicate Valid()
      reads this, densities, forces
    {
      && positions.Length == particleCount && velocities.Length == particleCount && forces.Length == particleCount
      && densities.Length == particleCount && pressures.Length == particleCount
      && positions != velocities && positions != forces && velocities != forces && densities != pressures
      && smoothingRadius > 0.0 && restDensity > 0.0
      && pressureConstant == pressureStiffness * restDensity
      && BoxOrdered(boundaryMin, boundaryMax)
      && (forall i :: 0 <= i < particleCount ==> densities[i] >= restDensity * 0.1)
      && (forall i :: 0 <= i < particleCount ==> forces[i] == Zero)
    }

    /** Every particle lies in the boundary box. */
    ghost predicate Contained()
      reads this, positions
    {
      forall i :: 0 <= i < positions.Length ==> InBox(positions[i], boundaryMin, boundaryMax)
    }

    /**
     * `initialPositions` stands for the uniform draw in [-1, 1)^3 the source
     * makes. Every absent argument takes its default: 5000 particles,
     * h = 0.1, rest density 1000, viscosity 0.1, stiffness 3 and gravity
     * (0, -9.81, 0).
     */
    constructor (particleCount: Option<nat>, smoothingRadius: Option<real>, restDensity: Option<real>,
                 viscosity: Option<real>, pressureStiffness: Option<real>, gravity: Option<Vec3>,
                 initialPositions: seq<Vec3>)
      requires smoothingRadius.GetOr(DefaultSmoothingRadius) > 0.0 && restDensity.GetOr(DefaultRestDensity) > 0.0
      requires |initialPositions| == particleCount.GetOr(DefaultParticleCount)
      requires forall k :: 0 <= k < |initialPositions| ==>
        InBox(initialPositions[k], Vec3(-1.0, -1.0, -1.0), Vec3(1.0, 1.0, 1.0))
      ensures Valid() && Contained()
      ensures fresh(positions) && fresh(velocities) && fresh(densities) && fresh(pressures) && fresh(forces)
      ensures particleCount.None? ==> this.particleCount == DefaultParticleCount
      ensures particleCount.Some? ==> this.particleCount == particleCount.value
      ensures smoothingRadius.None? ==> this.smoothingRadius == DefaultSmoothingRadius
      ensures smoothingRadius.Some? ==> this.smoothingRadius == smoothingRadius.value
      ensures restDensity.None? ==> this.restDensity == DefaultRestDensity
      ensures restDensity.Some? ==> this.restDensity == restDensity.value
      ensures viscosity.None? ==> this.viscosity == DefaultViscosity
      ensures viscosity.Some? ==> this.viscosity == viscosity.value
      ensures pressureStiffness.None? ==> this.pressureStiffness == DefaultPressureStiffness
      ensures pressureStiffness.Some? ==> this.pressureStiffness == pressureStiffness.value
      ensures gravity.None? ==> this.gravity == DefaultGravity
      ensures gravity.Some? ==> this.gravity == gravity.value
      ensures positions[..] == initialPositions
      ensures forall i :: 0 <= i < this.particleCount ==>
        velocities[i] == Zero && densities[i] == this.restDensity && pressures[i] == 0.0 && forces[i] == Zero
      ensures boundaryMin == Vec3(-3.0, -1.0, -3.0) && boundaryMax == Vec3(3.0, 5.0, 3.0) && boundaryDamping == -0.5
      ensures kernelConstant == KernelConstant(this.smoothingRadius)
      ensures pressureConstant == this.pressureStiffness * this.restDensity
    {
      var n := particleCount.GetOr(DefaultParticleCount);
      var rho := restDensity.GetOr(DefaultRestDensity);
      var h := smoothingRadius.GetOr(DefaultSmoothingRadius);
      var stiffness := pressureStiffness.GetOr(DefaultPressureStiffness);
      this.particleCount := n;
      this.smoothingRadius := h;
      this.restDensity := rho;
      this.viscosity := viscosity.GetOr(DefaultViscosity);
      this.pressureStiffness := stiffness;
      this.gravity := gravity.GetOr(DefaultGravity);
      positions := new Vec3[n](k requires 0 <= k < n => initialPositions[k]);
      velocities := new Vec3[n](_ => Zero);
      densities := new real[n](_ => rho);
      pressures := new real[n](_ => 0.0);
      forces := new Vec3[n](_ => Zero);
      boundaryMin := Vec3(-3.0, -1.0, -3.0);
      boundaryMax := Vec3(3.0, 5.0, 3.0);
      boundaryDamping := -0.5;
      kernelConstant := KernelConstant(h);
      pressureConstant := stiffness * rho;
      new;
      assert positions[..] == initialPositions;
      assert forall a :: 0 <= a < 3 ==> Vec3(-3.0, -1.0, -3.0).At(a) <= -1.0 && 1.0 <= Vec3(3.0, 5.0, 3.0).At(a);
    }

    /**
     * The first two passes of a step: densities and pressures from the
     * current positions, then the force on every particle into the zeroed
     * buffer. Positions and velocities are not touched.
     */
    method ComputeForces(sqrt: real -> real)
      requires Valid()
      modifies densities, pressures, forces
      ensures forall i :: 0 <= i < particleCount ==>
        densities[i] == FlooredDensity(DensitySum(positions[..], i, particleCount, smoothingRadius, sqrt), restDensity)
      ensures forall i :: 0 <= i < particleCount ==> pressures[i] == Pressure(densities[i], restDensity, pressureConstant)
      ensures forall i :: 0 <= i < particleCount ==> densities[i] >= restDensity * 0.1 > 0.0
      ensures var st := Particles(positions[..], velocities[..], densities[..], pressures[..]);
        st.Sized(particleCount) && st.DensitiesNonZero() &&
        forall i :: 0 <= i < particleCount ==> forces[i] == ForceOn(st, i, smoothingRadius, viscosity, gravity, sqrt)
    {
      CalculateDensitiesAndPressures(positions, densities, pressures, smoothingRadius, restDensity,
                                     pressureConstant, particleCount, sqrt);
      assert forall j :: 0 <= j < particleCount ==> densities[j] >= restDensity * 0.1 > 0.0;
      CalculateForces(positions, velocities, densities, pressures, forces, smoothingRadius, viscosity,
                      kernelConstant, gravity, particleCount, sqrt);
    }

    /**
     * One simulation step: densities and pressures from the current
     * positions, forces from those, integration with the new forces, then
     * the force buffer is zeroed again.
     */
    method Update(dt: real, sqrt: real -> real)
      requires Valid()
      modifies positions, velocities, densities, pressures, forces
      ensures Valid() && Contained()
      ensures forall i :: 0 <= i < particleCount ==>
        densities[i] == FlooredDensity(DensitySum(old(positions[..]), i, particleCount, smoothingRadius, sqrt), restDensity)
      ensures forall i :: 0 <= i < particleCount ==> pressures[i] == Pressure(densities[i], restDensity, pressureConstant)
      ensures forall i :: 0 <= i < particleCount ==> densities[i] != 0.0
      ensures var st := Particles(old(positions[..]), old(velocities[..]), densities[..], pressures[..]);
        forall i :: 0 <= i < particleCount ==>
          Kinematics(positions[i], velocities[i]) ==
            IntegrateParticle(old(positions[i]), old(velocities[i]),
                              ForceOn(st, i, smoothingRadius, viscosity, gravity, sqrt),
                              dt, boundaryMin, boundaryMax, boundaryDamping)
      ensures dt == 0.0 && old(Contained()) ==> positions[..] == old(positions[..]) && velocities[..] == old(velocities[..])
    {
      ghost var oldPositions := positions[..];
      ghost var oldVelocities := velocities[..];
      ComputeForces(sqrt);
      ghost var st := Particles(positions[..], velocities[..], densities[..], pressures[..]);
      IntegrateMotion(positions, velocities, forces, dt, boundaryMin, boundaryMax, boundaryDamping, particleCount);
      assert forall i :: 0 <= i < particleCount ==>
        Kinematics(positions[i], velocities[i]) ==
          IntegrateParticle(oldPositions[i], oldVelocities[i], ForceOn(st, i, smoothingRadius, viscosity, gravity, sqrt),
                            dt, boundaryMin, boundaryMax, boundaryDamping);
      StepsStayInBox(oldPositions, oldVelocities, forces[..], positions[..], velocities[..],
                     dt, boundaryMin, boundaryMax, boundaryDamping);
      Fill(forces, Zero);
      assert oldPositions == old(positions[..]) && oldVelocities == old(velocities[..]);
      assert st == Particles(old(positions[..]), old(velocities[..]), densities[..], pressures[..]);
    }
  }

  /**
   * Whole-store consequences of the integration pass: every particle ends in
   * the box, and a zero step leaves a store that was inside the box unchanged.
   */
  lemma StepsStayInBox(ps: seq<Vec3>, vs: seq<Vec3>, fs: seq<Vec3>, ps': seq<Vec3>, vs': seq<Vec3>,
                       dt: real, lo: Vec3, hi: Vec3, damping: real)
    requires |vs| == |ps| && |fs| == |ps| && |ps'| == |ps| && |vs'| == |ps|
    requires BoxOrdered(lo, hi)
    requires forall i :: 0 <= i < |ps| ==>
      Kinematics(ps'[i], vs'[i]) == IntegrateParticle(ps[i], vs[i], fs[i], dt, lo, hi, damping)
    ensures forall i :: 0 <= i < |ps'| ==> InBox(ps'[i], lo, hi)
    ensures dt == 0.0 && (forall i :: 0 <= i < |ps| ==> InBox(ps[i], lo, hi)) ==> ps' == ps && vs' == vs
  {
    forall i | 0 <= i < |ps|
      ensures InBox(ps'[i], lo, hi)
    {
      StepStaysInBox(ps[i], vs[i], fs[i], dt, lo, hi, damping);
    }
    if dt == 0.0 && (forall i :: 0 <= i < |ps| ==> InBox(ps[i], lo, hi)) {
      forall i | 0 <= i < |ps|
        ensures ps'[i] == ps[i] && vs'[i] == vs[i]
      {
        ZeroStepIsIdentity(ps[i], vs[i], fs[i], lo, hi, damping);
      }
    }
  }

  /** The single-particle case: no neighbour, so the density sum is zero and the floor applies. */
  lemma LoneParticleDensity(p: Vec3, h: real, restDensity: real, sqrt: real -> real)
    requires h > 0.0 && restDensity > 0.0
    ensures DensitySum([p], 0, 1, h, sqrt) == 0.0
    ensures FlooredDensity(DensitySum([p], 0, 1, h, sqrt), restDensity) == restDensity * 0.1
  {
  }
}
