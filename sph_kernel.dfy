/**
 * The cubic-spline smoothing kernel and its gradient used by the SPH fluid
 * simulator (engine/physics/sph.py), as polynomials in q = r / h.
 */
module SphKernel {
  import opened Vectors

  /** numpy's `np.pi`, to the digits it prints. */
  const Pi: real := 3.141592653589793

  /** Distances up to this are treated as coincident (`1e-8`). */
  const Epsilon: real := 0.00000001

  /** The kernel normalisation `8 / (pi h^4)`. */
  function KernelConstant(h: real): (c: real)
    requires h > 0.0
    ensures c > 0.0
  {
    assert h * h * h * h > 0.0;
    8.0 / (Pi * (h * h * h * h))
  }

  /** The gradient normalisation `24 / (pi h^5)`. */
  function GradientConstant(h: real): (c: real)
    requires h > 0.0
    ensures c > 0.0
  {
    assert h * h * h * h * h > 0.0;
    24.0 / (Pi * (h * h * h * h * h))
  }

  /** The inner branch `1 - 6q^2 + 6q^3`, used for q <= 0.5. */
  function InnerBranch(q: real): real {
    1.0 - 6.0 * q * q + 6.0 * q * q * q
  }

  /** The outer branch `2 (1 - q)^3`, used for 0.5 < q <= 1. */
  function OuterBranch(q: real): real {
    2.0 * ((1.0 - q) * (1.0 - q) * (1.0 - q))
  }

  /** The kernel value W for q = r / h; on [0, 1] it lies between 0 and its peak C = W(0). */
  function Kernel(q: real, h: real): (w: real)
    requires h > 0.0
    ensures 0.0 <= q <= 1.0 ==> 0.0 <= w <= KernelConstant(h)
  {
    var c := KernelConstant(h);
    var b := if q <= 0.5 then InnerBranch(q) else OuterBranch(q);
    assert 0.0 <= q <= 1.0 ==> 0.0 <= b <= 1.0 by {
      if 0.0 <= q <= 0.5 {
        InnerBranchBound(q);
        SquareNonNegative(q);
        FactorBounds(q * q * (1.0 - q), q * q, 1.0 - q, 0.0, 1.0);
        assert b == 1.0 - 6.0 * (q * q * (1.0 - q));
      } else if 0.5 < q <= 1.0 {
        OuterBranchNearHalf(q);
        SquareNonNegative(1.0 - q);
        FactorBounds((1.0 - q) * (1.0 - q) * (1.0 - q), (1.0 - q) * (1.0 - q), 1.0 - q, 0.0, 1.0);
      }
    }
    if 0.0 <= q <= 1.0 then FactorBounds(c * b, c, b, 0.0, 1.0); c * b else c * b
  }

  /** Both branches meet at q = 0.5 with the value C / 4. */
  lemma BranchesMeetAtHalf(h: real)
    requires h > 0.0
    ensures InnerBranch(0.5) == OuterBranch(0.5) == 0.25
    ensures Kernel(0.5, h) == 0.25 * KernelConstant(h)
  {
  }

  /** The inner branch is at least 1/4 on [0, 1/2]. */
  lemma {:induction false} InnerBranchBound(q: real)
    requires 0.0 <= q <= 0.5
    ensures InnerBranch(q) >= 0.25
  {
    // 1/8 - q^2 (1 - q) = (1/2 - q)(1/4 + q/2 - q^2) and both factors are non-negative.
    var a := 0.5 - q;
    var b := 0.25 + 0.5 * q - q * q;
    FactorBounds(q * a, q, a, 0.0, 0.5);
    assert b - 0.25 == q * a;
    FactorBounds(a * b, a, b, 0.0, b);
    assert 0.125 - q * q * (1.0 - q) == a * b;
    assert InnerBranch(q) == 1.0 - 6.0 * (q * q * (1.0 - q));
  }

  /** The outer branch is positive below q = 1 and zero at q = 1. */
  lemma OuterBranchPositive(q: real)
    requires q < 1.0
    ensures OuterBranch(q) > 0.0
  {
    var u := 1.0 - q;
    assert u * u * u > 0.0;
  }

  /** Inside the support the kernel is positive; at q = 1 it vanishes. */
  lemma KernelPositive(q: real, h: real)
    requires h > 0.0 && 0.0 <= q < 1.0
    ensures Kernel(q, h) > 0.0
  {
    if q <= 0.5 {
      InnerBranchBound(q);
    } else {
      OuterBranchPositive(q);
    }
  }

  lemma KernelVanishesAtSupportEdge(h: real)
    requires h > 0.0
    ensures Kernel(1.0, h) == 0.0
  {
  }

  /** On [0, 1/2] the inner branch stays within 2 |q - 1/2| of its value 1/4 at q = 1/2. */
  lemma InnerBranchNearHalf(q: real)
    requires 0.0 <= q <= 0.5
    ensures 0.0 <= InnerBranch(q) - 0.25 <= 2.0 * (0.5 - q)
  {
    // InnerBranch(q) - 1/4 = (1/2 - q)(3/2 + 6q(1/2 - q)) and 0 <= q(1/2 - q) <= 1/16 on [0, 1/2].
    var d := 0.5 - q;
    var m := 1.5 + 6.0 * (q * d);
    assert InnerBranch(q) - 0.25 == d * m;
    FactorBounds(q * d, q, d, 0.0, 0.5);
    SquareNonNegative(q - 0.25);
    assert 0.0625 - q * d == (q - 0.25) * (q - 0.25);
    FactorBounds(InnerBranch(q) - 0.25, d, m, 0.0, 2.0);
  }

  /** A square is never negative. */
  lemma SquareNonNegative(w: real)
    ensures w * w >= 0.0
  {
    if w >= 0.0 {
      FactorBounds(w * w, w, w, 0.0, w);
    } else {
      FactorBounds((-w) * (-w), -w, -w, 0.0, -w);
      assert w * w == (-w) * (-w);
    }
  }

  /** p = d m with d >= 0 and lo <= m <= hi puts p between d lo and d hi. */
  lemma FactorBounds(p: real, d: real, m: real, lo: real, hi: real)
    requires p == d * m && d >= 0.0 && lo <= m <= hi
    ensures d * lo <= p <= d * hi
  {
    assert d * (m - lo) >= 0.0;
    assert d * (hi - m) >= 0.0;
  }

  /** On [1/2, 1] the outer branch stays within 2 |q - 1/2| of its value 1/4 at q = 1/2. */
  lemma OuterBranchNearHalf(q: real)
    requires 0.5 <= q <= 1.0
    ensures -2.0 * (q - 0.5) <= OuterBranch(q) - 0.25 <= 0.0
  {
    // With u = 1 - q in [0, 1/2]: OuterBranch(q) - 1/4 = -2 (q - 1/2)(u^2 + u/2 + 1/4).
    var u := 1.0 - q;
    var d := q - 0.5;
    var m := u * u + 0.5 * u + 0.25;
    assert OuterBranch(q) - 0.25 == -2.0 * (d * m);
    assert 0.0 <= m <= 0.75 by { assert u * u <= 0.5 * u; }
    assert 0.0 <= d * m <= d * 0.75;
  }

  /**
   * Continuity at the branch point: on [0, 1] the kernel moves by at most
   * 2C |q - 1/2| away from its value C / 4 at q = 1/2.
   */
  lemma KernelContinuousAtHalf(q: real, h: real)
    requires h > 0.0 && 0.0 <= q <= 1.0
    ensures var d := if q >= 0.5 then q - 0.5 else 0.5 - q;
            var c := KernelConstant(h);
            -2.0 * c * d <= Kernel(q, h) - Kernel(0.5, h) <= 2.0 * c * d
  {
    var c := KernelConstant(h);
    var d := if q >= 0.5 then q - 0.5 else 0.5 - q;
    BranchesMeetAtHalf(h);
    var gap := (if q <= 0.5 then InnerBranch(q) else OuterBranch(q)) - 0.25;
    if q <= 0.5 {
      InnerBranchNearHalf(q);
    } else {
      OuterBranchNearHalf(q);
    }
    assert -2.0 * d <= gap <= 2.0 * d;
    assert Kernel(q, h) - Kernel(0.5, h) == c * gap;
    assert c * (2.0 * d - gap) >= 0.0;
    assert c * (gap + 2.0 * d) >= 0.0;
  }

  /**
   * The inner gradient branch `G q (3q - 2)`, used for q <= 0.5: on
   * [0, 1/2] it lies in [-G/3, 0], and it is steepest at q = 1/3.
   */
  function InnerGradient(q: real, h: real): (g: real)
    requires h > 0.0
    ensures 0.0 <= q <= 0.5 ==> -GradientConstant(h) / 3.0 <= g <= 0.0
    ensures q == 1.0 / 3.0 ==> g == -GradientConstant(h) / 3.0
  {
    var c := GradientConstant(h);
    // q (3q - 2) = 3 (q - 1/3)^2 - 1/3, and both factors have opposite signs on [0, 2/3].
    var m := q * (3.0 * q - 2.0);
    assert m == 3.0 * ((q - 1.0 / 3.0) * (q - 1.0 / 3.0)) - 1.0 / 3.0;
    SquareNonNegative(q - 1.0 / 3.0);
    assert 0.0 <= q <= 0.5 ==> m <= 0.0 by {
      if 0.0 <= q <= 0.5 {
        FactorBounds(-m, q, 2.0 - 3.0 * q, 0.0, 2.0);
      }
    }
    if 0.0 <= q <= 0.5 then FactorBounds(c * m, c, m, -1.0 / 3.0, 0.0); c * m else c * m
  }

  /**
   * The outer gradient branch `-G (1 - q)^2`, set to 0 for q <= 1e-8; used
   * for q > 0.5. On [1/2, 1] it lies in [-G/4, 0].
   */
  function OuterGradient(q: real, h: real): (g: real)
    requires h > 0.0
    ensures 0.5 <= q <= 1.0 ==> -GradientConstant(h) / 4.0 <= g <= 0.0
  {
    var c := GradientConstant(h);
    var u := 1.0 - q;
    SquareNonNegative(u);
    var g := c * (u * u);
    assert 0.5 <= q <= 1.0 ==> 0.0 <= g <= c / 4.0 by {
      if 0.5 <= q <= 1.0 {
        FactorBounds(u * u, u, u, 0.0, 0.5);
        FactorBounds(g, c, u * u, 0.0, 0.25);
      }
    }
    if q > Epsilon then -g else 0.0
  }

  /**
   * The signed gradient magnitude (sph.py `compute_kernel_gradient`): on
   * [0, 1] it is never positive and never below -G/3.
   */
  function GradientMagnitude(q: real, h: real): (g: real)
    requires h > 0.0
    ensures 0.0 <= q <= 1.0 ==> -GradientConstant(h) / 3.0 <= g <= 0.0
  {
    if q <= 0.5 then InnerGradient(q, h) else OuterGradient(q, h)
  }

  /**
   * The gradient vector of the kernel at offset `d` with length `r`: zero
   * for coincident points, otherwise a vector whose component along the
   * unit offset d / r is the gradient magnitude.
   */
  function KernelGradient(d: Vec3, r: real, h: real): (g: Vec3)
    requires h > 0.0
    ensures r <= Epsilon ==> g == Zero
    ensures r > Epsilon && Dot(d, d) == r * r ==> Dot(g, d) == r * GradientMagnitude(r / h, h)
  {
    var mag := GradientMagnitude(r / h, h);
    if r > Epsilon then
      var g := Vec3(d.x / r * mag, d.y / r * mag, d.z / r * mag);
      RadialComponent(d, r, mag);
      g
    else Zero
  }

  /**
   * The gradient is parallel to the offset d: it is d / r scaled by the
   * magnitude, so every pair of its components is in the ratio of d's.
   */
  lemma GradientAlongOffset(d: Vec3, r: real, h: real)
    requires h > 0.0
    ensures var g := KernelGradient(d, r, h);
            g.x * d.y == g.y * d.x && g.y * d.z == g.z * d.y && g.x * d.z == g.z * d.x
  {
    if r > Epsilon {
      ScaledOffsetIsParallel(d, r, GradientMagnitude(r / h, h));
    }
  }

  /** (d / r) m is parallel to d. */
  lemma ScaledOffsetIsParallel(d: Vec3, r: real, m: real)
    requires r != 0.0
    ensures var g := Vec3(d.x / r * m, d.y / r * m, d.z / r * m);
            g.x * d.y == g.y * d.x && g.y * d.z == g.z * d.y && g.x * d.z == g.z * d.x
  {
    var k := m / r;
    assert d.x / r * m == d.x * k;
    assert d.y / r * m == d.y * k;
    assert d.z / r * m == d.z * k;
    ScaledIsParallel(d, k);
  }

  /** d k is parallel to d. */
  lemma ScaledIsParallel(d: Vec3, k: real)
    ensures (d.x * k) * d.y == (d.y * k) * d.x
    ensures (d.y * k) * d.z == (d.z * k) * d.y
    ensures (d.x * k) * d.z == (d.z * k) * d.x
  {
  }

  /** Scaling d / r by m and projecting back on d gives m |d|^2 / r, which is m r when |d| = r. */
  lemma RadialComponent(d: Vec3, r: real, m: real)
    requires r > 0.0
    ensures Dot(Vec3(d.x / r * m, d.y / r * m, d.z / r * m), d) == Dot(d, d) * (m / r)
    ensures Dot(d, d) == r * r ==> Dot(d, d) * (m / r) == r * m
  {
    var k := m / r;
    assert d.x / r * m == d.x * k;
    assert d.y / r * m == d.y * k;
    assert d.z / r * m == d.z * k;
    assert Dot(Vec3(d.x * k, d.y * k, d.z * k), d) == Dot(d, d) * k;
    assert k * r == m;
    assert Dot(d, d) == r * r ==> Dot(d, d) * k == r * (k * r);
  }

  /** The gradient magnitude is never positive for q >= 0, and negative strictly inside (0, 1). */
  lemma GradientNonPositive(q: real, h: real)
    requires h > 0.0 && 0.0 <= q
    ensures GradientMagnitude(q, h) <= 0.0
    ensures 0.0 < q < 1.0 ==> GradientMagnitude(q, h) < 0.0
  {
    var g := GradientConstant(h);
    if q <= 0.5 {
      var a := g * q;
      assert a >= 0.0 && (0.0 < q ==> a > 0.0);
      assert a * (3.0 * q - 2.0) <= 0.0;
      assert 0.0 < q ==> a * (3.0 * q - 2.0) < 0.0;
    } else {
      var u := 1.0 - q;
      if q < 1.0 {
        calc {
          GradientMagnitude(q, h);
        ==
          -(g * (u * u));
        <  { assert u * u > 0.0; assert g * (u * u) > 0.0; }
          0.0;
        }
      } else {
        calc {
          GradientMagnitude(q, h);
        ==
          -(g * (u * u));
        <= { assert u * u >= 0.0; assert g * (u * u) >= 0.0; }
          0.0;
        }
      }
    }
  }

  /** Both gradient branches give -G/4 at q = 1/2. */
  lemma GradientBranchesMeetAtHalf(h: real)
    requires h > 0.0
    ensures InnerGradient(0.5, h) == OuterGradient(0.5, h) == -0.25 * GradientConstant(h)
    ensures GradientMagnitude(0.5, h) == -0.25 * GradientConstant(h)
  {
  }

  /** Coincident points (r <= 1e-8) get the zero gradient. */
  lemma GradientZeroWhenCoincident(d: Vec3, r: real, h: real)
    requires h > 0.0 && r <= Epsilon
    ensures KernelGradient(d, r, h) == Zero
  {
  }

  /**
   * The gradient points from `d`'s head back toward its tail: for a pair at
   * offset d = p_i - p_j with |d| = r it never has a positive component along d.
   */
  lemma GradientPointsInward(d: Vec3, r: real, h: real)
    requires h > 0.0 && r >= 0.0
    ensures Dot(KernelGradient(d, r, h), d) <= 0.0
  {
    if r > Epsilon {
      var mag := GradientMagnitude(r / h, h);
      assert r / h >= 0.0;
      GradientNonPositive(r / h, h);
      QuotientTimesSelf(d.x, r);
      QuotientTimesSelf(d.y, r);
      QuotientTimesSelf(d.z, r);
      ScaledSumNonPositive(d.x / r, d.y / r, d.z / r, d.x, d.y, d.z, mag);
    }
  }

  /** `(x / r) x = x^2 / r` is never negative for r > 0. */
  lemma QuotientTimesSelf(x: real, r: real)
    requires r > 0.0
    ensures (x / r) * x >= 0.0
  {
    var u := x / r;
    assert u * r == x;
    assert u * x == (u * u) * r;
    assert u * u >= 0.0;
  }

  /** A non-positive factor m times a sum of non-negative products stays non-positive. */
  lemma ScaledSumNonPositive(ux: real, uy: real, uz: real, dx: real, dy: real, dz: real, m: real)
    requires m <= 0.0 && ux * dx >= 0.0 && uy * dy >= 0.0 && uz * dz >= 0.0
    ensures ux * m * dx + uy * m * dy + uz * m * dz <= 0.0
  {
    assert ux * m * dx == m * (ux * dx);
    assert uy * m * dy == m * (uy * dy);
    assert uz * m * dz == m * (uz * dz);
    assert m * (ux * dx) <= 0.0 && m * (uy * dy) <= 0.0 && m * (uz * dz) <= 0.0;
  }

  /** The kernel's slope dW/dq on each branch. */
  function KernelSlope(q: real, h: real): real
    requires h > 0.0
  {
    if q <= 0.5 then KernelConstant(h) * (18.0 * q * q - 12.0 * q)
    else KernelConstant(h) * (-6.0 * ((1.0 - q) * (1.0 - q)))
  }

  /**
   * KernelSlope is the derivative of Kernel on the inner branch: the change
   * over a step e within [0, 1/2] is e times the slope plus a term of order e^2.
   */
  lemma InnerSlopeIsDerivative(q: real, e: real, h: real)
    requires h > 0.0 && q <= 0.5 && q + e <= 0.5
    ensures Kernel(q + e, h) - Kernel(q, h) - e * KernelSlope(q, h)
            == KernelConstant(h) * e * e * (18.0 * q + 6.0 * e - 6.0)
  {
    var a, b, x := InnerBranch(q + e), InnerBranch(q), 18.0 * q * q - 12.0 * q;
    InnerBranchStep(q, e);
    ScaledStep(Kernel(q + e, h), Kernel(q, h), KernelSlope(q, h), KernelConstant(h), a, b, e, x, 18.0 * q + 6.0 * e - 6.0);
  }

  /** The same on the outer branch, for steps that stay above 1/2. */
  lemma OuterSlopeIsDerivative(q: real, e: real, h: real)
    requires h > 0.0 && q > 0.5 && q + e > 0.5
    ensures Kernel(q + e, h) - Kernel(q, h) - e * KernelSlope(q, h)
            == KernelConstant(h) * e * e * (6.0 * (1.0 - q) - 2.0 * e)
  {
    var a, b, x := OuterBranch(q + e), OuterBranch(q), -6.0 * ((1.0 - q) * (1.0 - q));
    OuterBranchStep(q, e);
    ScaledStep(Kernel(q + e, h), Kernel(q, h), KernelSlope(q, h), KernelConstant(h), a, b, e, x, 6.0 * (1.0 - q) - 2.0 * e);
  }

  /** A step identity `a - b - e x == e^2 y` scaled by c: for A = c a, B = c b, S = c x. */
  lemma ScaledStep(ka: real, kb: real, ks: real, c: real, a: real, b: real, e: real, x: real, y: real)
    requires ka == c * a && kb == c * b && ks == c * x
    requires a - b - e * x == e * e * y
    ensures ka - kb - e * ks == c * e * e * y
  {
    calc {
      ka - kb - e * ks;
    ==
      c * a - c * b - e * (c * x);
    ==
      c * (a - b - e * x);
    ==
      c * (e * e * y);
    ==
      c * e * e * y;
    }
  }

  /** The inner branch's change over a step e, as a polynomial identity. */
  lemma InnerBranchStep(q: real, e: real)
    ensures InnerBranch(q + e) - InnerBranch(q) - e * (18.0 * q * q - 12.0 * q)
            == e * e * (18.0 * q + 6.0 * e - 6.0)
  {
  }

  /** The outer branch's change over a step e, as a polynomial identity. */
  lemma OuterBranchStep(q: real, e: real)
    ensures OuterBranch(q + e) - OuterBranch(q) - e * (-6.0 * ((1.0 - q) * (1.0 - q)))
            == e * e * (6.0 * (1.0 - q) - 2.0 * e)
  {
    var u := 1.0 - q;
    assert OuterBranch(q + e) == 2.0 * ((u - e) * (u - e) * (u - e));
  }

  /**
   * The gradient magnitude is half of the kernel's derivative with respect to
   * r (dW/dr = KernelSlope / h): the constant 24 / (pi h^5) is half of the
   * 48 / (pi h^5) that differentiating 8 / (pi h^4) W gives.
   */
  lemma GradientIsHalfRadialDerivative(q: real, h: real)
    requires h > 0.0
    ensures 2.0 * h * GradientMagnitude(q, h) == KernelSlope(q, h)
  {
    var g := GradientConstant(h);
    var c := KernelConstant(h);
    var p := Pi * (h * h * h * h);
    assert p > 0.0;
    assert g * (p * h) == 24.0;
    assert c * p == 8.0;
    assert (h * g) * p == 3.0 * (c * p);
    assert h * g == 3.0 * c;
  }
}
