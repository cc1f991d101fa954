/**
 * The state of one rigid body, and the box that the simulation builds:
 * mass, inertia tensor in body space, the kinematic state updated by the
 * solver, and the box's eight corner vertices in body space.
 */
module Bodies {
  import opened LinAlg
  import opened Quaternions

  /**
   * `BodyAttributes`: a rigid body whose fields the solver updates in place.
   * The default constructor sets the kinematic state to rest at the origin
   * with the identity orientation; it leaves mass and inertia unset.
   */
  class Body {
    var M: real          // mass
    var I0: Mat3         // inertia tensor in body space
    var I0inv: Mat3      // its inverse
    var Iinv: Mat3       // inverse inertia tensor used by the solver

    var X: Vec3          // position
    var R: Mat3          // rotation
    var orientation: Quaternion
    var P: Vec3          // linear momentum
    var L: Vec3          // angular momentum

    var V: Vec3          // linear velocity
    var omega: Vec3      // angular velocity

    var F: Vec3          // force
    var tau: Vec3        // torque

    var vdata0: seq<Vec3>  // mesh vertices in body space

    /** The orientation is a unit quaternion. */
    ghost predicate Valid()
      reads this
    {
      NormSq(orientation) == 1.0
    }

    constructor()
      ensures X == Zero && R == Identity() && orientation == Quaternion()
      ensures P == Zero && L == Zero && V == Zero && omega == Zero
      ensures F == Zero && tau == Zero && vdata0 == []
      ensures Valid()
    {
      X, R, P, L := Zero, Identity(), Zero, Zero;
      V, omega, F, tau := Zero, Zero, Zero, Zero;
      orientation := Quaternion(1.0, 0.0, 0.0, 0.0);
      vdata0 := [];
      new;
      DefaultIsUnit();
    }

    /**
     * `Box(w, h, d, dens, v0, omega0)`: a solid box of the given width,
     * height, depth and density. It starts with velocity `v0` and angular
     * velocity `omega0`, but its momenta stay zero. The inertia tensor must
     * be invertible: its three principal moments must be non-zero.
     */
    constructor Box(w: real := 1.0, h: real := 1.0, d: real := 1.0, dens: real := 10.0,
                    v0: Vec3 := Zero, omega0: Vec3 := Zero)
      requires NonDegenerate(w, h, d, dens)
      ensures M == dens * w * h * d && M != 0.0
      ensures I0 == BoxInertia(M, w, h, d) && I0inv == Invert(I0) && Iinv == I0inv
      ensures V == v0 && omega == omega0 && P == Zero && L == Zero
      ensures X == Zero && R == Identity() && orientation == Quaternion()
      ensures F == Zero && tau == Zero
      ensures |vdata0| == 8 && forall i :: 0 <= i < 8 ==> vdata0[i] == Corner(i, w, h, d)
      ensures Valid()
    {
      X, R, P, L := Zero, Identity(), Zero, Zero;
      V, omega, F, tau := Zero, Zero, Zero, Zero;
      orientation := Quaternion(1.0, 0.0, 0.0, 0.0);
      DefaultIsUnit();
      V := v0;
      omega := omega0;
      var m := dens * w * h * d;
      NonDegenerateBox(w, h, d, dens);
      var i0 := BoxInertia(m, w, h, d);
      var i0inv := Invert(i0);
      M, I0, I0inv, Iinv := m, i0, i0inv, i0inv;

      vdata0 := [];
      new;
      vdata0 := vdata0 + [Vec3(-0.5 * w, -0.5 * h, -0.5 * d)];
      vdata0 := vdata0 + [Vec3( 0.5 * w, -0.5 * h, -0.5 * d)];
      vdata0 := vdata0 + [Vec3( 0.5 * w,  0.5 * h, -0.5 * d)];
      vdata0 := vdata0 + [Vec3(-0.5 * w,  0.5 * h, -0.5 * d)];

      vdata0 := vdata0 + [Vec3(-0.5 * w, -0.5 * h,  0.5 * d)];
      vdata0 := vdata0 + [Vec3( 0.5 * w, -0.5 * h,  0.5 * d)];
      vdata0 := vdata0 + [Vec3( 0.5 * w,  0.5 * h,  0.5 * d)];
      vdata0 := vdata0 + [Vec3(-0.5 * w,  0.5 * h,  0.5 * d)];
    }
  }

  /** The inertia tensor of a solid box of mass `m` about its centre, in body space. */
  function BoxInertia(m: real, w: real, h: real, d: real): Mat3 {
    Diag((1.0 / 12.0) * m * (h * h + d * d),
         (1.0 / 12.0) * m * (w * w + d * d),
         (1.0 / 12.0) * m * (w * w + h * h))
  }

  /**
   * Corner `i` of a `w` x `h` x `d` box centred at the origin, described by
   * the bits of its index: x is positive for corners 1, 2, 5 and 6, y for
   * 2, 3, 6 and 7, and z for the last four.
   */
  function Corner(i: int, w: real, h: real, d: real): Vec3
    requires 0 <= i < 8
  {
    Vec3(HalfSigned(i % 4 == 1 || i % 4 == 2, w),
         HalfSigned(i % 4 >= 2, h),
         HalfSigned(i >= 4, d))
  }

  /** Half of `a`, with a positive or negative sign. */
  function HalfSigned(positive: bool, a: real): real {
    if positive then 0.5 * a else -0.5 * a
  }

  /**
   * The box's inertia tensor can be inverted: each of its principal moments,
   * a twelfth of the mass times the sum of two squared dimensions, is non-zero.
   */
  predicate NonDegenerate(w: real, h: real, d: real, dens: real) {
    var i0 := BoxInertia(dens * w * h * d, w, h, d);
    i0.r0.x != 0.0 && i0.r1.y != 0.0 && i0.r2.z != 0.0
  }

  /** A body without mass has no moment of inertia about any axis. */
  lemma ZeroMassZeroMoment(m: real, a: real, b: real)
    requires m == 0.0
    ensures (1.0 / 12.0) * m * (a * a + b * b) == 0.0
  {
  }

  /**
   * A box whose inertia tensor is invertible has a non-zero mass, so no
   * dimension and not the density is zero, and its inertia tensor is diagonal.
   */
  lemma NonDegenerateBox(w: real, h: real, d: real, dens: real)
    requires NonDegenerate(w, h, d, dens)
    ensures dens * w * h * d != 0.0
    ensures w != 0.0 && h != 0.0 && d != 0.0 && dens != 0.0
    ensures IsDiagonal(BoxInertia(dens * w * h * d, w, h, d))
  {
    if dens * w * h * d == 0.0 {
      ZeroMassZeroMoment(dens * w * h * d, h, d);
      assert false;
    }
  }

  lemma HalfSignedDiffers(s: bool, t: bool, a: real)
    requires a != 0.0 && s != t
    ensures HalfSigned(s, a) != HalfSigned(t, a)
  {
  }

  /** Every coordinate of every corner is half the box's extent, with either sign. */
  lemma CornerCoordinates(i: int, w: real, h: real, d: real)
    requires 0 <= i < 8
    ensures var c := Corner(i, w, h, d);
            (c.x == 0.5 * w || c.x == -0.5 * w) &&
            (c.y == 0.5 * h || c.y == -0.5 * h) &&
            (c.z == 0.5 * d || c.z == -0.5 * d)
  {
  }

  /** The eight corners of a box with non-zero dimensions are pairwise distinct. */
  lemma CornersDistinct(i: int, j: int, w: real, h: real, d: real)
    requires 0 <= i < 8 && 0 <= j < 8 && i != j
    requires w != 0.0 && h != 0.0 && d != 0.0
    ensures Corner(i, w, h, d) != Corner(j, w, h, d)
  {
    var xi, xj := i % 4 == 1 || i % 4 == 2, j % 4 == 1 || j % 4 == 2;
    var yi, yj := i % 4 >= 2, j % 4 >= 2;
    if xi != xj {
      HalfSignedDiffers(xi, xj, w);
    } else if yi != yj {
      HalfSignedDiffers(yi, yj, h);
    } else if (i >= 4) != (j >= 4) {
      HalfSignedDiffers(i >= 4, j >= 4, d);
    } else {
      assert false;
    }
  }

  /** The corners are centred on the body origin: their sum is zero. */
  lemma CornersCentred(w: real, h: real, d: real)
    ensures Add(Add(Add(Add(Add(Add(Add(Corner(0, w, h, d), Corner(1, w, h, d)), Corner(2, w, h, d)),
                Corner(3, w, h, d)), Corner(4, w, h, d)), Corner(5, w, h, d)), Corner(6, w, h, d)),
                Corner(7, w, h, d)) == Zero
  {
  }
}
