/**
 * The rigid-body solver: a step counter, the simulated time, and one
 * semi-implicit Euler step that updates the bound body's momenta,
 * velocities, position and orientation in place.
 */
module Solver {
  import opened LinAlg
  import opened Quaternions
  import opened Bodies

  /** The force applied once, on the step whose counter is 1. */
  const Impulse: Vec3 := Vec3(0.15, 0.25, 0.03)

  /** The gravity a solver uses unless it is given another one. */
  const DefaultGravity: Vec3 := Vec3(0.0, -0.98, 0.0)

  /**
   * The force on a body of mass `m` computed when the step counter is `n`:
   * its weight, plus the impulse when the counter is 1.
   */
  function Force(n: nat, m: real, g: Vec3): Vec3 {
    var weight := LinAlg.Scale(g, m);
    if n == 1 then Add(weight, Impulse) else weight
  }

  /**
   * The torque after the force computation with step counter `n`: the
   * moment of the impulse applied at the first vertex about the centre of
   * mass `x` when the counter is 1, otherwise the previous torque `tau`.
   */
  function Torque(n: nat, tau: Vec3, x: Vec3, vdata0: seq<Vec3>): Vec3
    requires n == 1 ==> |vdata0| > 0
  {
    if n == 1 then Cross(Sub(vdata0[0], x), Impulse) else tau
  }

  /** The torque set on the impulse step is perpendicular to the impulse. */
  lemma ImpulseTorquePerpendicular(tau: Vec3, x: Vec3, vdata0: seq<Vec3>)
    requires |vdata0| > 0
    ensures Dot(Torque(1, tau, x, vdata0), Impulse) == 0.0
  {
  }

  /**
   * The sum of the forces computed with step counters 0, 1, ..., n - 1 for a
   * body of mass `m`.
   */
  function TotalForce(n: nat, m: real, g: Vec3): Vec3 {
    if n == 0 then Zero else Add(TotalForce(n - 1, m, g), Force(n - 1, m, g))
  }

  /**
   * Over the first `n` steps the body feels its weight `n` times and the
   * impulse exactly once, on the second step.
   */
  lemma {:induction false} TotalForceClosedForm(n: nat, m: real, g: Vec3)
    ensures TotalForce(n, m, g) == Add(LinAlg.Scale(g, m * n as real), if n >= 2 then Impulse else Zero)
  {
    if n > 0 {
      TotalForceClosedForm(n - 1, m, g);
      var k := (n - 1) as real;
      WeightAccumulates(g.x, m, k);
      WeightAccumulates(g.y, m, k);
      WeightAccumulates(g.z, m, k);
    }
  }

  lemma WeightAccumulates(a: real, m: real, k: real)
    ensures a * (m * k) + a * m == a * (m * (k + 1.0))
  {
  }

  /** The rate of change of the orientation `q` under angular velocity `omega`: (0, omega) * q * 0.5. */
  function Spin(q: Quaternion, omega: Vec3): Quaternion {
    Mul(Mul(Pure(omega), q), Quaternion(0.5))
  }

  /** `q` advanced by `dt` times the rate `dq`, component by component. */
  function Advance(q: Quaternion, dq: Quaternion, dt: real): Quaternion {
    Quaternion(q.w + dq.w * dt, q.x + dq.x * dt, q.y + dq.y * dt, q.z + dq.z * dt)
  }

  /**
   * The orientation after one step: `q` advanced along its spin and
   * renormalized. It is a unit quaternion whenever `q` is not zero.
   */
  function OrientationUpdate(q: Quaternion, omega: Vec3, dt: real, sqrt: real -> real): (r: Quaternion)
    requires IsSqrt(sqrt) && NormSq(q) != 0.0
    ensures NormSq(r) == 1.0
  {
    AdvanceNonZero(q, omega, dt);
    Normalized(Advance(q, Spin(q, omega), dt), sqrt)
  }

  /**
   * The spin is orthogonal to the orientation, and its squared length is a
   * quarter of |omega|^2 |q|^2.
   */
  lemma SpinOrthogonal(q: Quaternion, omega: Vec3)
    ensures Dot4(q, Spin(q, omega)) == 0.0
    ensures NormSq(Spin(q, omega)) == (Dot(omega, omega) * NormSq(q)) * Square(0.5)
  {
    var p := Pure(omega);
    ScalarProductIsScaling(Mul(p, q), 0.5);
    PureProductOrthogonal(p, q);
    DotScale(q, Mul(p, q), 0.5);
    MulNormSq(p, q);
    ScaleNormSq(Mul(p, q), 0.5);
  }

  lemma DotScale(q: Quaternion, d: Quaternion, s: real)
    ensures Dot4(q, Quaternions.Scale(d, s)) == Dot4(q, d) * s
  {
  }

  /**
   * The additive update never shrinks the orientation: its squared length
   * grows by dt^2 times that of the spin.
   */
  lemma AdvanceNormSq(q: Quaternion, omega: Vec3, dt: real)
    ensures NormSq(Advance(q, Spin(q, omega), dt)) == NormSq(q) + Square(dt) * NormSq(Spin(q, omega))
  {
    SpinOrthogonal(q, omega);
    OrthogonalSumNormSq(q, Spin(q, omega), dt);
  }

  /** So the quaternion that the step normalizes is never zero. */
  lemma AdvanceNonZero(q: Quaternion, omega: Vec3, dt: real)
    requires NormSq(q) != 0.0
    ensures NormSq(Advance(q, Spin(q, omega), dt)) >= NormSq(q) > 0.0
  {
    AdvanceNormSq(q, omega, dt);
    NormSqNonNegative(q);
    NormSqNonNegative(Spin(q, omega));
    SquareNonNegative(dt);
    ProductNonNegative(Square(dt), NormSq(Spin(q, omega)));
  }

  /** A body that does not spin keeps its (unit) orientation. */
  lemma NoSpinKeepsOrientation(q: Quaternion, dt: real, sqrt: real -> real)
    requires IsSqrt(sqrt) && NormSq(q) == 1.0
    ensures OrientationUpdate(q, Zero, dt, sqrt) == q
  {
    NoSpinNoChange(q);
    AdvanceByNothing(q, dt);
    NormalizedOfUnit(q, sqrt);
  }

  lemma NoSpinNoChange(q: Quaternion)
    ensures Spin(q, Zero) == Quaternion(0.0, 0.0, 0.0, 0.0)
  {
    var o := Quaternion(0.0, 0.0, 0.0, 0.0);
    assert Pure(Zero) == o;
    ZeroProduct(q);
    ZeroProduct(Quaternion(0.5));
  }

  lemma AdvanceByNothing(q: Quaternion, dt: real)
    ensures Advance(q, Quaternion(0.0, 0.0, 0.0, 0.0), dt) == q
  {
  }

  lemma ZeroProduct(q: Quaternion)
    ensures Mul(Quaternion(0.0, 0.0, 0.0, 0.0), q) == Quaternion(0.0, 0.0, 0.0, 0.0)
  {
  }

  /** The rotation matrix refreshed after a step is orthonormal: R Rt = I. */
  lemma UpdatedRotationOrthonormal(q: Quaternion, omega: Vec3, dt: real, sqrt: real -> real)
    requires IsSqrt(sqrt) && NormSq(q) != 0.0
    ensures var r := ToMatrix(OrientationUpdate(q, omega, dt, sqrt));
            MulMat(r, Transpose(r)) == Identity()
  {
    UnitToMatrixOrthonormal(OrientationUpdate(q, omega, dt, sqrt));
  }

  /**
   * `RigidSolver`: integrates the motion of the body it is bound to, one
   * step of `dt` at a time, and counts the steps and the simulated time.
   */
  class RigidSolver {
    var body: Body?
    const g: Vec3        // gravity
    var stepCount: nat
    var simTime: real

    constructor(body0: Body? := null, g: Vec3 := DefaultGravity)
      ensures body == body0 && this.g == g && stepCount == 0 && simTime == 0.0
    {
      body := body0;
      this.g := g;
      stepCount := 0;
      simTime := 0.0;
    }

    /** Binds the solver to `body0` and restarts the count of steps and time. */
    method Init(body0: Body?)
      modifies this
      ensures body == body0 && stepCount == 0 && simTime == 0.0
    {
      body := body0;
      stepCount := 0;
      simTime := 0.0;
    }

    /**
     * Sets the force to the body's weight, plus the impulse when the step
     * counter is 1; on that step only, the torque becomes the moment of the
     * impulse applied at the first vertex. Otherwise the torque is kept.
     */
    method ComputeForceAndTorque()
      requires body != null
      requires stepCount == 1 ==> |body.vdata0| > 0
      modifies body`F, body`tau
      ensures body.F == Force(stepCount, body.M, g)
      ensures body.tau == Torque(stepCount, old(body.tau), body.X, body.vdata0)
    {
      body.F := LinAlg.Scale(g, body.M);
      if stepCount == 1 {
        var f := Vec3(0.15, 0.25, 0.03);
        body.F := Add(body.F, f);
        var r := Sub(body.vdata0[0], body.X);
        body.tau := Vec3(r.y * f.z - r.z * f.y, r.z * f.x - r.x * f.z, r.x * f.y - r.y * f.x);
      }
    }

    /**
     * One step of length `dt`. The new force and torque drive the momenta;
     * the velocity follows from the new momentum and the position from the
     * new velocity; the angular velocity is the fixed inverse inertia tensor
     * applied to the new angular momentum; the orientation is advanced along
     * its spin and renormalized, and the rotation matrix recomputed from it.
     */
    method Step(dt: real, sqrt: real -> real)
      requires body != null && IsSqrt(sqrt)
      requires body.M != 0.0 && NormSq(body.orientation) != 0.0
      requires stepCount == 1 ==> |body.vdata0| > 0
      modifies this`stepCount, this`simTime
      modifies body`F, body`tau, body`P, body`V, body`X, body`L, body`omega, body`orientation, body`R
      ensures body.F == Force(old(stepCount), body.M, g)
      ensures body.tau == Torque(old(stepCount), old(body.tau), old(body.X), body.vdata0)
      ensures body.P == Add(old(body.P), LinAlg.Scale(body.F, dt))
      ensures body.V == Div(body.P, body.M) && LinAlg.Scale(body.V, body.M) == body.P
      ensures body.X == Add(old(body.X), LinAlg.Scale(body.V, dt))
      ensures body.L == Add(old(body.L), LinAlg.Scale(body.tau, dt))
      ensures body.omega == MulVec(body.Iinv, body.L)
      ensures body.orientation == OrientationUpdate(old(body.orientation), body.omega, dt, sqrt)
      ensures body.R == ToMatrix(body.orientation) && MulMat(body.R, Transpose(body.R)) == Identity()
      ensures body.Valid()
      ensures body.M == old(body.M) && body.I0 == old(body.I0) && body.I0inv == old(body.I0inv)
      ensures body.Iinv == old(body.Iinv) && body.vdata0 == old(body.vdata0)
      ensures stepCount == old(stepCount) + 1 && simTime == old(simTime) + dt
    {
      ComputeForceAndTorque();
      var b := body;

      b.P := Add(b.P, LinAlg.Scale(b.F, dt));
      b.V := Div(b.P, b.M);
      DivThenScale(b.P, b.M);
      b.X := Add(b.X, LinAlg.Scale(b.V, dt));

      b.L := Add(b.L, LinAlg.Scale(b.tau, dt));
      b.omega := MulVec(b.Iinv, b.L);

      b.orientation := OrientationUpdate(b.orientation, b.omega, dt, sqrt);

      b.R := ToMatrix(b.orientation);
      UnitToMatrixOrthonormal(b.orientation);

      stepCount := stepCount + 1;
      simTime := simTime + dt;
    }
  }
}
