/**
 * Quaternions over the reals, as the rigid-body solver uses them to carry
 * a body's orientation: the Hamilton product, normalization and the
 * polynomial conversion of a unit quaternion into a rotation matrix.
 */
module Quaternions {
  import opened LinAlg
  import opened Polynomials

  /**
   * `Quaternion()` is the identity rotation (1, 0, 0, 0), and a single
   * scalar `s` converts implicitly to `Quaternion(s)` = (s, 0, 0, 0).
   */
  datatype Quaternion = Quaternion(w: real := 1.0, x: real := 0.0, y: real := 0.0, z: real := 0.0)

  /** The Hamilton product `p * q`. */
  function Mul(p: Quaternion, q: Quaternion): Quaternion {
    Quaternion(
      p.w * q.w - p.x * q.x - p.y * q.y - p.z * q.z,
      p.w * q.x + p.x * q.w + p.y * q.z - p.z * q.y,
      p.w * q.y - p.x * q.z + p.y * q.w + p.z * q.x,
      p.w * q.z + p.x * q.y - p.y * q.x + p.z * q.w)
  }

  /** Every component multiplied by `s`. */
  function Scale(q: Quaternion, s: real): Quaternion {
    Quaternion(q.w * s, q.x * s, q.y * s, q.z * s)
  }

  /** Component-wise sum. */
  function Sum(p: Quaternion, q: Quaternion): Quaternion {
    Quaternion(p.w + q.w, p.x + q.x, p.y + q.y, p.z + q.z)
  }

  /** The dot product of the four components. */
  function Dot4(p: Quaternion, q: Quaternion): real {
    p.w * q.w + p.x * q.x + p.y * q.y + p.z * q.z
  }

  /** The squared magnitude. */
  function NormSq(q: Quaternion): real {
    q.w * q.w + q.x * q.x + q.y * q.y + q.z * q.z
  }

  /** A quaternion with no real part, such as an angular velocity. */
  function Pure(v: Vec3): (p: Quaternion)
    ensures p.w == 0.0 && NormSq(p) == Dot(v, v)
  {
    Quaternion(0.0, v.x, v.y, v.z)
  }

  /**
   * `q` divided by its magnitude `sqrt(NormSq(q))`, which must not be zero.
   * The result has unit magnitude, and scaling it back by the magnitude
   * gives `q` again.
   */
  function Normalized(q: Quaternion, sqrt: real -> real): (r: Quaternion)
    requires IsSqrt(sqrt) && NormSq(q) != 0.0
    ensures NormSq(r) == 1.0
    ensures Scale(r, sqrt(NormSq(q))) == q
  {
    NormSqNonNegative(q);
    var mag := sqrt(NormSq(q));
    var r := Quaternion(q.w / mag, q.x / mag, q.y / mag, q.z / mag);
    DivideThenMultiply(q.w, mag);
    DivideThenMultiply(q.x, mag);
    DivideThenMultiply(q.y, mag);
    DivideThenMultiply(q.z, mag);
    assert Scale(r, mag) == q;
    ScaleNormSq(r, mag);
    CancelPositive(NormSq(r), Square(mag), NormSq(q));
    r
  }

  /** The rotation matrix of a unit quaternion, a polynomial in its components. */
  function ToMatrix(q: Quaternion): Mat3 {
    var xx, yy, zz := q.x * q.x, q.y * q.y, q.z * q.z;
    var xy, xz, yz := q.x * q.y, q.x * q.z, q.y * q.z;
    var wx, wy, wz := q.w * q.x, q.w * q.y, q.w * q.z;
    Mat3(
      Vec3(1.0 - 2.0 * (yy + zz), 2.0 * (xy - wz), 2.0 * (xz + wy)),
      Vec3(2.0 * (xy + wz), 1.0 - 2.0 * (xx + zz), 2.0 * (yz - wx)),
      Vec3(2.0 * (xz - wy), 2.0 * (yz + wx), 1.0 - 2.0 * (xx + yy)))
  }

  /** The default quaternion is a left and a right identity of the product. */
  lemma DefaultIsNeutral(q: Quaternion)
    ensures Quaternion() == Quaternion(1.0, 0.0, 0.0, 0.0)
    ensures Mul(Quaternion(), q) == q && Mul(q, Quaternion()) == q
  {
  }

  /** Multiplying by a scalar converted to a quaternion scales every component. */
  lemma ScalarProductIsScaling(q: Quaternion, s: real)
    ensures Mul(q, Quaternion(s)) == Scale(q, s)
    ensures Mul(Quaternion(s), q) == Scale(q, s)
  {
  }

  /** The default quaternion gives the identity matrix. */
  lemma DefaultToMatrix()
    ensures ToMatrix(Quaternion()) == Identity()
  {
  }

  /** The default quaternion has unit magnitude. */
  lemma DefaultIsUnit()
    ensures NormSq(Quaternion()) == 1.0
  {
  }

  lemma NormSqNonNegative(q: Quaternion)
    ensures NormSq(q) >= 0.0
  {
  }

  lemma DivideThenMultiply(a: real, k: real)
    requires k != 0.0
    ensures (a / k) * k == a
  {
  }

  /** From `p == s * k == k` with `k` positive, `s` is one. */
  lemma CancelPositive(s: real, k: real, p: real)
    requires k > 0.0 && p == s * k && p == k
    ensures s == 1.0
  {
  }

  lemma ScaleNormSq(q: Quaternion, k: real)
    ensures NormSq(Scale(q, k)) == NormSq(q) * Square(k)
  {
  }

  /**
   * The magnitude is multiplicative, |p * q|^2 = |p|^2 |q|^2: Euler's
   * four-square identity, with both sides expanded into monomials.
   */
  lemma MulNormSq(p: Quaternion, q: Quaternion)
    ensures NormSq(Mul(p, q)) == NormSq(p) * NormSq(q)
  {
    MulComponentSquareW(p, q);
    MulComponentSquareX(p, q);
    MulComponentSquareY(p, q);
    MulComponentSquareZ(p, q);
    NormSqProduct(p, q);
  }

  lemma MulComponentSquareW(p: Quaternion, q: Quaternion)
    ensures Mul(p, q).w * Mul(p, q).w
         == 1.0 * (p.w * p.w * q.w * q.w) - 2.0 * (p.w * p.x * q.w * q.x) - 2.0 * (p.w * p.y * q.w * q.y) - 2.0 * (p.w * p.z * q.w * q.z) + 1.0 * (p.x * p.x * q.x * q.x) + 2.0 * (p.x * p.y * q.x * q.y) + 2.0 * (p.x * p.z * q.x * q.z) + 1.0 * (p.y * p.y * q.y * q.y) + 2.0 * (p.y * p.z * q.y * q.z) + 1.0 * (p.z * p.z * q.z * q.z)
  {
  }

  lemma MulComponentSquareX(p: Quaternion, q: Quaternion)
    ensures Mul(p, q).x * Mul(p, q).x
         == 1.0 * (p.w * p.w * q.x * q.x) + 2.0 * (p.w * p.x * q.w * q.x) + 2.0 * (p.w * p.y * q.x * q.z) - 2.0 * (p.w * p.z * q.x * q.y) + 1.0 * (p.x * p.x * q.w * q.w) + 2.0 * (p.x * p.y * q.w * q.z) - 2.0 * (p.x * p.z * q.w * q.y) + 1.0 * (p.y * p.y * q.z * q.z) - 2.0 * (p.y * p.z * q.y * q.z) + 1.0 * (p.z * p.z * q.y * q.y)
  {
  }

  lemma MulComponentSquareY(p: Quaternion, q: Quaternion)
    ensures Mul(p, q).y * Mul(p, q).y
         == 1.0 * (p.w * p.w * q.y * q.y) - 2.0 * (p.w * p.x * q.y * q.z) + 2.0 * (p.w * p.y * q.w * q.y) + 2.0 * (p.w * p.z * q.x * q.y) + 1.0 * (p.x * p.x * q.z * q.z) - 2.0 * (p.x * p.y * q.w * q.z) - 2.0 * (p.x * p.z * q.x * q.z) + 1.0 * (p.y * p.y * q.w * q.w) + 2.0 * (p.y * p.z * q.w * q.x) + 1.0 * (p.z * p.z * q.x * q.x)
  {
  }

  lemma MulComponentSquareZ(p: Quaternion, q: Quaternion)
    ensures Mul(p, q).z * Mul(p, q).z
         == 1.0 * (p.w * p.w * q.z * q.z) + 2.0 * (p.w * p.x * q.y * q.z) - 2.0 * (p.w * p.y * q.x * q.z) + 2.0 * (p.w * p.z * q.w * q.z) + 1.0 * (p.x * p.x * q.y * q.y) - 2.0 * (p.x * p.y * q.x * q.y) + 2.0 * (p.x * p.z * q.w * q.y) + 1.0 * (p.y * p.y * q.x * q.x) - 2.0 * (p.y * p.z * q.w * q.x) + 1.0 * (p.z * p.z * q.w * q.w)
  {
  }

  lemma NormSqProduct(p: Quaternion, q: Quaternion)
    ensures NormSq(p) * NormSq(q)
         == 1.0 * (p.w * p.w * q.w * q.w) + 1.0 * (p.w * p.w * q.x * q.x) + 1.0 * (p.w * p.w * q.y * q.y) + 1.0 * (p.w * p.w * q.z * q.z) + 1.0 * (p.x * p.x * q.w * q.w) + 1.0 * (p.x * p.x * q.x * q.x) + 1.0 * (p.x * p.x * q.y * q.y) + 1.0 * (p.x * p.x * q.z * q.z) + 1.0 * (p.y * p.y * q.w * q.w) + 1.0 * (p.y * p.y * q.x * q.x) + 1.0 * (p.y * p.y * q.y * q.y) + 1.0 * (p.y * p.y * q.z * q.z) + 1.0 * (p.z * p.z * q.w * q.w) + 1.0 * (p.z * p.z * q.x * q.x) + 1.0 * (p.z * p.z * q.y * q.y) + 1.0 * (p.z * p.z * q.z * q.z)
  {
  }

  /**
   * A pure quaternion times `q` is orthogonal to `q` (as a vector of four
   * components), so an increment along it never shrinks `q`.
   */
  lemma PureProductOrthogonal(p: Quaternion, q: Quaternion)
    requires p.w == 0.0
    ensures Dot4(q, Mul(p, q)) == 0.0
  {
  }

  /** Adding a multiple of an orthogonal quaternion adds its squared length (Pythagoras). */
  lemma OrthogonalSumNormSq(q: Quaternion, d: Quaternion, t: real)
    requires Dot4(q, d) == 0.0
    ensures NormSq(Sum(q, Scale(d, t))) == NormSq(q) + Square(t) * NormSq(d)
  {
  }

  /**
   * The rotation matrix as a homogeneous quadratic form in the components:
   * the constant 1 of each diagonal entry of `ToMatrix` is replaced by
   * w^2 + x^2 + y^2 + z^2, so the two agree on unit quaternions.
   */
  function QuadraticForm(w: real, x: real, y: real, z: real): Mat3 {
    Mat3(QuadraticRow0(w, x, y, z), QuadraticRow1(w, x, y, z), QuadraticRow2(w, x, y, z))
  }

  function QuadraticRow0(w: real, x: real, y: real, z: real): Vec3 {
    Vec3(w * w + x * x - y * y - z * z, 2.0 * (x * y - w * z), 2.0 * (x * z + w * y))
  }

  function QuadraticRow1(w: real, x: real, y: real, z: real): Vec3 {
    Vec3(2.0 * (x * y + w * z), w * w - x * x + y * y - z * z, 2.0 * (y * z - w * x))
  }

  function QuadraticRow2(w: real, x: real, y: real, z: real): Vec3 {
    Vec3(2.0 * (x * z - w * y), 2.0 * (y * z + w * x), w * w - x * x - y * y + z * z)
  }

  /**
   * The rows of the quadratic form are pairwise orthogonal, and each has
   * squared length (w^2 + x^2 + y^2 + z^2)^2.
   */
  lemma QuadraticRowDot00(w: real, x: real, y: real, z: real)
    ensures Dot(QuadraticRow0(w, x, y, z), QuadraticRow0(w, x, y, z)) == Square(w * w + x * x + y * y + z * z)
  {
    RotationProduct00X(w, x, y, z);
    RotationProduct00Y(w, x, y, z);
    RotationProduct00Z(w, x, y, z);
    NormSquared(w, x, y, z);
  }

  lemma QuadraticRowDot01(w: real, x: real, y: real, z: real)
    ensures Dot(QuadraticRow0(w, x, y, z), QuadraticRow1(w, x, y, z)) == 0.0
  {
    RotationProduct01X(w, x, y, z);
    RotationProduct01Y(w, x, y, z);
    RotationProduct01Z(w, x, y, z);
  }

  lemma QuadraticRowDot02(w: real, x: real, y: real, z: real)
    ensures Dot(QuadraticRow0(w, x, y, z), QuadraticRow2(w, x, y, z)) == 0.0
  {
    RotationProduct02X(w, x, y, z);
    RotationProduct02Y(w, x, y, z);
    RotationProduct02Z(w, x, y, z);
  }

  lemma QuadraticRowDot11(w: real, x: real, y: real, z: real)
    ensures Dot(QuadraticRow1(w, x, y, z), QuadraticRow1(w, x, y, z)) == Square(w * w + x * x + y * y + z * z)
  {
    RotationProduct11X(w, x, y, z);
    RotationProduct11Y(w, x, y, z);
    RotationProduct11Z(w, x, y, z);
    NormSquared(w, x, y, z);
  }

  lemma QuadraticRowDot12(w: real, x: real, y: real, z: real)
    ensures Dot(QuadraticRow1(w, x, y, z), QuadraticRow2(w, x, y, z)) == 0.0
  {
    RotationProduct12X(w, x, y, z);
    RotationProduct12Y(w, x, y, z);
    RotationProduct12Z(w, x, y, z);
  }

  lemma QuadraticRowDot22(w: real, x: real, y: real, z: real)
    ensures Dot(QuadraticRow2(w, x, y, z), QuadraticRow2(w, x, y, z)) == Square(w * w + x * x + y * y + z * z)
  {
    RotationProduct22X(w, x, y, z);
    RotationProduct22Y(w, x, y, z);
    RotationProduct22Z(w, x, y, z);
    NormSquared(w, x, y, z);
  }

  /** On the unit sphere the rows of the quadratic form are orthonormal. */
  lemma UnitQuadraticFormOrthonormal(w: real, x: real, y: real, z: real)
    requires w * w + x * x + y * y + z * z == 1.0
    ensures MulMat(QuadraticForm(w, x, y, z), Transpose(QuadraticForm(w, x, y, z))) == Identity()
  {
    QuadraticRowDot00(w, x, y, z);
    QuadraticRowDot01(w, x, y, z);
    QuadraticRowDot02(w, x, y, z);
    QuadraticRowDot11(w, x, y, z);
    QuadraticRowDot12(w, x, y, z);
    QuadraticRowDot22(w, x, y, z);
    OrthonormalRows(QuadraticForm(w, x, y, z));
  }

  /**
   * Entry by entry, `ToMatrix` of a unit quaternion equals the quadratic
   * form: the diagonal entries use 1 = w^2 + x^2 + y^2 + z^2, the others
   * coincide as written.
   */
  lemma ToMatrixEntry00(q: Quaternion)
    requires NormSq(q) == 1.0
    ensures ToMatrix(q).r0.x == QuadraticRow0(q.w, q.x, q.y, q.z).x
  {
  }

  lemma ToMatrixEntry01(q: Quaternion)
    ensures ToMatrix(q).r0.y == QuadraticRow0(q.w, q.x, q.y, q.z).y
  {
  }

  lemma ToMatrixEntry02(q: Quaternion)
    ensures ToMatrix(q).r0.z == QuadraticRow0(q.w, q.x, q.y, q.z).z
  {
  }

  lemma ToMatrixEntry10(q: Quaternion)
    ensures ToMatrix(q).r1.x == QuadraticRow1(q.w, q.x, q.y, q.z).x
  {
  }

  lemma ToMatrixEntry11(q: Quaternion)
    requires NormSq(q) == 1.0
    ensures ToMatrix(q).r1.y == QuadraticRow1(q.w, q.x, q.y, q.z).y
  {
  }

  lemma ToMatrixEntry12(q: Quaternion)
    ensures ToMatrix(q).r1.z == QuadraticRow1(q.w, q.x, q.y, q.z).z
  {
  }

  lemma ToMatrixEntry20(q: Quaternion)
    ensures ToMatrix(q).r2.x == QuadraticRow2(q.w, q.x, q.y, q.z).x
  {
  }

  lemma ToMatrixEntry21(q: Quaternion)
    ensures ToMatrix(q).r2.y == QuadraticRow2(q.w, q.x, q.y, q.z).y
  {
  }

  lemma ToMatrixEntry22(q: Quaternion)
    requires NormSq(q) == 1.0
    ensures ToMatrix(q).r2.z == QuadraticRow2(q.w, q.x, q.y, q.z).z
  {
  }

  lemma UnitToMatrixIsQuadratic(q: Quaternion)
    requires NormSq(q) == 1.0
    ensures ToMatrix(q) == QuadraticForm(q.w, q.x, q.y, q.z)
  {
    ToMatrixEntry00(q);
    ToMatrixEntry01(q);
    ToMatrixEntry02(q);
    ToMatrixEntry10(q);
    ToMatrixEntry11(q);
    ToMatrixEntry12(q);
    ToMatrixEntry20(q);
    ToMatrixEntry21(q);
    ToMatrixEntry22(q);
  }

  /** The matrix of a unit quaternion is orthonormal: M Mt = I. */
  lemma UnitToMatrixOrthonormal(q: Quaternion)
    requires NormSq(q) == 1.0
    ensures MulMat(ToMatrix(q), Transpose(ToMatrix(q))) == Identity()
  {
    UnitToMatrixIsQuadratic(q);
    UnitQuadraticFormOrthonormal(q.w, q.x, q.y, q.z);
  }

  lemma PositiveRootOfOne(s: real)
    requires s > 0.0 && Square(s) == 1.0
    ensures s == 1.0
  {
  }

  /** Normalizing a unit quaternion leaves it unchanged. */
  lemma NormalizedOfUnit(q: Quaternion, sqrt: real -> real)
    requires IsSqrt(sqrt) && NormSq(q) == 1.0
    ensures Normalized(q, sqrt) == q
  {
    PositiveRootOfOne(sqrt(1.0));
  }
}
