/**
 * Three-vectors and 3x3 matrices over the reals: the small part of the
 * vector and matrix library that the rigid-body solver relies on.
 * Arithmetic is idealised (`real`), so algebraic identities hold exactly.
 */
module LinAlg {

  datatype Vec3 = Vec3(x: real, y: real, z: real)

  /** A matrix stored by rows; `r0.y` is the entry at row 0, column 1. */
  datatype Mat3 = Mat3(r0: Vec3, r1: Vec3, r2: Vec3)

  const Zero: Vec3 := Vec3(0.0, 0.0, 0.0)

  function Add(a: Vec3, b: Vec3): Vec3 {
    Vec3(a.x + b.x, a.y + b.y, a.z + b.z)
  }

  function Sub(a: Vec3, b: Vec3): Vec3 {
    Vec3(a.x - b.x, a.y - b.y, a.z - b.z)
  }

  /** `a * s` and `s * a` for a scalar `s`. */
  function Scale(a: Vec3, s: real): Vec3 {
    Vec3(a.x * s, a.y * s, a.z * s)
  }

  /** `a / s` for a scalar `s`. */
  function Div(a: Vec3, s: real): Vec3
    requires s != 0.0
  {
    Vec3(a.x / s, a.y / s, a.z / s)
  }

  function Dot(a: Vec3, b: Vec3): real {
    a.x * b.x + a.y * b.y + a.z * b.z
  }

  /** Dividing by a non-zero scalar and multiplying back gives the vector again. */
  lemma DivThenScale(a: Vec3, s: real)
    requires s != 0.0
    ensures Scale(Div(a, s), s) == a
  {
    assert (a.x / s) * s == a.x;
    assert (a.y / s) * s == a.y;
    assert (a.z / s) * s == a.z;
  }

  /** The right-handed cross product `a x b`. */
  function Cross(a: Vec3, b: Vec3): (c: Vec3)
    ensures Dot(c, a) == 0.0 && Dot(c, b) == 0.0
  {
    var c := Vec3(a.y * b.z - a.z * b.y, a.z * b.x - a.x * b.z, a.x * b.y - a.y * b.x);
    assert Dot(c, a) == a.y * b.z * a.x - a.z * b.y * a.x + a.z * b.x * a.y
                        - a.x * b.z * a.y + a.x * b.y * a.z - a.y * b.x * a.z;
    assert Dot(c, b) == a.y * b.z * b.x - a.z * b.y * b.x + a.z * b.x * b.y
                        - a.x * b.z * b.y + a.x * b.y * b.z - a.y * b.x * b.z;
    c
  }

  function Identity(): Mat3 {
    Mat3(Vec3(1.0, 0.0, 0.0), Vec3(0.0, 1.0, 0.0), Vec3(0.0, 0.0, 1.0))
  }

  function Diag(a: real, b: real, c: real): Mat3 {
    Mat3(Vec3(a, 0.0, 0.0), Vec3(0.0, b, 0.0), Vec3(0.0, 0.0, c))
  }

  predicate IsDiagonal(m: Mat3) {
    m == Diag(m.r0.x, m.r1.y, m.r2.z)
  }

  function Col0(m: Mat3): Vec3 { Vec3(m.r0.x, m.r1.x, m.r2.x) }
  function Col1(m: Mat3): Vec3 { Vec3(m.r0.y, m.r1.y, m.r2.y) }
  function Col2(m: Mat3): Vec3 { Vec3(m.r0.z, m.r1.z, m.r2.z) }

  function Transpose(m: Mat3): Mat3 {
    Mat3(Col0(m), Col1(m), Col2(m))
  }

  /** Matrix times column vector. */
  function MulVec(m: Mat3, v: Vec3): Vec3 {
    Vec3(Dot(m.r0, v), Dot(m.r1, v), Dot(m.r2, v))
  }

  /** Matrix product: entry (i, j) is row i of `a` dotted with column j of `b`. */
  function MulMat(a: Mat3, b: Mat3): Mat3 {
    Mat3(Vec3(Dot(a.r0, Col0(b)), Dot(a.r0, Col1(b)), Dot(a.r0, Col2(b))),
         Vec3(Dot(a.r1, Col0(b)), Dot(a.r1, Col1(b)), Dot(a.r1, Col2(b))),
         Vec3(Dot(a.r2, Col0(b)), Dot(a.r2, Col1(b)), Dot(a.r2, Col2(b))))
  }

  /**
   * Matrix inversion, for the only case the solver uses: a diagonal matrix
   * whose diagonal entries are non-zero. The result is a two-sided inverse.
   */
  function Invert(m: Mat3): (inv: Mat3)
    requires IsDiagonal(m) && m.r0.x != 0.0 && m.r1.y != 0.0 && m.r2.z != 0.0
    ensures IsDiagonal(inv)
    ensures MulMat(m, inv) == Identity() && MulMat(inv, m) == Identity()
  {
    Diag(1.0 / m.r0.x, 1.0 / m.r1.y, 1.0 / m.r2.z)
  }

  /** Rows of unit length and pairwise orthogonal make `m` orthonormal: M Mt = I. */
  lemma OrthonormalRows(m: Mat3)
    requires Dot(m.r0, m.r0) == 1.0 && Dot(m.r1, m.r1) == 1.0 && Dot(m.r2, m.r2) == 1.0
    requires Dot(m.r0, m.r1) == 0.0 && Dot(m.r0, m.r2) == 0.0 && Dot(m.r1, m.r2) == 0.0
    ensures MulMat(m, Transpose(m)) == Identity()
  {
    assert Col0(Transpose(m)) == m.r0 && Col1(Transpose(m)) == m.r1 && Col2(Transpose(m)) == m.r2;
    DotSymmetric(m.r0, m.r1);
    DotSymmetric(m.r0, m.r2);
    DotSymmetric(m.r1, m.r2);
  }

  lemma DotSymmetric(a: Vec3, b: Vec3)
    ensures Dot(a, b) == Dot(b, a)
  {
  }

  function Square(a: real): real {
    a * a
  }

  lemma SquareNonNegative(a: real)
    ensures Square(a) >= 0.0
  {
  }

  lemma ProductNonNegative(a: real, b: real)
    requires a >= 0.0 && b >= 0.0
    ensures a * b >= 0.0
  {
  }

  /**
   * `sqrt` behaves as the square root on positive arguments. The solver's
   * square root is a library call, so the model receives it as a parameter
   * and relies only on this property.
   */
  ghost predicate IsSqrt(sqrt: real -> real) {
    forall a: real :: a > 0.0 ==> sqrt(a) > 0.0 && Square(sqrt(a)) == a
  }
}
