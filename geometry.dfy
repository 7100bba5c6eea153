/** Three-dimensional vectors and 3x3 matrices over exact reals.
    The scene's marker positions, region centers and sizes, and the
    rotation blocks of the scene transform are all values of these types.
    Vector lengths need a square root, which is not available over `real`:
    wherever the scripts call `norm()` or `normalized()`, the model takes the
    length function as a parameter `norm` and normalisation becomes a scaling
    by `1 / norm(v)`. */
module Geometry {

  datatype Vec3 = Vec3(x: real, y: real, z: real)

  /** A 3x3 matrix given by its three rows. */
  datatype Mat3 = Mat3(r0: Vec3, r1: Vec3, r2: Vec3)

  const Zero: Vec3 := Vec3(0.0, 0.0, 0.0)

  /** The canonical "up" direction (0, 1, 0). */
  const UnitY: Vec3 := Vec3(0.0, 1.0, 0.0)

  /** Component `i` of `v` (0 = x, 1 = y, 2 = z). */
  function At(v: Vec3, i: int): real
    requires 0 <= i < 3
  {
    if i == 0 then v.x else if i == 1 then v.y else v.z
  }

  function Add(a: Vec3, b: Vec3): Vec3 {
    Vec3(a.x + b.x, a.y + b.y, a.z + b.z)
  }

  function Sub(a: Vec3, b: Vec3): Vec3 {
    Vec3(a.x - b.x, a.y - b.y, a.z - b.z)
  }

  function Neg(a: Vec3): Vec3 {
    Vec3(-a.x, -a.y, -a.z)
  }

  function Scale(a: Vec3, k: real): Vec3 {
    Vec3(a.x * k, a.y * k, a.z * k)
  }

  function Dot(a: Vec3, b: Vec3): real {
    a.x * b.x + a.y * b.y + a.z * b.z
  }

  /** The cross product; the result is orthogonal to both operands. */
  function Cross(a: Vec3, b: Vec3): (r: Vec3)
    ensures Dot(r, a) == 0.0 && Dot(r, b) == 0.0
  {
    Vec3(a.y * b.z - a.z * b.y, a.z * b.x - a.x * b.z, a.x * b.y - a.y * b.x)
  }

  function Abs(r: real): (a: real)
    ensures a >= 0.0 && (a == r || a == -r)
  {
    if r < 0.0 then -r else r
  }

  /** Normalisation as the scripts perform it, with the length function
      supplied by the caller: `v` scaled by `1 / norm(v)`, and left as it
      is when its length is zero. */
  function Normalized(norm: Vec3 -> real, v: Vec3): Vec3 {
    Scale(v, if norm(v) == 0.0 then 1.0 else 1.0 / norm(v))
  }

  /** Row `i` of `m`. */
  function Row(m: Mat3, i: int): Vec3
    requires 0 <= i < 3
  {
    if i == 0 then m.r0 else if i == 1 then m.r1 else m.r2
  }

  /** Column `j` of `m`. */
  function Column(m: Mat3, j: int): (c: Vec3)
    requires 0 <= j < 3
    ensures forall i :: 0 <= i < 3 ==> At(c, i) == At(Row(m, i), j)
  {
    Vec3(At(m.r0, j), At(m.r1, j), At(m.r2, j))
  }

  function Transpose(m: Mat3): (t: Mat3)
    ensures forall i, j :: 0 <= i < 3 && 0 <= j < 3 ==> At(Row(t, i), j) == At(Row(m, j), i)
  {
    Mat3(Column(m, 0), Column(m, 1), Column(m, 2))
  }

  /** Matrix times column vector. */
  function MulVec(m: Mat3, v: Vec3): (r: Vec3)
    ensures forall i :: 0 <= i < 3 ==> At(r, i) == Dot(Row(m, i), v)
  {
    Vec3(Dot(m.r0, v), Dot(m.r1, v), Dot(m.r2, v))
  }

  /** Row vector `v` times matrix `b`: the combination of the rows of `b`
      weighted by the components of `v`. */
  function RowTimes(v: Vec3, b: Mat3): Vec3 {
    Add(Add(Scale(b.r0, v.x), Scale(b.r1, v.y)), Scale(b.r2, v.z))
  }

  /** Matrix product `a * b`, row by row. */
  function MatMul(a: Mat3, b: Mat3): Mat3 {
    Mat3(RowTimes(a.r0, b), RowTimes(a.r1, b), RowTimes(a.r2, b))
  }

  // ---------------------------------------------------------------------
  // Facts about the operations

  /** Scaling a vector scales every dot product with it. */
  lemma DotScale(a: Vec3, k: real, b: Vec3)
    ensures Dot(Scale(a, k), b) == k * Dot(a, b)
    ensures Dot(b, Scale(a, k)) == k * Dot(a, b)
  {
  }

  /** Normalisation keeps orthogonality: it is a scaling. */
  lemma NormalizedOrthogonal(norm: Vec3 -> real, v: Vec3, w: Vec3)
    requires Dot(v, w) == 0.0
    ensures Dot(Normalized(norm, v), w) == 0.0 && Dot(w, Normalized(norm, v)) == 0.0
  {
    DotScale(v, if norm(v) == 0.0 then 1.0 else 1.0 / norm(v), w);
  }

  /** With a positive length, normalisation keeps the sign of every dot product. */
  lemma NormalizedKeepsSign(norm: Vec3 -> real, v: Vec3, w: Vec3)
    requires norm(v) > 0.0
    ensures Dot(Normalized(norm, v), w) < 0.0 <==> Dot(v, w) < 0.0
    ensures Dot(Normalized(norm, v), w) > 0.0 <==> Dot(v, w) > 0.0
  {
    var k := 1.0 / norm(v);
    assert k > 0.0;
    DotScale(v, k, w);
  }

  /** Every length is non-negative, as a vector norm's is. */
  ghost predicate NonNegative(norm: Vec3 -> real) {
    forall w :: norm(w) >= 0.0
  }

  /** With a non-negative length function, normalising scales by a positive
      factor: the direction of the vector is kept. */
  lemma NormalizedPositiveScale(norm: Vec3 -> real, v: Vec3)
    ensures NonNegative(norm) ==> exists k :: k > 0.0 && Normalized(norm, v) == Scale(v, k)
  {
    if NonNegative(norm) {
      var k := if norm(v) == 0.0 then 1.0 else 1.0 / norm(v);
      assert norm(v) >= 0.0;
      assert k > 0.0 && Normalized(norm, v) == Scale(v, k);
    }
  }

  /** The cross product is anti-commutative. */
  lemma CrossAntiCommutes(a: Vec3, b: Vec3)
    ensures Cross(a, b) == Neg(Cross(b, a))
  {
  }

  /** Transposing twice gives the matrix back. */
  lemma TransposeInvolution(m: Mat3)
    ensures Transpose(Transpose(m)) == m
  {
  }

  /** Applying a matrix to the canonical up vector (0, 1, 0) reads its
      second column, which is the second row of its transpose. */
  lemma MulUnitY(m: Mat3)
    ensures MulVec(m, UnitY) == Column(m, 1)
    ensures MulVec(Transpose(m), UnitY) == m.r1
  {
  }

  /** Row `v` times `b`, read at column `j`, is `v` dotted with column `j` of `b`. */
  lemma RowTimesEntry(v: Vec3, b: Mat3, j: int)
    requires 0 <= j < 3
    ensures At(RowTimes(v, b), j) == Dot(v, Column(b, j))
  {
  }

  /** The row-by-row product agrees with the entry-wise definition of matrix
      multiplication: entry (i, j) is row i of `a` dotted with column j of `b`. */
  lemma MatMulEntry(a: Mat3, b: Mat3, i: int, j: int)
    requires 0 <= i < 3 && 0 <= j < 3
    ensures At(Row(MatMul(a, b), i), j) == Dot(Row(a, i), Column(b, j))
  {
    assert Row(MatMul(a, b), i) == RowTimes(Row(a, i), b);
    RowTimesEntry(Row(a, i), b, j);
  }

  /** The dot product distributes over a sum in its first operand. */
  lemma DotAdd(a: Vec3, b: Vec3, p: Vec3)
    ensures Dot(Add(a, b), p) == Dot(a, p) + Dot(b, p)
  {
  }

  /** `v * b` applied to `p` weighs the rows of `b` applied to `p` by the
      components of `v`. */
  lemma RowTimesDot(v: Vec3, b: Mat3, p: Vec3)
    ensures Dot(RowTimes(v, b), p) == v.x * Dot(b.r0, p) + v.y * Dot(b.r1, p) + v.z * Dot(b.r2, p)
  {
    var x := Scale(b.r0, v.x);
    var y := Scale(b.r1, v.y);
    var z := Scale(b.r2, v.z);
    DotAdd(Add(x, y), z, p);
    DotAdd(x, y, p);
    DotScale(b.r0, v.x, p);
    DotScale(b.r1, v.y, p);
    DotScale(b.r2, v.z, p);
  }

  /** Applying `b` to `p` gives the rows of `b` applied to `p`. */
  lemma MulVecRows(b: Mat3, p: Vec3)
    ensures MulVec(b, p) == Vec3(Dot(b.r0, p), Dot(b.r1, p), Dot(b.r2, p))
  {
    assert At(MulVec(b, p), 0) == Dot(Row(b, 0), p);
    assert At(MulVec(b, p), 1) == Dot(Row(b, 1), p);
    assert At(MulVec(b, p), 2) == Dot(Row(b, 2), p);
  }

  /** The dot product with a vector given by its components. */
  lemma DotOfComponents(v: Vec3, d0: real, d1: real, d2: real)
    ensures Dot(v, Vec3(d0, d1, d2)) == v.x * d0 + v.y * d1 + v.z * d2
  {
  }

  /** Applying `v * b` to `p` is applying `v` to `b * p`. */
  lemma RowTimesApply(v: Vec3, b: Mat3, p: Vec3)
    ensures Dot(RowTimes(v, b), p) == Dot(v, MulVec(b, p))
  {
    RowTimesDot(v, b, p);
    MulVecRows(b, p);
    DotOfComponents(v, Dot(b.r0, p), Dot(b.r1, p), Dot(b.r2, p));
  }

  /** Left-multiplying a rotation and then applying it is applying the two
      matrices one after the other. */
  lemma MatMulApply(a: Mat3, b: Mat3, p: Vec3)
    ensures MulVec(MatMul(a, b), p) == MulVec(a, MulVec(b, p))
  {
    RowTimesApply(a.r0, b, p);
    RowTimesApply(a.r1, b, p);
    RowTimesApply(a.r2, b, p);
  }
}
