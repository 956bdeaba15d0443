/** The small amount of numpy linear algebra the camera code performs on 3x3 rotation
    matrices and 3-vectors: row-vector-times-matrix (`np.asmatrix(p) * np.asmatrix(R)`),
    matrix-times-vector (`p * R.T`), matrix products, and the flat 15-entry storage of a
    5x3 camera block. */
module Geometry {
  import opened Vectors

  /** A 3x3 matrix as its three rows. */
  datatype Mat3 = Mat3(r0: Vec3, r1: Vec3, r2: Vec3)

  /** `-v`, the vector that cancels `v`. */
  function Neg(v: Vec3): (r: Vec3)
    ensures Add(r, v) == Zero
  {
    Vec3(-v.x, -v.y, -v.z)
  }

  /** `-M`: every row negated. */
  function NegMat(m: Mat3): (r: Mat3)
    ensures forall i, j | 0 <= i < 3 && 0 <= j < 3 :: Entry(r, i, j) == -Entry(m, i, j)
  {
    Mat3(Neg(m.r0), Neg(m.r1), Neg(m.r2))
  }

  /** Entry `(i, j)` of `m`. */
  function Entry(m: Mat3, i: nat, j: nat): real
    requires i < 3 && j < 3
  {
    var row := if i == 0 then m.r0 else if i == 1 then m.r1 else m.r2;
    if j == 0 then row.x else if j == 1 then row.y else row.z
  }

  /** `v * M` for the row vector `v`: the combination of the rows of `M` weighted by the
      components of `v`. */
  function RowTimes(v: Vec3, m: Mat3): Vec3
  {
    Vec3(v.x * m.r0.x + v.y * m.r1.x + v.z * m.r2.x,
         v.x * m.r0.y + v.y * m.r1.y + v.z * m.r2.y,
         v.x * m.r0.z + v.y * m.r1.z + v.z * m.r2.z)
  }

  /** `s * v` componentwise (the weight on one row). */
  function Scale(v: Vec3, s: real): Vec3
  {
    Vec3(s * v.x, s * v.y, s * v.z)
  }

  /** `M v` for the column vector `v`, which is `v * M.T` for a row vector. */
  function Apply(m: Mat3, v: Vec3): Vec3
  {
    Vec3(Dot(m.r0, v), Dot(m.r1, v), Dot(m.r2, v))
  }

  /** `np.dot(A, B)`: row `i` of the product is row `i` of `A` times `B`. */
  function MatMul(a: Mat3, b: Mat3): Mat3
  {
    Mat3(RowTimes(a.r0, b), RowTimes(a.r1, b), RowTimes(a.r2, b))
  }

  /** The 3x3 matrix stored row-major in `b[off..off + 9]`. */
  function MatAt(b: seq<real>, off: nat): (m: Mat3)
    requires off + 9 <= |b|
    ensures forall i, j | 0 <= i < 3 && 0 <= j < 3 :: Entry(m, i, j) == b[off + 3 * i + j]
  {
    Mat3(Vec3(b[off], b[off + 1], b[off + 2]),
         Vec3(b[off + 3], b[off + 4], b[off + 5]),
         Vec3(b[off + 6], b[off + 7], b[off + 8]))
  }

  /** `b` with the entries in `[lo, hi)` negated: numpy's in-place `x *= -1` or
      `x[:] = -x[:]` on a slice. */
  function NegateRange(b: seq<real>, lo: nat, hi: nat): (r: seq<real>)
    ensures |r| == |b|
    ensures forall i | 0 <= i < |b| :: r[i] == (if lo <= i < hi then -b[i] else b[i])
  {
    if b == [] then []
    else
      var k := |b| - 1;
      NegateRange(b[..k], lo, hi) + [if lo <= k < hi then -b[k] else b[k]]
  }

  /** A row of a 4x4 matrix, or a homogeneous point. */
  datatype Vec4 = Vec4(x: real, y: real, z: real, w: real)

  /** A 4x4 matrix as its four rows, as OpenGL is handed it. */
  datatype Mat4 = Mat4(r0: Vec4, r1: Vec4, r2: Vec4, r3: Vec4)

  /** `np.eye(4)` with its upper-left 3x3 block set to `m`. */
  function GlLayout(m: Mat3): Mat4
  {
    Mat4(Vec4(m.r0.x, m.r0.y, m.r0.z, 0.0),
         Vec4(m.r1.x, m.r1.y, m.r1.z, 0.0),
         Vec4(m.r2.x, m.r2.y, m.r2.z, 0.0),
         Vec4(0.0, 0.0, 0.0, 1.0))
  }

  /** The upper-left 3x3 block of a 4x4 matrix. */
  function UpperBlock(g: Mat4): Mat3
  {
    Mat3(Vec3(g.r0.x, g.r0.y, g.r0.z), Vec3(g.r1.x, g.r1.y, g.r1.z), Vec3(g.r2.x, g.r2.y, g.r2.z))
  }

  /** The OpenGL layout keeps the 3x3 matrix as its upper-left block and is the identity
      elsewhere: no translation column and the row `(0, 0, 0, 1)` at the bottom. */
  lemma GlLayoutShape(m: Mat3)
    ensures UpperBlock(GlLayout(m)) == m
    ensures GlLayout(m).r0.w == 0.0 && GlLayout(m).r1.w == 0.0 && GlLayout(m).r2.w == 0.0
    ensures GlLayout(m).r3 == Vec4(0.0, 0.0, 0.0, 1.0)
  {
  }

  /** One record of a glumpy vertex buffer (`position`, `normal`, `color`), with an RGB
      or RGBA colour. */
  datatype Vertex = Vertex(position: Vec3, normal: Vec3, color: seq<real>)

  /** `(0, 1, 0)`, the normal the viewer gives to every camera and point vertex. */
  const UpNormal: Vec3 := Vec3(0.0, 1.0, 0.0)
}
