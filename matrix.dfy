/** Vectors and matrices.

    The engine composes node transforms with the simd 4x4 product. Its float
    values are not modelled: a transform is kept as the word of factors that
    were multiplied together (the free monoid over the factors), so the
    product is concatenation, associative by construction, with the empty word
    as identity. Every concrete matrix interpretation is a homomorphism out of
    this monoid, so an equation proved here holds for the real product too.

    Matrices the engine reads column by column (the view, projection and
    shadow matrices in the uniform buffer) are kept as four explicit columns. */
module Matrix {

  datatype Vec2 = Vec2(x: real, y: real)
  datatype Vec3 = Vec3(x: real, y: real, z: real)
  datatype Vec4 = Vec4(x: real, y: real, z: real, w: real)

  /** The quaternions the nodes hold: `simd_quatf()`, whose components are
      all zero, and the quaternion `simd_quatf(float4x4(rotation:))` of an
      Euler rotation, kept as the angles it is taken from. */
  datatype Quat = ZeroQuaternion | QuaternionOfRotation(angles: Vec3)

  const Zero3 := Vec3(0.0, 0.0, 0.0)
  const One3 := Vec3(1.0, 1.0, 1.0)

  /** The elementary matrices `float4x4(translation:)`, `float4x4(quaternion)`,
      `float4x4(rotation:)` (Euler angles) and `float4x4(scaling:)`. */
  datatype Factor =
    | Translation(t: Vec3)
    | QuaternionRotation(q: Quat)
    | EulerRotation(angles: Vec3)
    | Scaling(s: Vec3)

  /** A product of elementary matrices, leftmost factor first. */
  type Mat = seq<Factor>

  const Identity: Mat := []

  function Mul(a: Mat, b: Mat): Mat
  {
    a + b
  }

  /** The product of a list of matrices, `ms[0] * ms[1] * ...`. */
  function Product(ms: seq<Mat>): Mat
  {
    if |ms| == 0 then Identity else Mul(ms[0], Product(ms[1..]))
  }

  /** Appending one factor on the right multiplies the product on the right. */
  lemma {:induction false} ProductSnoc(ms: seq<Mat>, m: Mat)
    ensures Product(ms + [m]) == Mul(Product(ms), m)
  {
    if |ms| == 0 {
      assert ms + [m] == [m];
    } else {
      assert (ms + [m])[1..] == ms[1..] + [m];
      ProductSnoc(ms[1..], m);
    }
  }

  /** The normal matrix `float3x3(normalFrom4x4:)` of a model matrix. Its
      entries are float numerics; the model keeps the matrix it is taken from. */
  datatype NormalMatrix = ZeroNormal | NormalOf(m: Mat)

  /** A 4x4 float matrix by columns, as `float4x4.columns` exposes it. */
  datatype Mat4 = Mat4(c0: Vec4, c1: Vec4, c2: Vec4, c3: Vec4)

  const ZeroMat4 := Mat4(Vec4(0.0, 0.0, 0.0, 0.0), Vec4(0.0, 0.0, 0.0, 0.0),
                         Vec4(0.0, 0.0, 0.0, 0.0), Vec4(0.0, 0.0, 0.0, 0.0))

  function Row(m: Mat4, i: nat): (r: Vec4)
    requires i < 4
  {
    if i == 0 then Vec4(m.c0.x, m.c1.x, m.c2.x, m.c3.x)
    else if i == 1 then Vec4(m.c0.y, m.c1.y, m.c2.y, m.c3.y)
    else if i == 2 then Vec4(m.c0.z, m.c1.z, m.c2.z, m.c3.z)
    else Vec4(m.c0.w, m.c1.w, m.c2.w, m.c3.w)
  }

  function Dot(a: Vec4, b: Vec4): real
  {
    a.x * b.x + a.y * b.y + a.z * b.z + a.w * b.w
  }

  /** `a * c` for a column `c`. */
  function Apply(a: Mat4, c: Vec4): Vec4
  {
    Vec4(Dot(Row(a, 0), c), Dot(Row(a, 1), c), Dot(Row(a, 2), c), Dot(Row(a, 3), c))
  }

  /** The 4x4 product `a * b`, column by column. */
  function Mul4(a: Mat4, b: Mat4): Mat4
  {
    Mat4(Apply(a, b.c0), Apply(a, b.c1), Apply(a, b.c2), Apply(a, b.c3))
  }

  /** `float4x4(translation:)` by columns. */
  function Translation4(t: Vec3): Mat4
  {
    Mat4(Vec4(1.0, 0.0, 0.0, 0.0), Vec4(0.0, 1.0, 0.0, 0.0),
         Vec4(0.0, 0.0, 1.0, 0.0), Vec4(t.x, t.y, t.z, 1.0))
  }
}
