/** Vector and matrix vocabulary shared by the geometry, mesh and camera modules.

    Cartesian3 is modelled over exact reals (no rounding).  The 4x4 matrix and
    homogeneous-coordinate library the renderer links against is not part of this
    model: its operations are carried around as function values in `MatrixOps`,
    so nothing is assumed about them beyond their types. */
module Algebra {

  datatype Option<+T> = None | Some(value: T)

  /** A Cartesian3: point, direction, colour or texture coordinate. */
  datatype Vec3 = Vec3(x: real, y: real, z: real)

  const Zero: Vec3 := Vec3(0.0, 0.0, 0.0)

  function Add(a: Vec3, b: Vec3): Vec3 { Vec3(a.x + b.x, a.y + b.y, a.z + b.z) }

  function Sub(a: Vec3, b: Vec3): Vec3 { Vec3(a.x - b.x, a.y - b.y, a.z - b.z) }

  function Scale(k: real, a: Vec3): Vec3 { Vec3(k * a.x, k * a.y, k * a.z) }

  function Dot(a: Vec3, b: Vec3): real { a.x * b.x + a.y * b.y + a.z * b.z }

  function Cross(a: Vec3, b: Vec3): Vec3 {
    Vec3(a.y * b.z - a.z * b.y, a.z * b.x - a.x * b.z, a.x * b.y - a.y * b.x)
  }

  function Abs(r: real): real { if r < 0.0 then -r else r }

  /** `a*p + b*q + c*s`: the barycentric blend used for positions, normals and texture coordinates. */
  function Blend(a: real, p: Vec3, b: real, q: Vec3, c: real, s: Vec3): Vec3 {
    Add(Add(Scale(a, p), Scale(b, q)), Scale(c, s))
  }

  /** A Homogeneous4.  Its components are never inspected by the model. */
  datatype Hom4 = Hom4(x: real, y: real, z: real, w: real)

  /** A Matrix4, as its sixteen entries.  The entries are never inspected by the model. */
  datatype Matrix4 = Matrix4(entries: seq<real>)

  /** The operations of the matrix library, left uninterpreted. */
  datatype MatrixOps = MatrixOps(
    identity: Matrix4,                     // Matrix4::Identity()
    mul: (Matrix4, Matrix4) -> Matrix4,    // Matrix4 * Matrix4
    translation: Vec3 -> Matrix4,          // Matrix4::TranslationMultMat
    applyPoint: (Matrix4, Hom4) -> Hom4,   // Matrix4 * Homogeneous4
    applyVector: (Matrix4, Vec3) -> Vec3,  // Matrix4 * Cartesian3
    homogeneous: Vec3 -> Hom4,             // Homogeneous4(Cartesian3)
    point: Hom4 -> Vec3                    // Homogeneous4::Point()
  )
}
