/** Three-dimensional vectors and 3x3 matrices over exact reals: the values
    stored in one column of a rod's position/velocity/omega arrays (a Vec3)
    and in one slice of its directors array (a Mat3, indexed [row, column]). */
module Linalg {

  datatype Vec3 = Vec3(x: real, y: real, z: real)

  /** A matrix given by its three rows. */
  datatype Mat3 = Mat3(r0: Vec3, r1: Vec3, r2: Vec3)

  const Zero := Vec3(0.0, 0.0, 0.0)
  const Identity := Mat3(Vec3(1.0, 0.0, 0.0), Vec3(0.0, 1.0, 0.0), Vec3(0.0, 0.0, 1.0))

  function Add(u: Vec3, v: Vec3): Vec3 { Vec3(u.x + v.x, u.y + v.y, u.z + v.z) }
  function Sub(u: Vec3, v: Vec3): Vec3 { Vec3(u.x - v.x, u.y - v.y, u.z - v.z) }
  function Neg(v: Vec3): Vec3 { Vec3(-v.x, -v.y, -v.z) }
  function Scale(a: real, v: Vec3): Vec3 { Vec3(a * v.x, a * v.y, a * v.z) }
  function Dot(u: Vec3, v: Vec3): real { u.x * v.x + u.y * v.y + u.z * v.z }
  function NormSq(v: Vec3): real { Dot(v, v) }

  function Col0(m: Mat3): Vec3 { Vec3(m.r0.x, m.r1.x, m.r2.x) }
  function Col1(m: Mat3): Vec3 { Vec3(m.r0.y, m.r1.y, m.r2.y) }
  function Col2(m: Mat3): Vec3 { Vec3(m.r0.z, m.r1.z, m.r2.z) }

  function Transpose(m: Mat3): Mat3 { Mat3(Col0(m), Col1(m), Col2(m)) }

  function Apply(m: Mat3, v: Vec3): Vec3 { Vec3(Dot(m.r0, v), Dot(m.r1, v), Dot(m.r2, v)) }

  function RowTimes(r: Vec3, b: Mat3): Vec3 { Vec3(Dot(r, Col0(b)), Dot(r, Col1(b)), Dot(r, Col2(b))) }

  /** The matrix product a * b (numpy's a @ b for 3x3 arrays). */
  function MatMul(a: Mat3, b: Mat3): Mat3 { Mat3(RowTimes(a.r0, b), RowTimes(a.r1, b), RowTimes(a.r2, b)) }
}
