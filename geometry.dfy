/**
 * Vectors and the interleaved vertex record of the mesh wrapper (`Mesh::Vertex`).
 * Single-precision floats are modelled as exact reals.
 */
module Geometry {
  datatype Vec2 = Vec2(x: real, y: real)
  datatype Vec3 = Vec3(x: real, y: real, z: real)
  datatype Vec4 = Vec4(x: real, y: real, z: real, w: real)

  /** One vertex as the mesh wrapper lays it out: position, normal, tangent, two UV sets, colour. */
  datatype Vertex = Vertex(position: Vec3, normal: Vec3, tangent: Vec4, uv0: Vec2, uv1: Vec2, color: Vec4)

  function Add(a: Vec3, b: Vec3): Vec3 { Vec3(a.x + b.x, a.y + b.y, a.z + b.z) }
  function Sub(a: Vec3, b: Vec3): Vec3 { Vec3(a.x - b.x, a.y - b.y, a.z - b.z) }
  function Scale(a: Vec3, k: real): Vec3 { Vec3(a.x * k, a.y * k, a.z * k) }
  function Dot(a: Vec3, b: Vec3): real { a.x * b.x + a.y * b.y + a.z * b.z }
  function Cross(a: Vec3, b: Vec3): Vec3 {
    Vec3(a.y * b.z - a.z * b.y, a.z * b.x - a.x * b.z, a.x * b.y - a.y * b.x)
  }
  function Xyz(v: Vec4): Vec3 { Vec3(v.x, v.y, v.z) }

  function MinReal(a: real, b: real): real { if b < a then b else a }
  function MaxReal(a: real, b: real): real { if a < b then b else a }

  /** Component-wise minimum and maximum, as `glm::min` and `glm::max` on vectors. */
  function Min(a: Vec3, b: Vec3): Vec3 { Vec3(MinReal(a.x, b.x), MinReal(a.y, b.y), MinReal(a.z, b.z)) }
  function Max(a: Vec3, b: Vec3): Vec3 { Vec3(MaxReal(a.x, b.x), MaxReal(a.y, b.y), MaxReal(a.z, b.z)) }

  /** `a` is component-wise no greater than `b`. */
  predicate LessEq(a: Vec3, b: Vec3) { a.x <= b.x && a.y <= b.y && a.z <= b.z }

  function SquaredLength(a: Vec3): real { Dot(a, a) }
}
