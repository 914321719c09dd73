/** The glm vector values the program handles, with real components in place of
    32-bit floats. The loader only stores and copies them; the scene compares
    their components. */
module Geometry {

  datatype Vec2 = Vec2(x: real, y: real)

  datatype Vec3 = Vec3(x: real, y: real, z: real)

  /** glm::vec2(0.0f) */
  const Zero2: Vec2 := Vec2(0.0, 0.0)

  /** glm::vec3(0.0f) */
  const Zero3: Vec3 := Vec3(0.0, 0.0, 0.0)

  function Add(a: Vec3, b: Vec3): Vec3
  {
    Vec3(a.x + b.x, a.y + b.y, a.z + b.z)
  }

  function Sub(a: Vec3, b: Vec3): Vec3
  {
    Vec3(a.x - b.x, a.y - b.y, a.z - b.z)
  }

  function Scale(a: Vec3, k: real): Vec3
  {
    Vec3(a.x * k, a.y * k, a.z * k)
  }

  /** Square of the distance between the projections of a and b on the x-z
      (floor) plane; the program takes glm::length of that 2D difference. */
  function HorizontalDistSq(a: Vec3, b: Vec3): (d: real)
    ensures d >= 0.0
  {
    (a.x - b.x) * (a.x - b.x) + (a.z - b.z) * (a.z - b.z)
  }
}
