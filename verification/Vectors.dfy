/** The `glm::vec2` / `glm::vec3` values the program stores, over exact reals. */
module Vectors {

  datatype Vec2 = Vec2(x: real, y: real)

  datatype Vec3 = Vec3(x: real, y: real, z: real)

  function Sub(a: Vec3, b: Vec3): Vec3 {
    Vec3(a.x - b.x, a.y - b.y, a.z - b.z)
  }

  function Dot(a: Vec3, b: Vec3): real {
    a.x * b.x + a.y * b.y + a.z * b.z
  }

  function Cross(a: Vec3, b: Vec3): Vec3 {
    Vec3(a.y * b.z - a.z * b.y, a.z * b.x - a.x * b.z, a.x * b.y - a.y * b.x)
  }

  /** The square of `glm::distance(a, b)`. */
  function SqDistance(a: Vec3, b: Vec3): (r: real)
    ensures r >= 0.0
  {
    var d := Sub(a, b);
    Dot(d, d)
  }
}
