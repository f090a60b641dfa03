/** The vector and matrix values that flow through the core. Floats are
    modelled as reals; none of the core's decisions depend on rounding. */
module Glm {

  datatype Vec2 = Vec2(x: real, y: real)

  datatype Vec3 = Vec3(x: real, y: real, z: real)

  datatype Vec4 = Vec4(x: real, y: real, z: real, w: real)

  /** A square matrix, column-major, as `glm::mat2`, `mat3` and `mat4` store it. */
  datatype Mat = Mat(columns: seq<seq<real>>)

  const Zero2 := Vec2(0.0, 0.0)

  const Zero3 := Vec3(0.0, 0.0, 0.0)

  /** `glm::translate(glm::mat4(1.0f), p)`. */
  function Translation(p: Vec3): Mat
  {
    Mat([[1.0, 0.0, 0.0, 0.0], [0.0, 1.0, 0.0, 0.0], [0.0, 0.0, 1.0, 0.0], [p.x, p.y, p.z, 1.0]])
  }
}
