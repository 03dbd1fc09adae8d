/** Two- and three-component vectors over the reals, standing in for the
    engine's single-precision `Vector2` and `Vector3`. */
module Geometry {

  datatype Vec2 = Vec2(x: real, y: real)

  datatype Vec3 = Vec3(x: real, y: real, z: real)

  /** The unit local scale `new Vector3(1, 1, 1)`. */
  const UnitScale: Vec3 := Vec3(1.0, 1.0, 1.0)

  function Add(a: Vec2, b: Vec2): Vec2 {
    Vec2(a.x + b.x, a.y + b.y)
  }
}
