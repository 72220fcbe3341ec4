/** Value types the polygon graphic works with: the engine's Vector2, Vector3,
    Vector3Int, Rect and Color. Coordinates are reals rather than 32-bit floats. */
module Geometry {

  /** A 2D point or offset (the engine's Vector2). */
  datatype Vec2 = Vec2(x: real, y: real)
  {
    /** Component-wise sum, as Vector2's `+` operator. */
    function Plus(o: Vec2): Vec2 { Vec2(x + o.x, y + o.y) }
  }

  /** A 3D point (the engine's Vector3). */
  datatype Vec3 = Vec3(x: real, y: real, z: real)
  {
    /** Component-wise sum, as Vector3's `+` operator. */
    function Plus(o: Vec3): Vec3 { Vec3(x + o.x, y + o.y, z + o.z) }
  }

  /** Three vertex indices forming one triangle (the engine's Vector3Int). */
  datatype Tri = Tri(x: int, y: int, z: int)

  /** An axis-aligned rectangle given by its corner and size (the engine's Rect). */
  datatype Rect = Rect(x: real, y: real, width: real, height: real)
  {
    function Center(): Vec2 { Vec2(x + width / 2.0, y + height / 2.0) }
  }

  /** A render colour; the model never looks inside it. */
  datatype Color = Color(r: real, g: real, b: real, a: real)

  /** `Vector2.one / 2`, the offset that turns a normalized point into its UV. */
  const Half: Vec2 := Vec2(0.5, 0.5)
}
