/** Exact-real stand-ins for the three.js vector and rotation values the
    ride controller reads and writes. */
module Geometry {

  /** A point or direction in world space (three.js `Vector3`). */
  datatype Vec3 = Vec3(x: real, y: real, z: real)

  /** An object's rotation as three.js keeps it: angles in radians about x, y and z. */
  datatype Euler = Euler(x: real, y: real, z: real)

  const Origin := Vec3(0.0, 0.0, 0.0)
  const Up := Vec3(0.0, 1.0, 0.0)
  const NoRotation := Euler(0.0, 0.0, 0.0)

  function Add(a: Vec3, b: Vec3): Vec3 {
    Vec3(a.x + b.x, a.y + b.y, a.z + b.z)
  }

  function Sub(a: Vec3, b: Vec3): Vec3 {
    Vec3(a.x - b.x, a.y - b.y, a.z - b.z)
  }

  function Scale(v: Vec3, k: real): Vec3 {
    Vec3(v.x * k, v.y * k, v.z * k)
  }

  function Dot(a: Vec3, b: Vec3): real {
    a.x * b.x + a.y * b.y + a.z * b.z
  }

  function Cross(a: Vec3, b: Vec3): Vec3 {
    Vec3(a.y * b.z - a.z * b.y, a.z * b.x - a.x * b.z, a.x * b.y - a.y * b.x)
  }

  /** Squared length; the model compares squared distances instead of taking roots. */
  function SqLen(v: Vec3): real {
    Dot(v, v)
  }

  function SqDist(a: Vec3, b: Vec3): real {
    SqLen(Sub(a, b))
  }

  /** The same vector with its vertical component zeroed. */
  function Flatten(v: Vec3): (r: Vec3)
    ensures r.y == 0.0
    ensures r.x == v.x && r.z == v.z
  {
    Vec3(v.x, 0.0, v.z)
  }

  /** The right-hand direction of a facing: `forward × up`. Whatever the
      facing, it is horizontal, perpendicular to the facing, and as long as
      the facing's horizontal part. */
  function RightOf(forward: Vec3): (r: Vec3)
    ensures r.y == 0.0
    ensures Dot(r, forward) == 0.0
    ensures SqLen(r) == SqLen(Flatten(forward))
  {
    Cross(forward, Up)
  }
}
