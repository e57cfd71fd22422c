/** The floating-point library calls the controller makes (three.js curve
    sampling, world transforms, quaternion math, `Math.sin`). The model does
    not compute them; a session is given one fixed `Library` and every
    result is read from it, so the controller's branching and bounds are
    stated for all possible library answers. */
module Three {
  import opened Geometry

  datatype Library = Library(
    /** `Math.sin`. */
    sin: real -> real,
    /** `coasterPath.getPointAt(u)`. */
    coasterAt: real -> Vec3,
    /** `slideCurve.getPointAt(u)`, in the slide's local frame. */
    slideAt: real -> Vec3,
    /** The rig rotation `Matrix4().lookAt(eye, target, up)` yields. */
    lookAtRotation: (Vec3, Vec3) -> Euler,
    /** The camera quaternion built from `Euler(pitch, yaw, 0, 'YXZ')`, applied to a vector. */
    turnByLook: (real, real, Vec3) -> Vec3,
    /** The factor `normalize()` scales by, `1 / (length || 1)`. */
    normalizeFactor: Vec3 -> real,
    /** World position of the first wheel cabin, given the hub's rotation. */
    cabinWorld: real -> Vec3,
    /** World position of the first carousel horse, given the platform's
        rotation, the horse group's rotation and the horse's bob height. */
    horseWorld: (real, real, real) -> Vec3)

  /** `Math.sin` never leaves `[-1, 1]`; lemmas about heights assume this. */
  ghost predicate SinBounded(lib: Library) {
    forall a :: -1.0 <= lib.sin(a) <= 1.0
  }

  /** `normalize()`: scale by the library's factor. The factor is opaque, but
      scaling keeps a horizontal vector horizontal. */
  function Normalize(lib: Library, v: Vec3): (r: Vec3)
    ensures v.y == 0.0 ==> r.y == 0.0
    ensures v == Origin ==> r == Origin
  {
    Scale(v, lib.normalizeFactor(v))
  }
}
