/** Points and axis-aligned boxes of the scene, with exact real coordinates
    standing in for three.js's floating-point Vector3 and Box3. */
module Geometry {

  /** A point or a displacement (three.js Vector3). */
  datatype Vec3 = Vec3(x: real, y: real, z: real)

  const Zero := Vec3(0.0, 0.0, 0.0)

  function Add(a: Vec3, b: Vec3): Vec3 {
    Vec3(a.x + b.x, a.y + b.y, a.z + b.z)
  }

  function Sub(a: Vec3, b: Vec3): Vec3 {
    Vec3(a.x - b.x, a.y - b.y, a.z - b.z)
  }

  /** Subtracting what was added gives back the displacement: the collision
      test translates by `candidate - position` where `candidate = position + direction`. */
  lemma SubAddCancels(p: Vec3, d: Vec3)
    ensures Sub(Add(p, d), p) == d
  {
  }

  /** An axis-aligned box given by its least and greatest corners (three.js Box3). */
  datatype Box = Box(min: Vec3, max: Vec3)

  /** Box3.translate: both corners move by the offset. */
  function Translate(b: Box, offset: Vec3): (r: Box)
    ensures Sub(r.max, r.min) == Sub(b.max, b.min)
    ensures Sub(r.min, b.min) == offset && Sub(r.max, b.max) == offset
  {
    Box(Add(b.min, offset), Add(b.max, offset))
  }

  /** Box3.intersectsBox: the closed intervals overlap on every axis. */
  predicate Intersects(a: Box, b: Box) {
    && a.min.x <= b.max.x && b.min.x <= a.max.x
    && a.min.y <= b.max.y && b.min.y <= a.max.y
    && a.min.z <= b.max.z && b.min.z <= a.max.z
  }

  /** Overlap does not depend on which box is asked about which. */
  lemma IntersectsSymmetric(a: Box, b: Box)
    ensures Intersects(a, b) <==> Intersects(b, a)
  {
  }
}
