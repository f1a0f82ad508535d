/** Rays: an origin and a direction (src/math/ray.rs). */
module Rays {
  import opened Vectors

  /** The direction is not required to be of unit length. */
  datatype Ray = Ray(origin: Vector3, direction: Vector3) {

    /** The point `origin + t * direction` on the ray's line. */
    function PointAt(t: real): Vector3 {
      origin.Add(direction.Scale(t))
    }
  }
}
