/** Infinite planes (src/renderables/plane.rs). */
module Planes {
  import opened Numbers
  import opened Options
  import opened Vectors
  import opened Rays
  import opened Materials

  /** A plane through `center` with normal `normal` (of any length). */
  datatype Plane = Plane(material: Option<Material>, center: Vector3, normal: Vector3) {

    /** p satisfies the plane's equation `(p - center) . normal == 0`. */
    predicate OnPlane(p: Vector3) {
      p.Sub(center).Dot(normal) == 0.0
    }

    /**
     * `intersects`: a ray parallel to the plane, within `f32::EPSILON`, misses;
     * otherwise the parameter where the ray's line crosses the plane is
     * returned if it exceeds `f32::EPSILON`.
     */
    function Intersects(ray: Ray): (r: Option<real>)
      ensures Abs(normal.Dot(ray.direction)) <= F32_EPSILON ==> r == None
      ensures r.Some? ==> r.value > F32_EPSILON
    {
      var denominator := normal.Dot(ray.direction);
      if Abs(denominator) > F32_EPSILON then
        var difference := center.Sub(ray.origin);
        var t := difference.Dot(normal) / denominator;
        if t > F32_EPSILON then Some(t) else None
      else
        None
    }

    /** `get_material` */
    function GetMaterial(): Option<Material> {
      material
    }

    /** `get_normal`: the stored normal, whatever the hit point. */
    function GetNormal(hit: Vector3): Vector3 {
      normal
    }
  }

  /** `Plane::new` */
  function New(center: Vector3, material: Option<Material>, normal: Vector3): (p: Plane)
    ensures p.center == center && p.material == material && p.normal == normal
  {
    Plane(material, center, normal)
  }

  /**
   * The plane equation along the ray: at parameter t the point's offset from
   * the plane is `(origin - center) . normal + t (normal . direction)`.
   */
  lemma OffsetAlongRay(pl: Plane, ray: Ray, t: real)
    ensures ray.PointAt(t).Sub(pl.center).Dot(pl.normal)
         == ray.origin.Sub(pl.center).Dot(pl.normal) + t * pl.normal.Dot(ray.direction)
  {
    var o, d, c, n := ray.origin, ray.direction, pl.center, pl.normal;
    assert ray.PointAt(t).Sub(c) == o.Sub(c).Add(d.Scale(t));
    DotLeftAffine(o.Sub(c), d, t, n);
    DotSymmetric(d, n);
  }

  /**
   * The plane test reports t exactly when the ray is not parallel within
   * `f32::EPSILON`, t exceeds `f32::EPSILON`, and the point at t lies on the
   * plane.
   */
  lemma IntersectsCharacterised(pl: Plane, ray: Ray, t: real)
    ensures pl.Intersects(ray) == Some(t)
        <==> Abs(pl.normal.Dot(ray.direction)) > F32_EPSILON && t > F32_EPSILON
             && pl.OnPlane(ray.PointAt(t))
  {
    var den := pl.normal.Dot(ray.direction);
    OffsetAlongRay(pl, ray, t);
    if den != 0.0 {
      var a := ray.origin.Sub(pl.center).Dot(pl.normal);
      var b := pl.center.Sub(ray.origin).Dot(pl.normal);
      NegatedOffset(ray.origin, pl.center, pl.normal);
      assert b == -a;
      RootOfLine(a, den, t);
    }
  }

  /** Swapping the operands of the difference negates its dot product with n. */
  lemma NegatedOffset(o: Vector3, c: Vector3, n: Vector3)
    ensures c.Sub(o).Dot(n) == -o.Sub(c).Dot(n)
  {
  }

  /** a + t den vanishes exactly at t = -a / den. */
  lemma RootOfLine(a: real, den: real, t: real)
    requires den != 0.0
    ensures a + t * den == 0.0 <==> t == (-a) / den
  {
    if a + t * den == 0.0 {
      assert t * den == -a;
    }
  }

  /** Every reported hit lies on the plane. */
  lemma IntersectsOnPlane(pl: Plane, ray: Ray)
    requires pl.Intersects(ray).Some?
    ensures pl.OnPlane(ray.PointAt(pl.Intersects(ray).value))
  {
    IntersectsCharacterised(pl, ray, pl.Intersects(ray).value);
  }

  /** `get_normal` does not depend on the hit point. */
  lemma GetNormalConstant(pl: Plane, p: Vector3, q: Vector3)
    ensures pl.GetNormal(p) == pl.GetNormal(q) == pl.normal
  {
  }

  /** A plane built by `new` hands back its material and normal. */
  lemma NewAccessors(center: Vector3, material: Option<Material>, normal: Vector3, hit: Vector3)
    ensures New(center, material, normal).GetMaterial() == material
    ensures New(center, material, normal).GetNormal(hit) == normal
  {
  }
}
