/** Spheres (src/renderables/sphere.rs), whose test only says whether a ray's line passes through. */
module Spheres {
  import opened Numbers
  import opened Vectors
  import opened Rays

  datatype Sphere = Sphere(radius: real, position: Vector3) {

    /**
     * The squared distance from the centre to the ray's line, as the test
     * computes it: `l . l - (l . d)^2` with `l = position - origin`. It is the
     * true squared distance when the direction has unit length.
     */
    function PerpendicularSquared(ray: Ray): real {
      var l := position.Sub(ray.origin);
      var adj2 := l.Dot(ray.direction);
      l.Dot(l) - adj2 * adj2
    }

    /**
     * `intersects`: true when the perpendicular distance is strictly below the
     * radius. There is no check that the crossing lies ahead of the origin.
     */
    function Intersects(ray: Ray): bool {
      PerpendicularSquared(ray) < radius * radius
    }
  }

  /** `Sphere::new` */
  function New(radius: real, position: Vector3): (s: Sphere)
    ensures s.radius == radius && s.position == position
  {
    Sphere(radius, position)
  }

  /** The squared Euclidean distance between p and q. */
  function DistanceSquared(p: Vector3, q: Vector3): real {
    p.Sub(q).Dot(p.Sub(q))
  }

  /**
   * For a unit direction, the squared distance from the centre to the point
   * at t is the perpendicular part plus the square of how far t is from the
   * foot of the perpendicular.
   */
  lemma DistanceAlongRay(s: Sphere, ray: Ray, t: real)
    requires ray.direction.Dot(ray.direction) == 1.0
    ensures var adj := s.position.Sub(ray.origin).Dot(ray.direction);
            DistanceSquared(ray.PointAt(t), s.position)
            == s.PerpendicularSquared(ray) + Times(t - adj, t - adj)
  {
    var d, l := ray.direction, s.position.Sub(ray.origin);
    var adj := l.Dot(d);
    var w := ray.PointAt(t).Sub(s.position);
    assert w == d.Scale(t).Sub(l);
    ExpandSquare(d, l, t);
    assert w.Dot(w) == t * t * d.Dot(d) - 2.0 * t * adj + l.Dot(l);
    assert t * t * d.Dot(d) == t * t;
    assert Times(t - adj, t - adj) == t * t - 2.0 * t * adj + adj * adj;
  }

  /** |d t - l|^2 expanded. */
  lemma ExpandSquare(d: Vector3, l: Vector3, t: real)
    ensures d.Scale(t).Sub(l).Dot(d.Scale(t).Sub(l)) == t * t * d.Dot(d) - 2.0 * t * l.Dot(d) + l.Dot(l)
  {
  }

  /**
   * For a unit direction the test is true exactly when some point of the
   * ray's line lies strictly inside the sphere.
   */
  lemma IntersectsIffLineEntersSphere(s: Sphere, ray: Ray)
    requires ray.direction.Dot(ray.direction) == 1.0
    ensures s.Intersects(ray) <==> exists t :: DistanceSquared(ray.PointAt(t), s.position) < s.radius * s.radius
  {
    var adj := s.position.Sub(ray.origin).Dot(ray.direction);
    if s.Intersects(ray) {
      DistanceAlongRay(s, ray, adj);
      assert Times(adj - adj, adj - adj) == 0.0;
      assert DistanceSquared(ray.PointAt(adj), s.position) < s.radius * s.radius;
    }
    if exists t :: DistanceSquared(ray.PointAt(t), s.position) < s.radius * s.radius {
      var t :| DistanceSquared(ray.PointAt(t), s.position) < s.radius * s.radius;
      DistanceAlongRay(s, ray, t);
      SquarePositive(t - adj);
      var r2 := s.radius * s.radius;
      assert s.PerpendicularSquared(ray) <= DistanceSquared(ray.PointAt(t), s.position);
      assert DistanceSquared(ray.PointAt(t), s.position) < r2;
      assert s.PerpendicularSquared(ray) < r2;
      assert s.Intersects(ray);
    }
  }

  /** A ray whose origin is strictly inside the sphere always hits it, whatever its direction. */
  lemma OriginInsideHits(s: Sphere, ray: Ray)
    requires DistanceSquared(ray.origin, s.position) < s.radius * s.radius
    ensures s.Intersects(ray)
  {
    var l := s.position.Sub(ray.origin);
    var adj2 := l.Dot(ray.direction);
    assert l.Dot(l) == DistanceSquared(ray.origin, s.position);
    SquarePositive(adj2);
    assert s.PerpendicularSquared(ray) == l.Dot(l) - Times(adj2, adj2);
  }

  /** A tangent line, at distance exactly the radius, does not count as a hit. */
  lemma TangentMisses(s: Sphere, ray: Ray)
    requires s.PerpendicularSquared(ray) == s.radius * s.radius
    ensures !s.Intersects(ray)
  {
  }

  /** There is no forward check: reversing the direction does not change the outcome. */
  lemma ReversedRay(s: Sphere, ray: Ray)
    ensures s.Intersects(Ray(ray.origin, ray.direction.Neg())) == s.Intersects(ray)
  {
    var l := s.position.Sub(ray.origin);
    var adj := l.Dot(ray.direction);
    assert l.Dot(ray.direction.Neg()) == -adj;
    assert Times(-adj, -adj) == Times(adj, adj);
    assert s.PerpendicularSquared(Ray(ray.origin, ray.direction.Neg())) == l.Dot(l) - Times(-adj, -adj);
    assert s.PerpendicularSquared(ray) == l.Dot(l) - Times(adj, adj);
  }
}
