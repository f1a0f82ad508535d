/**
 * Triangles and the Moller-Trumbore ray/triangle test
 * (src/renderables/triangle.rs).
 */
module Triangles {
  import opened Numbers
  import opened Options
  import opened Vectors
  import opened Rays

  /** The rejection threshold of the triangle test, `EPSILON`. */
  const EPSILON: real := 0.00001

  /**
   * A triangle with its vertices, the two edges leaving `v0`, and its normal.
   * The normal is the cross product of the edges; the source normalises it to
   * unit length, which needs a square root and is not modelled.
   */
  datatype Triangle = Triangle(v0: Vector3, v1: Vector3, v2: Vector3,
                               edge1: Vector3, edge2: Vector3, normal: Vector3)
  {
    /** The relation between the fields that `new` establishes. */
    predicate Valid() {
      edge1 == v1.Sub(v0) && edge2 == v2.Sub(v0) && normal == edge1.Cross(edge2)
    }

    /** `get_vertices` */
    function GetVertices(): seq<Vector3> {
      [v0, v1, v2]
    }

    /** `get_normal` */
    function GetNormal(): Vector3 {
      normal
    }

    /**
     * The determinant `a = edge1 . (d x edge2)` of the linear system the test
     * solves; it is 0 exactly when d is parallel to the triangle's plane or the
     * triangle is degenerate.
     */
    function Denominator(d: Vector3): real {
      edge1.Dot(d.Cross(edge2))
    }

    /** The point with barycentric coordinates (u, v) relative to v0, edge1, edge2. */
    function SurfacePoint(u: real, v: real): Vector3 {
      v0.Add(edge1.Scale(u)).Add(edge2.Scale(v))
    }

    /** The ray's line passes, at parameter t, through the point (u, v) of the plane. */
    predicate HitsAt(ray: Ray, t: real, u: real, v: real) {
      ray.PointAt(t) == SurfacePoint(u, v)
    }

    /** The ray parameter's offset from v0, `s = origin - v0`. */
    function Offset(ray: Ray): Vector3 {
      ray.origin.Sub(v0)
    }

    /** The first barycentric coordinate, `u = (1/a) (s . (d x edge2))`. */
    function CoordinateU(ray: Ray): real
      requires Denominator(ray.direction) != 0.0
    {
      (1.0 / Denominator(ray.direction)) * Offset(ray).Dot(ray.direction.Cross(edge2))
    }

    /** The second barycentric coordinate, `v = (1/a) (d . (s x edge1))`. */
    function CoordinateV(ray: Ray): real
      requires Denominator(ray.direction) != 0.0
    {
      (1.0 / Denominator(ray.direction)) * ray.direction.Dot(Offset(ray).Cross(edge1))
    }

    /** The ray parameter of the hit, `t = (1/a) (edge2 . (s x edge1))`. */
    function Distance(ray: Ray): real
      requires Denominator(ray.direction) != 0.0
    {
      (1.0 / Denominator(ray.direction)) * edge2.Dot(Offset(ray).Cross(edge1))
    }

    /**
     * `intersects`: Moller-Trumbore. Each guard of the source returns `None`
     * early; a hit returns the ray parameter t.
     */
    function Intersects(ray: Ray): (r: Option<real>)
      ensures Abs(Denominator(ray.direction)) < EPSILON ==> r == None
      ensures r.Some? ==> r.value > EPSILON
    {
      var a := Denominator(ray.direction);
      if Abs(a) < EPSILON then None
      else
        var u := CoordinateU(ray);
        if u < 0.0 || u > 1.0 then None
        else
          var v := CoordinateV(ray);
          if v < 0.0 || u + v > 1.0 then None
          else
            var t := Distance(ray);
            if t > EPSILON then Some(t) else None
    }
  }

  /** The barycentric coordinates of a point of the closed triangle. */
  predicate InTriangle(u: real, v: real) {
    0.0 <= u <= 1.0 && 0.0 <= v && u + v <= 1.0
  }

  /** `Triangle::new` */
  function New(v0: Vector3, v1: Vector3, v2: Vector3): (tri: Triangle)
    ensures tri.Valid()
    ensures tri.GetVertices() == [v0, v1, v2]
  {
    var edge1 := v1.Sub(v0);
    var edge2 := v2.Sub(v0);
    Triangle(v0, v1, v2, edge1, edge2, edge1.Cross(edge2))
  }

  /** The normal of a triangle built by `new` is perpendicular to both edges. */
  lemma NormalOrthogonal(tri: Triangle)
    requires tri.Valid()
    ensures tri.GetNormal().Dot(tri.edge1) == 0.0
    ensures tri.GetNormal().Dot(tri.edge2) == 0.0
  {
    CrossOrthogonal(tri.edge1, tri.edge2);
    DotSymmetric(tri.normal, tri.edge1);
    DotSymmetric(tri.normal, tri.edge2);
  }

  /**
   * When the edges are those `new` computes, the point (u, v) is the
   * barycentric combination (1 - u - v) v0 + u v1 + v v2 of the vertices.
   */
  lemma SurfacePointBarycentric(tri: Triangle, u: real, v: real)
    requires tri.edge1 == tri.v1.Sub(tri.v0) && tri.edge2 == tri.v2.Sub(tri.v0)
    ensures tri.SurfacePoint(u, v)
         == tri.v0.Scale(1.0 - u - v).Add(tri.v1.Scale(u)).Add(tri.v2.Scale(v))
  {
    BarycentricVector(tri.v0, tri.v1, tri.v2, u, v);
  }

  lemma BarycentricVector(a: Vector3, b: Vector3, c: Vector3, u: real, v: real)
    ensures a.Add(b.Sub(a).Scale(u)).Add(c.Sub(a).Scale(v))
         == a.Scale(1.0 - u - v).Add(b.Scale(u)).Add(c.Scale(v))
  {
    BarycentricScalar(a.x, b.x, c.x, u, v);
    BarycentricScalar(a.y, b.y, c.y, u, v);
    BarycentricScalar(a.z, b.z, c.z, u, v);
  }

  lemma BarycentricScalar(a: real, b: real, c: real, u: real, v: real)
    ensures a + (b - a) * u + (c - a) * v == a * (1.0 - u - v) + b * u + c * v
  {
  }

  /**
   * Everything a hit reports: the barycentric coordinates the test computes
   * lie in the closed triangle and the ray reaches that point at parameter t.
   */
  lemma IntersectsSound(tri: Triangle, ray: Ray, t: real)
    requires tri.Intersects(ray) == Some(t)
    ensures tri.Denominator(ray.direction) != 0.0
    ensures InTriangle(tri.CoordinateU(ray), tri.CoordinateV(ray))
    ensures tri.HitsAt(ray, t, tri.CoordinateU(ray), tri.CoordinateV(ray))
  {
    CramerSolves(tri, ray);
  }

  /**
   * The test reports t exactly when the determinant passes the epsilon guard,
   * t exceeds epsilon, and the ray reaches a point of the closed triangle at
   * parameter t.
   */
  lemma IntersectsCharacterised(tri: Triangle, ray: Ray, t: real)
    ensures tri.Intersects(ray) == Some(t)
        <==> Abs(tri.Denominator(ray.direction)) >= EPSILON && t > EPSILON
             && exists u, v :: InTriangle(u, v) && tri.HitsAt(ray, t, u, v)
  {
    if tri.Intersects(ray) == Some(t) {
      IntersectsSound(tri, ray, t);
      var u, v := tri.CoordinateU(ray), tri.CoordinateV(ray);
      assert InTriangle(u, v) && tri.HitsAt(ray, t, u, v);
    }
    if Abs(tri.Denominator(ray.direction)) >= EPSILON && t > EPSILON
       && exists u, v :: InTriangle(u, v) && tri.HitsAt(ray, t, u, v)
    {
      var u, v :| InTriangle(u, v) && tri.HitsAt(ray, t, u, v);
      CramerUnique(tri, ray, t, u, v);
    }
  }

  /** The hit equation, moved to coordinates relative to v0. */
  lemma HitsAtRelative(tri: Triangle, ray: Ray, t: real, u: real, v: real)
    ensures tri.HitsAt(ray, t, u, v)
        <==> tri.Offset(ray).Add(ray.direction.Scale(t)) == tri.edge1.Scale(u).Add(tri.edge2.Scale(v))
  {
  }

  /**
   * Cramer's rule: when the determinant is non-zero, the coordinates the test
   * computes solve the hit equation.
   */
  lemma CramerSolves(tri: Triangle, ray: Ray)
    requires tri.Denominator(ray.direction) != 0.0
    ensures tri.HitsAt(ray, tri.Distance(ray), tri.CoordinateU(ray), tri.CoordinateV(ray))
  {
    var d, e1, e2, s := ray.direction, tri.edge1, tri.edge2, tri.Offset(ray);
    var a := tri.Denominator(ray.direction);
    var x, y, z := s.Dot(d.Cross(e2)), d.Dot(s.Cross(e1)), e2.Dot(s.Cross(e1));
    var u, v, t := (1.0 / a) * x, (1.0 / a) * y, (1.0 / a) * z;
    CramerRelative(d, e1, e2, s, a, x, y, z);
    assert u == tri.CoordinateU(ray) && v == tri.CoordinateV(ray) && t == tri.Distance(ray);
    HitsAtRelative(tri, ray, t, u, v);
  }

  /** Cramer's rule in coordinates relative to v0. */
  lemma CramerRelative(d: Vector3, e1: Vector3, e2: Vector3, s: Vector3, a: real, x: real, y: real, z: real)
    requires a == e1.Dot(d.Cross(e2)) && a != 0.0
    requires x == s.Dot(d.Cross(e2)) && y == d.Dot(s.Cross(e1)) && z == e2.Dot(s.Cross(e1))
    ensures s.Add(d.Scale((1.0 / a) * z)) == e1.Scale((1.0 / a) * x).Add(e2.Scale((1.0 / a) * y))
  {
    CramerAxisX(d, e1, e2, s, a, x, y, z);
    CramerAxisY(d, e1, e2, s, a, x, y, z);
    CramerAxisZ(d, e1, e2, s, a, x, y, z);
  }

  /** The x coordinate of Cramer's rule, divided through by the determinant a. */
  lemma CramerAxisX(d: Vector3, e1: Vector3, e2: Vector3, s: Vector3, a: real, x: real, y: real, z: real)
    requires a == e1.Dot(d.Cross(e2)) && a != 0.0
    requires x == s.Dot(d.Cross(e2)) && y == d.Dot(s.Cross(e1)) && z == e2.Dot(s.Cross(e1))
    ensures s.x + d.x * ((1.0 / a) * z) == e1.x * ((1.0 / a) * x) + e2.x * ((1.0 / a) * y)
  {
    CramerX(d, e1, e2, s);
    DivideThrough(a, x, y, z, s.x, d.x, e1.x, e2.x);
  }

  /** The y coordinate of Cramer's rule, divided through by the determinant a. */
  lemma CramerAxisY(d: Vector3, e1: Vector3, e2: Vector3, s: Vector3, a: real, x: real, y: real, z: real)
    requires a == e1.Dot(d.Cross(e2)) && a != 0.0
    requires x == s.Dot(d.Cross(e2)) && y == d.Dot(s.Cross(e1)) && z == e2.Dot(s.Cross(e1))
    ensures s.y + d.y * ((1.0 / a) * z) == e1.y * ((1.0 / a) * x) + e2.y * ((1.0 / a) * y)
  {
    CramerY(d, e1, e2, s);
    DivideThrough(a, x, y, z, s.y, d.y, e1.y, e2.y);
  }

  /** The z coordinate of Cramer's rule, divided through by the determinant a. */
  lemma CramerAxisZ(d: Vector3, e1: Vector3, e2: Vector3, s: Vector3, a: real, x: real, y: real, z: real)
    requires a == e1.Dot(d.Cross(e2)) && a != 0.0
    requires x == s.Dot(d.Cross(e2)) && y == d.Dot(s.Cross(e1)) && z == e2.Dot(s.Cross(e1))
    ensures s.z + d.z * ((1.0 / a) * z) == e1.z * ((1.0 / a) * x) + e2.z * ((1.0 / a) * y)
  {
    CramerZ(d, e1, e2, s);
    DivideThrough(a, x, y, z, s.z, d.z, e1.z, e2.z);
  }

  /** Cramer's rule is the only solution: the hit equation determines t, u and v. */
  lemma CramerUnique(tri: Triangle, ray: Ray, t: real, u: real, v: real)
    requires tri.Denominator(ray.direction) != 0.0
    requires tri.HitsAt(ray, t, u, v)
    ensures t == tri.Distance(ray) && u == tri.CoordinateU(ray) && v == tri.CoordinateV(ray)
  {
    var d, e1, e2, s := ray.direction, tri.edge1, tri.edge2, tri.Offset(ray);
    var a := tri.Denominator(ray.direction);
    HitsAtRelative(tri, ray, t, u, v);
    assert s.Add(d.Scale(t)) == e1.Scale(u).Add(e2.Scale(v));
    SolveU(d, e1, e2, s, t, u, v);
    SolveV(d, e1, e2, s, t, u, v);
    SolveT(d, e1, e2, s, t, u, v);
  }

  lemma SolveU(d: Vector3, e1: Vector3, e2: Vector3, s: Vector3, t: real, u: real, v: real)
    requires e1.Dot(d.Cross(e2)) != 0.0
    requires s.Add(d.Scale(t)) == e1.Scale(u).Add(e2.Scale(v))
    ensures u == (1.0 / e1.Dot(d.Cross(e2))) * s.Dot(d.Cross(e2))
  {
    ProjectU(d, e1, e2, s, t, u, v);
    SolveScalar(e1.Dot(d.Cross(e2)), u, s.Dot(d.Cross(e2)));
  }

  lemma SolveV(d: Vector3, e1: Vector3, e2: Vector3, s: Vector3, t: real, u: real, v: real)
    requires e1.Dot(d.Cross(e2)) != 0.0
    requires s.Add(d.Scale(t)) == e1.Scale(u).Add(e2.Scale(v))
    ensures v == (1.0 / e1.Dot(d.Cross(e2))) * d.Dot(s.Cross(e1))
  {
    ProjectV(d, e1, e2, s, t, u, v);
    SolveScalar(e1.Dot(d.Cross(e2)), v, d.Dot(s.Cross(e1)));
  }

  lemma SolveT(d: Vector3, e1: Vector3, e2: Vector3, s: Vector3, t: real, u: real, v: real)
    requires e1.Dot(d.Cross(e2)) != 0.0
    requires s.Add(d.Scale(t)) == e1.Scale(u).Add(e2.Scale(v))
    ensures t == (1.0 / e1.Dot(d.Cross(e2))) * e2.Dot(s.Cross(e1))
  {
    ProjectT(d, e1, e2, s, t, u, v);
    SolveScalar(e1.Dot(d.Cross(e2)), t, e2.Dot(s.Cross(e1)));
  }

  /** Projecting the relative hit equation onto d x edge2, which is perpendicular to d and edge2, isolates u. */
  lemma ProjectU(d: Vector3, e1: Vector3, e2: Vector3, s: Vector3, t: real, u: real, v: real)
    requires s.Add(d.Scale(t)) == e1.Scale(u).Add(e2.Scale(v))
    ensures s.Dot(d.Cross(e2)) == u * e1.Dot(d.Cross(e2))
  {
    var h := d.Cross(e2);
    CrossOrthogonal(d, e2);
    DotLeftAffine(s, d, t, h);
    DotLeftLinear(e1, e2, u, v, h);
  }

  /** Projecting onto edge1 x d, which is perpendicular to edge1 and d, isolates v. */
  lemma ProjectV(d: Vector3, e1: Vector3, e2: Vector3, s: Vector3, t: real, u: real, v: real)
    requires s.Add(d.Scale(t)) == e1.Scale(u).Add(e2.Scale(v))
    ensures d.Dot(s.Cross(e1)) == v * e1.Dot(d.Cross(e2))
  {
    var w := e1.Cross(d);
    CrossOrthogonal(e1, d);
    DotLeftAffine(s, d, t, w);
    DotLeftLinear(e1, e2, u, v, w);
    TripleCyclic(s, e1, d);
    TripleCyclic(e1, d, s);
    TripleCyclic(e2, e1, d);
  }

  /** Projecting onto edge1 x edge2, which is perpendicular to both edges, isolates t. */
  lemma ProjectT(d: Vector3, e1: Vector3, e2: Vector3, s: Vector3, t: real, u: real, v: real)
    requires s.Add(d.Scale(t)) == e1.Scale(u).Add(e2.Scale(v))
    ensures e2.Dot(s.Cross(e1)) == t * e1.Dot(d.Cross(e2))
  {
    var n := e1.Cross(e2);
    CrossOrthogonal(e1, e2);
    DotLeftAffine(s, d, t, n);
    DotLeftLinear(e1, e2, u, v, n);
    TripleCyclic(s, e1, e2);
    TripleCyclic(e1, e2, s);
    TripleSwap(d, e1, e2);
  }

  lemma CramerX(d: Vector3, e1: Vector3, e2: Vector3, s: Vector3)
    ensures e1.Dot(d.Cross(e2)) * s.x + e2.Dot(s.Cross(e1)) * d.x
         == s.Dot(d.Cross(e2)) * e1.x + d.Dot(s.Cross(e1)) * e2.x
  {
  }

  lemma CramerY(d: Vector3, e1: Vector3, e2: Vector3, s: Vector3)
    ensures e1.Dot(d.Cross(e2)) * s.y + e2.Dot(s.Cross(e1)) * d.y
         == s.Dot(d.Cross(e2)) * e1.y + d.Dot(s.Cross(e1)) * e2.y
  {
  }

  lemma CramerZ(d: Vector3, e1: Vector3, e2: Vector3, s: Vector3)
    ensures e1.Dot(d.Cross(e2)) * s.z + e2.Dot(s.Cross(e1)) * d.z
         == s.Dot(d.Cross(e2)) * e1.z + d.Dot(s.Cross(e1)) * e2.z
  {
  }

  /** One coordinate of Cramer's identity divided by the determinant a. */
  lemma DivideThrough(a: real, x: real, y: real, z: real, sc: real, dc: real, ec: real, gc: real)
    requires a != 0.0
    requires a * sc + z * dc == x * ec + y * gc
    ensures sc + dc * ((1.0 / a) * z) == ec * ((1.0 / a) * x) + gc * ((1.0 / a) * y)
  {
    var f := 1.0 / a;
    assert f * a == 1.0;
    assert f * (a * sc + z * dc) == f * (x * ec + y * gc);
    assert f * (a * sc) == sc;
  }

  /** The unique solution of k a = b for a non-zero a. */
  lemma SolveScalar(a: real, k: real, b: real)
    requires a != 0.0 && b == k * a
    ensures k == (1.0 / a) * b
  {
  }

  /** When no guard of the test fires, the test reports the computed distance. */
  lemma IntersectsAccepts(tri: Triangle, ray: Ray)
    requires Abs(tri.Denominator(ray.direction)) >= EPSILON
    requires InTriangle(tri.CoordinateU(ray), tri.CoordinateV(ray))
    requires tri.Distance(ray) > EPSILON
    ensures tri.Intersects(ray) == Some(tri.Distance(ray))
  {
  }

  /**
   * Completeness at a known hit: a ray that is not too parallel and meets a
   * point of the closed triangle at some t > EPSILON is reported with that t.
   */
  lemma IntersectsComplete(tri: Triangle, ray: Ray, t: real, u: real, v: real)
    requires Abs(tri.Denominator(ray.direction)) >= EPSILON && t > EPSILON
    requires InTriangle(u, v) && tri.HitsAt(ray, t, u, v)
    ensures tri.Intersects(ray) == Some(t)
  {
    assert exists u', v' :: InTriangle(u', v') && tri.HitsAt(ray, t, u', v');
    IntersectsCharacterised(tri, ray, t);
  }

  /**
   * The triangle of the repository's test, (-1, -1, 0), (1, -1, 0), (0, 1, 0),
   * with its edges and unnormalised normal worked out by hand.
   */
  predicate IsTestTriangle(tri: Triangle) {
    tri == Triangle(Vector3(-1.0, -1.0, 0.0), Vector3(1.0, -1.0, 0.0), Vector3(0.0, 1.0, 0.0),
                    Vector3(2.0, 0.0, 0.0), Vector3(1.0, 2.0, 0.0), Vector3(0.0, 0.0, 4.0))
  }

  /** A ray from (0, 0, 5) straight down the z axis. */
  predicate IsTestRay(ray: Ray) {
    ray == Ray(Vector3(0.0, 0.0, 5.0), Vector3(0.0, 0.0, -1.0))
  }

  /** `new` on the test's vertices computes the fields of the test triangle. */
  lemma NewTestTriangle(v0: Vector3, v1: Vector3, v2: Vector3, tri: Triangle)
    requires v0 == Vector3(-1.0, -1.0, 0.0) && v1 == Vector3(1.0, -1.0, 0.0) && v2 == Vector3(0.0, 1.0, 0.0)
    requires tri == New(v0, v1, v2)
    ensures IsTestTriangle(tri)
    ensures tri.GetNormal() == Vector3(0.0, 0.0, 1.0).Scale(4.0)
  {
  }

  /**
   * The test's ray against the test's triangle: the determinant, both
   * barycentric coordinates and the distance the source computes.
   */
  lemma TestCoordinates(tri: Triangle, ray: Ray)
    requires IsTestTriangle(tri) && IsTestRay(ray)
    ensures tri.Denominator(ray.direction) == 4.0
    ensures tri.CoordinateU(ray) == 0.25 && tri.CoordinateV(ray) == 0.5 && tri.Distance(ray) == 5.0
  {
  }

  /** The test's ray reaches the point (u, v) = (1/4, 1/2) of the test's triangle at t = 5. */
  lemma TestHitPoint(tri: Triangle, ray: Ray)
    requires IsTestTriangle(tri) && IsTestRay(ray)
    ensures tri.HitsAt(ray, 5.0, 0.25, 0.5)
  {
  }

  /** The ray straight down onto the test's triangle hits it at t = 5. */
  lemma IntersectsExample(tri: Triangle, ray: Ray)
    requires IsTestTriangle(tri) && IsTestRay(ray)
    ensures tri.Intersects(ray) == Some(5.0)
  {
    TestCoordinates(tri, ray);
    IntersectsAccepts(tri, ray);
  }
}
