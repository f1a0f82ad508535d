/**
 * Axis-aligned bounding boxes (src/math/bbox.rs): the box around a list of
 * triangles, and the slab test of a ray against a box.
 */
module BoundingBoxes {
  import opened Numbers
  import opened Vectors
  import opened Rays
  import opened Triangles

  const Origin := Vector3(0.0, 0.0, 0.0)

  /** A box given by two corners. Nothing forces `min <= max`. */
  datatype BBox = BBox(min: Vector3, max: Vector3) {

    /** p lies in the closed box. */
    predicate Contains(p: Vector3) {
      min.x <= p.x <= max.x && min.y <= p.y <= max.y && min.z <= p.z <= max.z
    }

    /** Every face of b lies inside this box or on its boundary. */
    predicate Encloses(b: BBox) {
      min.x <= b.min.x && min.y <= b.min.y && min.z <= b.min.z
      && b.max.x <= max.x && b.max.y <= max.y && b.max.z <= max.z
    }

    /** `min <= max` on every axis. */
    predicate WellFormed() {
      min.x <= max.x && min.y <= max.y && min.z <= max.z
    }

    /**
     * p lies between the two corners on every axis, whichever corner is the
     * lower one; for a well-formed box this is `Contains`.
     */
    predicate Spans(p: Vector3) {
      Between(p.x, min.x, max.x) && Between(p.y, min.y, max.y) && Between(p.z, min.z, max.z)
    }
  }

  /** x lies between a and b, in either order. */
  predicate Between(x: real, a: real, b: real) {
    (a <= x <= b) || (b <= x <= a)
  }

  /** `BBox::new` */
  function New(min: Vector3, max: Vector3): (b: BBox)
    ensures b.min == min && b.max == max
  {
    BBox(min, max)
  }

  /** One step of `new_from_triangles`: both corners moved out to take in p. */
  function Extend(b: BBox, p: Vector3): BBox {
    BBox(Vector3(Min(b.min.x, p.x), Min(b.min.y, p.y), Min(b.min.z, p.z)),
         Vector3(Max(b.max.x, p.x), Max(b.max.y, p.y), Max(b.max.z, p.z)))
  }

  /** The box b extended by every point of ps, in order. */
  function ExtendAll(b: BBox, ps: seq<Vector3>): BBox
    decreases |ps|
  {
    if |ps| == 0 then b else Extend(ExtendAll(b, ps[..|ps| - 1]), ps[|ps| - 1])
  }

  /** The vertices of the triangles, triangle by triangle, in the order `get_vertices` lists them. */
  function Vertices(ts: seq<Triangle>): (vs: seq<Vector3>)
    ensures |vs| == 3 * |ts|
    decreases |ts|
  {
    if |ts| == 0 then [] else Vertices(ts[..|ts| - 1]) + ts[|ts| - 1].GetVertices()
  }

  /** The box `new_from_triangles` computes: the zero box extended by every vertex. */
  function FromTriangles(ts: seq<Triangle>): BBox {
    ExtendAll(BBox(Origin, Origin), Vertices(ts))
  }

  /** `new_from_triangles`: the nested loop over triangles and their vertices. */
  method NewFromTriangles(triangles: seq<Triangle>) returns (box: BBox)
    ensures box == FromTriangles(triangles)
  {
    var min := Vector3(0.0, 0.0, 0.0);
    var max := Vector3(0.0, 0.0, 0.0);
    for i := 0 to |triangles|
      invariant BBox(min, max) == ExtendAll(BBox(Origin, Origin), Vertices(triangles[..i]))
    {
      var vertices := triangles[i].GetVertices();
      ghost var done := Vertices(triangles[..i]);
      assert done + vertices[..0] == done;
      for j := 0 to |vertices|
        invariant BBox(min, max) == ExtendAll(BBox(Origin, Origin), done + vertices[..j])
      {
        var vertex := vertices[j];
        ghost var before := BBox(min, max);
        max := max.(x := Max(max.x, vertex.x));
        min := min.(x := Min(min.x, vertex.x));

        max := max.(y := Max(max.y, vertex.y));
        min := min.(y := Min(min.y, vertex.y));

        max := max.(z := Max(max.z, vertex.z));
        min := min.(z := Min(min.z, vertex.z));
        assert BBox(min, max) == Extend(before, vertex);
        assert done + vertices[..j + 1] == (done + vertices[..j]) + [vertex];
        ExtendAllSnoc(BBox(Origin, Origin), done + vertices[..j], vertex);
      }
      assert vertices[..|vertices|] == vertices;
      VerticesSnoc(triangles, i);
    }
    assert triangles[..|triangles|] == triangles;
    box := BBox(min, max);
  }

  /** Extending by one more point is one more step of `Extend`. */
  lemma ExtendAllSnoc(b: BBox, ps: seq<Vector3>, p: Vector3)
    ensures ExtendAll(b, ps + [p]) == Extend(ExtendAll(b, ps), p)
  {
    assert (ps + [p])[..|ps|] == ps;
  }

  /** The vertices of one more triangle come after those of the ones before it. */
  lemma VerticesSnoc(ts: seq<Triangle>, i: int)
    requires 0 <= i < |ts|
    ensures Vertices(ts[..i + 1]) == Vertices(ts[..i]) + ts[i].GetVertices()
  {
    assert ts[..i + 1][..i] == ts[..i];
  }

  /** Extending keeps everything the box held, and takes in every point. */
  lemma {:induction false} ExtendAllContains(b: BBox, ps: seq<Vector3>)
    ensures ExtendAll(b, ps).Encloses(b)
    ensures forall p :: p in ps ==> ExtendAll(b, ps).Contains(p)
    decreases |ps|
  {
    if |ps| > 0 {
      var init := ps[..|ps| - 1];
      ExtendAllContains(b, init);
      assert forall p :: p in ps ==> p in init || p == ps[|ps| - 1];
    }
  }

  /** Extending a well-formed box leaves it well-formed. */
  lemma {:induction false} ExtendAllWellFormed(b: BBox, ps: seq<Vector3>)
    requires b.WellFormed()
    ensures ExtendAll(b, ps).WellFormed()
    decreases |ps|
  {
    if |ps| > 0 {
      ExtendAllWellFormed(b, ps[..|ps| - 1]);
    }
  }

  /**
   * The box is tight: each coordinate of each corner is the starting box's
   * or that of one of the points.
   */
  lemma {:induction false} ExtendAllAttained(b: BBox, ps: seq<Vector3>)
    ensures var r := ExtendAll(b, ps);
      && (r.max.x == b.max.x || exists p :: p in ps && r.max.x == p.x)
      && (r.max.y == b.max.y || exists p :: p in ps && r.max.y == p.y)
      && (r.max.z == b.max.z || exists p :: p in ps && r.max.z == p.z)
      && (r.min.x == b.min.x || exists p :: p in ps && r.min.x == p.x)
      && (r.min.y == b.min.y || exists p :: p in ps && r.min.y == p.y)
      && (r.min.z == b.min.z || exists p :: p in ps && r.min.z == p.z)
    decreases |ps|
  {
    if |ps| > 0 {
      var init := ps[..|ps| - 1];
      ExtendAllAttained(b, init);
      assert forall p :: p in init ==> p in ps;
      assert ps[|ps| - 1] in ps;
    }
  }

  /** A vertex of one of the triangles is one of `Vertices`, and the other way round. */
  lemma {:induction false} VerticesMembership(ts: seq<Triangle>, p: Vector3)
    ensures p in Vertices(ts) <==> exists i :: 0 <= i < |ts| && p in ts[i].GetVertices()
    decreases |ts|
  {
    if |ts| > 0 {
      var init := ts[..|ts| - 1];
      VerticesMembership(init, p);
      if p in Vertices(ts) {
        if p !in Vertices(init) {
          assert p in ts[|ts| - 1].GetVertices();
        }
      } else {
        forall i | 0 <= i < |ts|
          ensures p !in ts[i].GetVertices()
        {
          if i < |ts| - 1 {
            assert ts[i] == init[i];
          }
        }
      }
    }
  }

  /** Every vertex of every triangle lies in the box `new_from_triangles` computes. */
  lemma FromTrianglesContains(ts: seq<Triangle>, i: int, p: Vector3)
    requires 0 <= i < |ts| && p in ts[i].GetVertices()
    ensures FromTriangles(ts).Contains(p)
  {
    VerticesMembership(ts, p);
    ExtendAllContains(BBox(Origin, Origin), Vertices(ts));
  }

  /** The box is well-formed and contains the origin, where both corners start. */
  lemma FromTrianglesOrigin(ts: seq<Triangle>)
    ensures FromTriangles(ts).WellFormed()
    ensures FromTriangles(ts).Contains(Origin)
  {
    ExtendAllContains(BBox(Origin, Origin), Vertices(ts));
  }

  /** No triangles give the zero box. */
  lemma FromTrianglesEmpty()
    ensures FromTriangles([]) == BBox(Origin, Origin)
  {
  }

  /**
   * The box is the tightest one around the origin and the vertices: each
   * coordinate of `max` is 0 or a vertex's, and likewise for `min`.
   */
  lemma FromTrianglesTight(ts: seq<Triangle>)
    ensures var r := FromTriangles(ts);
      && (r.max.x == 0.0 || exists p :: p in Vertices(ts) && r.max.x == p.x)
      && (r.max.y == 0.0 || exists p :: p in Vertices(ts) && r.max.y == p.y)
      && (r.max.z == 0.0 || exists p :: p in Vertices(ts) && r.max.z == p.z)
      && (r.min.x == 0.0 || exists p :: p in Vertices(ts) && r.min.x == p.x)
      && (r.min.y == 0.0 || exists p :: p in Vertices(ts) && r.min.y == p.y)
      && (r.min.z == 0.0 || exists p :: p in Vertices(ts) && r.min.z == p.z)
  {
    ExtendAllAttained(BBox(Origin, Origin), Vertices(ts));
  }

  /** A closed interval of ray parameters. */
  datatype Interval = Interval(lo: real, hi: real) {

    predicate Holds(t: real) {
      lo <= t <= hi
    }

    predicate DisjointFrom(other: Interval) {
      lo > other.hi || other.lo > hi
    }

    /** The intersection, as the test forms it with `f32::max` and `f32::min`. */
    function Meet(other: Interval): Interval {
      Interval(Max(lo, other.lo), Min(other.hi, hi))
    }
  }

  /**
   * The parameters at which a ray with origin coordinate o and non-zero
   * direction coordinate d crosses the planes at lo and hi, ordered (the
   * source's `mem::swap`).
   */
  function Slab(lo: real, hi: real, o: real, d: real): (r: Interval)
    requires d != 0.0
    ensures r.lo <= r.hi
  {
    var inv := 1.0 / d;
    var t0 := (lo - o) * inv;
    var t1 := (hi - o) * inv;
    if t0 > t1 then Interval(t1, t0) else Interval(t0, t1)
  }

  /** The ray's direction has no zero coordinate, so every reciprocal exists. */
  predicate Oblique(ray: Ray) {
    ray.direction.x != 0.0 && ray.direction.y != 0.0 && ray.direction.z != 0.0
  }

  function SlabX(box: BBox, ray: Ray): Interval
    requires Oblique(ray)
  {
    Slab(box.min.x, box.max.x, ray.origin.x, ray.direction.x)
  }

  function SlabY(box: BBox, ray: Ray): Interval
    requires Oblique(ray)
  {
    Slab(box.min.y, box.max.y, ray.origin.y, ray.direction.y)
  }

  function SlabZ(box: BBox, ray: Ray): Interval
    requires Oblique(ray)
  {
    Slab(box.min.z, box.max.z, ray.origin.z, ray.direction.z)
  }

  /** The line of the ray, in both directions, meets the box. */
  ghost predicate LineMeets(box: BBox, ray: Ray) {
    exists t :: box.Spans(ray.PointAt(t))
  }

  /**
   * `ray_intersect_box`: the slab test. The x and y parameter intervals must
   * overlap, and their overlap must meet the z interval. A negative parameter
   * counts, so the whole line through the ray is tested.
   */
  method RayIntersectBox(box: BBox, ray: Ray) returns (hit: bool)
    requires Oblique(ray)
    ensures !hit <==> SlabX(box, ray).DisjointFrom(SlabY(box, ray))
                      || SlabX(box, ray).Meet(SlabY(box, ray)).DisjointFrom(SlabZ(box, ray))
    ensures hit <==> LineMeets(box, ray)
  {
    SlabTestExact(box, ray);
    ghost var X, Y, Z;
    var dirInv := Vector3(1.0 / ray.direction.x, 1.0 / ray.direction.y, 1.0 / ray.direction.z);

    var tmin := (box.min.x - ray.origin.x) * dirInv.x;
    var tmax := (box.max.x - ray.origin.x) * dirInv.x;
    X := SlabX(box, ray);
    OrderedSlab(box.min.x, box.max.x, ray.origin.x, ray.direction.x, dirInv.x, tmin, tmax);
    if tmin > tmax {
      tmin, tmax := tmax, tmin;
    }

    var tymin := (box.min.y - ray.origin.y) * dirInv.y;
    var tymax := (box.max.y - ray.origin.y) * dirInv.y;
    Y := SlabY(box, ray);
    OrderedSlab(box.min.y, box.max.y, ray.origin.y, ray.direction.y, dirInv.y, tymin, tymax);
    if tymin > tymax {
      tymin, tymax := tymax, tymin;
    }

    if tmin > tymax || tymin > tmax {
      return false;
    }

    tmin := Max(tmin, tymin);
    tmax := Min(tymax, tmax);

    var tzmin := (box.min.z - ray.origin.z) * dirInv.z;
    var tzmax := (box.max.z - ray.origin.z) * dirInv.z;
    Z := SlabZ(box, ray);
    OrderedSlab(box.min.z, box.max.z, ray.origin.z, ray.direction.z, dirInv.z, tzmin, tzmax);
    if tzmin > tzmax {
      tzmin, tzmax := tzmax, tzmin;
    }

    if tmin > tzmax || tzmin > tmax {
      return false;
    }
    return true;
  }

  /** The swap in `ray_intersect_box` puts one axis's crossing parameters in order. */
  lemma OrderedSlab(lo: real, hi: real, o: real, d: real, inv: real, a: real, b: real)
    requires d != 0.0 && inv == 1.0 / d
    requires a == (lo - o) * inv && b == (hi - o) * inv
    ensures Slab(lo, hi, o, d) == if a > b then Interval(b, a) else Interval(a, b)
  {
  }

  /**
   * On one axis: the ray's coordinate at t lies between the two planes exactly
   * when t lies in the slab's parameter interval.
   */
  lemma SlabExact(lo: real, hi: real, o: real, d: real, t: real)
    requires d != 0.0
    ensures Slab(lo, hi, o, d).Holds(t) <==> Between(o + d * t, lo, hi)
  {
    var t0, t1 := (lo - o) * (1.0 / d), (hi - o) * (1.0 / d);
    CrossingOrder(lo - o, d, t);
    CrossingOrder(hi - o, d, t);
    if d > 0.0 {
      assert t0 <= t <==> lo <= o + d * t;
      assert t <= t1 <==> o + d * t <= hi;
      assert t1 <= t <==> hi <= o + d * t;
      assert t <= t0 <==> o + d * t <= lo;
    } else {
      assert t0 <= t <==> o + d * t <= lo;
      assert t <= t1 <==> hi <= o + d * t;
      assert t1 <= t <==> o + d * t <= hi;
      assert t <= t0 <==> lo <= o + d * t;
    }
  }

  /** Where the plane at offset a lies relative to the point at parameter t. */
  lemma CrossingOrder(a: real, d: real, t: real)
    requires d != 0.0
    ensures d > 0.0 ==> (a * (1.0 / d) <= t <==> a <= d * t)
    ensures d > 0.0 ==> (t <= a * (1.0 / d) <==> d * t <= a)
    ensures d < 0.0 ==> (a * (1.0 / d) <= t <==> d * t <= a)
    ensures d < 0.0 ==> (t <= a * (1.0 / d) <==> a <= d * t)
  {
    var q := a * (1.0 / d);
    assert q * d == a;
    assert d * t - a == d * (t - q);
    if d > 0.0 {
      SignOfProduct(d, t - q);
    } else {
      SignOfProduct(-d, q - t);
      assert d * (t - q) == (-d) * (q - t);
    }
  }

  /** The product of a positive number and x has the sign of x. */
  lemma SignOfProduct(p: real, x: real)
    requires p > 0.0
    ensures p * x > 0.0 <==> x > 0.0
    ensures p * x == 0.0 <==> x == 0.0
  {
    if x > 0.0 {
      TimesPositive(p, x);
    } else if x < 0.0 {
      TimesPositive(p, -x);
      assert p * x == -Times(p, -x);
    }
  }

  /** Three ordered intervals share a parameter exactly when the test's two overlap checks pass. */
  lemma MeetNonEmpty(a: Interval, b: Interval, c: Interval)
    requires a.lo <= a.hi && b.lo <= b.hi && c.lo <= c.hi
    ensures (exists t :: a.Holds(t) && b.Holds(t) && c.Holds(t))
        <==> !(a.DisjointFrom(b) || a.Meet(b).DisjointFrom(c))
  {
    if !(a.DisjointFrom(b) || a.Meet(b).DisjointFrom(c)) {
      var t := Max(Max(a.lo, b.lo), c.lo);
      assert a.Holds(t) && b.Holds(t) && c.Holds(t);
    }
  }

  /** The slab test decides whether the ray's line meets the box. */
  lemma SlabTestExact(box: BBox, ray: Ray)
    requires Oblique(ray)
    ensures LineMeets(box, ray)
        <==> !(SlabX(box, ray).DisjointFrom(SlabY(box, ray))
               || SlabX(box, ray).Meet(SlabY(box, ray)).DisjointFrom(SlabZ(box, ray)))
  {
    var X, Y, Z := SlabX(box, ray), SlabY(box, ray), SlabZ(box, ray);
    forall t
      ensures box.Spans(ray.PointAt(t)) <==> X.Holds(t) && Y.Holds(t) && Z.Holds(t)
    {
      SpansExact(box, ray, t);
    }
    MeetNonEmpty(X, Y, Z);
  }

  /** The point at t lies between the corners exactly when t lies in all three slabs. */
  lemma SpansExact(box: BBox, ray: Ray, t: real)
    requires Oblique(ray)
    ensures box.Spans(ray.PointAt(t))
        <==> SlabX(box, ray).Holds(t) && SlabY(box, ray).Holds(t) && SlabZ(box, ray).Holds(t)
  {
    SpansX(box, ray, t);
    SpansY(box, ray, t);
    SpansZ(box, ray, t);
  }

  lemma SpansX(box: BBox, ray: Ray, t: real)
    requires Oblique(ray)
    ensures Between(ray.PointAt(t).x, box.min.x, box.max.x) <==> SlabX(box, ray).Holds(t)
  {
    SlabExact(box.min.x, box.max.x, ray.origin.x, ray.direction.x, t);
  }

  lemma SpansY(box: BBox, ray: Ray, t: real)
    requires Oblique(ray)
    ensures Between(ray.PointAt(t).y, box.min.y, box.max.y) <==> SlabY(box, ray).Holds(t)
  {
    SlabExact(box.min.y, box.max.y, ray.origin.y, ray.direction.y, t);
  }

  lemma SpansZ(box: BBox, ray: Ray, t: real)
    requires Oblique(ray)
    ensures Between(ray.PointAt(t).z, box.min.z, box.max.z) <==> SlabZ(box, ray).Holds(t)
  {
    SlabExact(box.min.z, box.max.z, ray.origin.z, ray.direction.z, t);
  }

  /** An oblique ray whose origin lies in the box always hits it. */
  lemma OriginInsideHits(box: BBox, ray: Ray)
    requires box.Contains(ray.origin)
    ensures LineMeets(box, ray)
  {
    assert ray.PointAt(0.0) == ray.origin;
  }

  /** There is no forward check: reversing the direction does not change the outcome. */
  lemma ReversedRay(box: BBox, ray: Ray)
    ensures LineMeets(box, ray) <==> LineMeets(box, Ray(ray.origin, ray.direction.Neg()))
  {
    var rev := Ray(ray.origin, ray.direction.Neg());
    forall t
      ensures ray.PointAt(t) == rev.PointAt(-t)
    {
    }
    if LineMeets(box, ray) {
      var t :| box.Spans(ray.PointAt(t));
      assert box.Spans(rev.PointAt(-t));
    }
    if LineMeets(box, rev) {
      var t :| box.Spans(rev.PointAt(t));
      assert rev.PointAt(t) == ray.PointAt(-t);
    }
  }
}
