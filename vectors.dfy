/**
 * Three-component vectors (src/math/vec3.rs), over exact reals. The operator
 * impls (`Add`, `Sub`, `Neg`, `Mul<f32>`, `PartialEq`) and `dot` are values;
 * the `&mut self` methods (`set`, `cross`, `divide`, `apply_matrix`) update a
 * vector in place and are modelled by the class `MutableVector3` below.
 */
module Vectors {
  import opened Numbers
  import opened Matrices

  datatype Vector3 = Vector3(x: real, y: real, z: real) {

    /** `&a + &b` */
    function Add(v: Vector3): Vector3 {
      Vector3(x + v.x, y + v.y, z + v.z)
    }

    /** `&a - &b` */
    function Sub(v: Vector3): Vector3 {
      Vector3(x - v.x, y - v.y, z - v.z)
    }

    /** `-a` */
    function Neg(): Vector3 {
      Vector3(-x, -y, -z)
    }

    /** `a * s` for a scalar s (`Mul<f32>`). */
    function Scale(s: real): Vector3 {
      Vector3(x * s, y * s, z * s)
    }

    /** `dot` */
    function Dot(v: Vector3): real {
      x * v.x + y * v.y + z * v.z
    }

    /** The value `cross` leaves in `self` (see CrossOrthogonal). */
    function Cross(v: Vector3): Vector3 {
      Vector3(y * v.z - z * v.y, z * v.x - x * v.z, x * v.y - y * v.x)
    }

    /** The value `divide` leaves in `self`: each component divided by s. */
    function Divide(s: real): (r: Vector3)
      requires s != 0.0
      ensures r.Scale(s) == this
    {
      Vector3(x / s, y / s, z / s)
    }

    /**
     * The denominator `apply_matrix` divides by: the fourth row of the
     * column-major matrix e applied to the point (x, y, z, 1).
     */
    function W(e: seq<real>): real
      requires |e| == 16
    {
      e[3] * x + e[7] * y + e[11] * z + e[15]
    }

    /**
     * The value `apply_matrix` leaves in `self`: the point (x, y, z, 1) is
     * multiplied by e and divided by its fourth coordinate.
     */
    function ApplyMatrix(e: seq<real>): Vector3
      requires |e| == 16 && W(e) != 0.0
    {
      var w := 1.0 / W(e);
      Vector3((e[0] * x + e[4] * y + e[8] * z + e[12]) * w,
              (e[1] * x + e[5] * y + e[9] * z + e[13]) * w,
              (e[2] * x + e[6] * y + e[10] * z + e[14]) * w)
    }

    /** `PartialEq::eq`: component-wise comparison, which is value equality. */
    function Equals(v: Vector3): (r: bool)
      ensures r <==> this == v
    {
      x == v.x && y == v.y && z == v.z
    }
  }

  /** The worked example of the repository's cross-product test. */
  lemma CrossExample()
    ensures Vector3(1.0, 2.0, 3.0).Cross(Vector3(1.0, 5.0, 7.0)) == Vector3(-1.0, -4.0, 3.0)
  {
  }

  /** The cross product is perpendicular to both of its operands. */
  lemma CrossOrthogonal(a: Vector3, b: Vector3)
    ensures a.Dot(a.Cross(b)) == 0.0
    ensures b.Dot(a.Cross(b)) == 0.0
  {
  }

  /** The scalar triple product is invariant under cyclic rotation. */
  lemma TripleCyclic(a: Vector3, b: Vector3, c: Vector3)
    ensures a.Dot(b.Cross(c)) == b.Dot(c.Cross(a))
  {
  }

  /** Swapping two operands of the scalar triple product negates it. */
  lemma TripleSwap(a: Vector3, b: Vector3, c: Vector3)
    ensures a.Dot(b.Cross(c)) == -b.Dot(a.Cross(c))
  {
  }

  lemma CrossAnticommutative(a: Vector3, b: Vector3)
    ensures a.Cross(b) == b.Cross(a).Neg()
  {
  }

  /** A vector crossed with a multiple of itself is zero. */
  lemma CrossParallel(a: Vector3, s: real)
    ensures a.Cross(a.Scale(s)) == Vector3(0.0, 0.0, 0.0)
  {
  }

  lemma DotSymmetric(a: Vector3, b: Vector3)
    ensures a.Dot(b) == b.Dot(a)
  {
  }

  /** The squared length is never negative, and is 0 exactly for the zero vector. */
  lemma DotSelf(a: Vector3)
    ensures a.Dot(a) >= 0.0
    ensures a == Vector3(0.0, 0.0, 0.0) ==> a.Dot(a) == 0.0
    ensures a != Vector3(0.0, 0.0, 0.0) ==> a.Dot(a) > 0.0
  {
    SquarePositive(a.x);
    SquarePositive(a.y);
    SquarePositive(a.z);
    assert a.Dot(a) == Times(a.x, a.x) + Times(a.y, a.y) + Times(a.z, a.z);
  }

  lemma DotDistributes(a: Vector3, b: Vector3, c: Vector3)
    ensures a.Dot(b.Add(c)) == a.Dot(b) + a.Dot(c)
    ensures a.Dot(b.Sub(c)) == a.Dot(b) - a.Dot(c)
  {
  }

  /** The dot product is linear in its left operand. */
  lemma DotLeftLinear(p: Vector3, q: Vector3, k: real, m: real, w: Vector3)
    ensures p.Scale(k).Add(q.Scale(m)).Dot(w) == k * p.Dot(w) + m * q.Dot(w)
  {
    var l := p.Scale(k).Add(q.Scale(m));
    assert l.Dot(w) == (p.x * k + q.x * m) * w.x + (p.y * k + q.y * m) * w.y + (p.z * k + q.z * m) * w.z;
  }

  lemma DotLeftAffine(p: Vector3, q: Vector3, m: real, w: Vector3)
    ensures p.Add(q.Scale(m)).Dot(w) == p.Dot(w) + m * q.Dot(w)
  {
    var l := p.Add(q.Scale(m));
    assert l.Dot(w) == (p.x + q.x * m) * w.x + (p.y + q.y * m) * w.y + (p.z + q.z * m) * w.z;
  }

  lemma DotScale(a: Vector3, b: Vector3, s: real)
    ensures a.Dot(b.Scale(s)) == s * a.Dot(b)
  {
  }

  lemma AddCommutative(a: Vector3, b: Vector3)
    ensures a.Add(b) == b.Add(a)
  {
  }

  lemma AddAssociative(a: Vector3, b: Vector3, c: Vector3)
    ensures a.Add(b).Add(c) == a.Add(b.Add(c))
  {
  }

  /** Subtraction undoes addition, and the other way round. */
  lemma AddSubRoundTrip(a: Vector3, b: Vector3)
    ensures a.Add(b).Sub(b) == a
    ensures a.Sub(b).Add(b) == a
  {
  }

  /** Subtracting is adding the negation. */
  lemma SubIsAddNeg(a: Vector3, b: Vector3)
    ensures a.Sub(b) == a.Add(b.Neg())
  {
  }

  lemma NegInvolution(a: Vector3)
    ensures a.Neg().Neg() == a
    ensures a.Neg() == a.Scale(-1.0)
  {
  }

  lemma ScaleOneZero(a: Vector3)
    ensures a.Scale(1.0) == a
    ensures a.Scale(0.0) == Vector3(0.0, 0.0, 0.0)
  {
  }

  /** Dividing by s and scaling by s give back the vector, in either order. */
  lemma DivideScaleRoundTrip(a: Vector3, s: real)
    requires s != 0.0
    ensures a.Divide(s).Scale(s) == a
    ensures a.Scale(s).Divide(s) == a
  {
    var b := a.Scale(s).Divide(s);
    assert b.x == a.x * s / s;
  }

  /**
   * `apply_matrix` is the projective map: scaled back by the denominator, the
   * result is the first three rows of the matrix applied to (x, y, z, 1).
   */
  lemma ApplyMatrixHomogeneous(v: Vector3, e: seq<real>)
    requires |e| == 16 && v.W(e) != 0.0
    ensures v.ApplyMatrix(e).Scale(v.W(e)) == Vector3(
      Elem(e, 0, 0) * v.x + Elem(e, 0, 1) * v.y + Elem(e, 0, 2) * v.z + Elem(e, 0, 3),
      Elem(e, 1, 0) * v.x + Elem(e, 1, 1) * v.y + Elem(e, 1, 2) * v.z + Elem(e, 1, 3),
      Elem(e, 2, 0) * v.x + Elem(e, 2, 1) * v.y + Elem(e, 2, 2) * v.z + Elem(e, 2, 3))
  {
  }

  /** The identity matrix leaves every point where it is. */
  lemma ApplyIdentity(v: Vector3)
    ensures v.W(IdentityElements()) == 1.0
    ensures v.ApplyMatrix(IdentityElements()) == v
  {
    var e := IdentityElements();
    assert e[3] == 0.0 && e[7] == 0.0 && e[11] == 0.0 && e[15] == 1.0;
    assert e[0] == 1.0 && e[5] == 1.0 && e[10] == 1.0;
    assert e[4] == 0.0 && e[8] == 0.0 && e[12] == 0.0;
    assert e[1] == 0.0 && e[9] == 0.0 && e[13] == 0.0;
    assert e[2] == 0.0 && e[6] == 0.0 && e[14] == 0.0;
  }

  /** The column-major translation by t, as `Matrix4::from_array` would store it. */
  function Translation(t: Vector3): (e: seq<real>)
    ensures |e| == 16
  {
    [1.0, 0.0, 0.0, 0.0,
     0.0, 1.0, 0.0, 0.0,
     0.0, 0.0, 1.0, 0.0,
     t.x, t.y, t.z, 1.0]
  }

  /** A translation matrix moves every point by its offset. */
  lemma ApplyTranslation(v: Vector3, t: Vector3)
    ensures v.W(Translation(t)) == 1.0
    ensures v.ApplyMatrix(Translation(t)) == v.Add(t)
  {
  }

  /** The components `apply_matrix` computes one by one make up ApplyMatrix. */
  lemma ApplyMatrixComponents(v: Vector3, e: seq<real>, w: real, x: real, y: real, z: real)
    requires |e| == 16 && v.W(e) != 0.0
    requires w == 1.0 / (e[3] * v.x + e[7] * v.y + e[11] * v.z + e[15])
    requires x == (e[0] * v.x + e[4] * v.y + e[8] * v.z + e[12]) * w
    requires y == (e[1] * v.x + e[5] * v.y + e[9] * v.z + e[13]) * w
    requires z == (e[2] * v.x + e[6] * v.y + e[10] * v.z + e[14]) * w
    ensures Vector3(x, y, z) == v.ApplyMatrix(e)
  {
  }

  /**
   * A `Vector3` that is updated in place. Each method returns the object itself,
   * as the source's methods return `&mut Self`.
   */
  class MutableVector3 {
    var x: real
    var y: real
    var z: real

    /** The vector currently held. */
    function Value(): Vector3
      reads this
    {
      Vector3(x, y, z)
    }

    /** `Vector3::new` */
    constructor (x: real, y: real, z: real)
      ensures Value() == Vector3(x, y, z)
    {
      this.x, this.y, this.z := x, y, z;
    }

    /** `set` */
    method Set(x: real, y: real, z: real) returns (self: MutableVector3)
      modifies this
      ensures self == this && Value() == Vector3(x, y, z)
    {
      this.x := x;
      this.y := y;
      this.z := z;
      self := this;
    }

    /** `cross`: the old components are read into locals before any is written. */
    method Cross(v2: Vector3) returns (self: MutableVector3)
      modifies this
      ensures self == this && Value() == old(Value()).Cross(v2)
    {
      var ax, ay, az := x, y, z;
      x := ay * v2.z - az * v2.y;
      y := az * v2.x - ax * v2.z;
      z := ax * v2.y - ay * v2.x;
      self := this;
    }

    /** `divide` */
    method Divide(scalar: real) returns (self: MutableVector3)
      requires scalar != 0.0
      modifies this
      ensures self == this && Value() == old(Value()).Divide(scalar)
    {
      x := x / scalar;
      y := y / scalar;
      z := z / scalar;
      self := this;
    }

    /** `apply_matrix` */
    method ApplyMatrix(m: Matrix4)
      requires m.Valid() && Value().W(m.elements[..]) != 0.0
      modifies this
      ensures Value() == old(Value()).ApplyMatrix(old(m.elements[..]))
    {
      var x0, y0, z0 := x, y, z;
      var e := m.elements[..];
      var w := 1.0 / (e[3] * x0 + e[7] * y0 + e[11] * z0 + e[15]);
      var nx := (e[0] * x0 + e[4] * y0 + e[8] * z0 + e[12]) * w;
      var ny := (e[1] * x0 + e[5] * y0 + e[9] * z0 + e[13]) * w;
      var nz := (e[2] * x0 + e[6] * y0 + e[10] * z0 + e[14]) * w;
      ApplyMatrixComponents(Vector3(x0, y0, z0), e, w, nx, ny, nz);
      x, y, z := nx, ny, nz;
    }
  }
}
