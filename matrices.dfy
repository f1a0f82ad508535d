/**
 * 4x4 matrices stored column-major in 16 elements (src/math/mat4.rs):
 * the element in row r and column c is at index r + 4 * c.
 */
module Matrices {

  /** The element in row r and column c. */
  function Elem(e: seq<real>, r: int, c: int): real
    requires |e| == 16 && 0 <= r < 4 && 0 <= c < 4
  {
    e[r + 4 * c]
  }

  /** Two matrices with the same elements in every row and column are equal. */
  lemma Ext(a: seq<real>, b: seq<real>)
    requires |a| == 16 && |b| == 16
    requires forall r, c | 0 <= r < 4 && 0 <= c < 4 :: Elem(a, r, c) == Elem(b, r, c)
    ensures a == b
  {
    forall i | 0 <= i < 16 ensures a[i] == b[i] {
      assert Elem(a, i % 4, i / 4) == Elem(b, i % 4, i / 4);
    }
  }

  /**
   * The transposing reordering that `Matrix4::new` applies to its argument,
   * which it reads row-major.
   */
  function Transpose(e: seq<real>): (t: seq<real>)
    requires |e| == 16
    ensures |t| == 16
    ensures forall r, c | 0 <= r < 4 && 0 <= c < 4 :: Elem(t, r, c) == Elem(e, c, r)
  {
    [e[0], e[4], e[8], e[12],
     e[1], e[5], e[9], e[13],
     e[2], e[6], e[10], e[14],
     e[3], e[7], e[11], e[15]]
  }

  lemma TransposeTwice(e: seq<real>)
    requires |e| == 16
    ensures Transpose(Transpose(e)) == e
  {
    Ext(Transpose(Transpose(e)), e);
  }

  /** The elements of `Matrix4::identity()`. */
  function IdentityElements(): (e: seq<real>)
    ensures |e| == 16
    ensures forall r, c | 0 <= r < 4 && 0 <= c < 4 :: Elem(e, r, c) == if r == c then 1.0 else 0.0
  {
    [1.0, 0.0, 0.0, 0.0,
     0.0, 1.0, 0.0, 0.0,
     0.0, 0.0, 1.0, 0.0,
     0.0, 0.0, 0.0, 1.0]
  }

  /** Row r of a times column c of b. */
  function Entry(a: seq<real>, b: seq<real>, r: int, c: int): real
    requires |a| == 16 && |b| == 16 && 0 <= r < 4 && 0 <= c < 4
  {
    Elem(a, r, 0) * Elem(b, 0, c) + Elem(a, r, 1) * Elem(b, 1, c)
      + Elem(a, r, 2) * Elem(b, 2, c) + Elem(a, r, 3) * Elem(b, 3, c)
  }

  /** The matrix product a * b. */
  function Product(a: seq<real>, b: seq<real>): (p: seq<real>)
    requires |a| == 16 && |b| == 16
    ensures |p| == 16
  {
    seq(16, i requires 0 <= i < 16 => Entry(a, b, i % 4, i / 4))
  }

  /** Row r and column c of a * b is row r of a times column c of b. */
  lemma ProductElem(a: seq<real>, b: seq<real>, r: int, c: int)
    requires |a| == 16 && |b| == 16 && 0 <= r < 4 && 0 <= c < 4
    ensures Elem(Product(a, b), r, c) == Entry(a, b, r, c)
  {
    assert (r + 4 * c) % 4 == r && (r + 4 * c) / 4 == c;
  }

  lemma ProductIdentityLeft(a: seq<real>)
    requires |a| == 16
    ensures Product(IdentityElements(), a) == a
  {
    forall r, c | 0 <= r < 4 && 0 <= c < 4
      ensures Elem(Product(IdentityElements(), a), r, c) == Elem(a, r, c)
    {
      ProductElem(IdentityElements(), a, r, c);
    }
    Ext(Product(IdentityElements(), a), a);
  }

  lemma ProductIdentityRight(a: seq<real>)
    requires |a| == 16
    ensures Product(a, IdentityElements()) == a
  {
    forall r, c | 0 <= r < 4 && 0 <= c < 4
      ensures Elem(Product(a, IdentityElements()), r, c) == Elem(a, r, c)
    {
      ProductElem(a, IdentityElements(), r, c);
    }
    Ext(Product(a, IdentityElements()), a);
  }

  lemma TransposedEntry(a: seq<real>, b: seq<real>, r: int, c: int)
    requires |a| == 16 && |b| == 16 && 0 <= r < 4 && 0 <= c < 4
    ensures Entry(a, b, c, r) == Entry(Transpose(b), Transpose(a), r, c)
  {
    var ta, tb := Transpose(a), Transpose(b);
    assert Elem(tb, r, 0) == Elem(b, 0, r) && Elem(ta, 0, c) == Elem(a, c, 0);
    assert Elem(tb, r, 1) == Elem(b, 1, r) && Elem(ta, 1, c) == Elem(a, c, 1);
    assert Elem(tb, r, 2) == Elem(b, 2, r) && Elem(ta, 2, c) == Elem(a, c, 2);
    assert Elem(tb, r, 3) == Elem(b, 3, r) && Elem(ta, 3, c) == Elem(a, c, 3);
  }

  /** The transpose of a product is the product of the transposes, reversed. */
  lemma ProductTranspose(a: seq<real>, b: seq<real>)
    requires |a| == 16 && |b| == 16
    ensures Transpose(Product(a, b)) == Product(Transpose(b), Transpose(a))
  {
    var l, p := Transpose(Product(a, b)), Product(Transpose(b), Transpose(a));
    forall r, c | 0 <= r < 4 && 0 <= c < 4 ensures Elem(l, r, c) == Elem(p, r, c) {
      TransposedEntry(a, b, r, c);
      ProductElem(a, b, c, r);
      ProductElem(Transpose(b), Transpose(a), r, c);
    }
    Ext(l, p);
  }

  /**
   * Entry k (column-major) of the adjugate that `inverse` writes into its local
   * copy `me` before scaling by 1 / determinant; entries 0, 4, 8 and 12 are the
   * source's t11, t12, t13 and t14. The source's nRC is e[(R - 1) + 4 * (C - 1)].
   */
  function Cofactor(e: seq<real>, k: int): real
    requires |e| == 16 && 0 <= k < 16
  {
    match k
    case 0 => e[9] * e[14] * e[7] - e[13] * e[10] * e[7] + e[13] * e[6] * e[11] - e[5] * e[14] * e[11] - e[9] * e[6] * e[15] + e[5] * e[10] * e[15]
    case 1 => e[13] * e[10] * e[3] - e[9] * e[14] * e[3] - e[13] * e[2] * e[11] + e[1] * e[14] * e[11] + e[9] * e[2] * e[15] - e[1] * e[10] * e[15]
    case 2 => e[5] * e[14] * e[3] - e[13] * e[6] * e[3] + e[13] * e[2] * e[7] - e[1] * e[14] * e[7] - e[5] * e[2] * e[15] + e[1] * e[6] * e[15]
    case 3 => e[9] * e[6] * e[3] - e[5] * e[10] * e[3] - e[9] * e[2] * e[7] + e[1] * e[10] * e[7] + e[5] * e[2] * e[11] - e[1] * e[6] * e[11]
    case 4 => e[12] * e[10] * e[7] - e[8] * e[14] * e[7] - e[12] * e[6] * e[11] + e[4] * e[14] * e[11] + e[8] * e[6] * e[15] - e[4] * e[10] * e[15]
    case 5 => e[8] * e[14] * e[3] - e[12] * e[10] * e[3] + e[12] * e[2] * e[11] - e[0] * e[14] * e[11] - e[8] * e[2] * e[15] + e[0] * e[10] * e[15]
    case 6 => e[12] * e[6] * e[3] - e[4] * e[14] * e[3] - e[12] * e[2] * e[7] + e[0] * e[14] * e[7] + e[4] * e[2] * e[15] - e[0] * e[6] * e[15]
    case 7 => e[4] * e[10] * e[3] - e[8] * e[6] * e[3] + e[8] * e[2] * e[7] - e[0] * e[10] * e[7] - e[4] * e[2] * e[11] + e[0] * e[6] * e[11]
    case 8 => e[8] * e[13] * e[7] - e[12] * e[9] * e[7] + e[12] * e[5] * e[11] - e[4] * e[13] * e[11] - e[8] * e[5] * e[15] + e[4] * e[9] * e[15]
    case 9 => e[12] * e[9] * e[3] - e[8] * e[13] * e[3] - e[12] * e[1] * e[11] + e[0] * e[13] * e[11] + e[8] * e[1] * e[15] - e[0] * e[9] * e[15]
    case 10 => e[4] * e[13] * e[3] - e[12] * e[5] * e[3] + e[12] * e[1] * e[7] - e[0] * e[13] * e[7] - e[4] * e[1] * e[15] + e[0] * e[5] * e[15]
    case 11 => e[8] * e[5] * e[3] - e[4] * e[9] * e[3] - e[8] * e[1] * e[7] + e[0] * e[9] * e[7] + e[4] * e[1] * e[11] - e[0] * e[5] * e[11]
    case 12 => e[12] * e[9] * e[6] - e[8] * e[13] * e[6] - e[12] * e[5] * e[10] + e[4] * e[13] * e[10] + e[8] * e[5] * e[14] - e[4] * e[9] * e[14]
    case 13 => e[8] * e[13] * e[2] - e[12] * e[9] * e[2] + e[12] * e[1] * e[10] - e[0] * e[13] * e[10] - e[8] * e[1] * e[14] + e[0] * e[9] * e[14]
    case 14 => e[12] * e[5] * e[2] - e[4] * e[13] * e[2] - e[12] * e[1] * e[6] + e[0] * e[13] * e[6] + e[4] * e[1] * e[14] - e[0] * e[5] * e[14]
    case _ => e[4] * e[9] * e[2] - e[8] * e[5] * e[2] + e[8] * e[1] * e[6] - e[0] * e[9] * e[6] - e[4] * e[1] * e[10] + e[0] * e[5] * e[10]
  }

  /** The whole adjugate, column-major. */
  function Cofactors(e: seq<real>): (me: seq<real>)
    requires |e| == 16
    ensures |me| == 16
  {
    seq(16, k requires 0 <= k < 16 => Cofactor(e, k))
  }

  /**
   * The determinant, by the cofactor expansion along the first column that
   * `inverse` computes (n11 * t11 + n21 * t12 + n31 * t13 + n41 * t14).
   */
  function Determinant(e: seq<real>): real
    requires |e| == 16
  {
    e[0] * Cofactor(e, 0) + e[1] * Cofactor(e, 4) + e[2] * Cofactor(e, 8) + e[3] * Cofactor(e, 12)
  }

  lemma DeterminantIdentity()
    ensures Determinant(IdentityElements()) == 1.0
  {
  }

  /** Every element multiplied by k. */
  function Scale(e: seq<real>, k: real): (s: seq<real>)
    requires |e| == 16
    ensures |s| == 16
  {
    seq(16, i requires 0 <= i < 16 => e[i] * k)
  }

  /** The inverse that `inverse` computes into `me` when the determinant is not 0. */
  function InverseElements(e: seq<real>): (me: seq<real>)
    requires |e| == 16 && Determinant(e) != 0.0
    ensures |me| == 16
  {
    var detInv := 1.0 / Determinant(e);
    Scale(Cofactors(e), detInv)
  }

  /**
   * The polynomial identities behind the adjugate: row r of the matrix times
   * column c of the cofactors the source computes is the determinant when r == c
   * and 0 otherwise. They are stated over plain reals (the formulas of
   * `Cofactor`, spelled out again with the source's names) so that the solver
   * sees plain polynomials, one column c of the adjugate per lemma.
   */
  lemma AdjugateColumn0(
    n11: real, n21: real, n31: real, n41: real, n12: real, n22: real, n32: real, n42: real,
    n13: real, n23: real, n33: real, n43: real, n14: real, n24: real, n34: real, n44: real)
    ensures
      var m0 := n23 * n34 * n42 - n24 * n33 * n42 + n24 * n32 * n43 - n22 * n34 * n43 - n23 * n32 * n44 + n22 * n33 * n44;
      var m1 := n24 * n33 * n41 - n23 * n34 * n41 - n24 * n31 * n43 + n21 * n34 * n43 + n23 * n31 * n44 - n21 * n33 * n44;
      var m2 := n22 * n34 * n41 - n24 * n32 * n41 + n24 * n31 * n42 - n21 * n34 * n42 - n22 * n31 * n44 + n21 * n32 * n44;
      var m3 := n23 * n32 * n41 - n22 * n33 * n41 - n23 * n31 * n42 + n21 * n33 * n42 + n22 * n31 * n43 - n21 * n32 * n43;
      var m4 := n14 * n33 * n42 - n13 * n34 * n42 - n14 * n32 * n43 + n12 * n34 * n43 + n13 * n32 * n44 - n12 * n33 * n44;
      var m5 := n13 * n34 * n41 - n14 * n33 * n41 + n14 * n31 * n43 - n11 * n34 * n43 - n13 * n31 * n44 + n11 * n33 * n44;
      var m6 := n14 * n32 * n41 - n12 * n34 * n41 - n14 * n31 * n42 + n11 * n34 * n42 + n12 * n31 * n44 - n11 * n32 * n44;
      var m7 := n12 * n33 * n41 - n13 * n32 * n41 + n13 * n31 * n42 - n11 * n33 * n42 - n12 * n31 * n43 + n11 * n32 * n43;
      var m8 := n13 * n24 * n42 - n14 * n23 * n42 + n14 * n22 * n43 - n12 * n24 * n43 - n13 * n22 * n44 + n12 * n23 * n44;
      var m9 := n14 * n23 * n41 - n13 * n24 * n41 - n14 * n21 * n43 + n11 * n24 * n43 + n13 * n21 * n44 - n11 * n23 * n44;
      var m10 := n12 * n24 * n41 - n14 * n22 * n41 + n14 * n21 * n42 - n11 * n24 * n42 - n12 * n21 * n44 + n11 * n22 * n44;
      var m11 := n13 * n22 * n41 - n12 * n23 * n41 - n13 * n21 * n42 + n11 * n23 * n42 + n12 * n21 * n43 - n11 * n22 * n43;
      var m12 := n14 * n23 * n32 - n13 * n24 * n32 - n14 * n22 * n33 + n12 * n24 * n33 + n13 * n22 * n34 - n12 * n23 * n34;
      var m13 := n13 * n24 * n31 - n14 * n23 * n31 + n14 * n21 * n33 - n11 * n24 * n33 - n13 * n21 * n34 + n11 * n23 * n34;
      var m14 := n14 * n22 * n31 - n12 * n24 * n31 - n14 * n21 * n32 + n11 * n24 * n32 + n12 * n21 * n34 - n11 * n22 * n34;
      var m15 := n12 * n23 * n31 - n13 * n22 * n31 + n13 * n21 * n32 - n11 * n23 * n32 - n12 * n21 * n33 + n11 * n22 * n33;
      var det := n11 * m0 + n21 * m4 + n31 * m8 + n41 * m12;
      n11 * m0 + n12 * m1 + n13 * m2 + n14 * m3 == det &&
      n21 * m0 + n22 * m1 + n23 * m2 + n24 * m3 == 0.0 &&
      n31 * m0 + n32 * m1 + n33 * m2 + n34 * m3 == 0.0 &&
      n41 * m0 + n42 * m1 + n43 * m2 + n44 * m3 == 0.0
  {
  }

  lemma AdjugateColumn1(
    n11: real, n21: real, n31: real, n41: real, n12: real, n22: real, n32: real, n42: real,
    n13: real, n23: real, n33: real, n43: real, n14: real, n24: real, n34: real, n44: real)
    ensures
      var m0 := n23 * n34 * n42 - n24 * n33 * n42 + n24 * n32 * n43 - n22 * n34 * n43 - n23 * n32 * n44 + n22 * n33 * n44;
      var m1 := n24 * n33 * n41 - n23 * n34 * n41 - n24 * n31 * n43 + n21 * n34 * n43 + n23 * n31 * n44 - n21 * n33 * n44;
      var m2 := n22 * n34 * n41 - n24 * n32 * n41 + n24 * n31 * n42 - n21 * n34 * n42 - n22 * n31 * n44 + n21 * n32 * n44;
      var m3 := n23 * n32 * n41 - n22 * n33 * n41 - n23 * n31 * n42 + n21 * n33 * n42 + n22 * n31 * n43 - n21 * n32 * n43;
      var m4 := n14 * n33 * n42 - n13 * n34 * n42 - n14 * n32 * n43 + n12 * n34 * n43 + n13 * n32 * n44 - n12 * n33 * n44;
      var m5 := n13 * n34 * n41 - n14 * n33 * n41 + n14 * n31 * n43 - n11 * n34 * n43 - n13 * n31 * n44 + n11 * n33 * n44;
      var m6 := n14 * n32 * n41 - n12 * n34 * n41 - n14 * n31 * n42 + n11 * n34 * n42 + n12 * n31 * n44 - n11 * n32 * n44;
      var m7 := n12 * n33 * n41 - n13 * n32 * n41 + n13 * n31 * n42 - n11 * n33 * n42 - n12 * n31 * n43 + n11 * n32 * n43;
      var m8 := n13 * n24 * n42 - n14 * n23 * n42 + n14 * n22 * n43 - n12 * n24 * n43 - n13 * n22 * n44 + n12 * n23 * n44;
      var m9 := n14 * n23 * n41 - n13 * n24 * n41 - n14 * n21 * n43 + n11 * n24 * n43 + n13 * n21 * n44 - n11 * n23 * n44;
      var m10 := n12 * n24 * n41 - n14 * n22 * n41 + n14 * n21 * n42 - n11 * n24 * n42 - n12 * n21 * n44 + n11 * n22 * n44;
      var m11 := n13 * n22 * n41 - n12 * n23 * n41 - n13 * n21 * n42 + n11 * n23 * n42 + n12 * n21 * n43 - n11 * n22 * n43;
      var m12 := n14 * n23 * n32 - n13 * n24 * n32 - n14 * n22 * n33 + n12 * n24 * n33 + n13 * n22 * n34 - n12 * n23 * n34;
      var m13 := n13 * n24 * n31 - n14 * n23 * n31 + n14 * n21 * n33 - n11 * n24 * n33 - n13 * n21 * n34 + n11 * n23 * n34;
      var m14 := n14 * n22 * n31 - n12 * n24 * n31 - n14 * n21 * n32 + n11 * n24 * n32 + n12 * n21 * n34 - n11 * n22 * n34;
      var m15 := n12 * n23 * n31 - n13 * n22 * n31 + n13 * n21 * n32 - n11 * n23 * n32 - n12 * n21 * n33 + n11 * n22 * n33;
      var det := n11 * m0 + n21 * m4 + n31 * m8 + n41 * m12;
      n11 * m4 + n12 * m5 + n13 * m6 + n14 * m7 == 0.0 &&
      n21 * m4 + n22 * m5 + n23 * m6 + n24 * m7 == det &&
      n31 * m4 + n32 * m5 + n33 * m6 + n34 * m7 == 0.0 &&
      n41 * m4 + n42 * m5 + n43 * m6 + n44 * m7 == 0.0
  {
  }

  lemma AdjugateColumn2(
    n11: real, n21: real, n31: real, n41: real, n12: real, n22: real, n32: real, n42: real,
    n13: real, n23: real, n33: real, n43: real, n14: real, n24: real, n34: real, n44: real)
    ensures
      var m0 := n23 * n34 * n42 - n24 * n33 * n42 + n24 * n32 * n43 - n22 * n34 * n43 - n23 * n32 * n44 + n22 * n33 * n44;
      var m1 := n24 * n33 * n41 - n23 * n34 * n41 - n24 * n31 * n43 + n21 * n34 * n43 + n23 * n31 * n44 - n21 * n33 * n44;
      var m2 := n22 * n34 * n41 - n24 * n32 * n41 + n24 * n31 * n42 - n21 * n34 * n42 - n22 * n31 * n44 + n21 * n32 * n44;
      var m3 := n23 * n32 * n41 - n22 * n33 * n41 - n23 * n31 * n42 + n21 * n33 * n42 + n22 * n31 * n43 - n21 * n32 * n43;
      var m4 := n14 * n33 * n42 - n13 * n34 * n42 - n14 * n32 * n43 + n12 * n34 * n43 + n13 * n32 * n44 - n12 * n33 * n44;
      var m5 := n13 * n34 * n41 - n14 * n33 * n41 + n14 * n31 * n43 - n11 * n34 * n43 - n13 * n31 * n44 + n11 * n33 * n44;
      var m6 := n14 * n32 * n41 - n12 * n34 * n41 - n14 * n31 * n42 + n11 * n34 * n42 + n12 * n31 * n44 - n11 * n32 * n44;
      var m7 := n12 * n33 * n41 - n13 * n32 * n41 + n13 * n31 * n42 - n11 * n33 * n42 - n12 * n31 * n43 + n11 * n32 * n43;
      var m8 := n13 * n24 * n42 - n14 * n23 * n42 + n14 * n22 * n43 - n12 * n24 * n43 - n13 * n22 * n44 + n12 * n23 * n44;
      var m9 := n14 * n23 * n41 - n13 * n24 * n41 - n14 * n21 * n43 + n11 * n24 * n43 + n13 * n21 * n44 - n11 * n23 * n44;
      var m10 := n12 * n24 * n41 - n14 * n22 * n41 + n14 * n21 * n42 - n11 * n24 * n42 - n12 * n21 * n44 + n11 * n22 * n44;
      var m11 := n13 * n22 * n41 - n12 * n23 * n41 - n13 * n21 * n42 + n11 * n23 * n42 + n12 * n21 * n43 - n11 * n22 * n43;
      var m12 := n14 * n23 * n32 - n13 * n24 * n32 - n14 * n22 * n33 + n12 * n24 * n33 + n13 * n22 * n34 - n12 * n23 * n34;
      var m13 := n13 * n24 * n31 - n14 * n23 * n31 + n14 * n21 * n33 - n11 * n24 * n33 - n13 * n21 * n34 + n11 * n23 * n34;
      var m14 := n14 * n22 * n31 - n12 * n24 * n31 - n14 * n21 * n32 + n11 * n24 * n32 + n12 * n21 * n34 - n11 * n22 * n34;
      var m15 := n12 * n23 * n31 - n13 * n22 * n31 + n13 * n21 * n32 - n11 * n23 * n32 - n12 * n21 * n33 + n11 * n22 * n33;
      var det := n11 * m0 + n21 * m4 + n31 * m8 + n41 * m12;
      n11 * m8 + n12 * m9 + n13 * m10 + n14 * m11 == 0.0 &&
      n21 * m8 + n22 * m9 + n23 * m10 + n24 * m11 == 0.0 &&
      n31 * m8 + n32 * m9 + n33 * m10 + n34 * m11 == det &&
      n41 * m8 + n42 * m9 + n43 * m10 + n44 * m11 == 0.0
  {
  }

  lemma AdjugateColumn3(
    n11: real, n21: real, n31: real, n41: real, n12: real, n22: real, n32: real, n42: real,
    n13: real, n23: real, n33: real, n43: real, n14: real, n24: real, n34: real, n44: real)
    ensures
      var m0 := n23 * n34 * n42 - n24 * n33 * n42 + n24 * n32 * n43 - n22 * n34 * n43 - n23 * n32 * n44 + n22 * n33 * n44;
      var m1 := n24 * n33 * n41 - n23 * n34 * n41 - n24 * n31 * n43 + n21 * n34 * n43 + n23 * n31 * n44 - n21 * n33 * n44;
      var m2 := n22 * n34 * n41 - n24 * n32 * n41 + n24 * n31 * n42 - n21 * n34 * n42 - n22 * n31 * n44 + n21 * n32 * n44;
      var m3 := n23 * n32 * n41 - n22 * n33 * n41 - n23 * n31 * n42 + n21 * n33 * n42 + n22 * n31 * n43 - n21 * n32 * n43;
      var m4 := n14 * n33 * n42 - n13 * n34 * n42 - n14 * n32 * n43 + n12 * n34 * n43 + n13 * n32 * n44 - n12 * n33 * n44;
      var m5 := n13 * n34 * n41 - n14 * n33 * n41 + n14 * n31 * n43 - n11 * n34 * n43 - n13 * n31 * n44 + n11 * n33 * n44;
      var m6 := n14 * n32 * n41 - n12 * n34 * n41 - n14 * n31 * n42 + n11 * n34 * n42 + n12 * n31 * n44 - n11 * n32 * n44;
      var m7 := n12 * n33 * n41 - n13 * n32 * n41 + n13 * n31 * n42 - n11 * n33 * n42 - n12 * n31 * n43 + n11 * n32 * n43;
      var m8 := n13 * n24 * n42 - n14 * n23 * n42 + n14 * n22 * n43 - n12 * n24 * n43 - n13 * n22 * n44 + n12 * n23 * n44;
      var m9 := n14 * n23 * n41 - n13 * n24 * n41 - n14 * n21 * n43 + n11 * n24 * n43 + n13 * n21 * n44 - n11 * n23 * n44;
      var m10 := n12 * n24 * n41 - n14 * n22 * n41 + n14 * n21 * n42 - n11 * n24 * n42 - n12 * n21 * n44 + n11 * n22 * n44;
      var m11 := n13 * n22 * n41 - n12 * n23 * n41 - n13 * n21 * n42 + n11 * n23 * n42 + n12 * n21 * n43 - n11 * n22 * n43;
      var m12 := n14 * n23 * n32 - n13 * n24 * n32 - n14 * n22 * n33 + n12 * n24 * n33 + n13 * n22 * n34 - n12 * n23 * n34;
      var m13 := n13 * n24 * n31 - n14 * n23 * n31 + n14 * n21 * n33 - n11 * n24 * n33 - n13 * n21 * n34 + n11 * n23 * n34;
      var m14 := n14 * n22 * n31 - n12 * n24 * n31 - n14 * n21 * n32 + n11 * n24 * n32 + n12 * n21 * n34 - n11 * n22 * n34;
      var m15 := n12 * n23 * n31 - n13 * n22 * n31 + n13 * n21 * n32 - n11 * n23 * n32 - n12 * n21 * n33 + n11 * n22 * n33;
      var det := n11 * m0 + n21 * m4 + n31 * m8 + n41 * m12;
      n11 * m12 + n12 * m13 + n13 * m14 + n14 * m15 == 0.0 &&
      n21 * m12 + n22 * m13 + n23 * m14 + n24 * m15 == 0.0 &&
      n31 * m12 + n32 * m13 + n33 * m14 + n34 * m15 == 0.0 &&
      n41 * m12 + n42 * m13 + n43 * m14 + n44 * m15 == det
  {
  }

  /**
   * One lemma per entry of the product of the matrix with its adjugate: the
   * solver proves each of these polynomial identities on its own but not all
   * sixteen at once.
   */
  lemma AdjugateEntry00(e: seq<real>)
    requires |e| == 16
    ensures Entry(e, Cofactors(e), 0, 0) == Determinant(e)
  {
    AdjugateColumn0(e[0], e[1], e[2], e[3], e[4], e[5], e[6], e[7],
      e[8], e[9], e[10], e[11], e[12], e[13], e[14], e[15]);
    assert Determinant(e) == e[0] * Cofactor(e, 0) + e[1] * Cofactor(e, 4) + e[2] * Cofactor(e, 8) + e[3] * Cofactor(e, 12);
    assert Entry(e, Cofactors(e), 0, 0) == e[0] * Cofactor(e, 0) + e[4] * Cofactor(e, 1) + e[8] * Cofactor(e, 2) + e[12] * Cofactor(e, 3);
  }

  lemma AdjugateEntry01(e: seq<real>)
    requires |e| == 16
    ensures Entry(e, Cofactors(e), 0, 1) == 0.0
  {
    AdjugateColumn1(e[0], e[1], e[2], e[3], e[4], e[5], e[6], e[7],
      e[8], e[9], e[10], e[11], e[12], e[13], e[14], e[15]);
    assert Entry(e, Cofactors(e), 0, 1) == e[0] * Cofactor(e, 4) + e[4] * Cofactor(e, 5) + e[8] * Cofactor(e, 6) + e[12] * Cofactor(e, 7);
  }

  lemma AdjugateEntry02(e: seq<real>)
    requires |e| == 16
    ensures Entry(e, Cofactors(e), 0, 2) == 0.0
  {
    AdjugateColumn2(e[0], e[1], e[2], e[3], e[4], e[5], e[6], e[7],
      e[8], e[9], e[10], e[11], e[12], e[13], e[14], e[15]);
    assert Entry(e, Cofactors(e), 0, 2) == e[0] * Cofactor(e, 8) + e[4] * Cofactor(e, 9) + e[8] * Cofactor(e, 10) + e[12] * Cofactor(e, 11);
  }

  lemma AdjugateEntry03(e: seq<real>)
    requires |e| == 16
    ensures Entry(e, Cofactors(e), 0, 3) == 0.0
  {
    AdjugateColumn3(e[0], e[1], e[2], e[3], e[4], e[5], e[6], e[7],
      e[8], e[9], e[10], e[11], e[12], e[13], e[14], e[15]);
    assert Entry(e, Cofactors(e), 0, 3) == e[0] * Cofactor(e, 12) + e[4] * Cofactor(e, 13) + e[8] * Cofactor(e, 14) + e[12] * Cofactor(e, 15);
  }

  lemma AdjugateEntry10(e: seq<real>)
    requires |e| == 16
    ensures Entry(e, Cofactors(e), 1, 0) == 0.0
  {
    AdjugateColumn0(e[0], e[1], e[2], e[3], e[4], e[5], e[6], e[7],
      e[8], e[9], e[10], e[11], e[12], e[13], e[14], e[15]);
    assert Entry(e, Cofactors(e), 1, 0) == e[1] * Cofactor(e, 0) + e[5] * Cofactor(e, 1) + e[9] * Cofactor(e, 2) + e[13] * Cofactor(e, 3);
  }

  lemma AdjugateEntry11(e: seq<real>)
    requires |e| == 16
    ensures Entry(e, Cofactors(e), 1, 1) == Determinant(e)
  {
    AdjugateColumn1(e[0], e[1], e[2], e[3], e[4], e[5], e[6], e[7],
      e[8], e[9], e[10], e[11], e[12], e[13], e[14], e[15]);
    assert Determinant(e) == e[0] * Cofactor(e, 0) + e[1] * Cofactor(e, 4) + e[2] * Cofactor(e, 8) + e[3] * Cofactor(e, 12);
    assert Entry(e, Cofactors(e), 1, 1) == e[1] * Cofactor(e, 4) + e[5] * Cofactor(e, 5) + e[9] * Cofactor(e, 6) + e[13] * Cofactor(e, 7);
  }

  lemma AdjugateEntry12(e: seq<real>)
    requires |e| == 16
    ensures Entry(e, Cofactors(e), 1, 2) == 0.0
  {
    AdjugateColumn2(e[0], e[1], e[2], e[3], e[4], e[5], e[6], e[7],
      e[8], e[9], e[10], e[11], e[12], e[13], e[14], e[15]);
    assert Entry(e, Cofactors(e), 1, 2) == e[1] * Cofactor(e, 8) + e[5] * Cofactor(e, 9) + e[9] * Cofactor(e, 10) + e[13] * Cofactor(e, 11);
  }

  lemma AdjugateEntry13(e: seq<real>)
    requires |e| == 16
    ensures Entry(e, Cofactors(e), 1, 3) == 0.0
  {
    AdjugateColumn3(e[0], e[1], e[2], e[3], e[4], e[5], e[6], e[7],
      e[8], e[9], e[10], e[11], e[12], e[13], e[14], e[15]);
    assert Entry(e, Cofactors(e), 1, 3) == e[1] * Cofactor(e, 12) + e[5] * Cofactor(e, 13) + e[9] * Cofactor(e, 14) + e[13] * Cofactor(e, 15);
  }

  lemma AdjugateEntry20(e: seq<real>)
    requires |e| == 16
    ensures Entry(e, Cofactors(e), 2, 0) == 0.0
  {
    AdjugateColumn0(e[0], e[1], e[2], e[3], e[4], e[5], e[6], e[7],
      e[8], e[9], e[10], e[11], e[12], e[13], e[14], e[15]);
    assert Entry(e, Cofactors(e), 2, 0) == e[2] * Cofactor(e, 0) + e[6] * Cofactor(e, 1) + e[10] * Cofactor(e, 2) + e[14] * Cofactor(e, 3);
  }

  lemma AdjugateEntry21(e: seq<real>)
    requires |e| == 16
    ensures Entry(e, Cofactors(e), 2, 1) == 0.0
  {
    AdjugateColumn1(e[0], e[1], e[2], e[3], e[4], e[5], e[6], e[7],
      e[8], e[9], e[10], e[11], e[12], e[13], e[14], e[15]);
    assert Entry(e, Cofactors(e), 2, 1) == e[2] * Cofactor(e, 4) + e[6] * Cofactor(e, 5) + e[10] * Cofactor(e, 6) + e[14] * Cofactor(e, 7);
  }

  lemma AdjugateEntry22(e: seq<real>)
    requires |e| == 16
    ensures Entry(e, Cofactors(e), 2, 2) == Determinant(e)
  {
    AdjugateColumn2(e[0], e[1], e[2], e[3], e[4], e[5], e[6], e[7],
      e[8], e[9], e[10], e[11], e[12], e[13], e[14], e[15]);
    assert Determinant(e) == e[0] * Cofactor(e, 0) + e[1] * Cofactor(e, 4) + e[2] * Cofactor(e, 8) + e[3] * Cofactor(e, 12);
    assert Entry(e, Cofactors(e), 2, 2) == e[2] * Cofactor(e, 8) + e[6] * Cofactor(e, 9) + e[10] * Cofactor(e, 10) + e[14] * Cofactor(e, 11);
  }

  lemma AdjugateEntry23(e: seq<real>)
    requires |e| == 16
    ensures Entry(e, Cofactors(e), 2, 3) == 0.0
  {
    AdjugateColumn3(e[0], e[1], e[2], e[3], e[4], e[5], e[6], e[7],
      e[8], e[9], e[10], e[11], e[12], e[13], e[14], e[15]);
    assert Entry(e, Cofactors(e), 2, 3) == e[2] * Cofactor(e, 12) + e[6] * Cofactor(e, 13) + e[10] * Cofactor(e, 14) + e[14] * Cofactor(e, 15);
  }

  lemma AdjugateEntry30(e: seq<real>)
    requires |e| == 16
    ensures Entry(e, Cofactors(e), 3, 0) == 0.0
  {
    AdjugateColumn0(e[0], e[1], e[2], e[3], e[4], e[5], e[6], e[7],
      e[8], e[9], e[10], e[11], e[12], e[13], e[14], e[15]);
    assert Entry(e, Cofactors(e), 3, 0) == e[3] * Cofactor(e, 0) + e[7] * Cofactor(e, 1) + e[11] * Cofactor(e, 2) + e[15] * Cofactor(e, 3);
  }

  lemma AdjugateEntry31(e: seq<real>)
    requires |e| == 16
    ensures Entry(e, Cofactors(e), 3, 1) == 0.0
  {
    AdjugateColumn1(e[0], e[1], e[2], e[3], e[4], e[5], e[6], e[7],
      e[8], e[9], e[10], e[11], e[12], e[13], e[14], e[15]);
    assert Entry(e, Cofactors(e), 3, 1) == e[3] * Cofactor(e, 4) + e[7] * Cofactor(e, 5) + e[11] * Cofactor(e, 6) + e[15] * Cofactor(e, 7);
  }

  lemma AdjugateEntry32(e: seq<real>)
    requires |e| == 16
    ensures Entry(e, Cofactors(e), 3, 2) == 0.0
  {
    AdjugateColumn2(e[0], e[1], e[2], e[3], e[4], e[5], e[6], e[7],
      e[8], e[9], e[10], e[11], e[12], e[13], e[14], e[15]);
    assert Entry(e, Cofactors(e), 3, 2) == e[3] * Cofactor(e, 8) + e[7] * Cofactor(e, 9) + e[11] * Cofactor(e, 10) + e[15] * Cofactor(e, 11);
  }

  lemma AdjugateEntry33(e: seq<real>)
    requires |e| == 16
    ensures Entry(e, Cofactors(e), 3, 3) == Determinant(e)
  {
    AdjugateColumn3(e[0], e[1], e[2], e[3], e[4], e[5], e[6], e[7],
      e[8], e[9], e[10], e[11], e[12], e[13], e[14], e[15]);
    assert Determinant(e) == e[0] * Cofactor(e, 0) + e[1] * Cofactor(e, 4) + e[2] * Cofactor(e, 8) + e[3] * Cofactor(e, 12);
    assert Entry(e, Cofactors(e), 3, 3) == e[3] * Cofactor(e, 12) + e[7] * Cofactor(e, 13) + e[11] * Cofactor(e, 14) + e[15] * Cofactor(e, 15);
  }

  /** Entry (r, c) of the matrix times its adjugate. */
  lemma AdjugateElem(e: seq<real>, r: int, c: int)
    requires |e| == 16 && 0 <= r < 4 && 0 <= c < 4
    ensures Entry(e, Cofactors(e), r, c) == if r == c then Determinant(e) else 0.0
  {
    if r == 0 {
      if c == 0 { AdjugateEntry00(e); } else if c == 1 { AdjugateEntry01(e); }
      else if c == 2 { AdjugateEntry02(e); } else { AdjugateEntry03(e); }
    } else if r == 1 {
      if c == 0 { AdjugateEntry10(e); } else if c == 1 { AdjugateEntry11(e); }
      else if c == 2 { AdjugateEntry12(e); } else { AdjugateEntry13(e); }
    } else if r == 2 {
      if c == 0 { AdjugateEntry20(e); } else if c == 1 { AdjugateEntry21(e); }
      else if c == 2 { AdjugateEntry22(e); } else { AdjugateEntry23(e); }
    } else {
      if c == 0 { AdjugateEntry30(e); } else if c == 1 { AdjugateEntry31(e); }
      else if c == 2 { AdjugateEntry32(e); } else { AdjugateEntry33(e); }
    }
  }

  lemma ProductScale(a: seq<real>, b: seq<real>, k: real)
    requires |a| == 16 && |b| == 16
    ensures Product(a, Scale(b, k)) == Scale(Product(a, b), k)
  {
    var l, r := Product(a, Scale(b, k)), Scale(Product(a, b), k);
    forall i | 0 <= i < 16 ensures l[i] == r[i] {
      var row, col := i % 4, i / 4;
      var sb := Scale(b, k);
      assert Elem(sb, 0, col) == Elem(b, 0, col) * k && Elem(sb, 1, col) == Elem(b, 1, col) * k;
      assert Elem(sb, 2, col) == Elem(b, 2, col) * k && Elem(sb, 3, col) == Elem(b, 3, col) * k;
    }
  }

  /** What `inverse` computes is a right inverse whenever the determinant is not 0. */
  lemma InverseElementsIsInverse(e: seq<real>)
    requires |e| == 16 && Determinant(e) != 0.0
    ensures Product(e, InverseElements(e)) == IdentityElements()
  {
    var cof, d := Cofactors(e), Determinant(e);
    var k := 1.0 / d;
    ProductScale(e, cof, k);
    var p := Scale(Product(e, cof), k);
    forall r, c | 0 <= r < 4 && 0 <= c < 4 ensures Elem(p, r, c) == Elem(IdentityElements(), r, c) {
      InverseEntry(e, r, c);
    }
    Ext(p, IdentityElements());
  }

  /** Entry (r, c) of the adjugate product, scaled by 1 / determinant, is that of the identity. */
  lemma InverseEntry(e: seq<real>, r: int, c: int)
    requires |e| == 16 && Determinant(e) != 0.0 && 0 <= r < 4 && 0 <= c < 4
    ensures Elem(Scale(Product(e, Cofactors(e)), 1.0 / Determinant(e)), r, c) == if r == c then 1.0 else 0.0
  {
    var cof, d := Cofactors(e), Determinant(e);
    ProductElem(e, cof, r, c);
    AdjugateElem(e, r, c);
    ScaleByInverse(Product(e, cof), d, r, c);
  }

  /** An entry equal to d on the diagonal and 0 off it, scaled by 1 / d. */
  lemma ScaleByInverse(p: seq<real>, d: real, r: int, c: int)
    requires |p| == 16 && d != 0.0 && 0 <= r < 4 && 0 <= c < 4
    requires Elem(p, r, c) == if r == c then d else 0.0
    ensures Elem(Scale(p, 1.0 / d), r, c) == if r == c then 1.0 else 0.0
  {
    assert Elem(Scale(p, 1.0 / d), r, c) == Elem(p, r, c) * (1.0 / d);
  }

  /** A concrete matrix, 2 on the diagonal. */
  function TwiceIdentity(): (e: seq<real>)
    ensures |e| == 16
  {
    [2.0, 0.0, 0.0, 0.0,
     0.0, 2.0, 0.0, 0.0,
     0.0, 0.0, 2.0, 0.0,
     0.0, 0.0, 0.0, 2.0]
  }

  /**
   * The matrix 2I is invertible, yet it is not its own inverse: `inverse`, which
   * leaves such a matrix unchanged, does not invert it.
   */
  lemma InverseAsWrittenCounterexample()
    ensures Determinant(TwiceIdentity()) == 16.0
    ensures Product(TwiceIdentity(), TwiceIdentity()) != IdentityElements()
  {
    assert Product(TwiceIdentity(), TwiceIdentity())[0] == 4.0;
  }

  class Matrix4 {
    var elements: array<real>

    ghost predicate Valid()
      reads this
    {
      elements.Length == 16
    }

    /** `Matrix4::new`: the argument is read row-major and stored transposed. */
    constructor New(e: seq<real>)
      requires |e| == 16
      ensures Valid() && fresh(elements)
      ensures elements[..] == Transpose(e)
    {
      var t := Transpose(e);
      elements := new real[16](i => if 0 <= i < 16 then t[i] else 0.0);
    }

    /** `Matrix4::identity` */
    constructor Identity()
      ensures Valid() && fresh(elements)
      ensures elements[..] == IdentityElements()
    {
      var t := IdentityElements();
      elements := new real[16](i => if 0 <= i < 16 then t[i] else 0.0);
    }

    /** `Matrix4::from_array`: the argument is stored as it is. */
    constructor FromArray(e: seq<real>)
      requires |e| == 16
      ensures Valid() && fresh(elements)
      ensures elements[..] == e
    {
      elements := new real[16](i => if 0 <= i < 16 then e[i] else 0.0);
    }

    /** `set`: all 16 elements are replaced. */
    method Set(e: seq<real>)
      requires Valid() && |e| == 16
      modifies elements
      ensures elements[..] == e
    {
      forall i | 0 <= i < 16 {
        elements[i] := e[i];
      }
    }

    /**
     * `multiply`: this := this * other, the 16 entries that the source writes
     * one by one. Both operands are read in full before anything is written,
     * so `other` may share this matrix's storage.
     */
    method Multiply(other: Matrix4)
      requires Valid() && other.Valid()
      modifies elements
      ensures elements[..] == Product(old(elements[..]), old(other.elements[..]))
    {
      var a, b := elements[..], other.elements[..];

      forall i | 0 <= i < 16 {
        elements[i] := Entry(a, b, i % 4, i / 4);
      }
      assert elements[..] == Product(a, b);
    }

    /**
     * `inverse`, as written: a singular matrix becomes the identity; otherwise
     * the inverse is computed into the local copy `me` only, which is then
     * dropped, so the matrix is left as it was.
     */
    method Inverse()
      requires Valid()
      modifies elements
      ensures Determinant(old(elements[..])) == 0.0 ==> elements[..] == IdentityElements()
      ensures Determinant(old(elements[..])) != 0.0 ==> elements[..] == old(elements[..])
    {
      var me := elements[..];
      var det := Determinant(me);
      if det == 0.0 {
        Set(IdentityElements());
        return;
      }
      me := InverseElements(me);
    }

    /** `inverse` as evidently intended: the computed inverse is stored. */
    method InverseCorrected()
      requires Valid()
      modifies elements
      ensures Determinant(old(elements[..])) == 0.0 ==> elements[..] == IdentityElements()
      ensures Determinant(old(elements[..])) != 0.0 ==>
        Product(old(elements[..]), elements[..]) == IdentityElements()
    {
      var me := elements[..];
      var det := Determinant(me);
      if det == 0.0 {
        Set(IdentityElements());
        return;
      }
      InverseElementsIsInverse(me);
      Set(InverseElements(me));
    }

    /** `PartialEq::eq`: element by element, stopping at the first difference. */
    method Equals(other: Matrix4) returns (eq: bool)
      requires Valid() && other.Valid()
      ensures eq <==> elements[..] == other.elements[..]
    {
      for i := 0 to 16
        invariant forall k :: 0 <= k < i ==> elements[k] == other.elements[k]
      {
        if elements[i] != other.elements[i] {
          return false;
        }
      }
      assert elements[..] == other.elements[..];
      return true;
    }
  }
}
