/**
 * RGB colours with real channels (src/math/color.rs). The operators `/`, `*`
 * (by a colour and by a scalar) are values; `+=` updates a colour in place and
 * is modelled by the class `MutableColor`.
 */
module Colors {
  import opened Numbers

  datatype Color = Color(r: real, g: real, b: real) {

    /** `color / val` */
    function Div(val: real): (c: Color)
      requires val != 0.0
      ensures c.Scale(val) == this
    {
      Color(r / val, g / val, b / val)
    }

    /** `color * other`: channel-wise product, the way light filters through a surface. */
    function Mul(other: Color): Color {
      Color(r * other.r, g * other.g, b * other.b)
    }

    /** `color * val` */
    function Scale(val: real): Color {
      Color(r * val, g * val, b * val)
    }

    /** The value that `color += other` leaves in `color`. */
    function Add(other: Color): Color {
      Color(r + other.r, g + other.g, b + other.b)
    }

    /** Every channel lies in [0, 1]. */
    predicate InUnitRange() {
      0.0 <= r <= 1.0 && 0.0 <= g <= 1.0 && 0.0 <= b <= 1.0
    }
  }

  const Black := Color(0.0, 0.0, 0.0)
  const White := Color(1.0, 1.0, 1.0)

  /**
   * One channel of `Color::new` as written: `(c / 255) as f32` divides the
   * byte by 255 in integer arithmetic first, so only 255 gives a non-zero channel.
   */
  function ChannelAsWritten(c: u8): (v: real)
    ensures v == if c == 255 then 1.0 else 0.0
  {
    ((c as int) / 255) as real
  }

  /** `Color::new` as written. */
  function NewAsWritten(r: u8, g: u8, b: u8): Color {
    Color(ChannelAsWritten(r), ChannelAsWritten(g), ChannelAsWritten(b))
  }

  /** One channel of `Color::new` as evidently intended: the byte scaled to [0, 1]. */
  function Channel(c: u8): (v: real)
    ensures 0.0 <= v <= 1.0
    ensures v * 255.0 == c as real
  {
    (c as real) / 255.0
  }

  /** `Color::new` as evidently intended. */
  function New(r: u8, g: u8, b: u8): (c: Color)
    ensures c.InUnitRange()
  {
    Color(Channel(r), Channel(g), Channel(b))
  }

  /** As written, a mid grey byte triple becomes black. */
  lemma NewAsWrittenCounterexample()
    ensures NewAsWritten(128, 128, 128) == Black
    ensures New(128, 128, 128) != Black
  {
    assert Channel(128) * 255.0 == 128.0;
  }

  /** The intended constructor is one-to-one and maps the extreme bytes to black and white. */
  lemma NewInjective(r1: u8, g1: u8, b1: u8, r2: u8, g2: u8, b2: u8)
    ensures New(r1, g1, b1) == New(r2, g2, b2) <==> r1 == r2 && g1 == g2 && b1 == b2
  {
    if New(r1, g1, b1) == New(r2, g2, b2) {
      assert Channel(r1) * 255.0 == Channel(r2) * 255.0;
      assert Channel(g1) * 255.0 == Channel(g2) * 255.0;
      assert Channel(b1) * 255.0 == Channel(b2) * 255.0;
    }
  }

  lemma NewExtremes()
    ensures New(0, 0, 0) == Black && New(255, 255, 255) == White
    ensures NewAsWritten(0, 0, 0) == Black && NewAsWritten(255, 255, 255) == White
  {
  }

  lemma MulCommutative(a: Color, b: Color)
    ensures a.Mul(b) == b.Mul(a)
  {
  }

  /** White filters nothing out, black everything. */
  lemma MulWhiteBlack(a: Color)
    ensures a.Mul(White) == a && a.Mul(Black) == Black
  {
  }

  lemma ScaleOne(a: Color)
    ensures a.Scale(1.0) == a
  {
  }

  /** Scaling and dividing by the same non-zero value undo each other. */
  lemma DivScaleRoundTrip(a: Color, val: real)
    requires val != 0.0
    ensures a.Div(val).Scale(val) == a
    ensures a.Scale(val).Div(val) == a
  {
    var c := a.Scale(val).Div(val);
    assert c.r == a.r * val / val;
  }

  lemma MulDistributesOverAdd(a: Color, b: Color, c: Color)
    ensures a.Mul(b.Add(c)) == a.Mul(b).Add(a.Mul(c))
  {
  }

  lemma ScaleDistributesOverAdd(a: Color, b: Color, val: real)
    ensures a.Add(b).Scale(val) == a.Scale(val).Add(b.Scale(val))
  {
  }

  lemma AddCommutativeAssociative(a: Color, b: Color, c: Color)
    ensures a.Add(b) == b.Add(a)
    ensures a.Add(b).Add(c) == a.Add(b.Add(c))
  {
  }

  /** The product of two colours in [0, 1] is again in [0, 1]. */
  lemma MulInUnitRange(a: Color, b: Color)
    requires a.InUnitRange() && b.InUnitRange()
    ensures a.Mul(b).InUnitRange()
  {
    FractionProduct(a.r, b.r);
    FractionProduct(a.g, b.g);
    FractionProduct(a.b, b.b);
    assert a.Mul(b) == Color(Times(a.r, b.r), Times(a.g, b.g), Times(a.b, b.b));
  }

  lemma FractionProduct(x: real, y: real)
    requires 0.0 <= x <= 1.0 && 0.0 <= y <= 1.0
    ensures 0.0 <= Times(x, y) <= 1.0
  {
    if 0.0 < x && 0.0 < y {
      TimesPositive(x, y);
      if x < 1.0 {
        TimesPositive(1.0 - x, y);
        assert Times(x, y) == y - Times(1.0 - x, y);
      }
    }
  }

  /** A `Color` that `+=` updates in place. */
  class MutableColor {
    var r: real
    var g: real
    var b: real

    /** The colour currently held. */
    function Value(): Color
      reads this
    {
      Color(r, g, b)
    }

    constructor (c: Color)
      ensures Value() == c
    {
      r, g, b := c.r, c.g, c.b;
    }

    /** `AddAssign::add_assign` */
    method AddAssign(other: Color)
      modifies this
      ensures Value() == old(Value()).Add(other)
    {
      r, g, b := r + other.r, g + other.g, b + other.b;
    }
  }
}
