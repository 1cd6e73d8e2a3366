/** `Color` and its arithmetic (src/model/materials/mod.rs). */
module Colors {
  import opened Primitives

  /**
   * A colour with real channels; the getters `r()`, `g()`, `b()` are the
   * fields.  Every binary operator is channel-wise.  The owned and borrowed
   * variants of an operator compute the same thing and are one member here.
   */
  datatype Color = Color(r: real, g: real, b: real) {

    /** `Color + Color` (owned or borrowed right-hand side). */
    function Add(o: Color): (c: Color)
      ensures c.r == r + o.r && c.g == g + o.g && c.b == b + o.b
      ensures c.Sub(o) == this
    {
      Color(r + o.r, g + o.g, b + o.b)
    }

    /** Channel-wise difference, the inverse of `Add` used to state it. */
    function Sub(o: Color): Color { Color(r - o.r, g - o.g, b - o.b) }

    /** `Color * Color`. */
    function Mul(o: Color): (c: Color)
      ensures c.r == r * o.r && c.g == g * o.g && c.b == b * o.b
      ensures o == Color(1.0, 1.0, 1.0) ==> c == this
      ensures o == Black ==> c == Black
    {
      Color(r * o.r, g * o.g, b * o.b)
    }

    /** `&Color * f64`. */
    function Scale(k: real): (c: Color)
      ensures c.r == r * k && c.g == g * k && c.b == b * k
      ensures k == 1.0 ==> c == this
      ensures k == 0.0 ==> c == Black
    {
      Color(r * k, g * k, b * k)
    }

    /** `Color / Color`; IEEE division by zero is not modelled. */
    function Div(o: Color): (c: Color)
      requires o.r != 0.0 && o.g != 0.0 && o.b != 0.0
      ensures c.Mul(o) == this
    {
      Color(r / o.r, g / o.g, b / o.b)
    }

    /** `Color / f64`. */
    function DivScalar(k: real): (c: Color)
      requires k != 0.0
      ensures c.Scale(k) == this
    {
      Color(r / k, g / k, b / k)
    }

    /** `f64::clamp` on each channel, which panics unless `min <= max`. */
    function Clamp(min: real, max: real): (c: Color)
      requires min <= max
      ensures min <= c.r <= max && min <= c.g <= max && min <= c.b <= max
      ensures min <= r <= max ==> c.r == r
      ensures min <= g <= max ==> c.g == g
      ensures min <= b <= max ==> c.b == b
      ensures r < min ==> c.r == min
      ensures max < r ==> c.r == max
      ensures g < min ==> c.g == min
      ensures max < g ==> c.g == max
      ensures b < min ==> c.b == min
      ensures max < b ==> c.b == max
    {
      Color(ClampReal(r, min, max), ClampReal(g, min, max), ClampReal(b, min, max))
    }

    /** The sum of the three channels. */
    function AsWeight(): (w: real)
      ensures w == r + g + b
      ensures 0.0 <= r && 0.0 <= g && 0.0 <= b ==> 0.0 <= w
    {
      r + b + g
    }

    /** Channels scaled to 0..255 with a saturating `as u8`, alpha 255. */
    function ToRgba(): (px: Rgba)
      ensures px.a == 255
      ensures px.r == AsU8(r * 255.0) && px.g == AsU8(g * 255.0) && px.b == AsU8(b * 255.0)
      ensures 0.0 <= r <= 1.0 ==> px.r == (r * 255.0).Floor
    {
      Rgba(AsU8(r * 255.0), AsU8(g * 255.0), AsU8(b * 255.0), 255)
    }
  }

  function ClampReal(x: real, min: real, max: real): real
    requires min <= max
  {
    if x < min then min else if x > max then max else x
  }

  /** `Color::new(r, g, b)`. */
  function New(r: real, g: real, b: real): (c: Color)
    ensures c.r == r && c.g == g && c.b == b
  {
    Color(r, g, b)
  }

  const Black: Color := Color(0.0, 0.0, 0.0)

  /** `f64 * Color`: the scalar multiplies from the left. */
  function ScaleLeft(k: real, c: Color): (s: Color)
    ensures s.r == k * c.r && s.g == k * c.g && s.b == k * c.b
  {
    Color(c.r * k, c.g * k, c.b * k)
  }

  /** `f64 / Color`: each channel of the colour divided by the scalar. */
  function ScalarDiv(k: real, c: Color): (q: Color)
    requires k != 0.0
    ensures q.Scale(k) == c
  {
    Color(c.r / k, c.g / k, c.b / k)
  }

  /** `Color::from_rgba`: each byte over 255; alpha is dropped. */
  function FromRgba(px: Rgba): (c: Color)
    ensures 0.0 <= c.r <= 1.0 && 0.0 <= c.g <= 1.0 && 0.0 <= c.b <= 1.0
    ensures c.r * 255.0 == px.r as real && c.g * 255.0 == px.g as real && c.b * 255.0 == px.b as real
  {
    Color(px.r as real / 255.0, px.g as real / 255.0, px.b as real / 255.0)
  }

  /** `AddAssign`: the channels of `c` are increased in place by those of `rhs`. */
  method AddAssign(c: Color, rhs: Color) returns (after: Color)
    ensures after == c.Add(rhs)
  {
    after := c;
    after := after.(r := after.r + rhs.r);
    after := after.(g := after.g + rhs.g);
    after := after.(b := after.b + rhs.b);
  }

  /** Addition and channel-wise multiplication commute. */
  lemma AddMulCommute(c: Color, d: Color)
    ensures c.Add(d) == d.Add(c) && c.Mul(d) == d.Mul(c)
  {
  }

  /** Scaling on the left and on the right agree, and scaling is multiplying by a grey. */
  lemma ScaleSidesAgree(k: real, c: Color)
    ensures ScaleLeft(k, c) == c.Scale(k)
    ensures c.Scale(k) == c.Mul(Color(k, k, k))
  {
  }

  /** `f64 / Color` is the same as `Color / f64`: it is not the scalar over each channel. */
  lemma ScalarDivIsDivScalar(k: real, c: Color)
    requires k != 0.0
    ensures ScalarDiv(k, c) == c.DivScalar(k)
    ensures ScalarDiv(k, c) == c.Scale(1.0 / k)
  {
  }

  /** Clamping twice is clamping once. */
  lemma ClampIdempotent(c: Color, min: real, max: real)
    requires min <= max
    ensures c.Clamp(min, max).Clamp(min, max) == c.Clamp(min, max)
  {
  }

  /** The weight is linear. */
  lemma AsWeightLinear(c: Color, d: Color, k: real)
    ensures c.Add(d).AsWeight() == c.AsWeight() + d.AsWeight()
    ensures c.Scale(k).AsWeight() == k * c.AsWeight()
  {
  }

  /** Bytes survive the trip through a colour: `to_rgba(from_rgba(px))` restores the channels and sets alpha to 255. */
  lemma {:induction false} RgbaRoundTrip(px: Rgba)
    ensures FromRgba(px).ToRgba() == Rgba(px.r, px.g, px.b, 255)
  {
    var c := FromRgba(px);
    TruncOfWhole(px.r);
    TruncOfWhole(px.g);
    TruncOfWhole(px.b);
  }

  lemma TruncOfWhole(n: Byte)
    ensures AsU8(n as real) == n
  {
    assert Trunc(n as real) == n;
  }

  /** A colour in [0, 1] comes back from a byte trip less than 1/255 below itself on each channel. */
  lemma {:induction false} ColorRoundTripError(c: Color)
    requires 0.0 <= c.r <= 1.0 && 0.0 <= c.g <= 1.0 && 0.0 <= c.b <= 1.0
    ensures var d := FromRgba(c.ToRgba());
      c.r - 1.0 / 255.0 < d.r <= c.r && c.g - 1.0 / 255.0 < d.g <= c.g && c.b - 1.0 / 255.0 < d.b <= c.b
  {
    ByteTripError(c.r);
    ByteTripError(c.g);
    ByteTripError(c.b);
  }

  lemma ByteTripError(x: real)
    requires 0.0 <= x <= 1.0
    ensures x - 1.0 / 255.0 < AsU8(x * 255.0) as real / 255.0 <= x
  {
    var n := AsU8(x * 255.0);
    assert n as real <= x * 255.0 < n as real + 1.0;
  }
}
