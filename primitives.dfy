/**
 * Numbers, vectors, rays and pixels used by the ray tracer.
 *
 * Floating point is modelled by `real`.  Where the code casts a float to an
 * integer (`as u8`, `as i32`, `as u32`, `as usize`) the cast is written out:
 * Rust truncates toward zero and saturates at the bounds of the target type.
 */
module Primitives {

  const U32_LIMIT: int := 0x1_0000_0000
  const I32_MIN: int := -0x8000_0000
  const I32_MAX: int := 0x7fff_ffff

  type U32 = x: int | 0 <= x < U32_LIMIT
  type Byte = x: int | 0 <= x < 256

  /** Truncation of a real toward zero. */
  function Trunc(x: real): (t: int)
    ensures 0.0 <= x ==> t as real <= x < t as real + 1.0
    ensures x < 0.0 ==> t as real - 1.0 < x <= t as real
  {
    if x >= 0.0 then x.Floor else -((-x).Floor)
  }

  /** Rust's float-to-integer `as` cast into the range `lo..=hi`. */
  function SatCast(x: real, lo: int, hi: int): (r: int)
    requires lo <= 0 <= hi
    ensures lo <= r <= hi
    ensures lo <= Trunc(x) <= hi ==> r == Trunc(x)
    ensures Trunc(x) < lo ==> r == lo
    ensures hi < Trunc(x) ==> r == hi
  {
    var t := Trunc(x);
    if t < lo then lo else if t > hi then hi else t
  }

  /** `x as u8` */
  function AsU8(x: real): Byte { SatCast(x, 0, 255) }

  /** `x as u32` */
  function AsU32(x: real): U32 { SatCast(x, 0, U32_LIMIT - 1) }

  /** `x as i32` */
  function AsI32(x: real): int { SatCast(x, I32_MIN, I32_MAX) }

  /** `x as usize` on a 64-bit target. */
  function AsUsize(x: real): nat { SatCast(x, 0, 0x1_0000_0000_0000_0000 - 1) }

  /** A three-component real vector (`Vec3`). */
  datatype Vec3 = Vec3(x: real, y: real, z: real) {
    function Add(o: Vec3): Vec3 { Vec3(x + o.x, y + o.y, z + o.z) }
    function Sub(o: Vec3): Vec3 { Vec3(x - o.x, y - o.y, z - o.z) }
    function Scale(k: real): Vec3 { Vec3(x * k, y * k, z * k) }
    function Dot(o: Vec3): real { x * o.x + y * o.y + z * o.z }
    function Div(k: real): Vec3 requires k != 0.0 { Vec3(x / k, y / k, z / k) }
  }

  /** `Vec3::from_value(v)`: the same value in every component. */
  function FromValue(v: real): Vec3 { Vec3(v, v, v) }

  const Origin: Vec3 := Vec3(0.0, 0.0, 0.0)

  /** A two-component real vector (`Vec2`). */
  datatype Vec2 = Vec2(x: real, y: real)

  /** A ray: origin, direction and remaining bounce depth. */
  datatype Ray = Ray(pos: Vec3, dir: Vec3, depth: nat) {
    /** The point `pos + t * dir`. */
    function At(t: real): Vec3 { pos.Add(dir.Scale(t)) }
  }

  /** An RGBA pixel with byte channels (`image::Rgba<u8>`). */
  datatype Rgba = Rgba(r: Byte, g: Byte, b: Byte, a: Byte)

  type NonNegReal = x: real | 0.0 <= x

  /**
   * The vector maths the code calls but that is not part of this model:
   * `f64::sqrt`, `Vec3::normalize` and `Vec3::cross`.  Only `sqrt` is
   * constrained: it is never negative, and `SqrtAt(x)` states that it
   * is the exact root of `x`.
   */
  datatype Numerics = Numerics(
    sqrt: real -> NonNegReal,
    normalize: Vec3 -> Vec3,
    cross: (Vec3, Vec3) -> Vec3)
  {
    ghost predicate SqrtAt(x: real) {
      0.0 <= x ==> sqrt(x) * sqrt(x) == x
    }
  }

  /** Under the square-root law, the root of a perfect square is its base. */
  lemma SqrtOfSquare(num: Numerics, a: real)
    requires 0.0 <= a
    requires num.SqrtAt(a * a)
    ensures num.sqrt(a * a) == a
  {
    var s := num.sqrt(a * a);
    assert s * s == a * a;
    if s != a {
      var lo, hi := if s < a then s else a, if s < a then a else s;
      SquareStrictlyMonotone(lo, hi);
    }
  }

  lemma SquareStrictlyMonotone(p: real, q: real)
    requires 0.0 <= p < q
    ensures p * p < q * q
  {
    calc {
      p * p;
    <= p * q;
    <  { assert (q - p) * q > 0.0; } q * q;
    }
  }
}

/** What a shape hands back to the shading code about a hit point. */
module Surfaces {
  import opened Primitives

  /** The hit position and the surface normal there (`hit.pos()`, `hit.norm()`). */
  datatype Hit = Hit(pos: Vec3, norm: Vec3)

  /**
   * A texture projection: the local frame `i`, `j`, `k` and the texture
   * coordinates `u`, `v`.  `Projection::default` is not part of this model
   * and enters as a parameter wherever the code starts from it.
   */
  datatype Projection = Projection(i: Vec3, j: Vec3, k: Vec3, u: real, v: real)
}
