/** The implicit surface shape `Any` (src/model/shapes/any.rs). */
module AnyShapes {
  import opened Wrappers
  import opened Primitives
  import opened Surfaces

  /** Step of the central differences in `gradient`. */
  const DELTA: real := 0.000001
  /** Texture period of the projection. */
  const SCALE: real := 4.0
  /** Starting guess handed to the root finder. */
  const GUESS: real := 0.5
  /** What the equation counts as when the evaluator fails at a point. */
  const EVAL_FAILED: real := -1.0

  /**
   * The foreign numerics `Any` relies on, which are not part of this model:
   * the `meval` evaluator of the equation with `x`, `y`, `z` bound to a
   * point (`None` when evaluation fails), and the `FDNewton` root finder
   * started from a guess (`None` when it does not converge).
   */
  datatype Solvers = Solvers(
    eval: (string, Vec3) -> Option<real>,
    solve: (real -> real, real) -> Option<real>)

  /** `unwrap_or(-1.0)` on an evaluation. */
  function EvalOr(v: Option<real>): real {
    if v.Some? then v.value else EVAL_FAILED
  }

  /** The equation along the ray, as a function of the distance. */
  function AlongRay(equation: string, r: Ray, sv: Solvers): real -> real {
    t => EvalOr(sv.eval(equation, r.At(t)))
  }

  /** The equation as a function of the three coordinates. */
  function AtPoint(equation: string, sv: Solvers): (real, real, real) -> real {
    (x, y, z) => EvalOr(sv.eval(equation, Vec3(x, y, z)))
  }

  /** Where the evaluator fails, both views of the equation read -1. */
  lemma FailedEvaluationReadsMinusOne(equation: string, sv: Solvers, r: Ray, t: real)
    requires sv.eval(equation, r.At(t)).None?
    ensures AlongRay(equation, r, sv)(t) == -1.0
    ensures var p := r.At(t); AtPoint(equation, sv)(p.x, p.y, p.z) == -1.0
  {
    var p := r.At(t);
    assert Vec3(p.x, p.y, p.z) == p;
  }

  /** `Any::gradient`: central differences of step `DELTA` along each axis. */
  function Gradient(f: (real, real, real) -> real, hit: Vec3): Vec3 {
    Vec3((f(hit.x + DELTA, hit.y, hit.z) - f(hit.x - DELTA, hit.y, hit.z)) / (2.0 * DELTA),
         (f(hit.x, hit.y + DELTA, hit.z) - f(hit.x, hit.y - DELTA, hit.z)) / (2.0 * DELTA),
         (f(hit.x, hit.y, hit.z + DELTA) - f(hit.x, hit.y, hit.z - DELTA)) / (2.0 * DELTA))
  }

  /** One axis of a central difference of `a*s^2 + b*s` around `s`. */
  lemma CentralDifferenceOfQuadratic(a: real, b: real, s: real, rest: real)
    ensures ((a * ((s + DELTA) * (s + DELTA)) + b * (s + DELTA) + rest)
           - (a * ((s - DELTA) * (s - DELTA)) + b * (s - DELTA) + rest)) / (2.0 * DELTA)
         == 2.0 * a * s + b
  {
    var hi := a * ((s + DELTA) * (s + DELTA)) + b * (s + DELTA) + rest;
    var lo := a * ((s - DELTA) * (s - DELTA)) + b * (s - DELTA) + rest;
    assert (s + DELTA) * (s + DELTA) - (s - DELTA) * (s - DELTA) == 4.0 * s * DELTA;
    assert hi - lo == a * (4.0 * s * DELTA) + b * (2.0 * DELTA);
    assert hi - lo == (2.0 * a * s + b) * (2.0 * DELTA);
  }

  /**
   * The gradient is exact for a quadric `a*|p|^2 + b.p + k`: it is
   * `2*a*p + b`.  With `a = 0` this covers every affine equation, with
   * `a = 1, b = 0` the sphere `x^2 + y^2 + z^2 - r^2`, whose normal then
   * points along the position.
   */
  lemma {:induction false} GradientOfQuadric(f: (real, real, real) -> real, a: real, b: Vec3, k: real, p: Vec3)
    requires forall x: real, y: real, z: real {:trigger f(x, y, z)} ::
      f(x, y, z) == a * (x * x + y * y + z * z) + (b.x * x + b.y * y + b.z * z) + k
    ensures Gradient(f, p) == p.Scale(2.0 * a).Add(b)
  {
    var d := DELTA;
    var ry := a * (p.y * p.y + p.z * p.z) + b.y * p.y + b.z * p.z + k;
    assert f(p.x + d, p.y, p.z) == a * ((p.x + d) * (p.x + d)) + b.x * (p.x + d) + ry;
    assert f(p.x - d, p.y, p.z) == a * ((p.x - d) * (p.x - d)) + b.x * (p.x - d) + ry;
    CentralDifferenceOfQuadratic(a, b.x, p.x, ry);
    var rx := a * (p.x * p.x + p.z * p.z) + b.x * p.x + b.z * p.z + k;
    assert f(p.x, p.y + d, p.z) == a * ((p.y + d) * (p.y + d)) + b.y * (p.y + d) + rx;
    assert f(p.x, p.y - d, p.z) == a * ((p.y - d) * (p.y - d)) + b.y * (p.y - d) + rx;
    CentralDifferenceOfQuadratic(a, b.y, p.y, rx);
    var rz := a * (p.x * p.x + p.y * p.y) + b.x * p.x + b.y * p.y + k;
    assert f(p.x, p.y, p.z + d) == a * ((p.z + d) * (p.z + d)) + b.z * (p.z + d) + rz;
    assert f(p.x, p.y, p.z - d) == a * ((p.z - d) * (p.z - d)) + b.z * (p.z - d) + rz;
    CentralDifferenceOfQuadratic(a, b.z, p.z, rz);
    assert 2.0 * a * p.x + b.x == p.x * (2.0 * a) + b.x;
    assert 2.0 * a * p.y + b.y == p.y * (2.0 * a) + b.y;
    assert 2.0 * a * p.z + b.z == p.z * (2.0 * a) + b.z;
  }

  /** The axis the projection crosses the normal with: z for an upward normal, y otherwise. */
  function ConstantAxis(n: Vec3): (axis: Vec3)
    ensures axis == Vec3(0.0, 0.0, 1.0) <==> n == Vec3(0.0, 1.0, 0.0)
    ensures axis == Vec3(0.0, 0.0, 1.0) || axis == Vec3(0.0, 1.0, 0.0)
  {
    if n == Vec3(0.0, 1.0, 0.0) then Vec3(0.0, 0.0, 1.0) else Vec3(0.0, 1.0, 0.0)
  }

  /** `c - (c as i32) as f64`, plus one when that is negative. */
  function Wrap(c: real): real {
    var u := c - AsI32(c) as real;
    if u < 0.0 then u + 1.0 else u
  }

  /** A texture coordinate whose truncation fits in an `i32`. */
  predicate InI32Range(c: real) {
    I32_MIN as real <= c < I32_MAX as real + 1.0
  }

  /** Within the `i32` range the wrap is the fractional part: in `[0, 1)` and `c` minus its floor. */
  lemma WrapIsFraction(c: real)
    requires InI32Range(c)
    ensures 0.0 <= Wrap(c) < 1.0
    ensures Wrap(c) == c - c.Floor as real
  {
    var t := Trunc(c);
    assert I32_MIN <= t <= I32_MAX;
    assert AsI32(c) == t;
    if c < 0.0 && t as real != c {
      assert c.Floor == t - 1;
    }
  }

  class Any {
    var equation: string
    var pos: Vec3

    /** `Any::new`: the given equation, positioned at the origin. */
    constructor (equation: string)
      ensures this.equation == equation && pos == Origin
    {
      this.equation := equation;
      pos := Origin;
    }

    function Equation(): string reads this { equation }
    function Pos(): Vec3 reads this { pos }

    method SetEquation(equation: string)
      modifies this
      ensures this.equation == equation && pos == old(pos)
    {
      this.equation := equation;
    }

    /** A fresh `Any` with the same equation and position. */
    method Clone() returns (c: Any)
      ensures fresh(c) && c.equation == equation && c.pos == pos
    {
      c := new Any(equation);
      c.pos := pos;
    }

    /**
     * The root finder is run once on the equation along the ray; its root
     * is kept only when it lies in front of the ray.  The result is `None`
     * or exactly that one positive distance.
     */
    method Intersect(r: Ray, sv: Solvers) returns (res: Option<seq<real>>)
      ensures var root := sv.solve(AlongRay(equation, r, sv), GUESS);
        res.Some? <==> root.Some? && root.value > 0.0
      ensures var root := sv.solve(AlongRay(equation, r, sv), GUESS);
        res.Some? ==> res.value == [root.value]
      ensures res.Some? ==> |res.value| == 1 && res.value[0] > 0.0
    {
      var f := AlongRay(equation, r, sv);
      var tArray: seq<real> := [];
      var solution := sv.solve(f, GUESS);
      match solution {
        case Some(t) =>
          if t > 0.0 {
            tArray := tArray + [t];
          }
        case None =>
      }
      // `sort_by` leaves a list of at most one entry as it is.
      if |tArray| > 0 {
        res := Some(tArray);
      } else {
        res := None;
      }
    }

    /** `Any::norm`: the normalised gradient of the equation at the hit. */
    function Norm(hit: Vec3, rayDir: Vec3, sv: Solvers, num: Numerics): (n: Vec3)
      reads this
      ensures n == num.normalize(Gradient(AtPoint(equation, sv), hit))
    {
      num.normalize(Gradient(AtPoint(equation, sv), hit))
    }

    /**
     * `Any::projection`: a frame from the normal and the constant axis,
     * and texture coordinates from the offset to `pos`, scaled by 1/4 and
     * wrapped.
     */
    method Project(hit: Hit, default: Projection, num: Numerics) returns (p: Projection)
      ensures p.k == hit.norm
      ensures p.i == num.normalize(num.cross(hit.norm, ConstantAxis(hit.norm)))
      ensures p.j == num.normalize(num.cross(hit.norm, p.i))
      ensures p.u == Wrap(hit.pos.Sub(pos).Dot(p.i) / SCALE)
      ensures p.v == Wrap(hit.pos.Sub(pos).Dot(p.j) / SCALE)
      ensures InI32Range(hit.pos.Sub(pos).Dot(p.i) / SCALE) ==> 0.0 <= p.u < 1.0
      ensures InI32Range(hit.pos.Sub(pos).Dot(p.j) / SCALE) ==> 0.0 <= p.v < 1.0
    {
      p := default;
      var constantAxis: Vec3;
      if hit.norm == Vec3(0.0, 1.0, 0.0) {
        constantAxis := Vec3(0.0, 0.0, 1.0);
      } else {
        constantAxis := Vec3(0.0, 1.0, 0.0);
      }
      p := p.(i := num.normalize(num.cross(hit.norm, constantAxis)));
      p := p.(j := num.normalize(num.cross(hit.norm, p.i)));
      p := p.(k := hit.norm);
      var dist := hit.pos.Sub(pos);
      var iComponent := dist.Dot(p.i) / SCALE;
      var jComponent := dist.Dot(p.j) / SCALE;
      p := p.(u := iComponent - AsI32(iComponent) as real);
      if p.u < 0.0 {
        p := p.(u := p.u + 1.0);
      }
      p := p.(v := jComponent - AsI32(jComponent) as real);
      if p.v < 0.0 {
        p := p.(v := p.v + 1.0);
      }
      if InI32Range(iComponent) {
        WrapIsFraction(iComponent);
      }
      if InI32Range(jComponent) {
        WrapIsFraction(jComponent);
      }
    }
  }

  /**
   * When the equation evaluates everywhere to the quadric
   * `a*|q|^2 + b.q + k`, the normal at a hit is the normalised
   * `2*a*hit + b`.
   */
  lemma NormOfQuadric(s: Any, hit: Vec3, rayDir: Vec3, sv: Solvers, num: Numerics, a: real, b: Vec3, k: real)
    requires forall q: Vec3 {:trigger sv.eval(s.equation, q)} :: sv.eval(s.equation, q) == Some(a * q.Dot(q) + b.Dot(q) + k)
    ensures s.Norm(hit, rayDir, sv, num) == num.normalize(hit.Scale(2.0 * a).Add(b))
  {
    var f := AtPoint(s.equation, sv);
    forall x: real, y: real, z: real
      ensures f(x, y, z) == a * (x * x + y * y + z * z) + (b.x * x + b.y * y + b.z * z) + k
    {
      assert sv.eval(s.equation, Vec3(x, y, z)) == Some(a * Vec3(x, y, z).Dot(Vec3(x, y, z)) + b.Dot(Vec3(x, y, z)) + k);
    }
    GradientOfQuadric(f, a, b, k, hit);
  }
}
