/** The rectangle shape (src/model/shapes/rectangle.rs). */
module Rectangles {
  import opened Wrappers
  import opened Primitives
  import opened Surfaces

  /** The backing plane: a point on it and its normal (`plane.dir()`). */
  datatype Plane = Plane(pos: Vec3, dir: Vec3)

  /**
   * The plane and triangle code the rectangle calls, which is not part of
   * this model: `Plane::intersect`, `Plane::norm` and
   * `Triangle::inside_triangle(p, a, b, c, normal)`.
   */
  datatype PlaneOps = PlaneOps(
    intersect: (Plane, Ray) -> Option<seq<real>>,
    norm: (Plane, Vec3, Vec3) -> Vec3,
    insideTriangle: (Vec3, Vec3, Vec3, Vec3, Vec3) -> bool)

  /** The four corners `(a, b, c, d)` and half-extents built by `Rectangle::new`. */
  datatype Corners = Corners(a: Vec3, b: Vec3, c: Vec3, d: Vec3)

  /** Half the length along `dir_l` and half the width along `dir_w`, both normalised. */
  function LGap(length: real, dirL: Vec3, num: Numerics): Vec3 { num.normalize(dirL).Scale(length).Div(2.0) }
  function WGap(width: real, dirW: Vec3, num: Numerics): Vec3 { num.normalize(dirW).Scale(width).Div(2.0) }

  function CornersOf(pos: Vec3, length: real, width: real, dirL: Vec3, dirW: Vec3, num: Numerics): Corners {
    var l, w := LGap(length, dirL, num), WGap(width, dirW, num);
    Corners(pos.Add(l).Add(w), pos.Sub(l).Add(w), pos.Add(l).Sub(w), pos.Sub(l).Sub(w))
  }

  /**
   * The corners are centred on `pos`: the diagonals `a`–`d` and `b`–`c`
   * both have `pos` as their midpoint, and `a`, `b` differ by a full
   * length while `a`, `c` differ by a full width.
   */
  lemma CornersCentred(pos: Vec3, length: real, width: real, dirL: Vec3, dirW: Vec3, num: Numerics)
    ensures var k := CornersOf(pos, length, width, dirL, dirW, num);
      k.a.Add(k.d) == pos.Scale(2.0) && k.b.Add(k.c) == pos.Scale(2.0)
    ensures var k := CornersOf(pos, length, width, dirL, dirW, num);
      k.a.Sub(k.b) == num.normalize(dirL).Scale(length)
      && k.a.Sub(k.c) == num.normalize(dirW).Scale(width)
  {
  }

  class Rectangle {
    var pos: Vec3
    var length: real
    var width: real
    var dirL: Vec3
    var dirW: Vec3
    var a: Vec3
    var b: Vec3
    var c: Vec3
    var d: Vec3
    var plane: Plane

    /** `Rectangle::new`: corners from the half-extents, plane through `a` with normal `normalize(dir_l x dir_w)`. */
    constructor (pos: Vec3, length: real, width: real, dirL: Vec3, dirW: Vec3, num: Numerics)
      ensures this.pos == pos && this.length == length && this.width == width
      ensures this.dirL == dirL && this.dirW == dirW
      ensures Corners(a, b, c, d) == CornersOf(pos, length, width, dirL, dirW, num)
      ensures plane == Plane(a, num.normalize(num.cross(dirL, dirW)))
    {
      var k := CornersOf(pos, length, width, dirL, dirW, num);
      this.pos := pos;
      this.length := length;
      this.width := width;
      this.dirL := dirL;
      this.dirW := dirW;
      a, b, c, d := k.a, k.b, k.c, k.d;
      plane := Plane(k.a, num.normalize(num.cross(dirL, dirW)));
    }

    function Pos(): Vec3 reads this { pos }
    function Length(): real reads this { length }
    function Width(): real reads this { width }
    function DirL(): Vec3 reads this { dirL }
    function DirW(): Vec3 reads this { dirW }

    /** The corners and the plane, which no setter recomputes. */
    function Derived(): (Corners, Plane) reads this { (Corners(a, b, c, d), plane) }

    method SetPos(pos: Vec3)
      modifies this
      ensures this.pos == pos && Derived() == old(Derived())
      ensures length == old(length) && width == old(width) && dirL == old(dirL) && dirW == old(dirW)
    {
      this.pos := pos;
    }

    method SetLength(length: real)
      modifies this
      ensures this.length == length && Derived() == old(Derived())
      ensures pos == old(pos) && width == old(width) && dirL == old(dirL) && dirW == old(dirW)
    {
      this.length := length;
    }

    method SetWidth(width: real)
      modifies this
      ensures this.width == width && Derived() == old(Derived())
      ensures pos == old(pos) && length == old(length) && dirL == old(dirL) && dirW == old(dirW)
    {
      this.width := width;
    }

    method SetDirL(dirL: Vec3)
      modifies this
      ensures this.dirL == dirL && Derived() == old(Derived())
      ensures pos == old(pos) && length == old(length) && width == old(width) && dirW == old(dirW)
    {
      this.dirL := dirL;
    }

    method SetDirW(dirW: Vec3)
      modifies this
      ensures this.dirW == dirW && Derived() == old(Derived())
      ensures pos == old(pos) && length == old(length) && width == old(width) && dirL == old(dirL)
    {
      this.dirW := dirW;
    }

    /** The hit point is inside triangle (d, b, c) or triangle (a, b, c). */
    predicate Covers(p: Vec3, ops: PlaneOps) reads this {
      ops.insideTriangle(p, d, b, c, plane.dir) || ops.insideTriangle(p, a, b, c, plane.dir)
    }

    /**
     * The plane's first distance when the plane is hit at a point that one
     * of the two triangles covers; otherwise nothing.  Indexing the plane's
     * list panics when it is empty, hence the precondition.
     */
    function Intersect(r: Ray, ops: PlaneOps): (res: Option<seq<real>>)
      reads this
      requires ops.intersect(plane, r).Some? ==> |ops.intersect(plane, r).value| > 0
      ensures ops.intersect(plane, r).None? ==> res.None?
      ensures res.Some? <==>
        ops.intersect(plane, r).Some? && Covers(r.At(ops.intersect(plane, r).value[0]), ops)
      ensures res.Some? ==> res.value == [ops.intersect(plane, r).value[0]]
    {
      match ops.intersect(plane, r)
      case None => None
      case Some(ts) =>
        var t := ts[0];
        if Covers(r.At(t), ops) then Some([t]) else None
    }

    /** `outer_intersect` ignores the displacement factor. */
    function OuterIntersect(r: Ray, displacedFactor: real, ops: PlaneOps): (res: Option<seq<real>>)
      reads this
      requires ops.intersect(plane, r).Some? ==> |ops.intersect(plane, r).value| > 0
      ensures res == Intersect(r, ops)
    {
      Intersect(r, ops)
    }

    /** `intersect_displacement` ignores the element and the scene. */
    function IntersectDisplacement<E, S>(r: Ray, element: E, scene: S, ops: PlaneOps): (res: Option<seq<real>>)
      reads this
      requires ops.intersect(plane, r).Some? ==> |ops.intersect(plane, r).value| > 0
      ensures res == Intersect(r, ops)
    {
      Intersect(r, ops)
    }

    /** The rectangle's normal is the plane's. */
    function Norm(hit: Vec3, rayDir: Vec3, ops: PlaneOps): (n: Vec3)
      reads this
      ensures n == ops.norm(plane, hit, rayDir)
    {
      ops.norm(plane, hit, rayDir)
    }

    /** A rectangle has no texture frame of its own: the default projection. */
    function Project(hit: Hit, default: Projection): (p: Projection)
      ensures p == default
    {
      default
    }
  }
}
