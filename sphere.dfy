/** The sphere shape (src/model/shapes/sphere.rs). */
module Spheres {
  import opened Wrappers
  import opened Primitives

  /** Distances closer than this are rejected to avoid self-intersection. */
  const NEAR_LIMIT: real := 0.1

  class Sphere {
    var pos: Vec3
    var dir: Vec3
    var radius: real

    constructor (pos: Vec3, dir: Vec3, radius: real)
      ensures this.pos == pos && this.dir == dir && this.radius == radius
    {
      this.pos := pos;
      this.dir := dir;
      this.radius := radius;
    }

    function Pos(): Vec3 reads this { pos }
    function Dir(): Vec3 reads this { dir }
    function Radius(): real reads this { radius }

    method SetPos(pos: Vec3)
      modifies this
      ensures this.pos == pos && dir == old(dir) && radius == old(radius)
    {
      this.pos := pos;
    }

    method SetDir(dir: Vec3)
      modifies this
      ensures this.dir == dir && pos == old(pos) && radius == old(radius)
    {
      this.dir := dir;
    }

    method SetRadius(radius: real)
      modifies this
      ensures this.radius == radius && pos == old(pos) && dir == old(dir)
    {
      this.radius := radius;
    }

    /** `dir . (pos - origin)`, the distance along the ray to the point nearest the centre. */
    function Along(r: Ray): real reads this { r.dir.Dot(pos.Sub(r.pos)) }

    /** The discriminant `(dir . w)^2 - |w|^2 + radius^2` with `w = pos - origin`. */
    function Discriminant(r: Ray): real reads this {
      var w := pos.Sub(r.pos);
      Along(r) * Along(r) - w.Dot(w) + radius * radius
    }

    /**
     * The two roots of the ray/sphere quadratic, nearest first, when the
     * discriminant is non-negative and the near root lies beyond 0.1.
     */
    function Intersect(r: Ray, num: Numerics): (res: Option<seq<real>>)
      reads this
      ensures Discriminant(r) < 0.0 ==> res.None?
      ensures res.None? <==>
        Discriminant(r) < 0.0 || Along(r) - num.sqrt(Discriminant(r)) <= NEAR_LIMIT
      ensures res.Some? ==> |res.value| == 2 && NEAR_LIMIT < res.value[0] <= res.value[1]
      ensures res.Some? ==> res.value[0] + res.value[1] == 2.0 * Along(r)
    {
      var disc := Discriminant(r);
      if disc < 0.0 then None
      else
        var near := Along(r) - num.sqrt(disc);
        var far := Along(r) + num.sqrt(disc);
        if near > NEAR_LIMIT then Some([near, far]) else None
    }
  }

  /** The returned distances multiply to `|pos - origin|^2 - radius^2`, as the roots of the quadratic must. */
  lemma IntersectRootsProduct(s: Sphere, r: Ray, num: Numerics)
    requires num.SqrtAt(s.Discriminant(r))
    requires s.Intersect(r, num).Some?
    ensures var ts := s.Intersect(r, num).value;
      ts[0] * ts[1] == s.pos.Sub(r.pos).Dot(s.pos.Sub(r.pos)) - s.radius * s.radius
  {
    var d, root := s.Along(r), num.sqrt(s.Discriminant(r));
    assert (d - root) * (d + root) == d * d - root * root;
  }

  /** `|t * dir - w|^2` expanded as a quadratic in `t`. */
  lemma QuadraticExpansion(dir: Vec3, w: Vec3, t: real)
    ensures dir.Scale(t).Sub(w).Dot(dir.Scale(t).Sub(w))
         == t * t * dir.Dot(dir) - 2.0 * t * dir.Dot(w) + w.Dot(w)
  {
    var u := dir.Scale(t).Sub(w);
    assert u.x * u.x == t * t * (dir.x * dir.x) - 2.0 * t * (dir.x * w.x) + w.x * w.x;
    assert u.y * u.y == t * t * (dir.y * dir.y) - 2.0 * t * (dir.y * w.y) + w.y * w.y;
    assert u.z * u.z == t * t * (dir.z * dir.z) - 2.0 * t * (dir.z * w.z) + w.z * w.z;
  }

  /** With a unit direction, every returned distance lands on the sphere's surface. */
  lemma {:induction false} IntersectOnSurface(s: Sphere, r: Ray, num: Numerics, k: nat)
    requires num.SqrtAt(s.Discriminant(r))
    requires r.dir.Dot(r.dir) == 1.0
    requires s.Intersect(r, num).Some? && k < 2
    ensures var t := s.Intersect(r, num).value[k];
      r.At(t).Sub(s.pos).Dot(r.At(t).Sub(s.pos)) == s.radius * s.radius
  {
    var w := s.pos.Sub(r.pos);
    var d := s.Along(r);
    var disc := s.Discriminant(r);
    var root := num.sqrt(disc);
    var t := s.Intersect(r, num).value[k];
    assert t == d - root || t == d + root;
    assert r.At(t).Sub(s.pos) == r.dir.Scale(t).Sub(w);
    QuadraticExpansion(r.dir, w, t);
    assert root * root == disc;
    calc {
      t * t * 1.0 - 2.0 * t * d + w.Dot(w);
      (t - d) * (t - d) - d * d + w.Dot(w);
      { assert (t - d) * (t - d) == root * root; }
      disc - d * d + w.Dot(w);
      s.radius * s.radius;
    }
  }

  /** Unit sphere at the origin, ray from (-5, 0, 0) along +x (sphere.rs test_intersect). */
  method TestIntersect(num: Numerics) returns (res: Option<seq<real>>)
    requires num.sqrt(1.0) == 1.0
    ensures res == Some([4.0, 6.0])
  {
    var s := new Sphere(Origin, Origin, 1.0);
    var r := Ray(Vec3(-5.0, 0.0, 0.0), Vec3(1.0, 0.0, 0.0), 5);
    assert s.pos.Sub(r.pos) == Vec3(5.0, 0.0, 0.0);
    assert s.Along(r) == 5.0;
    assert s.Discriminant(r) == 1.0;
    res := s.Intersect(r, num);
  }

  /** Sphere at (0, 0, 2) of radius 1, ray from the origin along +z (test_intersect2). */
  method TestIntersect2(num: Numerics) returns (res: Option<seq<real>>)
    requires num.sqrt(1.0) == 1.0
    ensures res == Some([1.0, 3.0])
  {
    var s := new Sphere(Vec3(0.0, 0.0, 2.0), Origin, 1.0);
    var r := Ray(Origin, Vec3(0.0, 0.0, 1.0), 5);
    assert s.pos.Sub(r.pos) == Vec3(0.0, 0.0, 2.0);
    assert s.Along(r) == 2.0;
    assert s.Discriminant(r) == 1.0;
    res := s.Intersect(r, num);
  }

  /** The same sphere missed by a ray along +x (test_intersect3). */
  method TestIntersect3(num: Numerics) returns (res: Option<seq<real>>)
    requires num.sqrt(1.0) == 1.0
    ensures res == None
  {
    var s := new Sphere(Vec3(0.0, 0.0, 2.0), Origin, 1.0);
    var r := Ray(Origin, Vec3(1.0, 0.0, 0.0), 5);
    assert s.pos.Sub(r.pos) == Vec3(0.0, 0.0, 2.0);
    assert s.Along(r) == 0.0;
    assert s.Discriminant(r) == -3.0;
    res := s.Intersect(r, num);
  }

  /** A ray starting at the centre has a negative near root and is rejected even though the far root is positive. */
  method TestFromCentre(num: Numerics) returns (res: Option<seq<real>>)
    requires num.sqrt(1.0) == 1.0
    ensures res == None
  {
    var s := new Sphere(Origin, Origin, 1.0);
    var r := Ray(Origin, Vec3(1.0, 0.0, 0.0), 5);
    assert s.Discriminant(r) == 1.0;
    res := s.Intersect(r, num);
  }
}
