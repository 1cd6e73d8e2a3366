/** Closest-hit search and ray casting (src/render/mod.rs). */
module Render {
  import opened Wrappers
  import opened Primitives
  import opened Colors

  /**
   * What the search needs from the scene, which is not part of this model:
   * an element's shape intersected with a ray, and a hit's distance.
   */
  datatype HitOps<!E, !H> = HitOps(intersect: (E, Ray) -> Option<H>, dist: H -> real)

  /** One pass of the loop body as the code reads: a hit only replaces an existing closer candidate. */
  function StepAsWritten<E, H>(closest: Option<H>, hit: Option<H>, ops: HitOps<E, H>): Option<H> {
    if hit.Some? && closest.Some? && ops.dist(hit.value) < ops.dist(closest.value) then hit else closest
  }

  /** The loop of `get_closest_hit` as written, over the first `|es|` elements. */
  function ClosestAsWritten<E, H>(es: seq<E>, r: Ray, ops: HitOps<E, H>): Option<H> {
    if |es| == 0 then None
    else StepAsWritten(ClosestAsWritten(es[..|es| - 1], r, ops), ops.intersect(es[|es| - 1], r), ops)
  }

  /** Because `closest` starts empty and only an existing candidate is replaced, the search as written never finds a hit. */
  lemma {:induction false} AsWrittenNeverHits<E, H>(es: seq<E>, r: Ray, ops: HitOps<E, H>)
    ensures ClosestAsWritten(es, r, ops) == None
  {
    if |es| > 0 {
      AsWrittenNeverHits(es[..|es| - 1], r, ops);
    }
  }

  /**
   * `get_closest_hit` as written: the elements are visited in order and
   * left untouched, and the result is always `None`.
   */
  method GetClosestHit<E, H>(elements: seq<E>, r: Ray, ops: HitOps<E, H>) returns (closest: Option<H>)
    ensures closest == ClosestAsWritten(elements, r, ops)
    ensures closest.None?
  {
    closest := None;
    var i := 0;
    while i < |elements|
      invariant 0 <= i <= |elements|
      invariant closest == ClosestAsWritten(elements[..i], r, ops)
    {
      assert elements[..i + 1][..i] == elements[..i];
      var hit := ops.intersect(elements[i], r);
      if hit.Some? {
        if closest.Some? {
          if ops.dist(hit.value) < ops.dist(closest.value) {
            closest := hit;
          }
        }
      }
      i := i + 1;
    }
    assert elements[..|elements|] == elements;
    AsWrittenNeverHits(elements, r, ops);
  }

  /** The evidently intended step: the first hit is taken, later ones only when strictly closer. */
  function Step<E, H>(closest: Option<H>, hit: Option<H>, ops: HitOps<E, H>): Option<H> {
    if hit.Some? && (closest.None? || ops.dist(hit.value) < ops.dist(closest.value)) then hit else closest
  }

  function Closest<E, H>(es: seq<E>, r: Ray, ops: HitOps<E, H>): Option<H> {
    if |es| == 0 then None
    else Step(Closest(es[..|es| - 1], r, ops), ops.intersect(es[|es| - 1], r), ops)
  }

  /** Some element is hit. */
  predicate AnyHit<E, H>(es: seq<E>, r: Ray, ops: HitOps<E, H>) {
    exists i :: 0 <= i < |es| && ops.intersect(es[i], r).Some?
  }

  /**
   * The intended search finds a hit exactly when some element is hit; the
   * hit it returns belongs to an element `i`, is no farther than any other
   * hit, and is strictly closer than every hit before `i`, so the earlier
   * element wins a tie.
   */
  lemma {:induction false} ClosestIsFirstMinimum<E, H>(es: seq<E>, r: Ray, ops: HitOps<E, H>)
    ensures Closest(es, r, ops).None? <==> !AnyHit(es, r, ops)
    ensures Closest(es, r, ops).Some? ==>
      exists i :: 0 <= i < |es| && ops.intersect(es[i], r) == Closest(es, r, ops)
        && (forall j :: 0 <= j < i && ops.intersect(es[j], r).Some? ==>
              ops.dist(Closest(es, r, ops).value) < ops.dist(ops.intersect(es[j], r).value))
    ensures Closest(es, r, ops).Some? ==>
      forall j :: 0 <= j < |es| && ops.intersect(es[j], r).Some? ==>
        ops.dist(Closest(es, r, ops).value) <= ops.dist(ops.intersect(es[j], r).value)
  {
    if |es| > 0 {
      var n := |es| - 1;
      var front := es[..n];
      ClosestIsFirstMinimum(front, r, ops);
      var c := Closest(front, r, ops);
      var hit := ops.intersect(es[n], r);
      assert forall j :: 0 <= j < n ==> front[j] == es[j];
      if AnyHit(front, r, ops) {
        var i :| 0 <= i < n && ops.intersect(front[i], r).Some?;
        assert ops.intersect(es[i], r).Some?;
      }
      if Closest(es, r, ops).Some? {
        if hit.Some? && (c.None? || ops.dist(hit.value) < ops.dist(c.value)) {
          assert ops.intersect(es[n], r) == Closest(es, r, ops);
          forall j | 0 <= j < n && ops.intersect(es[j], r).Some?
            ensures ops.dist(hit.value) < ops.dist(ops.intersect(es[j], r).value)
          {
            assert ops.intersect(front[j], r).Some?;
          }
        } else {
          var i :| 0 <= i < n && ops.intersect(front[i], r) == c
            && (forall j :: 0 <= j < i && ops.intersect(front[j], r).Some? ==>
                  ops.dist(c.value) < ops.dist(ops.intersect(front[j], r).value));
          assert ops.intersect(es[i], r) == Closest(es, r, ops);
        }
      }
    }
  }

  /** `get_closest_hit` as evidently intended, proved against `Closest`. */
  method GetClosestHitFixed<E, H>(elements: seq<E>, r: Ray, ops: HitOps<E, H>) returns (closest: Option<H>)
    ensures closest == Closest(elements, r, ops)
  {
    closest := None;
    var i := 0;
    while i < |elements|
      invariant 0 <= i <= |elements|
      invariant closest == Closest(elements[..i], r, ops)
    {
      assert elements[..i + 1][..i] == elements[..i];
      var hit := ops.intersect(elements[i], r);
      if hit.Some? {
        if closest.None? || ops.dist(hit.value) < ops.dist(closest.value) {
          closest := hit;
        }
      }
      i := i + 1;
    }
    assert elements[..|elements|] == elements;
  }

  /**
   * The match of `cast_ray` on the search's result: no hit gives black; a
   * hit reaches `unimplemented!()`, which panics and is `None` here.
   */
  function ShadeHit<H>(hit: Option<H>): (c: Option<Color>)
    ensures c.Some? <==> hit.None?
    ensures c.Some? ==> c.value == Black
  {
    match hit
    case Some(_) => None
    case None => Some(Color(0.0, 0.0, 0.0))
  }

  /**
   * `cast_ray` as written: it matches on the search as written, which never
   * finds a hit, so every ray is black and the panicking arm is never reached.
   */
  method CastRay<E, H>(elements: seq<E>, r: Ray, ops: HitOps<E, H>) returns (c: Option<Color>)
    ensures c == ShadeHit(ClosestAsWritten(elements, r, ops))
    ensures c == Some(Black)
  {
    var hit := GetClosestHit(elements, r, ops);
    match hit {
      case Some(_) => c := None;
      case None => c := Some(Color(0.0, 0.0, 0.0));
    }
  }

  /**
   * `cast_ray` over the intended search: black exactly when nothing is
   * hit; otherwise the panicking arm is reached.
   */
  method CastRayFixed<E, H>(elements: seq<E>, r: Ray, ops: HitOps<E, H>) returns (c: Option<Color>)
    ensures c == ShadeHit(Closest(elements, r, ops))
    ensures c.Some? <==> !AnyHit(elements, r, ops)
    ensures c.Some? ==> c.value == Black
  {
    var hit := GetClosestHitFixed(elements, r, ops);
    ClosestIsFirstMinimum(elements, r, ops);
    match hit {
      case Some(_) => c := None;
      case None => c := Some(Color(0.0, 0.0, 0.0));
    }
  }

  /**
   * Over the search as written, `cast_ray` gives black for every ray; over
   * the intended search, a ray that hits some element reaches the panic.
   */
  lemma CastRayAsWrittenAlwaysBlack<E, H>(es: seq<E>, r: Ray, ops: HitOps<E, H>, k: nat)
    requires k < |es| && ops.intersect(es[k], r).Some?
    ensures ShadeHit(ClosestAsWritten(es, r, ops)) == Some(Black)
    ensures ShadeHit(Closest(es, r, ops)) == None
  {
    AsWrittenNeverHits(es, r, ops);
    ClosestIsFirstMinimum(es, r, ops);
  }
}
