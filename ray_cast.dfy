/** The result of THREE's `raycaster.intersectObjects(objects)`: the geometry is
    not modelled, only the list of hits it returns. */
module RayCast {
  import opened SceneTypes

  /** One intersection: the index of the box in `objects` and its distance along the ray. */
  datatype Hit = Hit(box: nat, distance: real)

  /** What the raycaster promises of its result over `n` boxes: every hit names one
      of the boxes, and the list is sorted nearest first. */
  predicate IsRayCast(hits: seq<Hit>, n: nat) {
    (forall i :: 0 <= i < |hits| ==> hits[i].box < n) &&
    (forall i :: 0 <= i < |hits| - 1 ==> hits[i].distance <= hits[i + 1].distance)
  }

  /** In a list sorted pairwise nearest first, the head is no farther than any hit. */
  lemma {:induction false} HeadIsNearest(hits: seq<Hit>, n: nat, i: nat)
    requires IsRayCast(hits, n) && i < |hits|
    ensures hits[0].distance <= hits[i].distance
  {
    if i > 0 {
      HeadIsNearest(hits, n, i - 1);
    }
  }

  /** `intersects[0]`: the hit the handlers act on, if there is one. It is a hit on
      one of the boxes at the smallest distance along the ray. */
  function Nearest(hits: seq<Hit>, n: nat): (r: Option<Hit>)
    requires IsRayCast(hits, n)
    ensures r.None? <==> hits == []
    ensures r.Some? ==> r.value in hits && r.value.box < n
    ensures r.Some? ==> forall h :: h in hits ==> r.value.distance <= h.distance
  {
    if hits == [] then None
    else
      assert forall i :: 0 <= i < |hits| ==> hits[0].distance <= hits[i].distance by {
        forall i | 0 <= i < |hits| {
          HeadIsNearest(hits, n, i);
        }
      }
      Some(hits[0])
  }
}
