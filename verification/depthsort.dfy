/** The depth sort of the projected points, `sort((a, b) => b.z - a.z)`:
    farthest first, so that nearer points are painted over farther ones.
    JavaScript's sort is stable; the insertion sort here is too (an element
    goes in front of the first element that is not deeper than it). */
module DepthSort {
  import opened Projection

  /** Non-increasing depth: back to front. */
  predicate FarFirst(qs: seq<Projected>) {
    forall i, j :: 0 <= i < j < |qs| ==> qs[i].z >= qs[j].z
  }

  /** Inserts q into a far-first sequence. */
  function Insert(q: Projected, qs: seq<Projected>): (r: seq<Projected>)
    requires FarFirst(qs)
    ensures FarFirst(r)
    ensures multiset(r) == multiset(qs) + multiset{q}
    ensures |r| == |qs| + 1
    ensures r[0] == q || (|qs| > 0 && r[0] == qs[0])
    decreases |qs|
  {
    if |qs| == 0 || q.z >= qs[0].z then
      [q] + qs
    else
      var rest := Insert(q, qs[1..]);
      assert qs == [qs[0]] + qs[1..];
      [qs[0]] + rest
  }

  /** The projected points, farthest first. */
  function SortFarFirst(qs: seq<Projected>): (r: seq<Projected>)
    ensures FarFirst(r)
    ensures multiset(r) == multiset(qs)
    ensures |r| == |qs|
    decreases |qs|
  {
    if |qs| == 0 then
      []
    else
      assert qs == [qs[0]] + qs[1..];
      Insert(qs[0], SortFarFirst(qs[1..]))
  }

  /** A sequence already far first is left exactly as it is; in particular
      sorting twice is sorting once. */
  lemma {:induction false} SortKeepsFarFirst(qs: seq<Projected>)
    requires FarFirst(qs)
    ensures SortFarFirst(qs) == qs
    decreases |qs|
  {
    if |qs| > 0 {
      SortKeepsFarFirst(qs[1..]);
      assert qs == [qs[0]] + qs[1..];
    }
  }

  /** Reordering keeps every element's depth positive and its scale the
      perspective scale for that depth. */
  lemma PermutationKeepsPerspective(a: seq<Projected>, b: seq<Projected>, fov: real)
    requires multiset(a) == multiset(b)
    requires AllInView(a, fov)
    ensures AllInView(b, fov)
  {
    forall k | 0 <= k < |b|
      ensures InView(b[k], fov)
    {
      assert b[k] in multiset(b);
      assert b[k] in a;
    }
  }

  /** Back to front, the perspective scale never falls. */
  lemma ScalesRiseTowardViewer(qs: seq<Projected>, fov: real)
    requires fov > 0.0
    requires FarFirst(qs)
    requires AllInView(qs, fov)
    ensures forall k :: 0 <= k < |qs| ==> 0.0 < qs[k].s < 1.0
    ensures forall i, j :: 0 <= i < j < |qs| ==> qs[i].s <= qs[j].s
  {
    forall k | 0 <= k < |qs|
      ensures 0.0 < qs[k].s < 1.0
    {
      InViewScale(qs[k], fov);
    }
    forall i, j | 0 <= i < j < |qs|
      ensures qs[i].s <= qs[j].s
    {
      ScaleOrder(fov, qs[i].z, qs[j].z, qs[i].s, qs[j].s);
    }
  }
}
