/**
 * The one list-building pattern all three stages share: walk a list in
 * order, keep the elements a test accepts, and append one derived value for
 * each kept element (`for x in xs: if keep(x): out.append(f(x))`).
 */
module Filtering {

  predicate StrictlyIncreasing(idx: seq<nat>) {
    forall i, j :: 0 <= i < j < |idx| ==> idx[i] < idx[j]
  }

  /** The positions of the kept elements, in increasing order. */
  function Indices<T>(xs: seq<T>, keep: T -> bool): (r: seq<nat>)
    ensures StrictlyIncreasing(r)
    ensures forall k :: 0 <= k < |r| ==> r[k] < |xs| && keep(xs[r[k]])
    ensures forall i :: 0 <= i < |xs| && keep(xs[i]) ==> i in r
  {
    if xs == [] then []
    else
      var front := Indices(xs[..|xs| - 1], keep);
      if keep(xs[|xs| - 1]) then front + [|xs| - 1] else front
  }

  /** `[f(x) for x in xs if keep(x)]`, built by appending at the end. */
  function FilterMap<T, U>(xs: seq<T>, keep: T -> bool, f: T --> U): (r: seq<U>)
    requires forall i :: 0 <= i < |xs| && keep(xs[i]) ==> f.requires(xs[i])
    ensures |r| <= |xs|
  {
    if xs == [] then []
    else
      var front := FilterMap(xs[..|xs| - 1], keep, f);
      var x := xs[|xs| - 1];
      if keep(x) then front + [f(x)] else front
  }

  /**
   * The output has one entry per kept element, in the kept elements' order:
   * entry k is `f` of the k-th kept element.
   */
  lemma {:induction false} FilterMapSpec<T, U>(xs: seq<T>, keep: T -> bool, f: T --> U)
    requires forall i :: 0 <= i < |xs| && keep(xs[i]) ==> f.requires(xs[i])
    ensures var r, idx := FilterMap(xs, keep, f), Indices(xs, keep);
            |r| == |idx| && forall k :: 0 <= k < |r| ==> r[k] == f(xs[idx[k]])
  {
    if xs != [] {
      var front := xs[..|xs| - 1];
      FilterMapSpec(front, keep, f);
      var r, idx := FilterMap(xs, keep, f), Indices(xs, keep);
      var fr, fidx := FilterMap(front, keep, f), Indices(front, keep);
      forall k | 0 <= k < |fr| ensures fidx[k] < |front| && front[fidx[k]] == xs[fidx[k]] {
      }
    }
  }

  /** Filtering a concatenation filters each part. */
  lemma {:induction false} FilterMapAppend<T, U>(xs: seq<T>, ys: seq<T>, keep: T -> bool, f: T --> U)
    requires forall i :: 0 <= i < |xs| && keep(xs[i]) ==> f.requires(xs[i])
    requires forall i :: 0 <= i < |ys| && keep(ys[i]) ==> f.requires(ys[i])
    ensures forall i :: 0 <= i < |xs + ys| && keep((xs + ys)[i]) ==> f.requires((xs + ys)[i])
    ensures FilterMap(xs + ys, keep, f) == FilterMap(xs, keep, f) + FilterMap(ys, keep, f)
  {
    assert forall i :: 0 <= i < |xs + ys| ==> (xs + ys)[i] == if i < |xs| then xs[i] else ys[i - |xs|];
    if ys == [] {
      assert xs + ys == xs;
    } else {
      var ys' := ys[..|ys| - 1];
      FilterMapAppend(xs, ys', keep, f);
      assert (xs + ys)[..|xs + ys| - 1] == xs + ys';
    }
  }
}
