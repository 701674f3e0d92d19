/** Linear searches over sequences, the two shapes the source uses: a forward
    scan that stops at the first match (`for x in xs: if p(x): ...; break`) and
    a backward scan that stops at the last match (`for x in reversed(xs)`). */
module Seqs {
  import opened Options

  /** `k` is the position of the first element satisfying `p`. */
  ghost predicate FirstAt<T>(xs: seq<T>, p: T -> bool, k: int) {
    0 <= k < |xs| && p(xs[k]) && forall j :: 0 <= j < k ==> !p(xs[j])
  }

  /** `k` is the position of the last element satisfying `p`. */
  ghost predicate LastAt<T>(xs: seq<T>, p: T -> bool, k: int) {
    0 <= k < |xs| && p(xs[k]) && forall j :: k < j < |xs| ==> !p(xs[j])
  }

  function FirstIndex<T>(xs: seq<T>, p: T -> bool): (r: Option<nat>)
    ensures r.Some? ==> FirstAt(xs, p, r.value)
    ensures r.None? <==> forall j :: 0 <= j < |xs| ==> !p(xs[j])
  {
    if |xs| == 0 then None
    else if p(xs[0]) then Some(0)
    else match FirstIndex(xs[1..], p)
      case None => None
      case Some(k) => Some(k + 1)
  }

  function LastIndex<T>(xs: seq<T>, p: T -> bool): (r: Option<nat>)
    ensures r.Some? ==> LastAt(xs, p, r.value)
    ensures r.None? <==> forall j :: 0 <= j < |xs| ==> !p(xs[j])
  {
    if |xs| == 0 then None
    else if p(xs[|xs| - 1]) then Some(|xs| - 1)
    else LastIndex(xs[..|xs| - 1], p)
  }

  /** There is only one first match. */
  lemma FirstAtUnique<T>(xs: seq<T>, p: T -> bool, i: int, k: int)
    requires FirstAt(xs, p, i) && FirstAt(xs, p, k)
    ensures i == k
  {
  }

  /** Appending an element never changes an existing first match, and is
      the first match when there was none. */
  lemma {:induction false} FirstIndexAppend<T>(xs: seq<T>, x: T, p: T -> bool)
    ensures FirstIndex(xs + [x], p) ==
              if FirstIndex(xs, p).Some? then FirstIndex(xs, p)
              else if p(x) then Some(|xs|) else None
  {
    if |xs| > 0 {
      assert (xs + [x])[0] == xs[0];
      assert (xs + [x])[1..] == xs[1..] + [x];
      FirstIndexAppend(xs[1..], x, p);
    }
  }

  /** The first match depends only on which positions satisfy `p`. */
  lemma {:induction false} FirstIndexSame<T>(xs: seq<T>, ys: seq<T>, p: T -> bool)
    requires |xs| == |ys|
    requires forall i :: 0 <= i < |xs| ==> p(xs[i]) == p(ys[i])
    ensures FirstIndex(xs, p) == FirstIndex(ys, p)
  {
    if |xs| > 0 {
      FirstIndexSame(xs[1..], ys[1..], p);
    }
  }
}
