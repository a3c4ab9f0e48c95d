/** The two array operations the screens build on: `Array.prototype.filter`
    and `Array.prototype.find`, over immutable sequences. */
module Seqs {
  import opened Optional

  /** `xs.filter(p)`: the elements of `xs` that satisfy `p`, in their order. */
  function Filter<T(!new)>(xs: seq<T>, p: T -> bool): (r: seq<T>)
    ensures |r| <= |xs|
    ensures forall x :: x in r <==> x in xs && p(x)
    ensures forall x :: multiset(r)[x] == if p(x) then multiset(xs)[x] else 0
  {
    if xs == [] then []
    else
      assert xs == [xs[0]] + xs[1..];
      if p(xs[0]) then [xs[0]] + Filter(xs[1..], p) else Filter(xs[1..], p)
  }

  /** `r` is obtained from `xs` by picking the positions `idx`, in increasing order. */
  ghost predicate PicksInOrder<T(!new)>(r: seq<T>, xs: seq<T>, idx: seq<nat>) {
    && |idx| == |r|
    && (forall k :: 0 <= k < |idx| ==> idx[k] < |xs| && xs[idx[k]] == r[k])
    && (forall k, l :: 0 <= k < l < |idx| ==> idx[k] < idx[l])
  }

  /** `r` is an order-preserving sub-list of `xs`. */
  ghost predicate IsSubsequence<T(!new)>(r: seq<T>, xs: seq<T>) {
    exists idx :: PicksInOrder(r, xs, idx)
  }

  function Shifted(idx: seq<nat>): (r: seq<nat>)
    ensures |r| == |idx| && forall k :: 0 <= k < |idx| ==> r[k] == idx[k] + 1
  {
    seq(|idx|, k requires 0 <= k < |idx| => idx[k] + 1)
  }

  /** Picking positions of the tail, shifted by one, picks from the whole. */
  lemma PicksFromTail<T(!new)>(r: seq<T>, xs: seq<T>, idx: seq<nat>)
    requires xs != [] && PicksInOrder(r, xs[1..], idx)
    ensures PicksInOrder(r, xs, Shifted(idx))
    ensures PicksInOrder([xs[0]] + r, xs, [0] + Shifted(idx))
  {
    var sh := Shifted(idx);
    var full := [0] + sh;
    forall k | 0 <= k < |full|
      ensures full[k] < |xs| && xs[full[k]] == ([xs[0]] + r)[k]
    {
      if k > 0 {
        assert full[k] == idx[k - 1] + 1;
      }
    }
  }

  /** Filtering keeps the order of the elements it keeps. */
  lemma {:induction false} FilterIsSubsequence<T(!new)>(xs: seq<T>, p: T -> bool)
    ensures IsSubsequence(Filter(xs, p), xs)
  {
    if xs == [] {
      assert PicksInOrder<T>([], xs, []);
    } else {
      FilterIsSubsequence(xs[1..], p);
      var tail := Filter(xs[1..], p);
      var idx :| PicksInOrder(tail, xs[1..], idx);
      PicksFromTail(tail, xs, idx);
      if p(xs[0]) {
        assert PicksInOrder(Filter(xs, p), xs, [0] + Shifted(idx));
      } else {
        assert PicksInOrder(Filter(xs, p), xs, Shifted(idx));
      }
    }
  }

  /** Filtering a concatenation filters each part. */
  lemma {:induction false} FilterAppend<T(!new)>(xs: seq<T>, ys: seq<T>, p: T -> bool)
    ensures Filter(xs + ys, p) == Filter(xs, p) + Filter(ys, p)
  {
    if xs == [] {
      assert xs + ys == ys;
    } else {
      assert (xs + ys)[1..] == xs[1..] + ys;
      FilterAppend(xs[1..], ys, p);
    }
  }

  /** Appending one element adds it to the filtered list when it qualifies. */
  lemma FilterAppendOne<T(!new)>(xs: seq<T>, y: T, p: T -> bool)
    ensures Filter(xs + [y], p) == Filter(xs, p) + (if p(y) then [y] else [])
  {
    FilterAppend(xs, [y], p);
    assert [y][1..] == [];
  }

  /** The filtered list is empty exactly when no element satisfies `p`. */
  lemma FilterEmptyIff<T(!new)>(xs: seq<T>, p: T -> bool)
    ensures Filter(xs, p) == [] <==> forall x :: x in xs ==> !p(x)
  {
    var r := Filter(xs, p);
    if r != [] {
      assert r[0] in r;
    }
  }

  /** Two chained filters are one filter by the conjunction. */
  lemma {:induction false} FilterFilter<T(!new)>(xs: seq<T>, p: T -> bool, q: T -> bool, pq: T -> bool)
    requires forall x :: pq(x) == (p(x) && q(x))
    ensures Filter(Filter(xs, p), q) == Filter(xs, pq)
  {
    if xs != [] {
      FilterFilter(xs[1..], p, q, pq);
    }
  }

  /** Filters by mutually exclusive predicates together keep at most every element. */
  lemma {:induction false} DisjointFiltersFit<T(!new)>(xs: seq<T>, p: T -> bool, q: T -> bool)
    requires forall x :: !(p(x) && q(x))
    ensures |Filter(xs, p)| + |Filter(xs, q)| <= |xs|
  {
    if xs != [] {
      DisjointFiltersFit(xs[1..], p, q);
    }
  }

  /** Exactly one of three conditions holds. */
  predicate ExactlyOne(a: bool, b: bool, c: bool) {
    (a && !b && !c) || (!a && b && !c) || (!a && !b && c)
  }

  /** When every element satisfies exactly one of three predicates, the three
      filters split the sequence: their lengths add up to its length. */
  lemma {:induction false} ThreeWaySplit<T(!new)>(xs: seq<T>, p: T -> bool, q: T -> bool, s: T -> bool)
    requires forall k :: 0 <= k < |xs| ==> ExactlyOne(p(xs[k]), q(xs[k]), s(xs[k]))
    ensures |Filter(xs, p)| + |Filter(xs, q)| + |Filter(xs, s)| == |xs|
  {
    if xs != [] {
      ThreeWaySplit(xs[1..], p, q, s);
    }
  }

  /** `k` is the first position of `xs` whose element satisfies `p`. */
  ghost predicate FirstMatch<T(!new)>(xs: seq<T>, p: T -> bool, k: int) {
    0 <= k < |xs| && p(xs[k]) && forall j :: 0 <= j < k ==> !p(xs[j])
  }

  /** `xs.findIndex(p)`, with `None` for -1. */
  function FindIndex<T(!new)>(xs: seq<T>, p: T -> bool): (r: Option<nat>)
    ensures r.None? <==> forall k :: 0 <= k < |xs| ==> !p(xs[k])
    ensures r.Some? ==> FirstMatch(xs, p, r.value)
  {
    if xs == [] then None
    else if p(xs[0]) then Some(0)
    else
      match FindIndex(xs[1..], p)
      case None => None
      case Some(i) => Some(i + 1)
  }

  /** `xs.find(p)`, with `None` for `undefined`: the first element satisfying `p`. */
  function Find<T(!new)>(xs: seq<T>, p: T -> bool): (r: Option<T>)
    ensures r.None? <==> forall x :: x in xs ==> !p(x)
    ensures r.Some? ==> exists k :: FirstMatch(xs, p, k) && xs[k] == r.value
  {
    match FindIndex(xs, p)
    case None => None
    case Some(k) => Some(xs[k])
  }
}
