/** The list comprehensions `[x for x in xs if p(x)]` the routers use to narrow
    listings, with the facts that make them order-preserving and composable. */
module Filters {
  import opened Wrappers

  /** `[x for x in xs if p(x)]`, built front to back as the comprehension does. */
  function Filter<T(!new)>(xs: seq<T>, p: T -> bool): (r: seq<T>)
    ensures |r| <= |xs|
    ensures forall x :: x in r <==> x in xs && p(x)
  {
    if |xs| == 0 then []
    else Filter(xs[..|xs| - 1], p) + (if p(xs[|xs| - 1]) then [xs[|xs| - 1]] else [])
  }

  /** The positions of `xs` whose element satisfies `p`, ascending. */
  function Kept<T(!new)>(xs: seq<T>, p: T -> bool): (k: seq<nat>)
    ensures forall i :: 0 <= i < |k| ==> k[i] < |xs| && p(xs[k[i]])
    ensures forall i, j :: 0 <= i < j < |k| ==> k[i] < k[j]
    ensures forall n :: 0 <= n < |xs| && p(xs[n]) ==> n in k
  {
    if |xs| == 0 then []
    else Kept(xs[..|xs| - 1], p) + (if p(xs[|xs| - 1]) then [|xs| - 1] else [])
  }

  /** `r` is `xs` read at the strictly increasing positions `idx`. */
  ghost predicate SubsequenceAt<T(!new)>(r: seq<T>, xs: seq<T>, idx: seq<nat>) {
    && |idx| == |r|
    && (forall i :: 0 <= i < |idx| ==> idx[i] < |xs| && r[i] == xs[idx[i]])
    && (forall i, j :: 0 <= i < j < |idx| ==> idx[i] < idx[j])
  }

  /** The filter keeps every satisfying element, in its original relative order:
      the i-th survivor is the element at the i-th satisfying position. */
  lemma {:induction false} FilterIsSubsequence<T(!new)>(xs: seq<T>, p: T -> bool)
    ensures SubsequenceAt(Filter(xs, p), xs, Kept(xs, p))
  {
    var f, k := Filter(xs, p), Kept(xs, p);
    FilterAtKept(xs, p);
    assert |k| == |f| && forall i :: 0 <= i < |k| ==> k[i] < |xs| && f[i] == xs[k[i]];
  }

  lemma {:induction false} FilterAtKept<T(!new)>(xs: seq<T>, p: T -> bool)
    ensures |Kept(xs, p)| == |Filter(xs, p)|
    ensures forall i :: 0 <= i < |Kept(xs, p)| ==> Filter(xs, p)[i] == xs[Kept(xs, p)[i]]
  {
    if |xs| > 0 {
      var init := xs[..|xs| - 1];
      var last := xs[|xs| - 1];
      FilterAtKept(init, p);
      var f, k := Filter(xs, p), Kept(xs, p);
      var f', k' := Filter(init, p), Kept(init, p);
      assert f == f' + (if p(last) then [last] else []);
      assert k == k' + (if p(last) then [|xs| - 1] else []);
      forall i | 0 <= i < |k|
        ensures f[i] == xs[k[i]]
      {
        if i < |k'| {
          assert k[i] == k'[i] && f[i] == f'[i];
          assert f'[i] == init[k'[i]];
        }
      }
    }
  }

  /** Filtering distributes over concatenation. */
  lemma {:induction false} FilterConcat<T(!new)>(xs: seq<T>, ys: seq<T>, p: T -> bool)
    ensures Filter(xs + ys, p) == Filter(xs, p) + Filter(ys, p)
    decreases |ys|
  {
    if |ys| == 0 {
      assert xs + ys == xs;
    } else {
      var ys' := ys[..|ys| - 1];
      assert (xs + ys)[..|xs + ys| - 1] == xs + ys';
      FilterConcat(xs, ys', p);
    }
  }

  /** Two successive filters keep exactly what their conjunction keeps. */
  lemma {:induction false} FilterFilter<T(!new)>(xs: seq<T>, p: T -> bool, q: T -> bool)
    ensures Filter(Filter(xs, p), q) == Filter(xs, x => p(x) && q(x))
  {
    if |xs| > 0 {
      var init := xs[..|xs| - 1];
      var last := xs[|xs| - 1];
      FilterFilter(init, p, q);
      FilterConcat(Filter(init, p), if p(last) then [last] else [], q);
      if p(last) {
        assert Filter([last], q) == Filter([], q) + (if q(last) then [last] else []);
      }
    }
  }

  /** A filter that every element passes returns the listing unchanged. */
  lemma {:induction false} FilterKeepsAll<T(!new)>(xs: seq<T>, p: T -> bool)
    requires forall x :: x in xs ==> p(x)
    ensures Filter(xs, p) == xs
  {
    if |xs| > 0 {
      FilterKeepsAll(xs[..|xs| - 1], p);
    }
  }

  /** A filter on one string field, applied only when the query value is truthy
      (`if value: xs = [x for x in xs if field(x) == value]`). */
  function Where<T(!new)>(xs: seq<T>, field: T -> string, wanted: Option<string>): (r: seq<T>)
    ensures !PresentText(wanted) ==> r == xs
    ensures forall x :: x in r <==> x in xs && (PresentText(wanted) ==> field(x) == wanted.value)
  {
    if PresentText(wanted) then Filter(xs, FieldIs(field, wanted.value)) else xs
  }

  /** The test `field(x) == value` as a predicate on listing entries. */
  function FieldIs<T(!new)>(field: T -> string, value: string): (p: T -> bool)
    ensures forall x :: p(x) <==> field(x) == value
  {
    x => field(x) == value
  }

  /** Whether `x` passes the optional field filter. */
  predicate Matches<T(!new)>(x: T, field: T -> string, wanted: Option<string>) {
    PresentText(wanted) ==> field(x) == wanted.value
  }

  /** Two optional field filters in a row are one conjunctive, order-preserving filter. */
  lemma WhereWhere<T(!new)>(xs: seq<T>, f: T -> string, a: Option<string>, g: T -> string, b: Option<string>)
    ensures Where(Where(xs, f, a), g, b) == Filter(xs, x => Matches(x, f, a) && Matches(x, g, b))
  {
    var both := x => Matches(x, f, a) && Matches(x, g, b);
    if PresentText(a) && PresentText(b) {
      var fa, gb := FieldIs(f, a.value), FieldIs(g, b.value);
      FilterFilter(xs, fa, gb);
      FilterExtensional(xs, x => fa(x) && gb(x), both);
    } else if PresentText(a) {
      FilterExtensional(xs, FieldIs(f, a.value), both);
    } else if PresentText(b) {
      FilterExtensional(xs, FieldIs(g, b.value), both);
    } else {
      FilterKeepsAll(xs, both);
    }
  }

  /** Filters by predicates that agree on every element give the same result. */
  lemma {:induction false} FilterExtensional<T(!new)>(xs: seq<T>, p: T -> bool, q: T -> bool)
    requires forall x :: x in xs ==> p(x) == q(x)
    ensures Filter(xs, p) == Filter(xs, q)
  {
    if |xs| > 0 {
      FilterExtensional(xs[..|xs| - 1], p, q);
    }
  }
}
