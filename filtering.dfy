/** `Array.prototype.filter` and `Array.prototype.map` as the views use them,
    with a callback that may throw, and the pure reference filter `Select`
    they are proved against. */
module Filtering {
  import opened JsValues

  /** The order-preserving subsequence of `xs` whose elements satisfy `p`. */
  function Select<T>(xs: seq<T>, p: T -> bool): seq<T>
  {
    if xs == [] then []
    else if p(xs[0]) then [xs[0]] + Select(xs[1..], p)
    else Select(xs[1..], p)
  }

  /** `ys` can be obtained from `xs` by deleting elements, order kept. */
  predicate IsSubsequence<T(==)>(ys: seq<T>, xs: seq<T>)
    decreases |xs|
  {
    if ys == [] then true
    else if xs == [] then false
    else (ys[0] == xs[0] && IsSubsequence(ys[1..], xs[1..])) || IsSubsequence(ys, xs[1..])
  }

  /** The callback result that keeps an element: exactly `true`. */
  function Accepts(keep: Val -> Completion<bool>): Val -> bool
  {
    x => keep(x) == Normal(true)
  }

  /** `xs.filter(keep)`: the elements are visited in order, the first
      callback that throws aborts the whole call. */
  function Filter(xs: seq<Val>, keep: Val -> Completion<bool>): (r: Completion<seq<Val>>)
    ensures r.Normal? <==> forall i :: 0 <= i < |xs| ==> keep(xs[i]).Normal?
    ensures r.Normal? ==> r.value == Select(xs, Accepts(keep))
  {
    if xs == [] then Normal([])
    else match keep(xs[0])
      case Thrown => Thrown
      case Normal(b) =>
        match Filter(xs[1..], keep)
        case Thrown => Thrown
        case Normal(rest) => Normal(if b then [xs[0]] + rest else rest)
  }

  /** `xs.map(f)`: one result per element, in order; a throwing callback
      aborts the whole call. */
  function MapAll<T>(xs: seq<Val>, f: Val -> Completion<T>): (r: Completion<seq<T>>)
    ensures r.Normal? <==> forall i :: 0 <= i < |xs| ==> f(xs[i]).Normal?
    ensures r.Normal? ==> |r.value| == |xs| &&
                          forall i :: 0 <= i < |xs| ==> r.value[i] == f(xs[i]).value
  {
    if xs == [] then Normal([])
    else match f(xs[0])
      case Thrown => Thrown
      case Normal(y) =>
        match MapAll(xs[1..], f)
        case Thrown => Thrown
        case Normal(rest) => Normal([y] + rest)
  }

  /** `v.filter(...)` / `v.map(...)` on a value that may not be an array:
      calling a method that does not exist is a TypeError. */
  function FilterArray(v: Val, keep: Val -> Completion<bool>): (r: Completion<seq<Val>>)
    ensures !v.Arr? ==> r.Thrown?
    ensures v.Arr? ==> r == Filter(v.items, keep)
    ensures r.Normal? ==> IsSubsequence(r.value, v.items)
    ensures r.Normal? ==> forall x :: x in r.value <==> x in v.items && keep(x) == Normal(true)
  {
    if v.Arr? then
      var r := Filter(v.items, keep);
      if r.Normal? then
        FilterIsSubsequence(v.items, keep);
        SelectMembers(v.items, Accepts(keep));
        r
      else r
    else Thrown
  }

  function MapArray<T>(v: Val, f: Val -> Completion<T>): (r: Completion<seq<T>>)
    ensures !v.Arr? ==> r.Thrown?
    ensures v.Arr? ==> r == MapAll(v.items, f)
  {
    if v.Arr? then MapAll(v.items, f) else Thrown
  }

  // ---------------------------------------------------------------------------
  // Properties of the reference filter

  lemma {:induction false} SelectMembership<T>(xs: seq<T>, p: T -> bool, x: T)
    ensures x in Select(xs, p) <==> x in xs && p(x)
  {
    if xs != [] {
      SelectMembership(xs[1..], p, x);
      assert xs == [xs[0]] + xs[1..];
    }
  }

  lemma SelectMembers<T>(xs: seq<T>, p: T -> bool)
    ensures forall x :: x in Select(xs, p) <==> x in xs && p(x)
  {
    forall x ensures x in Select(xs, p) <==> x in xs && p(x) {
      SelectMembership(xs, p, x);
    }
  }

  lemma {:induction false} SelectIsSubsequence<T>(xs: seq<T>, p: T -> bool)
    ensures IsSubsequence(Select(xs, p), xs)
  {
    if xs != [] {
      SelectIsSubsequence(xs[1..], p);
      if p(xs[0]) {
        assert Select(xs, p)[1..] == Select(xs[1..], p);
      }
    }
  }

  lemma {:induction false} SelectAll<T>(xs: seq<T>, p: T -> bool)
    requires forall i :: 0 <= i < |xs| ==> p(xs[i])
    ensures Select(xs, p) == xs
  {
    if xs != [] {
      SelectAll(xs[1..], p);
      assert xs == [xs[0]] + xs[1..];
    }
  }

  /** Filtering by a conjunction is filtering by one conjunct, then the other. */
  lemma {:induction false} SelectAnd<T>(xs: seq<T>, p: T -> bool, q: T -> bool, pq: T -> bool)
    requires forall x :: pq(x) == (p(x) && q(x))
    ensures Select(xs, pq) == Select(Select(xs, p), q)
  {
    if xs != [] {
      SelectAnd(xs[1..], p, q, pq);
      if p(xs[0]) {
        assert Select(xs, p)[1..] == Select(xs[1..], p);
      }
    }
  }

  // ---------------------------------------------------------------------------
  // Properties of the JavaScript filter

  /** A callback that never throws and keeps everything leaves the list as it
      was; one that throws on some element makes the call throw. */
  lemma FilterIdentity(xs: seq<Val>, keep: Val -> Completion<bool>)
    requires forall i :: 0 <= i < |xs| ==> keep(xs[i]) == Normal(true)
    ensures Filter(xs, keep) == Normal(xs)
  {
    SelectAll(xs, Accepts(keep));
  }

  /** Re-filtering a filtered list with the same callback changes nothing. */
  lemma FilterIdempotent(xs: seq<Val>, keep: Val -> Completion<bool>)
    requires Filter(xs, keep).Normal?
    ensures Filter(Filter(xs, keep).value, keep) == Filter(xs, keep)
  {
    var ys := Filter(xs, keep).value;
    forall i | 0 <= i < |ys|
      ensures keep(ys[i]) == Normal(true)
    {
      SelectMembership(xs, Accepts(keep), ys[i]);
    }
    FilterIdentity(ys, keep);
  }

  lemma FilterIsSubsequence(xs: seq<Val>, keep: Val -> Completion<bool>)
    requires Filter(xs, keep).Normal?
    ensures IsSubsequence(Filter(xs, keep).value, xs)
  {
    SelectIsSubsequence(xs, Accepts(keep));
  }
}
