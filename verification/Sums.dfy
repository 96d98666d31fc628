/** Sums of multisets. */
module Sums {
  function Sum<T>(ms: seq<multiset<T>>): multiset<T> {
    if ms == [] then multiset{} else Sum(ms[..|ms| - 1]) + ms[|ms| - 1]
  }

  lemma {:induction false} SumUpdate<T>(ms: seq<multiset<T>>, i: nat, more: multiset<T>)
    requires i < |ms|
    ensures Sum(ms[i := ms[i] + more]) == Sum(ms) + more
  {
    var n := |ms| - 1;
    if i == n {
      assert ms[i := ms[i] + more][..n] == ms[..n];
    } else {
      assert ms[i := ms[i] + more][..n] == ms[..n][i := ms[i] + more];
      SumUpdate(ms[..n], i, more);
    }
  }

  lemma SumSnoc<T>(ms: seq<multiset<T>>, more: multiset<T>)
    ensures Sum(ms + [more]) == Sum(ms) + more
  {
    assert (ms + [more])[..|ms|] == ms;
  }

  /** What each element contributes. */
  function Each<D, T>(ds: seq<D>, f: D -> multiset<T>): (r: seq<multiset<T>>)
    ensures |r| == |ds|
    ensures forall i :: 0 <= i < |ds| ==> r[i] == f(ds[i])
  {
    seq(|ds|, i requires 0 <= i < |ds| => f(ds[i]))
  }

  /** Elements with a property. */
  function CountIf<D>(ds: seq<D>, p: D -> bool): nat {
    if ds == [] then 0 else CountIf(ds[..|ds| - 1], p) + if p(ds[|ds| - 1]) then 1 else 0
  }

  /** A value that each element with a property contributes once, and no other element does,
      is in the sum as often as there are such elements. */
  lemma {:induction false} SumCounts<D, T>(ds: seq<D>, ms: seq<multiset<T>>, p: D -> bool, value: T)
    requires |ms| == |ds|
    requires forall i :: 0 <= i < |ds| ==> ms[i][value] == if p(ds[i]) then 1 else 0
    ensures Sum(ms)[value] == CountIf(ds, p)
  {
    if ds != [] {
      var n := |ds| - 1;
      assert ms[n][value] == if p(ds[n]) then 1 else 0;
      SumCounts(ds[..n], ms[..n], p, value);
    }
  }

  /** The same for the size of the sum. */
  lemma {:induction false} SumSizeCounts<D, T>(ds: seq<D>, ms: seq<multiset<T>>, p: D -> bool)
    requires |ms| == |ds|
    requires forall i :: 0 <= i < |ds| ==> |ms[i]| == if p(ds[i]) then 1 else 0
    ensures |Sum(ms)| == CountIf(ds, p)
  {
    if ds != [] {
      var n := |ds| - 1;
      assert |ms[n]| == if p(ds[n]) then 1 else 0;
      SumSizeCounts(ds[..n], ms[..n], p);
    }
  }

  /** One summand exchanged for another. */
  lemma {:induction false} SumReplace<T>(ms: seq<multiset<T>>, i: nat, x: multiset<T>)
    requires i < |ms|
    ensures Sum(ms[i := x]) + ms[i] == Sum(ms) + x
  {
    var n := |ms| - 1;
    if i == n {
      assert ms[i := x][..n] == ms[..n];
    } else {
      assert ms[i := x][..n] == ms[..n][i := x] && ms[..n][i] == ms[i];
      SumReplace(ms[..n], i, x);
      var rest := Sum(ms[..n][i := x]);
      assert (rest + ms[n]) + ms[i] == (rest + ms[i]) + ms[n];
    }
  }

  /** If exchanging one summand keeps the sum, it was exchanged for itself. */
  lemma SameSumSameTerm<T>(ms: seq<multiset<T>>, i: nat, x: multiset<T>)
    requires i < |ms| && Sum(ms[i := x]) == Sum(ms)
    ensures x == ms[i]
  {
    SumReplace(ms, i, x);
    var total := Sum(ms);
    assert x == (total + x) - total;
    assert ms[i] == (total + ms[i]) - total;
  }

  /** Summands that are no larger, with a sum that is no smaller, are of equal size. */
  lemma {:induction false} SumSizes<T>(ms: seq<multiset<T>>, ns: seq<multiset<T>>)
    requires |ms| == |ns|
    requires forall i :: 0 <= i < |ms| ==> |ms[i]| <= |ns[i]|
    ensures |Sum(ms)| <= |Sum(ns)|
    ensures |Sum(ms)| == |Sum(ns)| ==> forall i :: 0 <= i < |ms| ==> |ms[i]| == |ns[i]|
  {
    if ms != [] {
      SumSizes(ms[..|ms| - 1], ns[..|ns| - 1]);
    }
  }

  lemma CountIfSnoc<D>(ds: seq<D>, d: D, p: D -> bool)
    ensures CountIf(ds + [d], p) == CountIf(ds, p) + if p(d) then 1 else 0
  {
    assert (ds + [d])[..|ds|] == ds;
  }

  lemma {:induction false} CountIfConcat<D>(a: seq<D>, b: seq<D>, p: D -> bool)
    ensures CountIf(a + b, p) == CountIf(a, p) + CountIf(b, p)
  {
    if b == [] {
      assert a + b == a;
    } else {
      var n := |b| - 1;
      assert (a + b)[..|a| + n] == a + b[..n];
      CountIfConcat(a, b[..n], p);
    }
  }

  lemma {:induction false} CountIfSame<D>(a: seq<D>, b: seq<D>, p: D -> bool)
    requires |a| == |b|
    requires forall i :: 0 <= i < |a| ==> p(a[i]) == p(b[i])
    ensures CountIf(a, p) == CountIf(b, p)
  {
    if a != [] {
      CountIfSame(a[..|a| - 1], b[..|b| - 1], p);
    }
  }
}
