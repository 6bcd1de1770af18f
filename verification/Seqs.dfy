/** Filters, sums and duplicate-freedom of sequences. */
module Seqs {

  function Filter<T>(xs: seq<T>, keep: T -> bool): seq<T> {
    if xs == [] then []
    else Filter(xs[..|xs| - 1], keep) + (if keep(xs[|xs| - 1]) then [xs[|xs| - 1]] else [])
  }

  function Except(id: nat): nat -> bool { (x: nat) => x != id }

  lemma FilterPush<T>(xs: seq<T>, x: T, keep: T -> bool)
    ensures Filter(xs + [x], keep) == Filter(xs, keep) + (if keep(x) then [x] else [])
  {
    assert (xs + [x])[..|xs|] == xs;
  }

  lemma {:induction false} FilterConcat<T>(xs: seq<T>, ys: seq<T>, keep: T -> bool)
    ensures Filter(xs + ys, keep) == Filter(xs, keep) + Filter(ys, keep)
  {
    if ys == [] {
      assert xs + ys == xs;
    } else {
      var zs, y := ys[..|ys| - 1], ys[|ys| - 1];
      assert xs + ys == (xs + zs) + [y];
      FilterPush(xs + zs, y, keep);
      FilterConcat(xs, zs, keep);
    }
  }

  lemma {:induction false} FilterSame<T>(xs: seq<T>, p: T -> bool, q: T -> bool)
    requires forall x :: x in xs ==> p(x) == q(x)
    ensures Filter(xs, p) == Filter(xs, q)
  {
    if xs != [] { FilterSame(xs[..|xs| - 1], p, q); }
  }

  /** Filtering by a narrower test after a wider one is filtering by the narrower one. */
  lemma {:induction false} FilterTwice<T>(xs: seq<T>, wide: T -> bool, narrow: T -> bool)
    requires forall x :: x in xs && narrow(x) ==> wide(x)
    ensures Filter(Filter(xs, wide), narrow) == Filter(xs, narrow)
  {
    if xs != [] {
      var ys, y := xs[..|xs| - 1], xs[|xs| - 1];
      FilterTwice(ys, wide, narrow);
      FilterConcat(Filter(ys, wide), if wide(y) then [y] else [], narrow);
      assert wide(y) ==> Filter([y], narrow) == if narrow(y) then [y] else [];
    }
  }

  lemma {:induction false} FilterMember<T>(xs: seq<T>, keep: T -> bool, x: T)
    ensures x in Filter(xs, keep) <==> x in xs && keep(x)
  {
    if xs != [] {
      FilterMember(xs[..|xs| - 1], keep, x);
      assert xs == xs[..|xs| - 1] + [xs[|xs| - 1]];
    }
  }

  /** How often x occurs in xs. */
  function Count<T(==)>(xs: seq<T>, x: T): nat {
    if xs == [] then 0 else Count(xs[..|xs| - 1], x) + (if xs[|xs| - 1] == x then 1 else 0)
  }

  lemma CountPush<T>(xs: seq<T>, y: T, x: T)
    ensures Count(xs + [y], x) == Count(xs, x) + (if y == x then 1 else 0)
  {
    assert (xs + [y])[..|xs|] == xs;
  }

  lemma {:induction false} CountMultiset<T>(xs: seq<T>, x: T)
    ensures Count(xs, x) == multiset(xs)[x]
  {
    if xs != [] {
      CountMultiset(xs[..|xs| - 1], x);
      assert xs == xs[..|xs| - 1] + [xs[|xs| - 1]];
    }
  }

  lemma SameCounts<T>(xs: seq<T>, ys: seq<T>)
    requires forall x :: x in xs || x in ys ==> Count(xs, x) == Count(ys, x)
    ensures multiset(xs) == multiset(ys)
  {
    forall x | x in xs || x in ys
      ensures multiset(xs)[x] == multiset(ys)[x]
    {
      CountMultiset(xs, x);
      CountMultiset(ys, x);
    }
    assert forall x :: x in multiset(xs) ==> x in xs;
    assert forall x :: x in multiset(ys) ==> x in ys;
  }

  lemma {:induction false} CountConcat<T>(xs: seq<T>, ys: seq<T>, x: T)
    ensures Count(xs + ys, x) == Count(xs, x) + Count(ys, x)
  {
    if ys == [] {
      assert xs + ys == xs;
    } else {
      assert xs + ys == (xs + ys[..|ys| - 1]) + [ys[|ys| - 1]];
      CountPush(xs + ys[..|ys| - 1], ys[|ys| - 1], x);
      CountConcat(xs, ys[..|ys| - 1], x);
    }
  }

  lemma {:induction false} CountMember<T>(xs: seq<T>, x: T)
    ensures x in xs <==> Count(xs, x) > 0
  {
    if xs != [] {
      CountMember(xs[..|xs| - 1], x);
      assert xs == xs[..|xs| - 1] + [xs[|xs| - 1]];
    }
  }

  ghost predicate NoDup<T>(xs: seq<T>) {
    forall i, j :: 0 <= i < j < |xs| ==> xs[i] != xs[j]
  }

  lemma {:induction false} FilterDistinct<T>(xs: seq<T>, keep: T -> bool)
    requires NoDup(xs)
    ensures NoDup(Filter(xs, keep))
  {
    if xs != [] {
      FilterDistinct(xs[..|xs| - 1], keep);
      FilterMember(xs[..|xs| - 1], keep, xs[|xs| - 1]);
    }
  }

  lemma {:induction false} NoDupCount<T>(xs: seq<T>)
    requires forall x :: Count(xs, x) <= 1
    ensures NoDup(xs)
  {
    forall i, j | 0 <= i < j < |xs|
      ensures xs[i] != xs[j]
    {
      var a, b := xs[..j], xs[j..];
      assert xs == a + b && xs[i] == a[i] && xs[j] == b[0];
      CountConcat(a, b, xs[i]);
      CountMember(a, xs[i]);
      CountMember(b, xs[i]);
    }
  }

  function Sum(ns: seq<nat>): nat {
    if ns == [] then 0 else Sum(ns[..|ns| - 1]) + ns[|ns| - 1]
  }

  lemma {:induction false} SumUpdate(ns: seq<nat>, i: nat, n: nat)
    requires i < |ns|
    ensures Sum(ns[i := n]) + ns[i] == Sum(ns) + n
  {
    var last := |ns| - 1;
    if i < last {
      SumUpdate(ns[..last], i, n);
      assert ns[i := n][..last] == ns[..last][i := n];
    } else {
      assert ns[i := n][..last] == ns[..last];
    }
  }

  lemma {:induction false} SumZero(ns: seq<nat>)
    requires forall i :: 0 <= i < |ns| ==> ns[i] == 0
    ensures Sum(ns) == 0
  {
    if ns != [] { SumZero(ns[..|ns| - 1]); }
  }

  lemma {:induction false} SumAtLeast(ns: seq<nat>, i: nat)
    requires i < |ns|
    ensures ns[i] <= Sum(ns)
  {
    if i < |ns| - 1 { SumAtLeast(ns[..|ns| - 1], i); }
  }

  lemma {:induction false} OnceAtMost<T>(xs: seq<T>, x: T)
    requires NoDup(xs)
    ensures Count(xs, x) <= 1
  {
    if xs != [] {
      OnceAtMost(xs[..|xs| - 1], x);
      CountMember(xs[..|xs| - 1], x);
    }
  }

  function Copies<T>(n: nat, x: T): (xs: seq<T>)
    ensures |xs| == n && forall i :: 0 <= i < n ==> xs[i] == x
  {
    seq(n, i => x)
  }

  lemma {:induction false} CopiesCount<T>(n: nat, x: T, y: T)
    ensures Count(Copies(n, x), y) == if x == y then n else 0
  {
    if n > 0 {
      CopiesCount(n - 1, x, y);
      assert Copies(n, x)[..n - 1] == Copies(n - 1, x);
    }
  }
}
