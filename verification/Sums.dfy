/** Finite sums: over the rows of a list, in order, and over the keys of a table, in no order. */
module Sums {
  function Sum<T>(f: T -> int, xs: seq<T>): int {
    if xs == [] then 0 else Sum(f, xs[..|xs| - 1]) + f(xs[|xs| - 1])
  }

  predicate Distinct<T(==)>(xs: seq<T>) {
    forall i, j :: 0 <= i < j < |xs| ==> xs[i] != xs[j]
  }

  lemma SingletonSet<T>(s: set<T>, x: T)
    requires x in s && |s| == 1
    ensures s == {x}
  {
    assert |s - {x}| == 0;
  }

  /** A counter's value, zero where it has none. */
  function At<K>(m: map<K, int>, k: K): int { if k in m then m[k] else 0 }

  ghost function SumSet<T>(f: T -> int, s: set<T>): int {
    if s == {} then 0 else var x :| x in s; f(x) + SumSet(f, s - {x})
  }

  lemma SumStep<T>(f: T -> int, xs: seq<T>, n: nat)
    requires n < |xs|
    ensures Sum(f, xs[..n + 1]) == Sum(f, xs[..n]) + f(xs[n])
  {
    assert xs[..n + 1][..n] == xs[..n];
  }

  lemma SumAppend<T>(f: T -> int, xs: seq<T>, x: T)
    ensures Sum(f, xs + [x]) == Sum(f, xs) + f(x)
  {
    assert (xs + [x])[..|xs|] == xs;
  }

  lemma {:induction false} SumConcat<T>(f: T -> int, xs: seq<T>, ys: seq<T>)
    ensures Sum(f, xs + ys) == Sum(f, xs) + Sum(f, ys)
  {
    if ys == [] {
      assert xs + ys == xs;
    } else {
      var n := |ys| - 1;
      assert xs + ys == (xs + ys[..n]) + [ys[n]];
      SumConcat(f, xs, ys[..n]);
      SumAppend(f, xs + ys[..n], ys[n]);
    }
  }

  lemma {:induction false} SumEqual<T>(f: T -> int, g: T -> int, xs: seq<T>)
    requires forall i :: 0 <= i < |xs| ==> f(xs[i]) == g(xs[i])
    ensures Sum(f, xs) == Sum(g, xs)
  {
    if xs != [] { SumEqual(f, g, xs[..|xs| - 1]); }
  }

  lemma {:induction false} SumOfZeros<T>(f: T -> int, xs: seq<T>)
    requires forall i :: 0 <= i < |xs| ==> f(xs[i]) == 0
    ensures Sum(f, xs) == 0
  {
    if xs != [] { SumOfZeros(f, xs[..|xs| - 1]); }
  }

  lemma {:induction false} SumSetRemove<T>(f: T -> int, s: set<T>, x: T)
    requires x in s
    ensures SumSet(f, s) == f(x) + SumSet(f, s - {x})
  {
    var y :| y in s && SumSet(f, s) == f(y) + SumSet(f, s - {y});
    if y != x {
      SumSetRemove(f, s - {y}, x);
      SumSetRemove(f, s - {x}, y);
      assert s - {y} - {x} == s - {x} - {y};
    }
  }

  lemma SumSetAdd<T>(f: T -> int, s: set<T>, x: T)
    requires x !in s
    ensures SumSet(f, s + {x}) == SumSet(f, s) + f(x)
  {
    SumSetRemove(f, s + {x}, x);
    assert s + {x} - {x} == s;
  }

  lemma {:induction false} SumSetEqual<T>(f: T -> int, g: T -> int, s: set<T>)
    requires forall x :: x in s ==> f(x) == g(x)
    ensures SumSet(f, s) == SumSet(g, s)
  {
    if s != {} {
      var x :| x in s;
      SumSetRemove(f, s, x);
      SumSetRemove(g, s, x);
      SumSetEqual(f, g, s - {x});
    }
  }

  lemma {:induction false} SumSetZero<T>(f: T -> int, s: set<T>)
    requires forall x :: x in s ==> f(x) == 0
    ensures SumSet(f, s) == 0
  {
    if s != {} {
      var x :| x in s;
      SumSetRemove(f, s, x);
      SumSetZero(f, s - {x});
    }
  }

  lemma {:induction false} SumSetUnion<T>(f: T -> int, s: set<T>, t: set<T>)
    requires s !! t
    ensures SumSet(f, s + t) == SumSet(f, s) + SumSet(f, t)
  {
    if t == {} {
      assert s + t == s;
    } else {
      var x :| x in t;
      SumSetRemove(f, t, x);
      SumSetRemove(f, s + t, x);
      assert s + t - {x} == s + (t - {x});
      SumSetUnion(f, s, t - {x});
    }
  }

  lemma {:induction false} SumSetNonnegative<T>(f: T -> int, s: set<T>)
    requires forall x :: x in s ==> f(x) >= 0
    ensures SumSet(f, s) >= 0
  {
    if s != {} {
      var x :| x in s;
      SumSetRemove(f, s, x);
      SumSetNonnegative(f, s - {x});
    }
  }

  /** A list with no repeats has the sum of the set of its members. */
  lemma {:induction false} SumDistinct<T>(f: T -> int, xs: seq<T>)
    requires Distinct(xs)
    ensures Sum(f, xs) == SumSet(f, set x | x in xs)
  {
    if xs != [] {
      var n := |xs| - 1;
      SumDistinct(f, xs[..n]);
      assert (set x | x in xs) == (set x | x in xs[..n]) + {xs[n]};
      SumSetAdd(f, (set x | x in xs[..n]), xs[n]);
    }
  }
}
