/** Source rows as tables: indexing by an identity column, and what row order cannot change. */
module Rows {
  import opened Outcomes

  /** Later rows win; on rows without repeated keys this is the table they spell. */
  function Index<K(!new), R>(k: R -> K, rows: seq<R>): (m: map<K, R>)
    ensures forall id :: id in m <==> exists i :: 0 <= i < |rows| && k(rows[i]) == id
    ensures forall id :: id in m ==> k(m[id]) == id && m[id] in rows
  {
    if rows == [] then map[] else
      var last := rows[|rows| - 1];
      var m := Index(k, rows[..|rows| - 1]);
      assert forall i :: 0 <= i < |rows| - 1 ==> rows[i] == rows[..|rows| - 1][i];
      m[k(last) := last]
  }

  predicate Unique<K(==), R>(k: R -> K, rows: seq<R>) {
    forall i, j :: 0 <= i < j < |rows| ==> k(rows[i]) != k(rows[j])
  }

  /** The same said of the rows without their order. */
  ghost predicate UniqueBag<K(!new), R(!new)>(k: R -> K, bag: multiset<R>) {
    (forall r :: bag[r] <= 1) && (forall r, s :: r in bag && s in bag && k(r) == k(s) ==> r == s)
  }

  lemma {:induction false} CountAtMost<R>(rows: seq<R>, i: nat, j: nat)
    requires i < j < |rows| && rows[i] == rows[j]
    ensures multiset(rows)[rows[i]] >= 2
  {
    assert rows == rows[..j] + [rows[j]] + rows[j + 1..];
    assert multiset(rows) == multiset(rows[..j]) + multiset{rows[j]} + multiset(rows[j + 1..]);
    assert rows[..j][i] == rows[i];
  }

  lemma {:induction false} Repeated<R>(rows: seq<R>, r: R)
    requires multiset(rows)[r] >= 2
    ensures exists i, j :: 0 <= i < j < |rows| && rows[i] == rows[j]
  {
    var n := |rows| - 1;
    assert rows == rows[..n] + [rows[n]];
    assert multiset(rows) == multiset(rows[..n]) + multiset{rows[n]};
    if rows[n] == r {
      assert r in multiset(rows[..n]);
      var i :| 0 <= i < n && rows[..n][i] == r;
      assert rows[i] == rows[n];
    } else {
      Repeated(rows[..n], r);
      var i, j :| 0 <= i < j < n && rows[..n][i] == rows[..n][j];
      assert rows[i] == rows[j];
    }
  }

  lemma UniqueIgnoresOrder<K(!new), R(!new)>(k: R -> K, rows: seq<R>)
    ensures Unique(k, rows) <==> UniqueBag(k, multiset(rows))
  {
    var bag := multiset(rows);
    if Unique(k, rows) {
      forall r ensures bag[r] <= 1 {
        if bag[r] >= 2 {
          Repeated(rows, r);
          assert false;
        }
      }
    }
    if UniqueBag(k, bag) {
      forall i, j | 0 <= i < j < |rows| ensures k(rows[i]) != k(rows[j]) {
        assert rows[i] in bag && rows[j] in bag;
        if rows[i] == rows[j] {
          CountAtMost(rows, i, j);
          assert false;
        }
      }
    }
  }

  /** Rows with unique keys spell the same table in any order. */
  lemma IndexIgnoresOrder<K(!new), R(!new)>(k: R -> K, rows: seq<R>, other: seq<R>)
    requires multiset(rows) == multiset(other)
    ensures Unique(k, rows) == Unique(k, other)
    ensures Unique(k, rows) ==> Index(k, rows) == Index(k, other)
  {
    UniqueIgnoresOrder(k, rows);
    UniqueIgnoresOrder(k, other);
    if Unique(k, rows) {
      SameKeys(k, rows, other);
      SameKeys(k, other, rows);
      var m, n := Index(k, rows), Index(k, other);
      hide Unique;
      forall id | id in m ensures m[id] == n[id] { SameEntry(k, rows, other, id); }
      hide Index;
      assert m.Keys == n.Keys;
      assert m == n;
    }
  }

  lemma SameEntry<K(!new), R(!new)>(k: R -> K, rows: seq<R>, other: seq<R>, id: K)
    requires multiset(rows) == multiset(other) && UniqueBag(k, multiset(rows)) && id in Index(k, rows)
    requires id in Index(k, other)
    ensures Index(k, rows)[id] == Index(k, other)[id]
  {
    var r, s := Index(k, rows)[id], Index(k, other)[id];
    assert r in multiset(rows) && s in multiset(other);
  }

  lemma SameKeys<K(!new), R>(k: R -> K, rows: seq<R>, other: seq<R>)
    requires multiset(rows) == multiset(other)
    ensures Index(k, rows).Keys <= Index(k, other).Keys
  {
    forall id | id in Index(k, rows) ensures id in Index(k, other) {
      var r := Index(k, rows)[id];
      assert r in multiset(rows);
      assert r in other;
    }
  }

  /** Build the table, or refuse a repeated identity. */
  method BuildIndex<K(==, !new), R>(k: R -> K, rows: seq<R>) returns (r: Option<map<K, R>>)
    ensures r == if Unique(k, rows) then Some(Index(k, rows)) else None
  {
    var m: map<K, R> := map[];
    for i := 0 to |rows|
      invariant Unique(k, rows[..i]) && m == Index(k, rows[..i])
    {
      assert rows[..i + 1][..i] == rows[..i] && rows[..i + 1][i] == rows[i];
      if k(rows[i]) in m {
        assert exists j :: 0 <= j < i && k(rows[..i][j]) == k(rows[i]);
        return None;
      }
      assert forall j :: 0 <= j < i ==> k(rows[..i][j]) != k(rows[i]);
      m := m[k(rows[i]) := rows[i]];
    }
    assert rows[..|rows|] == rows;
    r := Some(m);
  }

  // ---------------------------------------------------------------- lists that differ in order only

  /** Each of the first `n` indices, once. */
  predicate Pairing(m: seq<nat>, n: nat) {
    |m| == n && (forall i :: 0 <= i < n ==> m[i] < n) && forall i, j :: 0 <= i < j < n ==> m[i] != m[j]
  }

  ghost predicate Rearranged<T(!new)>(xs: seq<T>, ys: seq<T>, m: seq<nat>) {
    |xs| == |ys| && Pairing(m, |xs|) && forall i :: 0 <= i < |xs| ==> xs[i] == ys[m[i]]
  }

  function Without<T>(ys: seq<T>, k: nat): (r: seq<T>)
    requires k < |ys|
    ensures |r| == |ys| - 1 && forall i :: 0 <= i < |r| ==> r[i] == ys[if i < k then i else i + 1]
    ensures multiset(ys) == multiset(r) + multiset{ys[k]}
  {
    assert ys == ys[..k] + [ys[k]] + ys[k + 1..];
    ys[..k] + ys[k + 1..]
  }

  lemma {:induction false} SameBagIsRearranged<T(!new)>(xs: seq<T>, ys: seq<T>) returns (m: seq<nat>)
    requires multiset(xs) == multiset(ys)
    ensures Rearranged(xs, ys, m)
  {
    assert |multiset(xs)| == |xs| && |multiset(ys)| == |ys|;
    if xs == [] {
      m := [];
    } else {
      var n := |xs| - 1;
      assert xs == xs[..n] + [xs[n]];
      assert xs[n] in multiset(ys);
      var k :| 0 <= k < |ys| && ys[k] == xs[n];
      assert multiset(xs[..n]) == multiset(xs) - multiset{xs[n]};
      assert multiset(Without(ys, k)) == multiset(ys) - multiset{xs[n]};
      var rest := SameBagIsRearranged(xs[..n], Without(ys, k));
      m := Shifted(rest, k) + [k];
      JoinRearranged(xs, ys, k, rest);
    }
  }

  lemma JoinRearranged<T(!new)>(xs: seq<T>, ys: seq<T>, k: nat, rest: seq<nat>)
    requires xs != [] && k < |ys| && ys[k] == xs[|xs| - 1]
    requires Rearranged(xs[..|xs| - 1], Without(ys, k), rest)
    ensures Rearranged(xs, ys, Shifted(rest, k) + [k])
  {
    ShiftedPairs(rest, k);
    hide Pairing;
    var m := Shifted(rest, k) + [k];
    forall i | 0 <= i < |xs| ensures m[i] < |ys| && xs[i] == ys[m[i]] {
      if i < |xs| - 1 { assert rest[i] < |rest| by { InRange(rest, i); } }
    }
  }

  lemma InRange(m: seq<nat>, i: nat)
    requires Pairing(m, |m|) && i < |m|
    ensures m[i] < |m|
  {
  }

  function Shifted(m: seq<nat>, k: nat): (r: seq<nat>)
    ensures |r| == |m| && forall i :: 0 <= i < |m| ==> r[i] == if m[i] < k then m[i] else m[i] + 1
  {
    seq(|m|, i requires 0 <= i < |m| => if m[i] < k then m[i] else m[i] + 1)
  }

  lemma ShiftedPairs(m: seq<nat>, k: nat)
    requires Pairing(m, |m|) && k <= |m|
    ensures Pairing(Shifted(m, k) + [k], |m| + 1)
  {
  }

  /** Indices once `k` is taken out. */
  function Lowered(m: seq<nat>, k: nat): (r: seq<nat>)
    ensures |r| == |m| && forall i :: 0 <= i < |m| && m[i] != k ==> r[i] == if m[i] < k then m[i] else m[i] - 1
  {
    seq(|m|, i requires 0 <= i < |m| => if m[i] <= k then m[i] else m[i] - 1)
  }

  lemma RestIsRearranged<T(!new)>(xs: seq<T>, ys: seq<T>, m: seq<nat>)
    requires Rearranged(xs, ys, m) && xs != []
    ensures var n := |xs| - 1;
            m[n] < |ys| && xs[n] == ys[m[n]] && Rearranged(xs[..n], Without(ys, m[n]), Lowered(m[..n], m[n]))
  {
  }

  lemma {:induction false} RearrangedIsSameBag<T(!new)>(xs: seq<T>, ys: seq<T>, m: seq<nat>)
    requires Rearranged(xs, ys, m)
    ensures multiset(xs) == multiset(ys)
  {
    if xs != [] {
      var n := |xs| - 1;
      var k := m[n];
      RestIsRearranged(xs, ys, m);
      hide Rearranged;
      RearrangedIsSameBag(xs[..n], Without(ys, k), Lowered(m[..n], k));
      assert xs == xs[..n] + [xs[n]];
    }
  }

  /** A pairing reaches every index. */
  lemma PairingReaches(m: seq<nat>, n: nat, k: nat)
    requires Pairing(m, n) && k < n
    ensures exists i :: 0 <= i < n && m[i] == k
  {
    if !exists i :: 0 <= i < n && m[i] == k {
      Misses(m, n, k);
      assert false;
    }
  }

  function UpTo(n: nat): (s: set<nat>)
    ensures |s| == n && forall i: nat :: i in s <==> i < n
  {
    if n == 0 then {} else UpTo(n - 1) + {n - 1}
  }

  /** Distinct indices that avoid one of `n` are fewer than `n`. */
  lemma Misses(m: seq<nat>, n: nat, k: nat)
    requires (forall i :: 0 <= i < |m| ==> m[i] < n && m[i] != k) && k < n
    requires forall i, j :: 0 <= i < j < |m| ==> m[i] != m[j]
    ensures |m| < n
  {
    Fits(m, UpTo(n) - {k});
  }

  lemma {:induction false} Fits(m: seq<nat>, s: set<nat>)
    requires (forall i :: 0 <= i < |m| ==> m[i] in s) && forall i, j :: 0 <= i < j < |m| ==> m[i] != m[j]
    ensures |m| <= |s|
  {
    if m != [] { Fits(m[..|m| - 1], s - {m[|m| - 1]}); }
  }
}
