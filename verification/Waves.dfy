/** Dependency waves: emit whatever has its prerequisite done, sorted by a key, until nothing is ready. */
module Waves {
  import opened Ids
  import opened Outcomes

  /** For each item what it waits for: nothing, or one other item. */
  type Graph = map<Id, Option<Id>>

  ghost predicate Injective(key: Id -> int) { forall a, b :: key(a) == key(b) ==> a == b }

  function Elems<T>(xs: seq<T>): set<T> { set x | x in xs }

  // ---------------------------------------------------------------- sorting a set by a key

  predicate Ascending(key: Id -> int, xs: seq<Id>) {
    forall i, j :: 0 <= i < j < |xs| ==> key(xs[i]) < key(xs[j])
  }

  lemma {:induction false} FindLeast(s: set<Id>, key: Id -> int) returns (least: Id)
    requires s != {}
    ensures least in s && forall x :: x in s ==> key(least) <= key(x)
  {
    var m :| m in s;
    least := m;
    if s != {m} {
      var k := FindLeast(s - {m}, key);
      if key(k) < key(m) { least := k; }
      forall x | x in s ensures key(least) <= key(x) { assert x != m ==> x in s - {m}; }
    }
  }

  lemma HasLeast(s: set<Id>, key: Id -> int)
    requires s != {}
    ensures exists m :: m in s && forall x :: x in s ==> key(m) <= key(x)
  {
    var m := FindLeast(s, key);
  }

  ghost function Least(s: set<Id>, key: Id -> int): (m: Id)
    requires s != {}
    ensures m in s && forall x :: x in s ==> key(m) <= key(x)
  {
    HasLeast(s, key);
    var m :| m in s && forall x :: x in s ==> key(m) <= key(x);
    m
  }

  lemma LeastAscends(s: set<Id>, key: Id -> int, m: Id, rest: seq<Id>)
    requires Injective(key) && m in s && (forall x :: x in s ==> key(m) <= key(x)) && Elems(rest) == s - {m}
    requires Ascending(key, rest)
    ensures Elems([m] + rest) == s && Ascending(key, [m] + rest)
  {
    forall j | 0 <= j < |rest| ensures key(m) < key(rest[j]) {
      assert rest[j] in Elems(rest);
      assert key(rest[j]) != key(m);
    }
    assert ([m] + rest)[0] == m;
    assert Elems([m] + rest) == {m} + Elems(rest);
  }

  ghost function Sorted(s: set<Id>, key: Id -> int): (r: seq<Id>)
    requires Injective(key)
    ensures Elems(r) == s && Ascending(key, r)
  {
    if s == {} then [] else
      var m := Least(s, key);
      var rest := Sorted(s - {m}, key);
      LeastAscends(s, key, m, rest);
      [m] + rest
  }

  lemma FirstIsLeast(s: set<Id>, key: Id -> int, xs: seq<Id>, m: Id)
    requires Elems(xs) == s && Ascending(key, xs) && m in s && forall x :: x in s ==> key(m) <= key(x)
    ensures xs != [] && xs[0] == m && Elems(xs[1..]) == s - {m} && Ascending(key, xs[1..])
  {
    assert m in Elems(xs);
    var k :| 0 <= k < |xs| && xs[k] == m;
    assert xs[0] in Elems(xs);
    forall x | x in s - {m} ensures x in Elems(xs[1..]) {
      assert x in Elems(xs);
      var i :| 0 <= i < |xs| && xs[i] == x;
      assert xs[1..][i - 1] == x;
    }
    forall x | x in Elems(xs[1..]) ensures x in s - {m} {
      var i :| 0 <= i < |xs| - 1 && xs[1..][i] == x;
      assert xs[i + 1] == x && x in Elems(xs);
    }
  }

  /** There is one ascending list of a set, so any sort returns it. */
  lemma {:induction false} SortedIsUnique(s: set<Id>, key: Id -> int, xs: seq<Id>)
    requires Injective(key) && Elems(xs) == s && Ascending(key, xs)
    ensures xs == Sorted(s, key)
  {
    if s == {} {
      if xs != [] { HasElems(xs); }
    } else {
      LeastFirst(s, key, xs);
      hide *;
      SortedIsUnique(s - {xs[0]}, key, xs[1..]);
    }
  }

  lemma HasElems(xs: seq<Id>)
    requires xs != []
    ensures Elems(xs) != {}
  {
    assert xs[0] in Elems(xs);
  }

  lemma LeastFirst(s: set<Id>, key: Id -> int, xs: seq<Id>)
    requires Injective(key) && Elems(xs) == s && Ascending(key, xs) && s != {}
    ensures xs != [] && xs[0] in s && Elems(xs[1..]) == s - {xs[0]} && Ascending(key, xs[1..])
    ensures Sorted(s, key) == [xs[0]] + Sorted(s - {xs[0]}, key)
  {
    hide Elems, Ascending;
    FirstIsLeast(s, key, xs, Least(s, key));
  }

  lemma AscendingHasNoRepeat(key: Id -> int, xs: seq<Id>)
    requires Ascending(key, xs)
    ensures forall i, j :: 0 <= i < j < |xs| ==> xs[i] != xs[j]
  {
  }

  lemma InsertAscends(key: Id -> int, xs: seq<Id>, n: nat, x: Id)
    requires Ascending(key, xs) && n <= |xs| && (n < |xs| ==> key(x) < key(xs[n]))
    requires n > 0 ==> key(xs[n - 1]) < key(x)
    ensures Ascending(key, xs[..n] + [x] + xs[n..])
    ensures Elems(xs[..n] + [x] + xs[n..]) == Elems(xs) + {x}
  {
    var r := xs[..n] + [x] + xs[n..];
    InsertKeepsElems(xs, n, x);
    hide Elems;
    forall i, j | 0 <= i < j < |r| ensures key(r[i]) < key(r[j]) {
      assert i < n ==> key(xs[i]) < key(x);
      assert j > n ==> key(x) < key(xs[j - 1]);
    }
  }

  lemma InsertKeepsElems(xs: seq<Id>, n: nat, x: Id)
    requires n <= |xs|
    ensures Elems(xs[..n] + [x] + xs[n..]) == Elems(xs) + {x}
  {
    var r := xs[..n] + [x] + xs[n..];
    forall y | y in Elems(xs) ensures y in Elems(r) {
      var i :| 0 <= i < |xs| && xs[i] == y;
      assert r[if i < n then i else i + 1] == y;
    }
    assert r[n] == x;
  }

  /** Insert into an ascending list. */
  method InsertByKey(key: Id -> int, xs: seq<Id>, x: Id) returns (r: seq<Id>)
    requires Injective(key) && Ascending(key, xs) && x !in xs
    ensures Ascending(key, r) && Elems(r) == Elems(xs) + {x}
  {
    var n := |xs|;
    while n > 0 && key(x) < key(xs[n - 1])
      invariant 0 <= n <= |xs| && (n < |xs| ==> key(x) < key(xs[n]))
    {
      n := n - 1;
    }
    assert n > 0 ==> key(xs[n - 1]) != key(x);
    InsertAscends(key, xs, n, x);
    r := xs[..n] + [x] + xs[n..];
  }

  method SortByKey(key: Id -> int, s: set<Id>) returns (r: seq<Id>)
    requires Injective(key)
    ensures r == Sorted(s, key)
  {
    r := [];
    var left := s;
    while left != {}
      invariant left <= s && Ascending(key, r) && Elems(r) == s - left
    {
      var x :| x in left;
      assert x in r ==> x in Elems(r);
      r := InsertByKey(key, r, x);
      left := left - {x};
    }
    SortedIsUnique(s, key, r);
  }

  // ---------------------------------------------------------------- waves

  function Ready(g: Graph, done: set<Id>): set<Id> {
    set id | id in g && id !in done && (g[id] == None || g[id].value in done)
  }

  ghost function Order(g: Graph, done: set<Id>, key: Id -> int): seq<Id>
    requires Injective(key)
    decreases |g.Keys - done|
  {
    var ready := Ready(g, done);
    if ready == {} then [] else
      Shrinks(g, done);
      Sorted(ready, key) + Order(g, done + ready, key)
  }

  lemma OrderUnfolds(g: Graph, done: set<Id>, key: Id -> int)
    requires Injective(key) && Ready(g, done) != {}
    ensures Order(g, done, key) == Sorted(Ready(g, done), key) + Order(g, done + Ready(g, done), key)
  {
  }

  lemma Shrinks(g: Graph, done: set<Id>)
    requires Ready(g, done) != {}
    ensures |g.Keys - (done + Ready(g, done))| < |g.Keys - done|
  {
    var x :| x in Ready(g, done);
    assert x in g.Keys - done;
    assert g.Keys - (done + Ready(g, done)) == (g.Keys - done) - Ready(g, done);
    Fewer(g.Keys - done, Ready(g, done));
  }

  lemma Fewer(s: set<Id>, t: set<Id>)
    requires t <= s && t != {}
    ensures |s - t| < |s|
  {
    assert s == (s - t) + t;
    assert |s| == |s - t| + |t|;
  }

  /** Waiting chains: from `id`, in at most `n` steps, to something done or waiting for nothing. */
  ghost predicate Reaches(g: Graph, done: set<Id>, id: Id, n: nat)
    decreases n
  {
    id in done || (n > 0 && id in g && (g[id] == None || Reaches(g, done, g[id].value, n - 1)))
  }

  ghost predicate Grounded(g: Graph, done: set<Id>, id: Id) { exists n: nat :: Reaches(g, done, id, n) }

  lemma {:induction false} ReachesLater(g: Graph, done: set<Id>, more: set<Id>, id: Id, n: nat)
    requires Reaches(g, done + more, id, n) && more <= Ready(g, done)
    ensures Grounded(g, done, id)
    decreases n
  {
    if id in done {
      assert Reaches(g, done, id, 0);
    } else if id in more {
      assert g[id].Some? ==> Reaches(g, done, g[id].value, 0);
      assert Reaches(g, done, id, 1);
    } else if g[id].Some? {
      ReachesLater(g, done, more, g[id].value, n - 1);
      var k: nat :| Reaches(g, done, g[id].value, k);
      assert Reaches(g, done, id, k + 1);
    } else {
      assert Reaches(g, done, id, 1);
    }
  }

  ghost predicate SoundOrder(g: Graph, done: set<Id>, r: seq<Id>) {
    && (forall i :: 0 <= i < |r| ==> SoundAt(g, done, r, i))
    && (forall i, j :: 0 <= i < j < |r| ==> r[i] != r[j])
  }

  /** An item of the order is grounded, was not already done, and its prerequisite is done or strictly earlier. */
  ghost predicate SoundAt(g: Graph, done: set<Id>, r: seq<Id>, i: nat)
    requires i < |r|
  {
    && r[i] in g && r[i] !in done && Grounded(g, done, r[i])
    && (g[r[i]].Some? ==> g[r[i]].value in done || g[r[i]].value in r[..i])
  }

  /** What a wave order emits: each grounded item once, nothing else, its prerequisite strictly earlier. */
  lemma {:induction false} OrderIsSound(g: Graph, done: set<Id>, key: Id -> int)
    requires Injective(key)
    ensures SoundOrder(g, done, Order(g, done, key))
    decreases |g.Keys - done|
  {
    var ready := Ready(g, done);
    if ready != {} {
      Shrinks(g, done);
      OrderIsSound(g, done + ready, key);
      JoinIsSound(g, done, key, Order(g, done + ready, key));
    }
  }

  lemma JoinIsSound(g: Graph, done: set<Id>, key: Id -> int, rest: seq<Id>)
    requires Injective(key) && SoundOrder(g, done + Ready(g, done), rest)
    ensures SoundOrder(g, done, Sorted(Ready(g, done), key) + rest)
  {
    hide Sorted, Grounded, SoundAt, Ready, Injective;
    var ready := Ready(g, done);
    var first := Sorted(ready, key);
    AscendingHasNoRepeat(key, first);
    var r := first + rest;
    forall i | 0 <= i < |r| ensures SoundAt(g, done, r, i) { Emitted(g, done, first, rest, i); }
    forall i, j | 0 <= i < j < |r| ensures r[i] != r[j] {
      Apart(g, done, first, rest, i, j);
    }
  }

  lemma Apart(g: Graph, done: set<Id>, first: seq<Id>, rest: seq<Id>, i: nat, j: nat)
    requires Elems(first) == Ready(g, done) && SoundOrder(g, done + Ready(g, done), rest)
    requires forall i, j :: 0 <= i < j < |first| ==> first[i] != first[j]
    requires i < j < |first| + |rest|
    ensures (first + rest)[i] != (first + rest)[j]
  {
    hide Ready, Grounded;
    if i < |first| <= j {
      assert first[i] in Elems(first);
      assert SoundAt(g, done + Ready(g, done), rest, j - |first|);
    }
  }

  lemma Emitted(g: Graph, done: set<Id>, first: seq<Id>, rest: seq<Id>, i: nat)
    requires Elems(first) == Ready(g, done) && SoundOrder(g, done + Ready(g, done), rest) && i < |first| + |rest|
    ensures SoundAt(g, done, first + rest, i)
  {
    var r := first + rest;
    if i < |first| {
      assert r[i] in Elems(first);
      assert g[r[i]].Some? ==> Reaches(g, done, g[r[i]].value, 0);
      assert Reaches(g, done, r[i], 1);
    } else {
      var j, ready := i - |first|, Ready(g, done);
      assert SoundAt(g, done + ready, rest, j);
      var n: nat :| Reaches(g, done + ready, rest[j], n);
      ReachesLater(g, done, ready, rest[j], n);
      if g[rest[j]].Some? && g[rest[j]].value !in done {
        assert r[..i] == first + rest[..j];
        assert g[rest[j]].value in ready ==> g[rest[j]].value in Elems(first);
      }
    }
  }

  lemma ElemsJoin(done: set<Id>, first: seq<Id>, rest: seq<Id>)
    ensures done + Elems(first + rest) == done + Elems(first) + Elems(rest)
  {
    assert Elems(first + rest) == Elems(first) + Elems(rest);
  }

  lemma {:induction false} OrderStops(g: Graph, done: set<Id>, key: Id -> int)
    requires Injective(key)
    ensures Ready(g, done + Elems(Order(g, done, key))) == {}
    decreases |g.Keys - done|
  {
    var ready := Ready(g, done);
    if ready == {} {
      assert done + Elems(Order(g, done, key)) == done;
    } else {
      Shrinks(g, done);
      OrderUnfolds(g, done, key);
      OrderStops(g, done + ready, key);
      hide Order, Sorted, Ready, Injective;
      ElemsJoin(done, Sorted(ready, key), Order(g, done + ready, key));
    }
  }

  lemma {:induction false} ClosedUnderReach(g: Graph, base: set<Id>, done: set<Id>, id: Id, n: nat)
    requires Ready(g, done) == {} && base <= done && Reaches(g, base, id, n)
    ensures id in done
    decreases n
  {
    if id !in base && g[id].Some? { ClosedUnderReach(g, base, done, g[id].value, n - 1); }
    assert id !in done ==> id in Ready(g, done);
  }

  /** Everything grounded is emitted, so an order is complete exactly when every item is grounded. */
  lemma OrderIsComplete(g: Graph, done: set<Id>, key: Id -> int)
    requires Injective(key)
    ensures forall id :: id in g && id !in done ==> (id in Order(g, done, key) <==> Grounded(g, done, id))
    ensures g.Keys <= done + Elems(Order(g, done, key)) <==> forall id :: id in g ==> Grounded(g, done, id)
  {
    OrderIsSound(g, done, key);
    OrderStops(g, done, key);
    var r := Order(g, done, key);
    forall id | id in g && id !in done && Grounded(g, done, id) ensures id in r {
      var n: nat :| Reaches(g, done, id, n);
      ClosedUnderReach(g, done, done + Elems(r), id, n);
    }
    forall id | id in g && id !in done && id in r ensures Grounded(g, done, id) {
      var i :| 0 <= i < |r| && r[i] == id;
      assert SoundAt(g, done, r, i);
    }
    forall id | id in done ensures Grounded(g, done, id) { assert Reaches(g, done, id, 0); }
    if forall id :: id in g ==> Grounded(g, done, id) {
      forall id | id in g ensures id in done + Elems(r) { assert id in done || id in r; }
    }
    if g.Keys <= done + Elems(r) {
      forall id | id in g ensures Grounded(g, done, id) { assert id in g.Keys; }
    }
  }

  /** Nothing is ready and something is left: some chain never ends. */
  lemma StuckWhenUngrounded(g: Graph, base: set<Id>, done: set<Id>, id: Id)
    requires Ready(g, done) == {} && base <= done && id in g && id !in done
    ensures !Grounded(g, base, id)
  {
    if Grounded(g, base, id) {
      var n: nat :| Reaches(g, base, id, n);
      ClosedUnderReach(g, base, done, id, n);
    }
  }

  // ---------------------------------------------------------------- cycles

  /** The item `n` steps up the chain, if the chain is that long. */
  ghost function Up(g: Graph, id: Id, n: nat): Option<Id>
    decreases n
  {
    if n == 0 then Some(id) else if id in g && g[id].Some? then Up(g, g[id].value, n - 1) else None
  }

  ghost predicate Cyclic(g: Graph) { exists id: Id, n: nat :: n > 0 && id in g && Up(g, id, n) == Some(id) }

  predicate Closed(g: Graph) { forall id :: id in g && g[id].Some? ==> g[id].value in g }

  lemma {:induction false} UpUp(g: Graph, id: Id, m: nat, n: nat)
    requires Up(g, id, m).Some?
    ensures Up(g, id, m + n) == Up(g, Up(g, id, m).value, n)
    decreases m
  {
    if m > 0 { UpUp(g, g[id].value, m - 1, n); }
  }

  /** Whatever an item waits for is an item too, or already done. */
  predicate ClosedOver(g: Graph, done: set<Id>) {
    forall id :: id in g && g[id].Some? ==> g[id].value in g || g[id].value in done
  }

  /** An ungrounded chain of a closed graph goes on for ever among ungrounded items. */
  lemma {:induction false} NeverEnds(g: Graph, done: set<Id>, id: Id, n: nat)
    requires ClosedOver(g, done) && id in g && !Grounded(g, done, id)
    ensures Up(g, id, n).Some? && Up(g, id, n).value in g
    decreases n
  {
    if n > 0 {
      assert !Reaches(g, done, id, 1);
      forall k: nat ensures !Reaches(g, done, g[id].value, k) { assert !Reaches(g, done, id, k + 1); }
      assert g[id].value in g by { assert !Reaches(g, done, g[id].value, 0); }
      NeverEnds(g, done, g[id].value, n - 1);
    }
  }

  lemma {:induction false} Pigeonhole(s: set<Id>, xs: seq<Id>)
    requires Elems(xs) <= s && |xs| > |s|
    ensures exists i, j :: 0 <= i < j < |xs| && xs[i] == xs[j]
  {
    var last := xs[|xs| - 1];
    var rest := xs[..|xs| - 1];
    assert last in Elems(xs);
    if last in rest {
      var i :| 0 <= i < |rest| && rest[i] == last;
      assert xs[i] == xs[|xs| - 1];
    } else {
      assert Elems(rest) <= s - {last} by {
        forall x | x in Elems(rest) ensures x in s - {last} { assert x in Elems(xs); }
      }
      Pigeonhole(s - {last}, rest);
      var i, j :| 0 <= i < j < |rest| && rest[i] == rest[j];
      assert xs[i] == xs[j];
    }
  }

  lemma UngroundedIsCyclic(g: Graph, done: set<Id>, id: Id)
    requires ClosedOver(g, done) && id in g && !Grounded(g, done, id)
    ensures Cyclic(g)
  {
    forall n: nat ensures Up(g, id, n).Some? && Up(g, id, n).value in g { NeverEnds(g, done, id, n); }
    var xs := seq(|g.Keys| + 1, n requires n >= 0 => Up(g, id, n).value);
    Pigeonhole(g.Keys, xs);
    var i, j :| 0 <= i < j < |xs| && xs[i] == xs[j];
    UpUp(g, id, i, j - i);
    assert Up(g, xs[i], j - i) == Some(xs[i]);
  }

  /** How many steps an item needs is one more than what it waits for needs. */
  lemma {:induction false} UpIsNearer(g: Graph, id: Id, n: nat, k: nat)
    requires Reaches(g, {}, id, k) && Up(g, id, n).Some?
    ensures n < k && Reaches(g, {}, Up(g, id, n).value, k - n)
    decreases n
  {
    if n > 0 { UpIsNearer(g, g[id].value, n - 1, k - 1); }
  }

  lemma {:induction false} AroundAgain(g: Graph, id: Id, n: nat, rounds: nat)
    requires Up(g, id, n) == Some(id)
    ensures Up(g, id, Rounds(n, rounds)) == Some(id) && (n > 0 ==> Rounds(n, rounds) >= rounds)
  {
    if rounds > 0 {
      AroundAgain(g, id, n, rounds - 1);
      UpUp(g, id, n, Rounds(n, rounds - 1));
    }
  }

  ghost function Rounds(n: nat, rounds: nat): nat { if rounds == 0 then 0 else n + Rounds(n, rounds - 1) }

  /** In a closed graph with nothing done to start from, waiting for ever and having a cycle are the same. */
  lemma GroundedIffAcyclic(g: Graph)
    requires Closed(g)
    ensures (forall id :: id in g ==> Grounded(g, {}, id)) <==> !Cyclic(g)
  {
    if id :| id in g && !Grounded(g, {}, id) { UngroundedIsCyclic(g, {}, id); }
    if Cyclic(g) {
      var id: Id, n: nat :| n > 0 && id in g && Up(g, id, n) == Some(id);
      if Grounded(g, {}, id) {
        var k: nat :| Reaches(g, {}, id, k);
        AroundAgain(g, id, n, k);
        UpIsNearer(g, id, Rounds(n, k), k);
      }
    }
  }

  // ---------------------------------------------------------------- finding a cycle

  /** Links from one item to another, as what each waits for. */
  function Edges(links: map<Id, Id>): Graph { map id | id in links :: Some(links[id]) }

  lemma {:induction false} UpIsPrefix(g: Graph, id: Id, k: nat, n: nat)
    requires k <= n && Up(g, id, n).Some?
    ensures Up(g, id, k).Some?
    decreases k
  {
    if k > 0 { UpIsPrefix(g, g[id].value, k - 1, n - 1); }
  }

  lemma OneMoreUp(g: Graph, id: Id, n: nat)
    requires Up(g, id, n).Some?
    ensures var at := Up(g, id, n).value; Up(g, id, n + 1) == if at in g && g[at].Some? then g[at] else None
  {
    UpUp(g, id, n, 1);
    var at := Up(g, id, n).value;
    if at in g && g[at].Some? { assert Up(g, g[at].value, 0) == g[at]; }
  }

  /** A chain that leaves the graph starts on no cycle. */
  lemma LeavingIsNoCycle(g: Graph, id: Id, n: nat, k: nat)
    requires Up(g, id, n).Some? && Up(g, id, n).value !in g && k > 0
    ensures Up(g, id, k) != Some(id)
  {
    OneMoreUp(g, id, n);
    if Up(g, id, k) == Some(id) {
      AroundAgain(g, id, k, n + 1);
      UpIsPrefix(g, id, n + 1, Rounds(k, n + 1));
      assert false;
    }
  }

  /** Follow the links from one item until they leave the graph or come round. */
  method ComesRound(links: map<Id, Id>, start: Id) returns (found: bool)
    ensures found ==> Cyclic(Edges(links))
    ensures !found ==> exists n: nat :: Up(Edges(links), start, n).Some? && Up(Edges(links), start, n).value !in links
  {
    hide Cyclic;
    ghost var g := Edges(links);
    var seen: set<Id> := {};
    var current := start;
    ghost var n: nat := 0;
    while current in links
      invariant Up(g, start, n) == Some(current) && seen <= links.Keys
      invariant forall x :: x in seen ==> exists k: nat :: k < n && Up(g, start, k) == Some(x)
      decreases |links.Keys - seen|
    {
      if current in seen {
        ghost var k: nat :| k < n && Up(g, start, k) == Some(current);
        RoundTrip(g, start, k, n);
        return true;
      }
      Fewer(links.Keys - seen, {current});
      assert links.Keys - (seen + {current}) == links.Keys - seen - {current};
      OneMoreUp(g, start, n);
      seen, current, n := seen + {current}, links[current], n + 1;
    }
    found := false;
  }

  lemma RoundTrip(g: Graph, start: Id, k: nat, n: nat)
    requires k < n && Up(g, start, k).Some? && Up(g, start, k) == Up(g, start, n) && Up(g, start, k).value in g
    ensures Cyclic(g)
  {
    UpUp(g, start, k, n - k);
    var x := Up(g, start, k).value;
    assert Up(g, x, n - k) == Some(x);
  }

  /** Some chain of links comes round. */
  method CycleExists(links: map<Id, Id>) returns (found: bool)
    ensures found <==> Cyclic(Edges(links))
  {
    ghost var g := Edges(links);
    var left := links.Keys;
    while left != {}
      invariant left <= links.Keys
      invariant forall id :: id in links && id !in left ==>
                  exists n: nat :: Up(g, id, n).Some? && Up(g, id, n).value !in links
    {
      var id :| id in left;
      found := ComesRound(links, id);
      if found { return; }
      left := left - {id};
    }
    forall id: Id, k: nat | k > 0 && id in g ensures Up(g, id, k) != Some(id) {
      assert id in links && id !in left;
      var n: nat :| Up(g, id, n).Some? && Up(g, id, n).value !in links;
      LeavingIsNoCycle(g, id, n, k);
    }
    found := false;
  }
}
