/** The posting and balance passes of the streaming verifier (verification.py). */
module BalanceVerifier {
  import opened Ids
  import opened Sums
  import opened Journal

  datatype Row = Row(book: Id, transaction: Id, position: int, account: Id, asset: AssetCode, side: Side, units: int)

  datatype Unbalanced = Unbalanced(book: Id, transaction: Id, asset: AssetCode)

  datatype Key = Key(book: Id, account: Id, asset: AssetCode)

  function Units(r: Row): int { if r.side == Debit then r.units else -r.units }

  // ---------------------------------------------------------------- declarative totals

  function InTransaction(book: Id, t: Id, asset: AssetCode): Row -> int {
    (r: Row) => if r.book == book && r.transaction == t && r.asset == asset then Units(r) else 0
  }

  function NetOf(rows: seq<Row>, u: Unbalanced): int { Sum(InTransaction(u.book, u.transaction, u.asset), rows) }

  function InKey(k: Key): Row -> int { (r: Row) => if Key(r.book, r.account, r.asset) == k then Units(r) else 0 }

  function Folded(rows: seq<Row>, k: Key): int { Sum(InKey(k), rows) }

  function InBook(book: Id, asset: AssetCode): Row -> int {
    (r: Row) => if r.book == book && r.asset == asset then Units(r) else 0
  }

  /** Rows as the query returns them: by book, transaction, position. */
  predicate Ordered(rows: seq<Row>) {
    forall i, j :: 0 <= i < j < |rows| ==>
      rows[i].book < rows[j].book || (rows[i].book == rows[j].book && rows[i].transaction <= rows[j].transaction)
  }

  predicate Seen(rows: seq<Row>, book: Id, t: Id) {
    exists i :: 0 <= i < |rows| && rows[i].book == book && rows[i].transaction == t
  }

  lemma {:induction false} UnseenNetIsZero(rows: seq<Row>, u: Unbalanced)
    requires !Seen(rows, u.book, u.transaction)
    ensures NetOf(rows, u) == 0
  {
    SumOfZeros(InTransaction(u.book, u.transaction, u.asset), rows);
  }

  // ---------------------------------------------------------------- the posting pass

  /** Exactly the nonzero transaction totals, except those of `open`, each once. */
  ghost predicate Reported(rows: seq<Row>, open: (Id, Id), isOpen: bool, issues: seq<Unbalanced>) {
    && Distinct(issues)
    && forall u :: u in issues <==> NetOf(rows, u) != 0 && !(isOpen && (u.book, u.transaction) == open)
  }

  method VerifyPostings(rows: seq<Row>) returns (issues: seq<Unbalanced>, count: nat)
    requires Ordered(rows)
    ensures Distinct(issues) && forall u :: u in issues <==> NetOf(rows, u) != 0
    ensures count == |rows|
  {
    hide NetOf, Seen, Ordered;
    issues, count := [], 0;
    var isOpen, open := false, (0, 0);
    var net: map<AssetCode, int> := map[];
    NothingReported();
    for i := 0 to |rows|
      invariant count == i && Reported(rows[..i], open, isOpen, issues) && isOpen == (i > 0)
      invariant isOpen ==> open == (rows[i - 1].book, rows[i - 1].transaction)
      invariant isOpen ==> forall a :: At(net, a) == NetOf(rows[..i], Unbalanced(open.0, open.1, a))
    {
      var r := rows[i];
      var key := (r.book, r.transaction);
      if !isOpen || key != open {
        if isOpen { issues := Finish(rows[..i], open, net, issues); }
        NewTransaction(rows, i);
        isOpen, open, net := true, key, map[];
        assert Reported(rows[..i], open, true, issues) by { OpenUnseen(rows[..i], open, issues); }
      }
      assert rows[..i + 1] == rows[..i] + [r];
      NetGrows(rows[..i], r);
      count := count + 1;
      net := net[r.asset := At(net, r.asset) + if r.side == Debit then r.units else -r.units];
    }
    assert rows[..|rows|] == rows;
    if isOpen { issues := Finish(rows, open, net, issues); }
  }

  lemma NothingReported()
    ensures Reported([], (0, 0), false, [])
  {
  }

  lemma NewTransaction(rows: seq<Row>, i: nat)
    requires i < |rows| && Ordered(rows)
    requires i > 0 ==> (rows[i - 1].book, rows[i - 1].transaction) != (rows[i].book, rows[i].transaction)
    ensures forall a :: NetOf(rows[..i], Unbalanced(rows[i].book, rows[i].transaction, a)) == 0
  {
    assert forall k :: 0 <= k < i ==> rows[..i][k] == rows[k];
    assert i > 0 ==>
      rows[i - 1].book < rows[i].book
      || (rows[i - 1].book == rows[i].book && rows[i - 1].transaction < rows[i].transaction);
    assert forall k :: 0 <= k < i ==>
      k == i - 1 || rows[k].book < rows[i - 1].book
      || (rows[k].book == rows[i - 1].book && rows[k].transaction <= rows[i - 1].transaction);
    assert !Seen(rows[..i], rows[i].book, rows[i].transaction);
    forall a ensures NetOf(rows[..i], Unbalanced(rows[i].book, rows[i].transaction, a)) == 0 {
      UnseenNetIsZero(rows[..i], Unbalanced(rows[i].book, rows[i].transaction, a));
    }
  }

  lemma OpenUnseen(rows: seq<Row>, open: (Id, Id), issues: seq<Unbalanced>)
    requires Reported(rows, open, false, issues) && forall a :: NetOf(rows, Unbalanced(open.0, open.1, a)) == 0
    ensures Reported(rows, open, true, issues)
  {
    hide NetOf;
    forall u | u in issues ensures (u.book, u.transaction) != open {
      assert u == Unbalanced(u.book, u.transaction, u.asset);
    }
  }

  lemma NetGrows(rows: seq<Row>, r: Row)
    ensures forall u :: NetOf(rows + [r], u) ==
              NetOf(rows, u)
              + if (u.book, u.transaction, u.asset) == (r.book, r.transaction, r.asset) then Units(r) else 0
  {
    forall u ensures NetOf(rows + [r], u) == NetOf(rows, u) + InTransaction(u.book, u.transaction, u.asset)(r) {
      SumAppend(InTransaction(u.book, u.transaction, u.asset), rows, r);
    }
  }

  /** Report what is left over in each asset of the transaction just ended. */
  method Finish(ghost rows: seq<Row>, open: (Id, Id), net: map<AssetCode, int>, before: seq<Unbalanced>)
    returns (issues: seq<Unbalanced>)
    requires Reported(rows, open, true, before)
    requires forall a :: At(net, a) == NetOf(rows, Unbalanced(open.0, open.1, a))
    ensures Reported(rows, open, false, issues)
  {
    hide NetOf;
    issues := before;
    var left := net.Keys;
    while left != {}
      invariant left <= net.Keys && Distinct(issues)
      invariant forall u :: u in issues <==>
                  u in before || ((u.book, u.transaction) == open && u.asset in net && u.asset !in left
                      && net[u.asset] != 0)
    {
      var a :| a in left;
      var u := Unbalanced(open.0, open.1, a);
      if net[a] != 0 {
        assert u !in issues;
        issues := issues + [u];
      }
      left := left - {a};
    }
    FinishReports(rows, open, net, before, issues);
  }

  lemma FinishReports(rows: seq<Row>, open: (Id, Id), net: map<AssetCode, int>, before: seq<Unbalanced>,
                      issues: seq<Unbalanced>)
    requires Reported(rows, open, true, before) && Distinct(issues)
    requires forall a :: At(net, a) == NetOf(rows, Unbalanced(open.0, open.1, a))
    requires forall u :: u in issues <==>
               u in before || ((u.book, u.transaction) == open && u.asset in net && net[u.asset] != 0)
    ensures Reported(rows, open, false, issues)
  {
    hide NetOf;
    forall u ensures u in issues <==> NetOf(rows, u) != 0 {
      if (u.book, u.transaction) == open {
        assert u == Unbalanced(open.0, open.1, u.asset) && At(net, u.asset) == NetOf(rows, u);
      }
    }
  }

  // ---------------------------------------------------------------- the balance pass

  /** The grouped subquery: one total for each key that has a posting. */
  method GroupTotals(rows: seq<Row>) returns (m: map<Key, int>)
    ensures forall k :: At(m, k) == Folded(rows, k)
    ensures forall k :: k in m <==>
              exists i :: 0 <= i < |rows| && Key(rows[i].book, rows[i].account, rows[i].asset) == k
  {
    m := map[];
    for i := 0 to |rows|
      invariant forall k :: At(m, k) == Folded(rows[..i], k)
      invariant forall k :: k in m <==> exists j :: 0 <= j < i && Key(rows[j].book, rows[j].account, rows[j].asset) == k
    {
      forall k ensures Folded(rows[..i + 1], k) == Folded(rows[..i], k) + InKey(k)(rows[i]) {
        SumStep(InKey(k), rows, i);
      }
      var k := Key(rows[i].book, rows[i].account, rows[i].asset);
      m := m[k := At(m, k) + if rows[i].side == Debit then rows[i].units else -rows[i].units];
    }
    assert rows[..|rows|] == rows;
  }

  /** The full outer join of stored and computed balances, one row for each key on either side. */
  method VerifyBalances(stored: map<Key, int>, rows: seq<Row>) returns (issues: seq<Key>, count: nat)
    ensures Distinct(issues) && forall k :: k in issues <==> At(stored, k) != Folded(rows, k)
    ensures count == |stored|
  {
    var computed := GroupTotals(rows);
    issues, count := FullJoin(stored, computed);
    assert forall k :: At(computed, k) == Folded(rows, k);
    hide Folded, At, Distinct;
  }

  method FullJoin(stored: map<Key, int>, computed: map<Key, int>) returns (issues: seq<Key>, count: nat)
    ensures Distinct(issues) && forall k :: k in issues <==> At(stored, k) != At(computed, k)
    ensures count == |stored|
  {
    hide Mismatches, Distinct, At, Parts;
    var keys := stored.Keys + computed.Keys;
    issues, count := [], 0;
    var left := keys;
    ghost var joined: set<Key> := {};
    NoMismatch(stored, computed);
    NoneMoved(keys);
    while left != {}
      invariant Parts(keys, joined, left) && count == |stored.Keys * joined|
      invariant Mismatches(stored, computed, joined, issues)
    {
      var k :| k in left;
      MoveKey(keys, joined, left, k);
      JoinRow(stored, computed, joined, k, issues);
      AbsentIsZero(stored, k);
      var units := 0;
      if k in stored {
        units := stored[k];
        count := count + 1;
      }
      if units != At(computed, k) { issues := issues + [k]; }
      left, joined := left - {k}, joined + {k};
    }
    AllMoved(keys, joined);
    AllJoined(stored, computed, issues);
  }

  lemma AbsentIsZero(stored: map<Key, int>, k: Key)
    ensures At(stored, k) == if k in stored then stored[k] else 0
  {
  }

  ghost predicate Parts(keys: set<Key>, joined: set<Key>, left: set<Key>) { joined + left == keys && joined !! left }

  lemma NoneMoved(keys: set<Key>)
    ensures Parts(keys, {}, keys)
  {
  }

  lemma MoveKey(keys: set<Key>, joined: set<Key>, left: set<Key>, k: Key)
    requires Parts(keys, joined, left) && k in left
    ensures k !in joined && Parts(keys, joined + {k}, left - {k})
  {
  }

  lemma AllMoved(keys: set<Key>, joined: set<Key>)
    requires Parts(keys, joined, {})
    ensures joined == keys
  {
  }

  /** The mismatching keys among those joined so far, each once. */
  ghost predicate Mismatches(stored: map<Key, int>, computed: map<Key, int>, joined: set<Key>, issues: seq<Key>) {
    Distinct(issues) && forall k :: k in issues <==> k in joined && At(stored, k) != At(computed, k)
  }

  lemma NoMismatch(stored: map<Key, int>, computed: map<Key, int>)
    ensures Mismatches(stored, computed, {}, []) && stored.Keys * {} == {}
  {
  }

  lemma JoinRow(stored: map<Key, int>, computed: map<Key, int>, joined: set<Key>, k: Key, issues: seq<Key>)
    requires k !in joined && Mismatches(stored, computed, joined, issues)
    ensures Mismatches(stored, computed, joined + {k},
                       if At(stored, k) != At(computed, k) then issues + [k] else issues)
    ensures |stored.Keys * (joined + {k})| == |stored.Keys * joined| + if k in stored then 1 else 0
  {
    if k in stored {
      assert stored.Keys * (joined + {k}) == stored.Keys * joined + {k};
    } else {
      assert stored.Keys * (joined + {k}) == stored.Keys * joined;
    }
    assert k !in issues;
  }

  lemma AllJoined(stored: map<Key, int>, computed: map<Key, int>, issues: seq<Key>)
    requires Mismatches(stored, computed, stored.Keys + computed.Keys, issues)
    ensures Distinct(issues) && (forall k :: k in issues <==> At(stored, k) != At(computed, k))
    ensures |stored.Keys * (stored.Keys + computed.Keys)| == |stored|
  {
    assert stored.Keys * (stored.Keys + computed.Keys) == stored.Keys;
  }

  // ---------------------------------------------------------------- both passes together

  function Group(f: Row -> int, key: Row -> Id, x: Id): Row -> int { (r: Row) => if key(r) == x then f(r) else 0 }

  function GroupTotal(f: Row -> int, key: Row -> Id, rows: seq<Row>): Id -> int {
    (x: Id) => Sum(Group(f, key, x), rows)
  }

  /** Adding up by groups is adding up. */
  lemma {:induction false} GroupsAddUp(f: Row -> int, key: Row -> Id, rows: seq<Row>, groups: set<Id>)
    requires forall i :: 0 <= i < |rows| ==> key(rows[i]) in groups
    ensures SumSet(GroupTotal(f, key, rows), groups) == Sum(f, rows)
  {
    if rows == [] {
      SumSetZero(GroupTotal(f, key, rows), groups);
    } else {
      var n := |rows| - 1;
      var r := rows[n];
      GroupsAddUp(f, key, rows[..n], groups);
      var g, before := GroupTotal(f, key, rows), GroupTotal(f, key, rows[..n]);
      var rest := groups - {key(r)};
      SumSetRemove(g, groups, key(r));
      SumSetRemove(before, groups, key(r));
      SumSetEqual(g, before, rest);
    }
  }

  function AccountOf(r: Row): Id { r.account }

  function TransactionOf(r: Row): Id { r.transaction }

  function StoredUnits(stored: map<Key, int>, book: Id, asset: AssetCode): Id -> int {
    (account: Id) => At(stored, Key(book, account, asset))
  }

  function Accounts(stored: map<Key, int>): set<Id> { set k | k in stored :: k.account }

  lemma AccountTotals(rows: seq<Row>, book: Id, asset: AssetCode, account: Id)
    ensures GroupTotal(InBook(book, asset), AccountOf, rows)(account) == Folded(rows, Key(book, account, asset))
  {
    SumEqual(Group(InBook(book, asset), AccountOf, account), InKey(Key(book, account, asset)), rows);
  }

  lemma TransactionTotals(rows: seq<Row>, book: Id, asset: AssetCode, t: Id)
    ensures GroupTotal(InBook(book, asset), TransactionOf, rows)(t) == NetOf(rows, Unbalanced(book, t, asset))
  {
    SumEqual(Group(InBook(book, asset), TransactionOf, t), InTransaction(book, t, asset), rows);
  }

  /** If neither pass reports anything, the stored balances of a Book in an asset sum to zero. */
  lemma CleanPassesSumToZero(stored: map<Key, int>, rows: seq<Row>, book: Id, asset: AssetCode)
    requires forall u :: NetOf(rows, u) == 0
    requires forall k :: At(stored, k) == Folded(rows, k)
    ensures SumSet(StoredUnits(stored, book, asset), Accounts(stored)) == 0
  {
    hide NetOf, Folded, Sum;
    var f := InBook(book, asset);
    var ts := set i | 0 <= i < |rows| :: rows[i].transaction;
    forall t | t in ts ensures GroupTotal(f, TransactionOf, rows)(t) == 0 { TransactionTotals(rows, book, asset, t); }
    SumSetZero(GroupTotal(f, TransactionOf, rows), ts);
    GroupsAddUp(f, TransactionOf, rows, ts);
    var own := Accounts(stored);
    var others := (set i | 0 <= i < |rows| :: rows[i].account) - own;
    var g, h := GroupTotal(f, AccountOf, rows), StoredUnits(stored, book, asset);
    GroupsAddUp(f, AccountOf, rows, own + others);
    forall a | a in own + others ensures g(a) == h(a) { AccountTotals(rows, book, asset, a); }
    SumSetEqual(g, h, own + others);
    forall a | a in others ensures h(a) == 0 { assert Key(book, a, asset) in stored ==> a in own; }
    SumSetZero(h, others);
    SumSetUnion(h, own, others);
  }
}
