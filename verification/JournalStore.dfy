/** Deferred balance checks on journal postings (migration v2_0004). */
module JournalStore {
  import opened Ids
  import opened Sums
  import opened Journal

  datatype Key = Key(book: Id, transaction: Id)

  datatype Posting = Posting(key: Key, id: Id, position: nat, account: Id, asset: AssetCode, side: Side, units: int)

  /** `rows` is keyed by row identity, which an update keeps even when it moves the posting. */
  datatype Tables = Tables(transactions: set<Key>, rows: map<Id, Posting>)

  ghost function SignedUnits(p: Posting): int { if p.side == Debit then p.units else -p.units }

  ghost function Weight(rows: map<Id, Posting>, asset: AssetCode): Id -> int {
    (r: Id) => if r in rows && rows[r].asset == asset then SignedUnits(rows[r]) else 0
  }

  ghost function RowsOf(rows: map<Id, Posting>, key: Key): set<Id> { set r | r in rows && rows[r].key == key }

  ghost function AssetNet(rows: map<Id, Posting>, key: Key, asset: AssetCode): int {
    SumSet(Weight(rows, asset), RowsOf(rows, key))
  }

  /** At least two postings, and each asset balances on its own. */
  ghost predicate Sound(t: Tables, key: Key) {
    |RowsOf(t.rows, key)| >= 2 && forall asset :: AssetNet(t.rows, key, asset) == 0
  }

  ghost predicate AllSound(t: Tables) { forall key :: key in t.transactions ==> Sound(t, key) }

  // ---------------------------------------------------------------- row changes and their deferred triggers

  datatype Change =
    | TransactionInserted(key: Key)
    | PostingInserted(row: Posting)
    | PostingUpdated(before: Posting, after: Posting)
    | PostingDeleted(before: Posting)

  /** The keys one queued trigger looks at when the transaction commits. */
  function Targets(c: Change): set<Key> {
    match c
    case TransactionInserted(key) => {key}
    case PostingInserted(row) => {row.key}
    case PostingUpdated(before, after) => if after.key == before.key then {before.key} else {before.key, after.key}
    case PostingDeleted(before) => {before.key}
  }

  function Touched(queue: seq<Change>): set<Key> { set i, key | 0 <= i < |queue| && key in Targets(queue[i]) :: key }

  ghost predicate TriggerPasses(t: Tables, c: Change) {
    forall key :: key in Targets(c) && key in t.transactions ==> Sound(t, key)
  }

  /** Nothing outside the touched keys differs from the last commit. */
  ghost predicate OnlyTouched(committed: Tables, t: Tables, touched: set<Key>) {
    && committed.transactions <= t.transactions
    && (forall key :: key in t.transactions && key !in committed.transactions ==> key in touched)
    && (forall key :: key !in touched ==> SameRows(committed.rows, t.rows, key))
  }

  ghost predicate SameRows(a: map<Id, Posting>, b: map<Id, Posting>, key: Key) {
    RowsOf(a, key) == RowsOf(b, key) && forall r :: r in RowsOf(a, key) ==> a[r] == b[r]
  }

  lemma SameRowsSound(committed: Tables, t: Tables, key: Key)
    requires SameRows(committed.rows, t.rows, key)
    ensures Sound(t, key) <==> Sound(committed, key)
  {
    forall asset ensures AssetNet(t.rows, key, asset) == AssetNet(committed.rows, key, asset) {
      SumSetEqual(Weight(t.rows, asset), Weight(committed.rows, asset), RowsOf(t.rows, key));
    }
  }

  lemma AddedTouched(queue: seq<Change>, c: Change)
    ensures Touched(queue + [c]) == Touched(queue) + Targets(c)
  {
    var q := queue + [c];
    forall key | key in Touched(queue) ensures key in Touched(q) {
      var i :| 0 <= i < |queue| && key in Targets(queue[i]);
      assert key in Targets(q[i]);
    }
    assert q[|queue|] == c;
  }

  /** Checking only the touched keys decides the invariant over every transaction. */
  lemma TouchedChecksSuffice(committed: Tables, t: Tables, queue: seq<Change>)
    requires AllSound(committed) && OnlyTouched(committed, t, Touched(queue))
    ensures (forall i :: 0 <= i < |queue| ==> TriggerPasses(t, queue[i])) <==> AllSound(t)
  {
    if forall i :: 0 <= i < |queue| ==> TriggerPasses(t, queue[i]) {
      forall key | key in t.transactions ensures Sound(t, key) {
        if key in Touched(queue) {
          var i :| 0 <= i < |queue| && key in Targets(queue[i]);
          assert TriggerPasses(t, queue[i]);
        } else {
          SameRowsSound(committed, t, key);
        }
      }
    }
  }

  // ---------------------------------------------------------------- netting one transaction

  lemma NetStep(rows: map<Id, Posting>, done: set<Id>, r: Id, asset: AssetCode)
    requires r in rows && r !in done
    ensures SumSet(Weight(rows, asset), done + {r}) ==
            SumSet(Weight(rows, asset), done) + (if rows[r].asset == asset then SignedUnits(rows[r]) else 0)
  {
    SumSetAdd(Weight(rows, asset), done, r);
  }

  /** Sums a group of postings asset by asset, in no particular order. */
  method NetPerAsset(rows: map<Id, Posting>, group: set<Id>) returns (nets: map<AssetCode, int>)
    requires group <= rows.Keys
    ensures forall asset :: At(nets, asset) == SumSet(Weight(rows, asset), group)
  {
    var todo := group;
    nets := map[];
    while todo != {}
      invariant todo <= group
      invariant forall asset :: At(nets, asset) == SumSet(Weight(rows, asset), group - todo)
      decreases todo
    {
      var r :| r in todo;
      ghost var done, before := group - todo, nets;
      nets := nets[rows[r].asset := At(nets, rows[r].asset) + if rows[r].side == Debit then rows[r].units
          else -rows[r].units];
      todo := todo - {r};
      hide SumSet;
      assert group - todo == done + {r};
      forall asset ensures At(nets, asset) == SumSet(Weight(rows, asset), group - todo) {
        assert At(before, asset) == SumSet(Weight(rows, asset), done);
        NetStep(rows, done, r, asset);
      }
    }
    assert group - todo == group;
  }

  // ---------------------------------------------------------------- the store

  class Store {
    var transactions: set<Key>
    var rows: map<Id, Posting>
    var queue: seq<Change>
    var savedTransactions: set<Key>
    var savedRows: map<Id, Posting>

    ghost function View(): Tables
      reads this
    {
      Tables(transactions, rows)
    }

    ghost function Committed(): Tables
      reads this
    {
      Tables(savedTransactions, savedRows)
    }

    ghost predicate Valid()
      reads this
    {
      AllSound(Committed()) && OnlyTouched(Committed(), View(), Touched(queue))
    }

    constructor ()
      ensures Valid() && View() == Tables({}, map[]) && queue == []
    {
      transactions, rows, queue, savedTransactions, savedRows := {}, map[], [], {}, map[];
    }

    method InsertTransaction(key: Key) returns (ok: bool)
      requires Valid()
      modifies this
      ensures Valid() && Committed() == old(Committed()) && ok == (key !in old(transactions))
      ensures ok ==> View() == old(View()).(transactions := old(transactions) + {key})
      ensures ok ==> queue == old(queue) + [TransactionInserted(key)]
      ensures !ok ==> View() == old(View()) && queue == old(queue)
    {
      if key in transactions { return false; }
      AddedTouched(queue, TransactionInserted(key));
      transactions := transactions + {key};
      queue := queue + [TransactionInserted(key)];
      return true;
    }

    /** Primary key, position key, positive units and the foreign key to the transaction. */
    ghost predicate RowAllowed(self: Id, p: Posting)
      reads this
    {
      && p.units > 0 && p.key in transactions
      && forall r :: r in rows && r != self ==>
           !(rows[r].key.book == p.key.book && rows[r].id == p.id)
               && !(rows[r].key == p.key && rows[r].position == p.position)
    }

    method CheckRow(self: Id, p: Posting) returns (ok: bool)
      ensures ok <==> RowAllowed(self, p)
    {
      if p.units <= 0 || p.key !in transactions { return false; }
      var left := rows.Keys - {self};
      while left != {}
        invariant left <= rows.Keys - {self}
        invariant forall r :: r in rows && r != self && r !in left ==>
                    !(rows[r].key.book == p.key.book && rows[r].id == p.id)
                        && !(rows[r].key == p.key && rows[r].position == p.position)
      {
        var r :| r in left;
        var other := rows[r];
        if other.key.book == p.key.book && other.id == p.id { return false; }
        if other.key == p.key && other.position == p.position { return false; }
        left := left - {r};
      }
      return true;
    }

    method InsertPosting(r: Id, p: Posting) returns (ok: bool)
      requires Valid() && r !in rows
      modifies this
      ensures Valid() && Committed() == old(Committed()) && ok == old(RowAllowed(r, p))
      ensures ok ==> View() == old(View()).(rows := old(rows)[r := p]) && queue == old(queue) + [PostingInserted(p)]
      ensures !ok ==> View() == old(View()) && queue == old(queue)
    {
      ok := CheckRow(r, p);
      if !ok { return; }
      AddedTouched(queue, PostingInserted(p));
      rows := rows[r := p];
      queue := queue + [PostingInserted(p)];
      return true;
    }

    method UpdatePosting(r: Id, p: Posting) returns (ok: bool)
      requires Valid() && r in rows
      modifies this
      ensures Valid() && Committed() == old(Committed()) && ok == old(RowAllowed(r, p))
      ensures ok ==> View() == old(View()).(rows := old(rows)[r := p])
      ensures ok ==> queue == old(queue) + [PostingUpdated(old(rows)[r], p)]
      ensures !ok ==> View() == old(View()) && queue == old(queue)
    {
      ok := CheckRow(r, p);
      if !ok { return; }
      AddedTouched(queue, PostingUpdated(rows[r], p));
      hide RowAllowed;
      queue := queue + [PostingUpdated(rows[r], p)];
      rows := rows[r := p];
      return true;
    }

    method DeletePosting(r: Id)
      requires Valid() && r in rows
      modifies this
      ensures Valid() && Committed() == old(Committed())
      ensures View() == old(View()).(rows := old(rows) - {r}) && queue == old(queue) + [PostingDeleted(old(rows)[r])]
    {
      AddedTouched(queue, PostingDeleted(rows[r]));
      queue := queue + [PostingDeleted(rows[r])];
      rows := rows - {r};
    }

    method CheckTransaction(key: Key) returns (ok: bool)
      ensures ok <==> (key in transactions ==> Sound(View(), key))
    {
      if key !in transactions { return true; }
      var group := set r | r in rows && rows[r].key == key;
      if |group| < 2 { return false; }
      var nets := NetPerAsset(rows, group);
      assert group == RowsOf(rows, key);
      hide SumSet;
      ok := forall a :: a in nets ==> nets[a] == 0;
      if ok {
        forall a ensures AssetNet(rows, key, a) == 0 { assert At(nets, a) == 0; }
      } else {
        ghost var a :| a in nets && nets[a] != 0;
        assert AssetNet(rows, key, a) == At(nets, a);
      }
    }

    method RunTrigger(c: Change) returns (ok: bool)
      ensures ok <==> TriggerPasses(View(), c)
    {
      match c {
        case TransactionInserted(key) => ok := CheckTransaction(key);
        case PostingInserted(row) => ok := CheckTransaction(row.key);
        case PostingDeleted(before) => ok := CheckTransaction(before.key);
        case PostingUpdated(before, after) =>
          ok := CheckTransaction(before.key);
          if ok && after.key != before.key { ok := CheckTransaction(after.key); }
      }
    }

    /** Commits exactly the batches after which every transaction is sound; otherwise rolls back. */
    method Commit() returns (ok: bool)
      requires Valid()
      modifies this
      ensures Valid() && queue == [] && ok == AllSound(old(View()))
      ensures View() == Committed() == if ok then old(View()) else old(Committed())
    {
      TouchedChecksSuffice(Committed(), View(), queue);
      ok := true;
      for i := 0 to |queue|
        invariant View() == old(View()) && Committed() == old(Committed()) && queue == old(queue)
        invariant ok <==> forall j :: 0 <= j < i ==> TriggerPasses(View(), queue[j])
      {
        if ok { ok := RunTrigger(queue[i]); }
      }
      if ok {
        savedTransactions, savedRows := transactions, rows;
      } else {
        transactions, rows := savedTransactions, savedRows;
      }
      queue := [];
    }
  }
}
