/** Append-only events and command receipts (migration v2_0003). */
module EventStore {
  import opened Ids
  import opened Outcomes

  datatype Event = Event(book: Id, position: int, command: Id)

  /** Actor, Book, operation and idempotency key hash: the receipt's primary key. */
  datatype ReceiptKey = ReceiptKey(actor: Id, book: Id, operation: Id, keyHash: Id)

  datatype Range = Range(first: int, last: int)

  datatype Status = Processing | Completed(range: Option<Range>)

  datatype Receipt = Receipt(command: Id, status: Status)

  datatype Tables = Tables(events: map<Id, Event>, receipts: map<ReceiptKey, Receipt>)

  // ---------------------------------------------------------------- counting against covering

  function EventsInRange(t: Tables, book: Id, command: Id, r: Range): set<Id> {
    set e | e in t.events && t.events[e].book == book && t.events[e].command == command
            && r.first <= t.events[e].position <= r.last
  }

  ghost predicate UniquePositions(t: Tables) {
    forall d, e :: d in t.events && e in t.events && d != e ==>
      !(t.events[d].book == t.events[e].book && t.events[d].position == t.events[e].position)
  }

  ghost predicate UniqueCommands(t: Tables) {
    forall j, k :: j in t.receipts && k in t.receipts && j != k ==> t.receipts[j].command != t.receipts[k].command
  }

  ghost predicate OwnsPosition(t: Tables, book: Id, command: Id, p: int) {
    exists e :: e in t.events && t.events[e] == Event(book, p, command)
  }

  /** Every position of the range, with no gap, belongs to the command. */
  ghost predicate Owns(t: Tables, book: Id, command: Id, r: Range) {
    forall p :: r.first <= p <= r.last ==> OwnsPosition(t, book, command, p)
  }

  function Positions(t: Tables, ids: set<Id>): set<int>
    requires ids <= t.events.Keys
  {
    set e | e in ids :: t.events[e].position
  }

  lemma {:induction false} PositionsCount(t: Tables, book: Id, ids: set<Id>)
    requires UniquePositions(t) && ids <= t.events.Keys && forall e :: e in ids ==> t.events[e].book == book
    ensures |Positions(t, ids)| == |ids|
  {
    if ids != {} {
      var e :| e in ids;
      PositionsCount(t, book, ids - {e});
      assert Positions(t, ids) == Positions(t, ids - {e}) + {t.events[e].position};
    }
  }

  function Interval(r: Range): (s: set<int>)
    ensures forall p :: p in s <==> r.first <= p <= r.last
    decreases r.last - r.first + 1
  {
    if r.first > r.last then {} else Interval(Range(r.first, r.last - 1)) + {r.last}
  }

  lemma {:induction false} IntervalCount(r: Range)
    requires r.first <= r.last + 1
    ensures |Interval(r)| == r.last - r.first + 1
    decreases r.last - r.first + 1
  {
    if r.first <= r.last { IntervalCount(Range(r.first, r.last - 1)); }
  }

  lemma FullSubset<T>(s: set<T>, t: set<T>)
    requires s <= t && |s| == |t|
    ensures s == t
  {
    assert |t - s| == |t| - |s|;
  }

  /** The count the commit check compares is full exactly when the range is covered. */
  lemma CountIffOwns(t: Tables, book: Id, command: Id, r: Range)
    requires UniquePositions(t) && r.first <= r.last
    ensures |EventsInRange(t, book, command, r)| == r.last - r.first + 1 <==> Owns(t, book, command, r)
  {
    var ids := EventsInRange(t, book, command, r);
    PositionsCount(t, book, ids);
    IntervalCount(r);
    assert Positions(t, ids) <= Interval(r);
    if |ids| == r.last - r.first + 1 {
      FullSubset(Positions(t, ids), Interval(r));
      forall p | r.first <= p <= r.last ensures OwnsPosition(t, book, command, p) {
        assert p in Interval(r);
        var e :| e in ids && t.events[e].position == p;
        assert t.events[e] == Event(book, p, command);
      }
    }
    hide Interval, Positions;
    if Owns(t, book, command, r) {
      forall p | p in Interval(r) ensures p in Positions(t, ids) {
        assert OwnsPosition(t, book, command, p);
        var e :| e in t.events && t.events[e] == Event(book, p, command);
        assert e in ids;
      }
      assert Positions(t, ids) == Interval(r);
    }
  }

  // ---------------------------------------------------------------- what every committed state keeps

  ghost predicate RangeShape(r: Range) { 0 < r.first <= r.last }

  /** A receipt that may commit: completed, and any range it names is its own without a gap. */
  ghost predicate Settled(t: Tables, k: ReceiptKey)
    requires k in t.receipts
  {
    match t.receipts[k].status
    case Processing => false
    case Completed(None) => true
    case Completed(Some(r)) => RangeShape(r) && Owns(t, k.book, t.receipts[k].command, r)
  }

  ghost predicate AllSettled(t: Tables) { forall k :: k in t.receipts ==> Settled(t, k) }

  ghost predicate Keyed(t: Tables) { UniquePositions(t) && UniqueCommands(t) }

  function RangeOf(t: Tables, k: ReceiptKey): Option<Range>
    requires k in t.receipts
  {
    match t.receipts[k].status
    case Processing => None
    case Completed(range) => range
  }

  lemma OneOwner(t: Tables, book: Id, c: Id, d: Id, p: int)
    requires UniquePositions(t) && OwnsPosition(t, book, c, p) && OwnsPosition(t, book, d, p)
    ensures c == d
  {
    var x :| x in t.events && t.events[x] == Event(book, p, c);
    var y :| y in t.events && t.events[y] == Event(book, p, d);
    assert x == y;
  }

  /** Ranges of different receipts in one Book never meet. */
  lemma RangesDisjoint(t: Tables, j: ReceiptKey, k: ReceiptKey, p: int)
    requires Keyed(t) && AllSettled(t) && j in t.receipts && k in t.receipts && j != k && j.book == k.book
    requires RangeOf(t, j).Some? && RangeOf(t, k).Some?
    ensures !(RangeOf(t, j).value.first <= p <= RangeOf(t, j).value.last
              && RangeOf(t, k).value.first <= p <= RangeOf(t, k).value.last)
  {
    assert Settled(t, j) && Settled(t, k);
    var c, d := t.receipts[j].command, t.receipts[k].command;
    if OwnsPosition(t, j.book, c, p) && OwnsPosition(t, j.book, d, p) { OneOwner(t, j.book, c, d, p); }
  }

  /** Events only arrive; a settled receipt is never rewritten. */
  ghost predicate Extends(before: Tables, after: Tables) {
    && (forall e :: e in before.events ==> e in after.events && after.events[e] == before.events[e])
    && (forall k :: k in before.receipts ==> k in after.receipts && after.receipts[k] == before.receipts[k])
  }

  lemma ExtendsKeepsSettled(before: Tables, after: Tables, k: ReceiptKey)
    requires Extends(before, after) && k in before.receipts && Settled(before, k)
    ensures Settled(after, k)
  {
    if RangeOf(before, k).Some? {
      var r := RangeOf(before, k).value;
      forall p | r.first <= p <= r.last ensures OwnsPosition(after, k.book, after.receipts[k].command, p) {
        assert OwnsPosition(before, k.book, before.receipts[k].command, p);
      }
    }
  }

  /** A chain of committed states, each extending the one before. */
  ghost predicate CommitChain(states: seq<Tables>) {
    && (forall i :: 0 <= i < |states| ==> Keyed(states[i]) && AllSettled(states[i]))
    && (forall i :: 0 <= i < |states| - 1 ==> Extends(states[i], states[i + 1]))
  }

  /** In every later committed state a settled range is still the command's own, and still the same range. */
  lemma {:induction false} SettledForever(states: seq<Tables>, i: nat, j: nat, k: ReceiptKey)
    requires CommitChain(states) && i <= j < |states| && k in states[i].receipts
    ensures k in states[j].receipts && states[j].receipts[k] == states[i].receipts[k] && Settled(states[j], k)
    decreases j
  {
    if i < j {
      SettledForever(states, i, j - 1, k);
      assert Extends(states[j - 1], states[j - 1 + 1]);
    }
  }

  // ---------------------------------------------------------------- the store

  class Store {
    var events: map<Id, Event>
    var receipts: map<ReceiptKey, Receipt>
    var queue: seq<ReceiptKey>
    var savedEvents: map<Id, Event>
    var savedReceipts: map<ReceiptKey, Receipt>
    ghost var commits: seq<Tables>

    ghost function View(): Tables
      reads this
    {
      Tables(events, receipts)
    }

    ghost function Saved(): Tables
      reads this
    {
      Tables(savedEvents, savedReceipts)
    }

    ghost predicate Valid()
      reads this
    {
      && Keyed(View()) && Extends(Saved(), View())
      && (forall k :: k in receipts && k !in savedReceipts ==> k in queue)
      && (forall k :: k in queue ==> k in receipts)
      && (forall k :: k in receipts && RangeOf(View(), k).Some? ==> RangeShape(RangeOf(View(), k).value))
      && CommitChain(commits) && commits != [] && commits[|commits| - 1] == Saved()
    }

    constructor ()
      ensures Valid() && View() == Saved() == Tables(map[], map[]) && queue == []
    {
      events, receipts, queue, savedEvents, savedReceipts := map[], map[], [], map[], map[];
      commits := [Tables(map[], map[])];
    }

    method AppendEvent(id: Id, e: Event) returns (ok: bool)
      requires Valid()
      modifies this
      ensures Valid() && Saved() == old(Saved()) && commits == old(commits)
      ensures ok == (id !in old(events) && e.position > 0
                     && forall d :: d in old(events) ==>
                          !(old(events)[d].book == e.book && old(events)[d].position == e.position))
      ensures View() == if ok then old(View()).(events := old(events)[id := e]) else old(View())
    {
      ok := id !in events && e.position > 0 && forall d :: d in events ==>
          !(events[d].book == e.book && events[d].position == e.position);
      if ok { events := events[id := e]; }
    }

    method OpenReceipt(k: ReceiptKey, r: Receipt) returns (ok: bool)
      requires Valid()
      modifies this
      ensures Valid() && Saved() == old(Saved()) && commits == old(commits)
      ensures ok == (k !in old(receipts) && r.status == Processing
                     && forall j :: j in old(receipts) ==> old(receipts)[j].command != r.command)
      ensures View() == if ok then old(View()).(receipts := old(receipts)[k := r]) else old(View())
    {
      ok := k !in receipts && r.status == Processing && forall j :: j in receipts ==> receipts[j].command != r.command;
      if ok {
        receipts := receipts[k := r];
        queue := queue + [k];
      }
    }

    /** Completion is terminal, and a named range must start and end at existing events of the Book. */
    ghost predicate MayComplete(k: ReceiptKey, range: Option<Range>)
      reads this
    {
      && k in receipts && receipts[k].status == Processing
      && (range.Some? ==>
            RangeShape(range.value) && HasPosition(k.book, range.value.first)
            && HasPosition(k.book, range.value.last))
    }

    ghost predicate HasPosition(book: Id, p: int)
      reads this
    {
      exists e :: e in events && events[e].book == book && events[e].position == p
    }

    /** Looks the Book's positions up one event at a time. */
    method FindPosition(book: Id, p: int) returns (found: bool)
      ensures found <==> HasPosition(book, p)
    {
      var left := events.Keys;
      while left != {}
        invariant left <= events.Keys
        invariant forall e :: e in events && e !in left ==> events[e].book != book || events[e].position != p
      {
        var e :| e in left;
        if events[e].book == book && events[e].position == p { return true; }
        left := left - {e};
      }
      return false;
    }

    method CheckCompletion(k: ReceiptKey, range: Option<Range>) returns (ok: bool)
      ensures ok <==> MayComplete(k, range)
    {
      if k !in receipts || receipts[k].status != Processing { return false; }
      if range == None { return true; }
      if range.value.first <= 0 || range.value.last < range.value.first { return false; }
      ok := FindPosition(k.book, range.value.first);
      if ok { ok := FindPosition(k.book, range.value.last); }
    }

    /** No committed receipt is still processing. */
    lemma SavedAreCompleted()
      requires Valid()
      ensures forall j :: j in savedReceipts ==> savedReceipts[j].status.Completed?
    {
      forall j | j in savedReceipts ensures savedReceipts[j].status.Completed? {
        assert AllSettled(commits[|commits| - 1]);
        assert Settled(Saved(), j);
      }
    }

    method CompleteReceipt(k: ReceiptKey, range: Option<Range>) returns (ok: bool)
      requires Valid()
      modifies this
      ensures Valid() && Saved() == old(Saved()) && commits == old(commits) && ok == old(MayComplete(k, range))
      ensures View() ==
              if ok then old(View()).(receipts := old(receipts)[k := old(receipts)[k].(status := Completed(range))])
              else old(View())
    {
      ok := CheckCompletion(k, range);
      hide CommitChain, HasPosition;
      if ok {
        SavedAreCompleted();
        receipts := receipts[k := receipts[k].(status := Completed(range))];
        queue := queue + [k];
      }
    }

    /** The deferred check of one queued receipt, by counting. */
    method CheckReceipt(k: ReceiptKey) returns (ok: bool)
      requires Valid() && k in receipts
      ensures ok <==> Settled(View(), k)
    {
      match receipts[k].status {
        case Processing => ok := false;
        case Completed(None) => ok := true;
        case Completed(Some(r)) =>
          assert RangeOf(View(), k) == Some(r);
          CountIffOwns(View(), k.book, receipts[k].command, r);
          ok := |EventsInRange(Tables(events, receipts), k.book, receipts[k].command, r)| == r.last - r.first + 1;
      }
    }

    /** Commits exactly when every receipt is settled; the new state extends the last committed one. */
    method Commit() returns (ok: bool)
      requires Valid()
      modifies this
      ensures Valid() && queue == [] && ok == AllSettled(old(View()))
      ensures View() == Saved() == if ok then old(View()) else old(Saved())
      ensures commits == if ok then old(commits) + [old(View())] else old(commits)
    {
      hide Settled, Keyed;
      ok := true;
      for i := 0 to |queue|
        invariant Valid() && View() == old(View()) && Saved() == old(Saved()) && queue == old(queue)
        invariant commits == old(commits)
        invariant ok <==> forall j :: 0 <= j < i ==> queue[j] in receipts && Settled(View(), queue[j])
      {
        if ok { ok := CheckReceipt(queue[i]); }
      }
      assert ok <==> AllSettled(View()) by {
        forall k | k in receipts && k in savedReceipts ensures Settled(View(), k) {
          assert AllSettled(commits[|commits| - 1]);
          ExtendsKeepsSettled(Saved(), View(), k);
        }
      }
      if ok {
        savedEvents, savedReceipts := events, receipts;
        commits := commits + [View()];
      } else {
        events, receipts := savedEvents, savedReceipts;
      }
      queue := [];
    }
  }
}
