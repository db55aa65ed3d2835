/** Investment lots, their decrements and immutable allocations in one Book (migration v2_0006). */
module Lots {
  import opened Ids
  import opened Sums

  datatype Allocated = Allocated(id: Id, lot: Id, position: int, quantity: int, cost: int)

  /** A ledger event as the guards read it. */
  datatype Event =
    | LotAcquired(position: int, lot: Id)
    | LotDisposed(position: int, stream: Id, transaction: Id, allocations: set<Allocated>)

  datatype Lot = Lot(acquisition: Id, acquiredQuantity: int, acquiredCost: int,
                     quantity: int, cost: int, event: Id, position: int)

  datatype Allocation = Allocation(lot: Id, disposal: Id, slot: int, quantity: int, cost: int, event: Id, position: int)

  /** One update of a lot: what it took away, bound to which event. */
  datatype Decrement = Decrement(lot: Id, event: Id, position: int, quantity: int, cost: int)

  /**
   * Events and journal positions are append-only; `starts` records each lot as inserted, `log` each update in
   * order.
   */
  datatype Tables = Tables(events: map<Id, Event>, journal: map<Id, int>, lots: map<Id, Lot>,
                           allocations: map<Id, Allocation>, starts: map<Id, (int, int)>, log: seq<Decrement>)

  // ---------------------------------------------------------------- guards

  ghost predicate RemainderShape(l: Lot) {
    && 0 <= l.quantity <= l.acquiredQuantity && 0 <= l.cost <= l.acquiredCost
    && ((l.quantity == 0 && l.cost == 0) || (l.quantity > 0 && l.cost > 0))
  }

  ghost predicate EarlierTransaction(t: Tables, tx: Id, position: int) { tx in t.journal && t.journal[tx] < position }

  ghost predicate InsertAllowed(t: Tables, id: Id, l: Lot) {
    && id !in t.lots && l.acquiredQuantity > 0 && l.acquiredCost > 0 && RemainderShape(l) && l.position > 0
    && l.event in t.events && t.events[l.event] == LotAcquired(l.position, id)
    && EarlierTransaction(t, l.acquisition, l.position)
  }

  /** Only the remainders and the source binding of a lot can be written. */
  ghost predicate DecrementAllowed(t: Tables, id: Id, quantity: int, cost: int, event: Id, position: int) {
    && id in t.lots
    && var l := t.lots[id];
    && RemainderShape(l.(quantity := quantity, cost := cost)) && position > 0
    && event in t.events && t.events[event].LotDisposed? && t.events[event].position == position
    && t.events[event].stream == t.events[event].transaction
    && EarlierTransaction(t, l.acquisition, position)
    && quantity < l.quantity && cost < l.cost && position > l.position
  }

  ghost predicate AllocationAllowed(t: Tables, id: Id, a: Allocation) {
    && id !in t.allocations && a.slot >= 0 && a.quantity > 0 && a.cost > 0 && a.position > 0 && a.lot in t.lots
    && (forall k :: k in t.allocations && t.allocations[k].disposal == a.disposal ==>
          t.allocations[k].slot != a.slot && t.allocations[k].lot != a.lot)
    && a.event in t.events
    && var e := t.events[a.event];
    && e.LotDisposed? && e.position == a.position && e.stream == a.disposal && e.transaction == a.disposal
    && Allocated(id, a.lot, a.slot, a.quantity, a.cost) in e.allocations
    && EarlierTransaction(t, a.disposal, a.position)
  }

  /** The deferred check of one decrement: an allocation of exactly that lot, event and amounts. */
  ghost predicate Fits(a: Allocation, d: Decrement) {
    a.lot == d.lot && a.event == d.event && a.position == d.position && a.quantity == d.quantity && a.cost == d.cost
  }

  ghost predicate HasAllocation(t: Tables, d: Decrement) { exists k :: k in t.allocations && Fits(t.allocations[k], d) }

  // ---------------------------------------------------------------- invariant

  function QuantityOn(lot: Id): Decrement -> int { (d: Decrement) => if d.lot == lot then d.quantity else 0 }

  function CostOn(lot: Id): Decrement -> int { (d: Decrement) => if d.lot == lot then d.cost else 0 }

  function CountOn(lot: Id): Decrement -> int { (d: Decrement) => if d.lot == lot then 1 else 0 }

  ghost predicate LotKnown(t: Tables, id: Id)
    requires id in t.lots
  {
    && RemainderShape(t.lots[id]) && id in t.starts
    && t.lots[id].quantity == t.starts[id].0 - Sum(QuantityOn(id), t.log)
    && t.lots[id].cost == t.starts[id].1 - Sum(CostOn(id), t.log)
  }

  ghost predicate DecrementKnown(t: Tables, d: Decrement) {
    d.lot in t.lots && d.quantity >= 1 && d.cost >= 1 && d.position <= t.lots[d.lot].position
  }

  ghost predicate AllocationKnown(t: Tables, a: Allocation) {
    a.event in t.events && t.events[a.event].LotDisposed? && t.events[a.event].stream == a.disposal
  }

  ghost predicate Inv(t: Tables) {
    && (forall id :: id in t.lots ==> LotKnown(t, id))
    && (forall i :: 0 <= i < |t.log| ==> DecrementKnown(t, t.log[i]))
    && (forall i, j :: 0 <= i < j < |t.log| && t.log[i].lot == t.log[j].lot ==> t.log[i].position < t.log[j].position)
    && (forall k :: k in t.allocations ==> AllocationKnown(t, t.allocations[k]))
    && (forall j, k :: (j in t.allocations && k in t.allocations && j != k
                        && t.allocations[j].disposal == t.allocations[k].disposal) ==>
          t.allocations[j].lot != t.allocations[k].lot)
  }

  ghost predicate AllMatched(t: Tables) { forall i :: 0 <= i < |t.log| ==> HasAllocation(t, t.log[i]) }

  // ---------------------------------------------------------------- transitions

  datatype Op =
    | RecordEvent(id: Id, event: Event)
    | RecordTransaction(tx: Id, at: int)
    | InsertLot(id: Id, lot: Lot)
    | DecrementLot(id: Id, newQuantity: int, newCost: int, source: Id, at: int)
    | InsertAllocation(id: Id, row: Allocation)

  ghost predicate Allowed(t: Tables, op: Op) {
    match op
    case RecordEvent(id, _) => id !in t.events
    case RecordTransaction(tx, _) => tx !in t.journal
    case InsertLot(id, l) => InsertAllowed(t, id, l)
    case DecrementLot(id, q, c, e, p) => DecrementAllowed(t, id, q, c, e, p)
    case InsertAllocation(id, a) => AllocationAllowed(t, id, a)
  }

  ghost function Taken(l: Lot, id: Id, q: int, c: int, e: Id, p: int): Decrement {
    Decrement(id, e, p, l.quantity - q, l.cost - c)
  }

  ghost function Apply(t: Tables, op: Op): Tables {
    if !Allowed(t, op) then t
    else match op
      case RecordEvent(id, e) => t.(events := t.events[id := e])
      case RecordTransaction(tx, p) => t.(journal := t.journal[tx := p])
      case InsertLot(id, l) => t.(lots := t.lots[id := l], starts := t.starts[id := (l.quantity, l.cost)])
      case DecrementLot(id, q, c, e, p) =>
        t.(lots := t.lots[id := t.lots[id].(quantity := q, cost := c, event := e, position := p)],
           log := t.log + [Taken(t.lots[id], id, q, c, e, p)])
      case InsertAllocation(id, a) => t.(allocations := t.allocations[id := a])
  }

  lemma DecrementIs(t: Tables, id: Id, q: int, c: int, e: Id, p: int)
    ensures Allowed(t, DecrementLot(id, q, c, e, p)) <==> DecrementAllowed(t, id, q, c, e, p)
    ensures DecrementAllowed(t, id, q, c, e, p) ==> id in t.lots
    ensures Apply(t, DecrementLot(id, q, c, e, p)) ==
            if !DecrementAllowed(t, id, q, c, e, p) then t
            else t.(lots := t.lots[id := t.lots[id].(quantity := q, cost := c, event := e, position := p)],
                    log := t.log + [Taken(t.lots[id], id, q, c, e, p)])
  {
    hide DecrementAllowed, InsertAllowed, AllocationAllowed;
    assert DecrementAllowed(t, id, q, c, e, p) ==> id in t.lots by { DecrementNeedsLot(t, id, q, c, e, p); }
  }

  lemma DecrementNeedsLot(t: Tables, id: Id, q: int, c: int, e: Id, p: int)
    ensures DecrementAllowed(t, id, q, c, e, p) ==> id in t.lots
  {
  }

  lemma {:induction false} NoDecrementsYet(t: Tables, id: Id, n: nat)
    requires n <= |t.log| && forall i :: 0 <= i < n ==> t.log[i].lot != id
    ensures Sum(QuantityOn(id), t.log[..n]) == 0 && Sum(CostOn(id), t.log[..n]) == 0
  {
    SumOfZeros(QuantityOn(id), t.log[..n]);
    SumOfZeros(CostOn(id), t.log[..n]);
  }

  lemma InsertKeepsInv(t: Tables, id: Id, l: Lot)
    requires Inv(t) && InsertAllowed(t, id, l)
    ensures Inv(Apply(t, InsertLot(id, l)))
  {
    var u := Apply(t, InsertLot(id, l));
    forall i | 0 <= i < |u.log| ensures DecrementKnown(u, u.log[i]) && u.log[i].lot != id {
      assert DecrementKnown(t, t.log[i]);
    }
    NoDecrementsYet(u, id, |u.log|);
    assert u.log[..|u.log|] == u.log;
    forall k | k in u.lots ensures LotKnown(u, k) { if k != id { assert LotKnown(t, k); } }
    forall k | k in u.allocations ensures AllocationKnown(u, u.allocations[k]) {
      assert AllocationKnown(t, t.allocations[k]);
    }
  }

  lemma LotStaysKnown(t: Tables, id: Id, q: int, c: int, e: Id, p: int, k: Id)
    requires Inv(t) && DecrementAllowed(t, id, q, c, e, p) && k in t.lots
    ensures var u := Apply(t, DecrementLot(id, q, c, e, p)); k in u.lots && LotKnown(u, k)
  {
    DecrementIs(t, id, q, c, e, p);
    hide Apply, Allowed, Sum;
    var d := Taken(t.lots[id], id, q, c, e, p);
    assert LotKnown(t, k);
    SumAppend(QuantityOn(k), t.log, d);
    SumAppend(CostOn(k), t.log, d);
  }

  lemma DecrementKeepsInv(t: Tables, id: Id, q: int, c: int, e: Id, p: int)
    requires Inv(t) && DecrementAllowed(t, id, q, c, e, p)
    ensures Inv(Apply(t, DecrementLot(id, q, c, e, p)))
  {
    DecrementIs(t, id, q, c, e, p);
    hide Apply, Allowed, Sum, RemainderShape;
    var u := Apply(t, DecrementLot(id, q, c, e, p));
    var d := Taken(t.lots[id], id, q, c, e, p);
    forall k | k in u.lots ensures LotKnown(u, k) { LotStaysKnown(t, id, q, c, e, p, k); }
    hide LotKnown;
    forall i | 0 <= i < |u.log| ensures DecrementKnown(u, u.log[i]) {
      if i < |t.log| { assert DecrementKnown(t, t.log[i]); }
    }
    forall i, j | 0 <= i < j < |u.log| && u.log[i].lot == u.log[j].lot ensures u.log[i].position < u.log[j].position {
      assert DecrementKnown(t, t.log[i]);
    }
    forall k | k in u.allocations ensures AllocationKnown(u, u.allocations[k]) {
      assert AllocationKnown(t, t.allocations[k]);
    }
  }

  lemma ApplyKeepsInv(t: Tables, op: Op)
    requires Inv(t)
    ensures Inv(Apply(t, op))
  {
    if Allowed(t, op) {
      match op
      case InsertLot(id, l) => InsertKeepsInv(t, id, l);
      case DecrementLot(id, q, c, e, p) => DecrementKeepsInv(t, id, q, c, e, p);
      case RecordEvent(id, e) => OtherOpsKeepInv(t, op);
      case RecordTransaction(tx, p) => OtherOpsKeepInv(t, op);
      case InsertAllocation(id, a) => OtherOpsKeepInv(t, op);
    }
  }

  lemma OtherOpsKeepInv(t: Tables, op: Op)
    requires Inv(t) && Allowed(t, op) && !op.InsertLot? && !op.DecrementLot?
    ensures Inv(Apply(t, op))
  {
    var u := Apply(t, op);
    forall k | k in u.lots ensures LotKnown(u, k) { assert LotKnown(t, k); }
    forall i | 0 <= i < |u.log| ensures DecrementKnown(u, u.log[i]) { assert DecrementKnown(t, t.log[i]); }
    forall k | k in u.allocations ensures AllocationKnown(u, u.allocations[k]) {
      if k in t.allocations { assert AllocationKnown(t, t.allocations[k]); }
    }
  }

  // ---------------------------------------------------------------- matching

  /** The allocations that some decrement of a lot among the first `n` updates is bound to. */
  ghost function Matched(t: Tables, lot: Id, n: nat): set<Id>
    requires n <= |t.log|
  {
    set k | k in t.allocations && exists i :: 0 <= i < n && t.log[i].lot == lot && Fits(t.allocations[k], t.log[i])
  }

  function AllocatedQuantity(t: Tables): Id -> int {
    (k: Id) => if k in t.allocations then t.allocations[k].quantity else 0
  }

  function AllocatedCost(t: Tables): Id -> int { (k: Id) => if k in t.allocations then t.allocations[k].cost else 0 }

  /** One event allocates a lot once, so a decrement has a single allocation. */
  lemma OneAllocation(t: Tables, d: Decrement, j: Id, k: Id)
    requires Inv(t) && j in t.allocations && k in t.allocations && Fits(t.allocations[j], d)
    requires Fits(t.allocations[k], d)
    ensures j == k
  {
    assert AllocationKnown(t, t.allocations[j]) && AllocationKnown(t, t.allocations[k]);
  }

  /** The next decrement of the lot brings exactly one allocation, and one no earlier decrement used. */
  lemma MatchedStep(t: Tables, lot: Id, n: nat) returns (k: Id)
    requires Inv(t) && n < |t.log| && t.log[n].lot == lot && HasAllocation(t, t.log[n])
    ensures k in t.allocations && Fits(t.allocations[k], t.log[n])
    ensures t.allocations[k].quantity == t.log[n].quantity && t.allocations[k].cost == t.log[n].cost
    ensures k !in Matched(t, lot, n) && Matched(t, lot, n + 1) == Matched(t, lot, n) + {k}
  {
    k :| k in t.allocations && Fits(t.allocations[k], t.log[n]);
    forall j | j in Matched(t, lot, n + 1) ensures j in Matched(t, lot, n) + {k} {
      var i :| 0 <= i < n + 1 && t.log[i].lot == lot && Fits(t.allocations[j], t.log[i]);
      if i == n { OneAllocation(t, t.log[n], j, k); }
    }
  }

  lemma MatchedAdd(t: Tables, m: set<Id>, k: Id)
    requires k !in m && k in t.allocations
    ensures SumSet(AllocatedQuantity(t), m + {k}) == SumSet(AllocatedQuantity(t), m) + t.allocations[k].quantity
    ensures SumSet(AllocatedCost(t), m + {k}) == SumSet(AllocatedCost(t), m) + t.allocations[k].cost
    ensures |m + {k}| == |m| + 1
  {
    SumSetAdd(AllocatedQuantity(t), m, k);
    SumSetAdd(AllocatedCost(t), m, k);
  }

  lemma MatchedSkip(t: Tables, lot: Id, n: nat)
    requires n < |t.log| && t.log[n].lot != lot
    ensures Matched(t, lot, n + 1) == Matched(t, lot, n)
  {
  }

  ghost predicate SumsAgree(t: Tables, lot: Id, n: nat)
    requires n <= |t.log|
  {
    && SumSet(AllocatedQuantity(t), Matched(t, lot, n)) == Sum(QuantityOn(lot), t.log[..n])
    && SumSet(AllocatedCost(t), Matched(t, lot, n)) == Sum(CostOn(lot), t.log[..n])
    && |Matched(t, lot, n)| == Sum(CountOn(lot), t.log[..n])
  }

  lemma LogStep(log: seq<Decrement>, lot: Id, n: nat)
    requires n < |log|
    ensures var d, on := log[n], log[n].lot == lot;
            && Sum(QuantityOn(lot), log[..n + 1]) == Sum(QuantityOn(lot), log[..n]) + (if on then d.quantity else 0)
            && Sum(CostOn(lot), log[..n + 1]) == Sum(CostOn(lot), log[..n]) + (if on then d.cost else 0)
            && Sum(CountOn(lot), log[..n + 1]) == Sum(CountOn(lot), log[..n]) + (if on then 1 else 0)
  {
    SumStep(QuantityOn(lot), log, n);
    SumStep(CostOn(lot), log, n);
    SumStep(CountOn(lot), log, n);
  }

  lemma SumsAgreeStep(t: Tables, lot: Id, n: nat)
    requires Inv(t) && AllMatched(t) && n < |t.log| && SumsAgree(t, lot, n)
    ensures SumsAgree(t, lot, n + 1)
  {
    assert HasAllocation(t, t.log[n]);
    hide *;
    if t.log[n].lot == lot {
      var k := MatchedStep(t, lot, n);
      SumsAgreeMatched(t, lot, n, k);
    } else {
      SumsAgreeSkip(t, lot, n);
    }
  }

  lemma SumsAgreeMatched(t: Tables, lot: Id, n: nat, k: Id)
    requires n < |t.log| && t.log[n].lot == lot && SumsAgree(t, lot, n)
    requires k in t.allocations && k !in Matched(t, lot, n) && Matched(t, lot, n + 1) == Matched(t, lot, n) + {k}
    requires t.allocations[k].quantity == t.log[n].quantity && t.allocations[k].cost == t.log[n].cost
    ensures SumsAgree(t, lot, n + 1)
  {
    hide Matched, SumSet, Sum, QuantityOn, CostOn, CountOn;
    LogStep(t.log, lot, n);
    MatchedAdd(t, Matched(t, lot, n), k);
  }

  lemma SumsAgreeSkip(t: Tables, lot: Id, n: nat)
    requires n < |t.log| && t.log[n].lot != lot && SumsAgree(t, lot, n)
    ensures SumsAgree(t, lot, n + 1)
  {
    hide Matched, SumSet, Sum, QuantityOn, CostOn, CountOn;
    LogStep(t.log, lot, n);
    MatchedSkip(t, lot, n);
  }

  lemma {:induction false} MatchedSums(t: Tables, lot: Id, n: nat)
    requires Inv(t) && AllMatched(t) && n <= |t.log|
    ensures SumsAgree(t, lot, n)
  {
    if n == 0 {
      assert Matched(t, lot, 0) == {};
    } else {
      MatchedSums(t, lot, n - 1);
      SumsAgreeStep(t, lot, n - 1);
    }
  }

  lemma {:induction false} CountBounded(t: Tables, lot: Id, n: nat)
    requires Inv(t) && n <= |t.log|
    ensures 0 <= Sum(CountOn(lot), t.log[..n])
    ensures Sum(CountOn(lot), t.log[..n]) <= Sum(QuantityOn(lot), t.log[..n])
    ensures Sum(CountOn(lot), t.log[..n]) <= Sum(CostOn(lot), t.log[..n])
  {
    if n > 0 {
      CountBounded(t, lot, n - 1);
      LogStep(t.log, lot, n - 1);
      assert DecrementKnown(t, t.log[n - 1]);
    }
  }

  function Decrements(t: Tables, lot: Id): int { Sum(CountOn(lot), t.log) }

  /**
   * What a lot has lost is what its matched allocations took, in quantity and in cost alike; each
   * decrement has its own allocation; both remainders reach zero together; and the number of
   * decrements is at most the smaller starting remainder.
   */
  lemma LotConservation(t: Tables, lot: Id)
    requires Inv(t) && AllMatched(t) && lot in t.lots
    ensures lot in t.starts
    ensures var m := Matched(t, lot, |t.log|);
            && t.starts[lot].0 - t.lots[lot].quantity == SumSet(AllocatedQuantity(t), m)
            && t.starts[lot].1 - t.lots[lot].cost == SumSet(AllocatedCost(t), m)
            && |m| == Decrements(t, lot)
    ensures t.lots[lot].quantity == 0 <==> t.lots[lot].cost == 0
    ensures Decrements(t, lot) <= t.starts[lot].0 && Decrements(t, lot) <= t.starts[lot].1
  {
    assert LotKnown(t, lot) && t.log[..|t.log|] == t.log;
    MatchedSums(t, lot, |t.log|);
    CountBounded(t, lot, |t.log|);
  }

  // ---------------------------------------------------------------- the store

  class Store {
    var events: map<Id, Event>
    var journal: map<Id, int>
    var lots: map<Id, Lot>
    var allocations: map<Id, Allocation>
    var queue: seq<Decrement>
    var starts: map<Id, (int, int)>
    var log: seq<Decrement>
    var saved: Tables

    function View(): Tables
      reads this
    {
      Tables(events, journal, lots, allocations, starts, log)
    }

    ghost predicate Valid()
      reads this
    {
      && Inv(View()) && Inv(saved) && AllMatched(saved)
      && log == saved.log + queue
      && (forall k :: k in saved.allocations ==> k in allocations && allocations[k] == saved.allocations[k])
    }

    constructor ()
      ensures Valid() && View() == saved == Tables(map[], map[], map[], map[], map[], [])
    {
      events, journal, lots, allocations, queue := map[], map[], map[], map[], [];
      starts, log := map[], [];
      saved := Tables(map[], map[], map[], map[], map[], []);
    }

    method Record(id: Id, e: Event) returns (ok: bool)
      requires Valid()
      modifies this
      ensures Valid() && saved == old(saved) && View() == Apply(old(View()), RecordEvent(id, e))
      ensures ok == Allowed(old(View()), RecordEvent(id, e))
    {
      ApplyKeepsInv(View(), RecordEvent(id, e));
      ok := id !in events;
      if ok { events := events[id := e]; }
    }

    method RecordJournal(tx: Id, at: int) returns (ok: bool)
      requires Valid()
      modifies this
      ensures Valid() && saved == old(saved) && View() == Apply(old(View()), RecordTransaction(tx, at))
      ensures ok == Allowed(old(View()), RecordTransaction(tx, at))
    {
      ApplyKeepsInv(View(), RecordTransaction(tx, at));
      ok := tx !in journal;
      if ok { journal := journal[tx := at]; }
    }

    method Insert(id: Id, l: Lot) returns (ok: bool)
      requires Valid()
      modifies this
      ensures Valid() && saved == old(saved) && View() == Apply(old(View()), InsertLot(id, l))
      ensures ok == Allowed(old(View()), InsertLot(id, l))
    {
      ApplyKeepsInv(View(), InsertLot(id, l));
      hide Inv, InsertAllowed, DecrementAllowed, AllocationAllowed, AllMatched;
      ok := CheckLot(id, l);
      if ok {
        lots := lots[id := l];
        starts := starts[id := (l.quantity, l.cost)];
      }
    }

    /** A remainder within what was acquired, used up in both units together or in neither. */
    method CheckRemainder(l: Lot) returns (ok: bool)
      ensures ok <==> RemainderShape(l)
    {
      if l.quantity > l.acquiredQuantity || l.cost > l.acquiredCost { return false; }
      if l.quantity == 0 { return l.cost == 0; }
      return l.quantity > 0 && l.cost > 0;
    }

    method CheckLot(id: Id, l: Lot) returns (ok: bool)
      ensures ok <==> InsertAllowed(View(), id, l)
    {
      if id in lots || l.acquiredQuantity <= 0 || l.acquiredCost <= 0 || l.position <= 0 { return false; }
      if l.event !in events || l.acquisition !in journal || journal[l.acquisition] >= l.position { return false; }
      match events[l.event] {
        case LotAcquired(position, lot) => if position != l.position || lot != id { return false; }
        case LotDisposed(_, _, _, _) => return false;
      }
      ok := CheckRemainder(l);
    }

    method CheckDecrement(id: Id, q: int, c: int, e: Id, p: int) returns (ok: bool)
      ensures ok <==> DecrementAllowed(View(), id, q, c, e, p)
    {
      if id !in lots || p <= 0 || e !in events { return false; }
      var l := lots[id];
      if q >= l.quantity || c >= l.cost || p <= l.position { return false; }
      if l.acquisition !in journal || journal[l.acquisition] >= p { return false; }
      match events[e] {
        case LotAcquired(_, _) => return false;
        case LotDisposed(position, stream, transaction, _) =>
          if position != p || stream != transaction { return false; }
      }
      ok := CheckRemainder(l.(quantity := q, cost := c));
    }

    method CheckAllocation(id: Id, a: Allocation) returns (ok: bool)
      ensures ok <==> AllocationAllowed(View(), id, a)
    {
      if id in allocations || a.slot < 0 || a.quantity <= 0 || a.cost <= 0 || a.position <= 0 { return false; }
      if a.lot !in lots || a.event !in events { return false; }
      if a.disposal !in journal || journal[a.disposal] >= a.position { return false; }
      match events[a.event] {
        case LotAcquired(_, _) => return false;
        case LotDisposed(position, stream, transaction, listed) =>
          if position != a.position || stream != a.disposal || transaction != a.disposal { return false; }
          if Allocated(id, a.lot, a.slot, a.quantity, a.cost) !in listed { return false; }
      }
      ok := forall k :: k in allocations && allocations[k].disposal == a.disposal ==>
          allocations[k].slot != a.slot && allocations[k].lot != a.lot;
    }

    /** Lowers both remainders and queues the deferred allocation check of this update. */
    method Decrease(id: Id, q: int, c: int, e: Id, p: int) returns (ok: bool)
      requires Valid()
      modifies this
      ensures Valid() && saved == old(saved) && View() == Apply(old(View()), DecrementLot(id, q, c, e, p))
      ensures ok == Allowed(old(View()), DecrementLot(id, q, c, e, p))
    {
      hide Inv, DecrementAllowed, Apply, Allowed, AllMatched;
      ApplyKeepsInv(View(), DecrementLot(id, q, c, e, p));
      DecrementIs(View(), id, q, c, e, p);
      ok := CheckDecrement(id, q, c, e, p);
      if ok {
        var d := Decrement(id, e, p, lots[id].quantity - q, lots[id].cost - c);
        assert d == Taken(lots[id], id, q, c, e, p);
        lots := lots[id := lots[id].(quantity := q, cost := c, event := e, position := p)];
        assert saved.log + (queue + [d]) == log + [d];
        queue := queue + [d];
        log := log + [d];
      }
    }

    method Allocate(id: Id, a: Allocation) returns (ok: bool)
      requires Valid()
      modifies this
      ensures Valid() && saved == old(saved) && View() == Apply(old(View()), InsertAllocation(id, a))
      ensures ok == Allowed(old(View()), InsertAllocation(id, a))
    {
      ApplyKeepsInv(View(), InsertAllocation(id, a));
      hide Inv, InsertAllowed, DecrementAllowed, AllocationAllowed, AllMatched;
      ok := CheckAllocation(id, a);
      if ok { allocations := allocations[id := a]; }
    }

    method CheckQueue() returns (ok: bool)
      ensures ok <==> forall j :: 0 <= j < |queue| ==> HasAllocation(View(), queue[j])
    {
      for i := 0 to |queue|
        invariant forall j :: 0 <= j < i ==> HasAllocation(View(), queue[j])
      {
        var d := queue[i];
        ok := exists k ::
          (k in allocations && allocations[k].lot == d.lot && allocations[k].event == d.event
           && allocations[k].position == d.position && allocations[k].quantity == d.quantity
           && allocations[k].cost == d.cost);
        assert ok <==> HasAllocation(View(), queue[i]);
        if !ok { return; }
      }
      return true;
    }

    /** Commits exactly when every decrement ever made has its allocation; otherwise rolls back. */
    method Commit() returns (ok: bool)
      requires Valid()
      modifies this
      ensures Valid() && queue == [] && ok == AllMatched(old(View()))
      ensures View() == saved == if ok then old(View()) else old(saved)
    {
      hide Inv, AllMatched, HasAllocation;
      QueueDecides(saved, View(), queue);
      ok := CheckQueue();
      if ok {
        saved := View();
      } else {
        events, journal, lots, allocations := saved.events, saved.journal, saved.lots, saved.allocations;
        starts, log := saved.starts, saved.log;
      }
      queue := [];
    }
  }

  lemma QueueDecides(saved: Tables, t: Tables, queue: seq<Decrement>)
    requires AllMatched(saved) && t.log == saved.log + queue
    requires forall k :: k in saved.allocations ==> k in t.allocations && t.allocations[k] == saved.allocations[k]
    ensures AllMatched(t) <==> forall j :: 0 <= j < |queue| ==> HasAllocation(t, queue[j])
  {
    forall i | 0 <= i < |saved.log| ensures HasAllocation(t, t.log[i]) {
      assert HasAllocation(saved, saved.log[i]);
      var k :| k in saved.allocations && Fits(saved.allocations[k], saved.log[i]);
      assert Fits(t.allocations[k], t.log[i]);
    }
    if AllMatched(t) {
      forall j | 0 <= j < |queue| ensures HasAllocation(t, queue[j]) { assert t.log[|saved.log| + j] == queue[j]; }
    }
  }
}
