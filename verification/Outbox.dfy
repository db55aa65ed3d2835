/** Claims and delivery of transactional outbox messages (migration v2_0005). */
module Outbox {
  import opened Ids
  import opened Outcomes

  /** The columns a worker may write. */
  datatype Message = Message(attempts: int, availableAt: int, lockedBy: Option<Id>, lockedUntil: Option<int>,
                             deliveredAt: Option<int>, lastError: Option<Id>)

  /** The three readings of the wall clock one update takes, in order. */
  datatype Clock = Clock(steal: int, shorten: int, deliver: int)

  ghost predicate Ticks(c: Clock) { c.steal <= c.shorten <= c.deliver }

  ghost predicate RowShape(m: Message) {
    && m.attempts >= 0 && (m.lockedBy.Some? <==> m.lockedUntil.Some?)
    && (m.lockedBy.Some? ==> m.attempts > 0) && (m.deliveredAt.Some? ==> m.lockedBy == None)
  }

  const FRESH := Message(0, 0, None, None, None, None)

  ghost predicate Unexpired(m: Message, now: int) {
    m.lockedBy.Some? && m.lockedUntil.Some? && m.lockedUntil.value > now
  }

  /** A worker becomes the owner of a message it did not own. */
  ghost predicate Takes(before: Message, after: Message) { after.lockedBy.Some? && after.lockedBy != before.lockedBy }

  /** The update guard, as the conditions under which it does not raise. */
  ghost predicate Accepts(before: Message, after: Message, c: Clock) {
    && RowShape(after)
    && after.attempts >= before.attempts
    && if before.deliveredAt.Some? then after == before
       else
         && (Takes(before, after) ==> after.attempts > before.attempts && !Unexpired(before, c.steal))
         && (after.deliveredAt == None && Unexpired(before, c.shorten) ==>
               after.lockedBy.Some? && after.lockedUntil.Some? && after.lockedUntil.value >= before.lockedUntil.value)
         && (after.deliveredAt.Some? ==>
               Unexpired(before, c.deliver) && before.attempts > 0
               && after.lockedBy == None && after.lockedUntil == None && after.lastError == None)
  }

  // ---------------------------------------------------------------- runs of one message

  /** Successive rows of a message, with the clock readings of the update between each two. */
  datatype Run = Run(rows: seq<Message>, clocks: seq<Clock>)

  ghost predicate Legal(r: Run) {
    && |r.rows| == |r.clocks| + 1 && RowShape(r.rows[0])
    && (forall i :: 0 <= i < |r.clocks| ==> Ticks(r.clocks[i]) && Accepts(r.rows[i], r.rows[i + 1], r.clocks[i]))
    && (forall i :: 0 <= i < |r.clocks| - 1 ==> r.clocks[i].deliver <= r.clocks[i + 1].steal)
  }

  lemma {:induction false} ClockNondecreasing(r: Run, i: nat, j: nat)
    requires Legal(r) && i <= j < |r.clocks|
    ensures r.clocks[i].deliver <= r.clocks[j].deliver
    decreases j
  {
    if i < j {
      ClockNondecreasing(r, i, j - 1);
      assert r.clocks[j - 1].deliver <= r.clocks[j - 1 + 1].steal;
    }
  }

  /** Delivery is final: the row never changes again. */
  lemma {:induction false} DeliveryIsFinal(r: Run, i: nat, j: nat)
    requires Legal(r) && i <= j < |r.rows| && r.rows[i].deliveredAt.Some?
    ensures r.rows[j] == r.rows[i]
    decreases j
  {
    if i < j {
      DeliveryIsFinal(r, i, j - 1);
      assert Accepts(r.rows[j - 1], r.rows[j - 1 + 1], r.clocks[j - 1]);
    }
  }

  /** While the clock is before its expiry an undelivered claim keeps its owner and never gets shorter. */
  lemma {:induction false} ClaimHolds(r: Run, i: nat, j: nat)
    requires Legal(r) && i <= j < |r.rows| && r.rows[i].lockedBy.Some? && r.rows[i].lockedUntil.Some?
    requires r.rows[j].deliveredAt == None
    requires i < j ==> r.clocks[j - 1].deliver < r.rows[i].lockedUntil.value
    ensures r.rows[j].lockedBy == r.rows[i].lockedBy
    ensures r.rows[j].lockedUntil.Some? && r.rows[j].lockedUntil.value >= r.rows[i].lockedUntil.value
    decreases j
  {
    if i < j {
      if i < j - 1 { ClockNondecreasing(r, j - 2, j - 1); }
      assert Accepts(r.rows[j - 1], r.rows[j - 1 + 1], r.clocks[j - 1]);
      assert r.rows[j - 1].deliveredAt == None;
      ClaimHolds(r, i, j - 1);
    }
  }

  /** The owner of row `i + 1` took the message there and still held it, undelivered, at row `j`. */
  ghost predicate HeldSince(r: Run, i: nat, j: nat)
    requires i < j < |r.rows|
  {
    && Takes(r.rows[i], r.rows[i + 1])
    && forall k :: i < k <= j ==> r.rows[k].lockedBy == r.rows[i + 1].lockedBy && r.rows[k].deliveredAt == None
  }

  lemma RowsShaped(r: Run, i: nat)
    requires Legal(r) && i < |r.rows|
    ensures RowShape(r.rows[i])
  {
    if i > 0 { assert Accepts(r.rows[i - 1], r.rows[i - 1 + 1], r.clocks[i - 1]); }
  }

  /** A locked row of a run that began unlocked was taken earlier, by the same owner and without interruption. */
  lemma {:induction false} TakenBefore(r: Run, j: nat) returns (i: nat)
    requires Legal(r) && j < |r.rows| && r.rows[0].lockedBy == None && r.rows[j].lockedBy.Some?
    ensures i < j && HeldSince(r, i, j)
  {
    RowsShaped(r, j);
    if r.rows[j - 1].lockedBy == r.rows[j].lockedBy {
      i := TakenBefore(r, j - 1);
    } else {
      i := j - 1;
    }
  }

  /** The update that delivered a delivered message. */
  lemma {:induction false} DeliveryPoint(r: Run, n: nat) returns (j: nat)
    requires Legal(r) && n < |r.rows| && r.rows[0].deliveredAt == None && r.rows[n].deliveredAt.Some?
    ensures j < n && r.rows[j].deliveredAt == None && r.rows[j + 1] == r.rows[n]
  {
    if r.rows[n - 1].deliveredAt == None {
      j := n - 1;
    } else {
      j := DeliveryPoint(r, n - 1);
      DeliveryIsFinal(r, n - 1, n);
    }
  }

  /**
   * Every delivered row of a run from insertion was delivered by one update, under a claim that had not
   * expired at that update's reading of the clock, whose owner took the message earlier and held it
   * without interruption until then.
   */
  lemma DeliveredUnderClaim(r: Run, n: nat) returns (i: nat, j: nat)
    requires Legal(r) && n < |r.rows| && r.rows[0] == FRESH.(availableAt := r.rows[0].availableAt)
    requires r.rows[n].deliveredAt.Some?
    ensures i < j < n && HeldSince(r, i, j) && r.rows[j + 1] == r.rows[n] && r.rows[n].lockedBy == None
    ensures Unexpired(r.rows[j], r.clocks[j].deliver) && r.rows[n].attempts >= r.rows[i + 1].attempts > 0
  {
    j := DeliveryPoint(r, n);
    assert Accepts(r.rows[j], r.rows[j + 1], r.clocks[j]);
    i := TakenBefore(r, j);
    AttemptsGrow(r, i + 1, n);
    RowsShaped(r, i + 1);
  }

  lemma {:induction false} AttemptsGrow(r: Run, i: nat, j: nat)
    requires Legal(r) && i <= j < |r.rows|
    ensures r.rows[j].attempts >= r.rows[i].attempts
  {
    if i < j {
      AttemptsGrow(r, i, j - 1);
      assert Accepts(r.rows[j - 1], r.rows[j - 1 + 1], r.clocks[j - 1]);
    }
  }

  /** How many of the first `n` updates gave the message a new owner. */
  ghost function Taken(r: Run, n: nat): nat
    requires n < |r.rows|
  {
    if n == 0 then 0 else Taken(r, n - 1) + if Takes(r.rows[n - 1], r.rows[n]) then 1 else 0
  }

  /** Every take costs an attempt. */
  lemma {:induction false} AttemptsCoverTakes(r: Run, n: nat)
    requires Legal(r) && n < |r.rows|
    ensures r.rows[n].attempts >= r.rows[0].attempts + Taken(r, n)
  {
    if n > 0 {
      AttemptsCoverTakes(r, n - 1);
      assert Accepts(r.rows[n - 1], r.rows[n - 1 + 1], r.clocks[n - 1]);
    }
  }

  // ---------------------------------------------------------------- the table

  /** A legal run from insertion to the present row, all of it at or before `now`. */
  ghost predicate History(r: Run, m: Message, now: int) {
    && Legal(r) && r.rows[0] == FRESH.(availableAt := r.rows[0].availableAt) && r.rows[|r.rows| - 1] == m
    && (r.clocks != [] ==> r.clocks[|r.clocks| - 1].deliver <= now)
  }

  lemma HistoryGrows(r: Run, m: Message, now: int, row: Message, c: Clock)
    requires History(r, m, now) && Ticks(c) && now <= c.steal && Accepts(m, row, c)
    ensures History(Run(r.rows + [row], r.clocks + [c]), row, c.deliver)
  {
    hide Accepts;
    var s := Run(r.rows + [row], r.clocks + [c]);
    forall i | 0 <= i < |s.clocks| ensures Ticks(s.clocks[i]) && Accepts(s.rows[i], s.rows[i + 1], s.clocks[i]) {
      if i < |r.clocks| { assert Accepts(r.rows[i], r.rows[i + 1], r.clocks[i]); }
    }
  }

  class Table {
    var messages: map<Id, Message>
    var now: int
    ghost var runs: map<Id, Run>

    /** Every row is the end of a legal run from its insertion, all of it at or before `now`. */
    ghost predicate Valid()
      reads this
    {
      runs.Keys == messages.Keys && forall id :: id in messages ==> History(runs[id], messages[id], now)
    }

    constructor (now: int)
      ensures Valid() && messages == map[] && this.now == now
    {
      messages, runs := map[], map[];
      this.now := now;
    }

    method Insert(id: Id, availableAt: int) returns (ok: bool)
      requires Valid()
      modifies this
      ensures Valid() && now == old(now) && ok == (id !in old(messages))
      ensures messages == if ok then old(messages)[id := FRESH.(availableAt := availableAt)] else old(messages)
    {
      ok := id !in messages;
      if ok {
        messages := messages[id := FRESH.(availableAt := availableAt)];
        runs := runs[id := Run([messages[id]], [])];
      }
    }

    /** The before-update trigger; each step of the guard raises by refusing. */
    method Update(id: Id, row: Message, c: Clock) returns (ok: bool)
      requires Valid() && id in messages && Ticks(c) && now <= c.steal
      modifies this
      ensures Valid() && now == c.deliver && ok == Accepts(old(messages)[id], row, c)
      ensures messages == if ok then old(messages)[id := row] else old(messages)
      ensures ok ==> runs == old(runs)[id := Run(old(runs)[id].rows + [row], old(runs)[id].clocks + [c])]
    {
      var before := messages[id];
      now := c.deliver;
      ok := Guard(before, row, c);
      if !ok { return; }
      hide Legal, Accepts, History;
      ghost var r := runs[id];
      HistoryGrows(r, before, old(now), row, c);
      messages := messages[id := row];
      runs := runs[id := Run(r.rows + [row], r.clocks + [c])];
    }
  }

  method Guard(before: Message, row: Message, c: Clock) returns (ok: bool)
    requires RowShape(before)
    ensures ok <==> Accepts(before, row, c)
  {
    if row.attempts < 0 || (row.lockedBy.Some? && row.attempts == 0) { return false; }
    if row.lockedBy.Some? && (row.lockedUntil == None || row.deliveredAt.Some?) { return false; }
    if row.lockedBy == None && row.lockedUntil.Some? { return false; }
    if row.attempts < before.attempts { return false; }
    if before.deliveredAt.Some? {
      return row.deliveredAt == before.deliveredAt && row.attempts == before.attempts
             && row.availableAt == before.availableAt && row.lockedBy == before.lockedBy
             && row.lockedUntil == before.lockedUntil && row.lastError == before.lastError;
    }
    if before.lockedBy != row.lockedBy && row.lockedBy.Some? {
      if row.attempts <= before.attempts { return false; }
      if before.lockedBy.Some? && before.lockedUntil.value > c.steal { return false; }
    }
    if row.deliveredAt == None && before.lockedBy.Some? && before.lockedUntil.value > c.shorten {
      if row.lockedBy == None || row.lockedUntil == None || row.lockedUntil.value < before.lockedUntil.value {
        return false;
      }
    }
    if row.deliveredAt.Some? {
      if before.lockedBy == None || before.lockedUntil == None { return false; }
      if before.lockedUntil.value <= c.deliver { return false; }
      if before.attempts <= 0 { return false; }
      if row.lockedBy.Some? || row.lockedUntil.Some? { return false; }
      if row.lastError.Some? { return false; }
    }
    return true;
  }
}
