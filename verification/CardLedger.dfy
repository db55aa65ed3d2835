/** Typed credit-card transactions, their refunds and reversals in one Book (migration v2_0010). */
module CardLedger {
  import opened Ids
  import opened Outcomes
  import opened Sums
  import opened Journal

  datatype Intent = Charge | Payment | Refund | Fee

  /** `creditCard` is the product subtype; type, subtype and asset never change. */
  datatype Account = Account(accountType: AccountType, creditCard: bool, asset: AssetCode)

  datatype Kind = OrdinaryKind | CardKind(intent: Intent)

  /** The source event of a journal transaction; a card event carries its typed payload. */
  datatype Event =
    | TransactionPosted
    | TransactionReversed
    | CardRecorded(intent: Intent, card: Id, counter: Id, original: Option<Id>, legs: seq<Leg>)

  datatype Entry = Entry(kind: Kind, event: Event, effectiveAt: int, legs: seq<Leg>)

  datatype Card = Card(intent: Intent, card: Id, counter: Id, asset: AssetCode, units: int, original: Option<Id>)

  /** The four tables; `reversals` maps an original transaction to the one that reverses it. */
  datatype Tables = Tables(accounts: map<Id, Account>, journal: map<Id, Entry>, cards: map<Id, Card>,
                           reversals: map<Id, Id>)

  // ---------------------------------------------------------------- what the tables mean

  ghost predicate IsCardAccount(t: Tables, a: Id) { a in t.accounts && t.accounts[a].creditCard }

  ghost function RefundsOf(t: Tables, charge: Id): set<Id> {
    set tx | tx in t.cards && t.cards[tx].intent == Refund && t.cards[tx].original == Some(charge)
  }

  ghost function ActiveRefundsOf(t: Tables, charge: Id): set<Id> { RefundsOf(t, charge) - t.reversals.Keys }

  function UnitsIn(cards: map<Id, Card>): Id -> int { (tx: Id) => if tx in cards then cards[tx].units else 0 }

  ghost function ActiveRefundUnits(t: Tables, charge: Id): int { SumSet(UnitsIn(t.cards), ActiveRefundsOf(t, charge)) }

  /** Debit-positive weight of each journal transaction on one account. */
  function EntryNet(journal: map<Id, Entry>, a: Id): Id -> int {
    (tx: Id) => if tx in journal then AccountNet(journal[tx].legs, a) else 0
  }

  /** Credits minus debits posted on an account by the whole journal. */
  ghost function CreditBalance(t: Tables, a: Id): int { -SumSet(EntryNet(t.journal, a), t.journal.Keys) }

  /** Transactions that are no reversal and have none. */
  function ActiveOriginals(t: Tables): set<Id> {
    set tx | tx in t.journal && !t.journal[tx].event.TransactionReversed? && tx !in t.reversals
  }

  /** How far an account's balance is from the sum over active originals. */
  ghost function Gap(t: Tables, a: Id): int { CreditBalance(t, a) + SumSet(EntryNet(t.journal, a), ActiveOriginals(t)) }

  function ActiveCards(t: Tables, a: Id, intent: Intent): set<Id> {
    set tx | tx in t.cards && tx !in t.reversals && t.cards[tx].card == a && t.cards[tx].intent == intent
  }

  ghost function IntentTotal(t: Tables, a: Id, intent: Intent): int {
    SumSet(UnitsIn(t.cards), ActiveCards(t, a, intent))
  }

  // ---------------------------------------------------------------- guards

  ghost predicate PositionsOrdered(legs: seq<Leg>) {
    forall i, j :: 0 <= i < j < |legs| ==> legs[i].position < legs[j].position
  }

  /** Journal row with its postings: fresh key, unique positions, positive units, known account and asset. */
  ghost predicate EntryAllowed(t: Tables, tx: Id, e: Entry) {
    && tx !in t.journal
    && !e.event.TransactionReversed?
    && PositionsOrdered(e.legs)
    && forall i :: 0 <= i < |e.legs| ==>
         e.legs[i].units > 0 && e.legs[i].account in t.accounts
             && t.accounts[e.legs[i].account].asset == e.legs[i].asset
  }

  ghost predicate HasLeg(legs: seq<Leg>, position: nat, account: Id, side: Side, asset: AssetCode, units: int) {
    exists i :: 0 <= i < |legs| && legs[i] == Leg(position, account, asset, side, units)
  }

  ghost function DebitAccount(c: Card): Id { if c.intent == Charge || c.intent == Fee then c.counter else c.card }

  ghost function CreditAccount(c: Card): Id { if c.intent == Charge || c.intent == Fee then c.card else c.counter }

  /** The row repeats its event, its journal transaction and exactly its two postings. */
  ghost predicate CardBinds(t: Tables, tx: Id, c: Card) {
    && tx in t.journal
    && var e := t.journal[tx];
    && e.event.CardRecorded?
    && e.event.intent == c.intent && e.event.card == c.card && e.event.counter == c.counter
         && e.event.original == c.original
    && e.kind == CardKind(c.intent)
    && IsCardAccount(t, c.card) && t.accounts[c.card].asset == c.asset && t.accounts[c.card].accountType == Liability
    && c.counter in t.accounts && t.accounts[c.counter].asset == c.asset
    && t.accounts[c.counter].accountType == (if c.intent == Payment then AssetAccount else Expense)
    && |e.event.legs| == 2 && |e.legs| == 2
    && HasLeg(e.legs, 0, DebitAccount(c), Debit, c.asset, c.units)
    && HasLeg(e.legs, 1, CreditAccount(c), Credit, c.asset, c.units)
    && e.event.legs == e.legs
  }

  ghost predicate CardShape(c: Card) {
    c.units > 0 && c.card != c.counter && (c.intent == Refund <==> c.original.Some?)
  }

  ghost predicate RefundSourceValid(t: Tables, tx: Id, c: Card) {
    && c.original.Some?
    && var o := c.original.value;
    && o in t.cards && t.cards[o].intent == Charge
    && t.cards[o].card == c.card && t.cards[o].counter == c.counter && t.cards[o].asset == c.asset
    && o !in t.reversals
    && o in t.journal && tx in t.journal && t.journal[tx].effectiveAt >= t.journal[o].effectiveAt
  }

  ghost predicate CardAllowed(t: Tables, tx: Id, c: Card) {
    && tx !in t.cards && CardShape(c) && CardBinds(t, tx, c)
    && (c.intent == Refund ==>
          RefundSourceValid(t, tx, c)
          && ActiveRefundUnits(t, c.original.value) + c.units <= t.cards[c.original.value].units)
  }

  ghost predicate TouchesCard(t: Tables, e: Entry) {
    exists i :: 0 <= i < |e.legs| && IsCardAccount(t, e.legs[i].account)
        && t.accounts[e.legs[i].account].asset == e.legs[i].asset
  }

  ghost predicate ReversalAllowed(t: Tables, r: Id, o: Id, legs: seq<Leg>, at: int) {
    && o in t.journal && r !in t.journal && o !in t.reversals
    && var e := t.journal[o];
    && legs == Inverse(e.legs)
    && (e.kind.CardKind? || TouchesCard(t, e) ==>
          && !e.event.TransactionReversed?
          && at >= e.effectiveAt
          && (e.event.CardRecorded? && e.event.intent == Charge ==> ActiveRefundsOf(t, o) == {}))
  }

  // ---------------------------------------------------------------- transitions

  datatype Op =
    | PostEntry(tx: Id, entry: Entry)
    | RecordCard(tx: Id, row: Card)
    | Reverse(reversal: Id, original: Id, legs: seq<Leg>, at: int)

  ghost predicate Allowed(t: Tables, op: Op) {
    match op
    case PostEntry(tx, e) => EntryAllowed(t, tx, e)
    case RecordCard(tx, c) => CardAllowed(t, tx, c)
    case Reverse(r, o, legs, at) => ReversalAllowed(t, r, o, legs, at)
  }

  ghost function Reversed(t: Tables, r: Id, o: Id, legs: seq<Leg>, at: int): Tables
    requires o in t.journal
  {
    t.(journal := t.journal[r := Entry(t.journal[o].kind, TransactionReversed, at, legs)],
        reversals := t.reversals[o := r])
  }

  /** A refused write changes nothing; an accepted one adds its rows. */
  ghost function Apply(t: Tables, op: Op): Tables {
    if !Allowed(t, op) then t
    else match op
      case PostEntry(tx, e) => t.(journal := t.journal[tx := e])
      case RecordCard(tx, c) => t.(cards := t.cards[tx := c])
      case Reverse(r, o, legs, at) => Reversed(t, r, o, legs, at)
  }

  ghost function Run(t: Tables, ops: seq<Op>): Tables {
    if ops == [] then t else Apply(Run(t, ops[..|ops| - 1]), ops[|ops| - 1])
  }

  // ---------------------------------------------------------------- invariant

  ghost predicate Inv(t: Tables) {
    RowsKnown(t) && RefundsCovered(t) && BalancesMatch(t)
  }

  ghost predicate RowsKnown(t: Tables) {
    && (forall a :: a in t.accounts && t.accounts[a].creditCard ==> t.accounts[a].accountType == Liability)
    && (forall tx :: tx in t.journal ==> LegsKnown(t, tx))
    && (forall tx :: tx in t.cards ==> CardKnown(t, tx))
    && (forall o :: o in t.reversals ==> ReversalKnown(t, o))
  }

  ghost predicate RefundsCovered(t: Tables) {
    forall c :: c in t.cards && t.cards[c].intent == Charge ==> ChargeCovered(t, c)
  }

  ghost predicate BalancesMatch(t: Tables) {
    forall a :: IsCardAccount(t, a) ==> Gap(t, a) == 0
  }

  ghost predicate CardKnown(t: Tables, tx: Id)
    requires tx in t.cards
  {
    CardShape(t.cards[tx]) && CardBinds(t, tx, t.cards[tx]) && RefundKnown(t, tx)
  }

  ghost predicate LegsKnown(t: Tables, tx: Id)
    requires tx in t.journal
  {
    var legs := t.journal[tx].legs;
    PositionsOrdered(legs) &&
    forall i :: 0 <= i < |legs| ==> legs[i].account in t.accounts && t.accounts[legs[i].account].asset == legs[i].asset
  }

  ghost predicate RefundKnown(t: Tables, tx: Id)
    requires tx in t.cards
  {
    var c := t.cards[tx];
    c.intent == Refund ==>
      && c.original.Some? && c.original.value in t.cards
      && var o := t.cards[c.original.value];
      o.intent == Charge && o.card == c.card && o.counter == c.counter && o.asset == c.asset
  }

  ghost predicate ReversalKnown(t: Tables, o: Id)
    requires o in t.reversals
  {
    && o in t.journal && t.reversals[o] in t.journal
    && t.journal[t.reversals[o]].event.TransactionReversed?
    && t.journal[t.reversals[o]].legs == Inverse(t.journal[o].legs)
  }

  ghost predicate ChargeCovered(t: Tables, c: Id)
    requires c in t.cards
  {
    0 <= ActiveRefundUnits(t, c) <= t.cards[c].units && (c in t.reversals ==> ActiveRefundsOf(t, c) == {})
  }

  // ---------------------------------------------------------------- every step keeps the invariant

  function NoRows(accounts: map<Id, Account>): Tables { Tables(accounts, map[], map[], map[]) }

  lemma NoRowsInv(accounts: map<Id, Account>)
    requires forall a :: a in accounts && accounts[a].creditCard ==> accounts[a].accountType == Liability
    ensures Inv(NoRows(accounts))
  {
    var t := NoRows(accounts);
    forall a | IsCardAccount(t, a) ensures Gap(t, a) == 0 {
      assert ActiveOriginals(t) == t.journal.Keys;
    }
  }

  /** A new journal row adds its own net to an account's sum over any rows that were there. */
  lemma JournalGrows(journal: map<Id, Entry>, tx: Id, e: Entry, a: Id, rows: set<Id>)
    requires tx !in journal && tx !in rows
    ensures SumSet(EntryNet(journal[tx := e], a), rows) == SumSet(EntryNet(journal, a), rows)
    ensures SumSet(EntryNet(journal[tx := e], a), rows + {tx}) ==
              SumSet(EntryNet(journal, a), rows) + AccountNet(e.legs, a)
  {
    SumSetEqual(EntryNet(journal, a), EntryNet(journal[tx := e], a), rows);
    SumSetAdd(EntryNet(journal[tx := e], a), rows, tx);
  }

  lemma PostEntryKeepsRows(t: Tables, tx: Id, e: Entry)
    requires RowsKnown(t) && EntryAllowed(t, tx, e)
    ensures RowsKnown(t.(journal := t.journal[tx := e])) && tx !in t.reversals && tx !in t.cards
  {
    hide HasLeg, PositionsOrdered;
    var u := t.(journal := t.journal[tx := e]);
    forall x | x in u.journal ensures LegsKnown(u, x) { if x != tx { assert LegsKnown(t, x); } }
    forall x | x in u.cards ensures CardKnown(u, x) { assert CardKnown(t, x); }
    forall o | o in u.reversals ensures ReversalKnown(u, o) { assert ReversalKnown(t, o); }
    assert tx in t.reversals ==> ReversalKnown(t, tx);
    assert tx in t.cards ==> CardKnown(t, tx);
  }

  lemma PostEntryBalances(t: Tables, tx: Id, e: Entry, a: Id)
    requires tx !in t.journal && tx !in t.reversals && !e.event.TransactionReversed?
    ensures Gap(t.(journal := t.journal[tx := e]), a) == Gap(t, a)
  {
    var u := t.(journal := t.journal[tx := e]);
    assert u.journal.Keys == t.journal.Keys + {tx};
    assert ActiveOriginals(u) == ActiveOriginals(t) + {tx};
    JournalGrows(t.journal, tx, e, a, t.journal.Keys);
    JournalGrows(t.journal, tx, e, a, ActiveOriginals(t));
  }

  lemma SameCoverage(t: Tables, u: Tables, c: Id)
    requires u.cards == t.cards && u.reversals == t.reversals && c in t.cards && ChargeCovered(t, c)
    ensures ChargeCovered(u, c)
  {
    assert RefundsOf(u, c) == RefundsOf(t, c);
  }

  lemma PostEntryKeepsInv(t: Tables, tx: Id, e: Entry)
    requires Inv(t) && EntryAllowed(t, tx, e)
    ensures Inv(t.(journal := t.journal[tx := e]))
  {
    PostEntryKeepsRows(t, tx, e);
    var u := t.(journal := t.journal[tx := e]);
    hide RowsKnown, Gap, ChargeCovered;
    forall c | c in u.cards && u.cards[c].intent == Charge ensures ChargeCovered(u, c) { SameCoverage(t, u, c); }
    forall a | IsCardAccount(u, a) ensures Gap(u, a) == 0 {
      assert IsCardAccount(t, a);
      PostEntryBalances(t, tx, e, a);
    }
  }

  /** Recording a refund adds its units to what the charge has refunded, and touches no other charge. */
  lemma RecordedRefund(t: Tables, tx: Id, row: Card, charge: Id)
    requires tx !in t.cards
    ensures var u := t.(cards := t.cards[tx := row]);
            if row.intent == Refund && row.original == Some(charge) && tx !in t.reversals
            then ActiveRefundsOf(u, charge) == ActiveRefundsOf(t, charge) + {tx}
                 && ActiveRefundUnits(u, charge) == ActiveRefundUnits(t, charge) + row.units
            else ActiveRefundsOf(u, charge) == ActiveRefundsOf(t, charge)
                 && ActiveRefundUnits(u, charge) == ActiveRefundUnits(t, charge)
  {
    hide SumSet;
    var u := t.(cards := t.cards[tx := row]);
    var before := ActiveRefundsOf(t, charge);
    SumSetEqual(UnitsIn(t.cards), UnitsIn(u.cards), before);
    if row.intent == Refund && row.original == Some(charge) && tx !in t.reversals {
      assert ActiveRefundsOf(u, charge) == before + {tx};
      SumSetAdd(UnitsIn(u.cards), before, tx);
    } else {
      assert ActiveRefundsOf(u, charge) == before;
    }
  }

  lemma RecordCardKeepsRows(t: Tables, tx: Id, row: Card)
    requires RowsKnown(t) && CardAllowed(t, tx, row)
    ensures RowsKnown(t.(cards := t.cards[tx := row]))
  {
    hide HasLeg, PositionsOrdered, Signed, Net;
    var u := t.(cards := t.cards[tx := row]);
    forall x | x in u.journal ensures LegsKnown(u, x) { assert LegsKnown(t, x); }
    forall o | o in u.reversals ensures ReversalKnown(u, o) { assert ReversalKnown(t, o); }
    forall x | x in u.cards ensures CardKnown(u, x) {
      if x != tx {
        assert CardKnown(t, x);
        assert CardBinds(u, x, u.cards[x]);
      } else {
        assert CardBinds(u, x, row);
      }
    }
  }

  lemma NoRefundsYet(t: Tables, charge: Id)
    requires RowsKnown(t) && charge !in t.cards
    ensures RefundsOf(t, charge) == {}
  {
    forall x ensures x !in RefundsOf(t, charge) { assert x in t.cards ==> CardKnown(t, x); }
  }

  lemma RecordCardCovers(t: Tables, tx: Id, row: Card, c: Id)
    requires Inv(t) && CardAllowed(t, tx, row)
    requires var u := t.(cards := t.cards[tx := row]); c in u.cards && u.cards[c].intent == Charge
    ensures ChargeCovered(t.(cards := t.cards[tx := row]), c)
  {
    var u := t.(cards := t.cards[tx := row]);
    RecordedRefund(t, tx, row, c);
    if c != tx {
      assert ChargeCovered(t, c);
    } else {
      NoRefundsYet(t, c);
      assert ActiveRefundsOf(u, c) == {};
    }
  }

  lemma RecordCardKeepsInv(t: Tables, tx: Id, row: Card)
    requires Inv(t) && CardAllowed(t, tx, row)
    ensures Inv(t.(cards := t.cards[tx := row]))
  {
    RecordCardKeepsRows(t, tx, row);
    var u := t.(cards := t.cards[tx := row]);
    hide RowsKnown, CardAllowed, CardBinds, ChargeCovered;
    forall c | c in u.cards && u.cards[c].intent == Charge ensures ChargeCovered(u, c) {
      RecordCardCovers(t, tx, row, c);
    }
    forall a | IsCardAccount(u, a) ensures Gap(u, a) == 0 {
      assert IsCardAccount(t, a) && Gap(t, a) == 0 && ActiveOriginals(u) == ActiveOriginals(t);
    }
  }

  /** Reversing a refund frees exactly its units; reversing anything else frees none. */
  lemma ReversalFrees(t: Tables, r: Id, o: Id, charge: Id)
    requires o !in t.reversals
    ensures var u := t.(reversals := t.reversals[o := r]);
            ActiveRefundsOf(u, charge) == ActiveRefundsOf(t, charge) - {o}
            && ActiveRefundUnits(u, charge) ==
               ActiveRefundUnits(t, charge) - (if o in ActiveRefundsOf(t, charge) then t.cards[o].units else 0)
  {
    var u := t.(reversals := t.reversals[o := r]);
    assert RefundsOf(u, charge) == RefundsOf(t, charge);
    assert ActiveRefundsOf(u, charge) == ActiveRefundsOf(t, charge) - {o};
    if o in ActiveRefundsOf(t, charge) {
      SumSetRemove(UnitsIn(t.cards), ActiveRefundsOf(t, charge), o);
    } else {
      assert ActiveRefundsOf(u, charge) == ActiveRefundsOf(t, charge);
    }
  }

  /** A reversal of an active transaction cancels it; a reversal of a reversal cannot touch a card. */
  lemma ReversalBalances(t: Tables, r: Id, o: Id, legs: seq<Leg>, at: int, a: Id)
    requires o in t.journal && r !in t.journal && o !in t.reversals && legs == Inverse(t.journal[o].legs)
    requires t.journal[o].event.TransactionReversed? ==> AccountNet(t.journal[o].legs, a) == 0
    ensures Gap(Reversed(t, r, o, legs, at), a) == Gap(t, a)
  {
    var u, active := Reversed(t, r, o, legs, at), ActiveOriginals(t);
    InverseNegates(t.journal[o].legs, a, "");
    hide Inverse, AccountNet, SumSet;
    assert u.journal.Keys == t.journal.Keys + {r};
    assert ActiveOriginals(u) == active - {o};
    JournalGrows(t.journal, r, u.journal[r], a, t.journal.Keys);
    JournalGrows(t.journal, r, u.journal[r], a, active - {o});
    CancelledNet(t.journal, a, o, active);
  }

  lemma CancelledNet(journal: map<Id, Entry>, a: Id, o: Id, rows: set<Id>)
    requires o in journal && (o !in rows ==> AccountNet(journal[o].legs, a) == 0)
    ensures SumSet(EntryNet(journal, a), rows - {o}) ==
              SumSet(EntryNet(journal, a), rows) - AccountNet(journal[o].legs, a)
  {
    if o in rows { SumSetRemove(EntryNet(journal, a), rows, o); } else { assert rows - {o} == rows; }
  }

  lemma UntouchedByReversal(t: Tables, o: Id, a: Id)
    requires RowsKnown(t) && IsCardAccount(t, a) && o in t.journal && !TouchesCard(t, t.journal[o])
    ensures AccountNet(t.journal[o].legs, a) == 0
  {
    assert LegsKnown(t, o);
    UntouchedIsZero(t.journal[o].legs, a);
  }

  lemma ReverseKeepsRows(t: Tables, r: Id, o: Id, legs: seq<Leg>, at: int)
    requires RowsKnown(t) && ReversalAllowed(t, r, o, legs, at)
    ensures RowsKnown(Reversed(t, r, o, legs, at))
  {
    hide HasLeg, TouchesCard, Inverse;
    var u := Reversed(t, r, o, legs, at);
    forall x | x in u.cards ensures CardKnown(u, x) {
      assert CardKnown(t, x);
      assert CardBinds(u, x, u.cards[x]);
    }
    forall x | x in u.reversals ensures ReversalKnown(u, x) { if x != o { assert ReversalKnown(t, x); } }
    forall x | x in u.journal ensures LegsKnown(u, x) {
      if x != r { assert LegsKnown(t, x); } else { assert LegsKnown(t, o); }
    }
  }

  lemma ChargeIsRecorded(t: Tables, c: Id)
    requires RowsKnown(t) && c in t.cards && t.cards[c].intent == Charge
    ensures c in t.journal && t.journal[c].event.CardRecorded? && t.journal[c].event.intent == Charge
    ensures t.journal[c].kind.CardKind?
  {
    assert CardKnown(t, c);
  }

  lemma CardUnitsPositive(t: Tables, s: set<Id>)
    requires RowsKnown(t) && s <= t.cards.Keys
    ensures SumSet(UnitsIn(t.cards), s) >= 0
  {
    forall tx | tx in s ensures UnitsIn(t.cards)(tx) >= 0 { assert CardKnown(t, tx); }
    SumSetNonnegative(UnitsIn(t.cards), s);
  }

  lemma ReverseCovers(t: Tables, r: Id, o: Id, legs: seq<Leg>, at: int, c: Id)
    requires Inv(t) && ReversalAllowed(t, r, o, legs, at) && c in t.cards && t.cards[c].intent == Charge
    ensures ChargeCovered(Reversed(t, r, o, legs, at), c)
  {
    hide SumSet, Inverse, TouchesCard, HasLeg;
    var u, v := Reversed(t, r, o, legs, at), t.(reversals := t.reversals[o := r]);
    assert ChargeCovered(t, c);
    ChargeIsRecorded(t, c);
    ReversalFrees(t, r, o, c);
    assert RefundsOf(u, c) == RefundsOf(v, c);
    CardUnitsPositive(t, ActiveRefundsOf(u, c));
    assert o in t.cards ==> CardKnown(t, o);
  }

  lemma ReverseKeepsInv(t: Tables, r: Id, o: Id, legs: seq<Leg>, at: int)
    requires Inv(t) && ReversalAllowed(t, r, o, legs, at)
    ensures Inv(Reversed(t, r, o, legs, at))
  {
    ReverseKeepsRows(t, r, o, legs, at);
    var u := Reversed(t, r, o, legs, at);
    hide RowsKnown, ChargeCovered, Gap, TouchesCard, Inverse;
    forall c | c in u.cards && u.cards[c].intent == Charge ensures ChargeCovered(u, c) {
      ReverseCovers(t, r, o, legs, at, c);
    }
    forall a | IsCardAccount(u, a) ensures Gap(u, a) == 0 {
      assert IsCardAccount(t, a) && Gap(t, a) == 0;
      if t.journal[o].event.TransactionReversed? { UntouchedByReversal(t, o, a); }
      ReversalBalances(t, r, o, legs, at, a);
    }
  }

  lemma ApplyKeepsInv(t: Tables, op: Op)
    requires Inv(t)
    ensures Inv(Apply(t, op))
  {
    if Allowed(t, op) {
      match op
      case PostEntry(tx, e) => PostEntryKeepsInv(t, tx, e);
      case RecordCard(tx, c) => RecordCardKeepsInv(t, tx, c);
      case Reverse(r, o, legs, at) => ReverseKeepsInv(t, r, o, legs, at);
    }
  }

  lemma ApplyOnlyAdds(t: Tables, op: Op)
    ensures var u := Apply(t, op);
            t.reversals.Keys <= u.reversals.Keys && t.cards.Keys <= u.cards.Keys
            && forall tx :: tx in t.cards ==> u.cards[tx] == t.cards[tx]
  {
  }

  /** Over every run: the invariant holds, no row is lost, and a reversed transaction stays reversed. */
  lemma {:induction false} RunKeepsInv(t: Tables, ops: seq<Op>)
    requires Inv(t)
    ensures Inv(Run(t, ops))
    ensures t.reversals.Keys <= Run(t, ops).reversals.Keys && t.cards.Keys <= Run(t, ops).cards.Keys
    ensures forall tx :: tx in t.cards ==> Run(t, ops).cards[tx] == t.cards[tx]
  {
    if ops != [] {
      var n := |ops| - 1;
      RunKeepsInv(t, ops[..n]);
      ApplyKeepsInv(Run(t, ops[..n]), ops[n]);
      ApplyOnlyAdds(Run(t, ops[..n]), ops[n]);
      hide Inv, Apply;
    }
  }

  /** Over every run from empty tables, refunds never exceed their charge and a reversed charge has none. */
  lemma RefundsStayCovered(accounts: map<Id, Account>, ops: seq<Op>, charge: Id)
    requires forall a :: a in accounts && accounts[a].creditCard ==> accounts[a].accountType == Liability
    requires var t := Run(NoRows(accounts), ops); charge in t.cards && t.cards[charge].intent == Charge
    ensures var t := Run(NoRows(accounts), ops);
            0 <= ActiveRefundUnits(t, charge) <= t.cards[charge].units
            && (charge in t.reversals ==> ActiveRefundsOf(t, charge) == {})
  {
    NoRowsInv(accounts);
    RunKeepsInv(NoRows(accounts), ops);
    assert ChargeCovered(Run(NoRows(accounts), ops), charge);
  }

  /** A refund once reversed is active for no charge in any later state. */
  lemma ReversedRefundStaysInactive(t: Tables, ops: seq<Op>, refund: Id, charge: Id)
    requires Inv(t) && refund in t.reversals
    ensures refund !in ActiveRefundsOf(Run(t, ops), charge)
  {
    RunKeepsInv(t, ops);
  }

  // ---------------------------------------------------------------- what a card owes

  /** Units a typed transaction adds to what is owed on an account. */
  function Owed(c: Card, a: Id): int {
    if c.card != a then 0 else if c.intent == Charge || c.intent == Fee then c.units else -c.units
  }

  lemma CardLegs(t: Tables, tx: Id)
    requires RowsKnown(t) && tx in t.cards
    ensures var c := t.cards[tx];
            t.journal[tx].legs == [Leg(0, DebitAccount(c), c.asset, Debit, c.units),
                                   Leg(1, CreditAccount(c), c.asset, Credit, c.units)]
  {
    var legs, c := t.journal[tx].legs, t.cards[tx];
    assert CardKnown(t, tx);
    assert LegsKnown(t, tx);
    assert legs[0].position < legs[1].position;
  }

  lemma TwoLegs(legs: seq<Leg>, a: Id)
    requires |legs| == 2
    ensures AccountNet(legs, a) == OnAccount(a)(legs[0]) + OnAccount(a)(legs[1])
  {
    var f := OnAccount(a);
    assert legs[..1][..0] == [];
    assert Sum(f, legs[..1]) == Sum(f, legs[..1][..0]) + f(legs[0]);
    assert Sum(f, legs) == Sum(f, legs[..1]) + f(legs[1]);
  }

  lemma CardEntryNet(t: Tables, tx: Id, a: Id)
    requires Inv(t) && tx in t.cards && IsCardAccount(t, a)
    ensures tx in t.journal && AccountNet(t.journal[tx].legs, a) == -Owed(t.cards[tx], a)
  {
    var c := t.cards[tx];
    CardLegs(t, tx);
    assert CardKnown(t, tx);
    TwoLegs(t.journal[tx].legs, a);
  }

  function OwedOn(cards: map<Id, Card>, a: Id): Id -> int { (tx: Id) => if tx in cards then Owed(cards[tx], a) else 0 }

  function UnreversedCards(t: Tables): set<Id> { t.cards.Keys - t.reversals.Keys }

  /** The signed total over typed rows, intent by intent. */
  lemma OwedByIntent(t: Tables, a: Id)
    ensures SumSet(OwedOn(t.cards, a), UnreversedCards(t)) ==
            IntentTotal(t, a, Charge) + IntentTotal(t, a, Fee) - IntentTotal(t, a, Payment) - IntentTotal(t, a, Refund)
  {
    var c, f, p, r := ActiveCards(t, a, Charge), ActiveCards(t, a, Fee), ActiveCards(t, a, Payment),
        ActiveCards(t, a, Refund);
    var other := UnreversedCards(t) - (c + f + p + r);
    var owed := OwedOn(t.cards, a);
    assert UnreversedCards(t) == c + f + p + r + other;
    SumSetUnion(owed, c + f + p + r, other);
    SumSetUnion(owed, c + f + p, r);
    SumSetUnion(owed, c + f, p);
    SumSetUnion(owed, c, f);
    SumSetZero(owed, other);
    SumSetEqual(owed, UnitsIn(t.cards), c);
    SumSetEqual(owed, UnitsIn(t.cards), f);
    NegatedUnits(t, a, p);
    NegatedUnits(t, a, r);
  }

  lemma {:induction false} NegatedUnits(t: Tables, a: Id, s: set<Id>)
    requires forall tx :: tx in s ==> tx in t.cards && t.cards[tx].card == a && t.cards[tx].intent in {Payment, Refund}
    ensures SumSet(OwedOn(t.cards, a), s) == -SumSet(UnitsIn(t.cards), s)
  {
    if s != {} {
      var tx :| tx in s;
      SumSetRemove(OwedOn(t.cards, a), s, tx);
      SumSetRemove(UnitsIn(t.cards), s, tx);
      NegatedUnits(t, a, s - {tx});
    }
  }

  /** Active originals with no typed row: other postings, and card events not yet projected. */
  function UntypedActive(t: Tables): set<Id> { ActiveOriginals(t) - t.cards.Keys }

  /**
   * A card account's credits minus debits are its unreversed charges and fees, less its unreversed
   * payments and refunds, plus whatever unreversed untyped transactions put on it.
   */
  lemma CardBalance(t: Tables, a: Id)
    requires Inv(t) && IsCardAccount(t, a)
    ensures CreditBalance(t, a) ==
            IntentTotal(t, a, Charge) + IntentTotal(t, a, Fee) - IntentTotal(t, a, Payment) - IntentTotal(t, a, Refund)
            - SumSet(EntryNet(t.journal, a), UntypedActive(t))
  {
    var typed := UnreversedCards(t);
    assert ActiveOriginals(t) == typed + UntypedActive(t) by {
      forall tx | tx in typed ensures tx in ActiveOriginals(t) { assert CardKnown(t, tx); }
    }
    SumSetUnion(EntryNet(t.journal, a), typed, UntypedActive(t));
    TypedNet(t, a, typed);
    OwedByIntent(t, a);
  }

  lemma {:induction false} TypedNet(t: Tables, a: Id, s: set<Id>)
    requires Inv(t) && IsCardAccount(t, a) && s <= t.cards.Keys
    ensures SumSet(EntryNet(t.journal, a), s) == -SumSet(OwedOn(t.cards, a), s)
  {
    if s != {} {
      var tx :| tx in s;
      SumSetRemove(EntryNet(t.journal, a), s, tx);
      SumSetRemove(OwedOn(t.cards, a), s, tx);
      CardEntryNet(t, tx, a);
      TypedNet(t, a, s - {tx});
    }
  }

  /** When only typed transactions and reversals touch the card, its balance is exactly the typed figure. */
  lemma TypedCardBalance(t: Tables, a: Id)
    requires Inv(t) && IsCardAccount(t, a)
    requires forall tx :: tx in UntypedActive(t) ==> !Touches(t.journal[tx].legs, a)
    ensures CreditBalance(t, a) ==
            IntentTotal(t, a, Charge) + IntentTotal(t, a, Fee) - IntentTotal(t, a, Payment) - IntentTotal(t, a, Refund)
  {
    CardBalance(t, a);
    forall tx | tx in UntypedActive(t) ensures EntryNet(t.journal, a)(tx) == 0 {
      UntouchedIsZero(t.journal[tx].legs, a);
    }
    SumSetZero(EntryNet(t.journal, a), UntypedActive(t));
  }

  // ---------------------------------------------------------------- what a charge leaves spent

  /** Debits minus credits on an account from a transaction and from its reversal, if it has one. */
  function SettledNet(t: Tables, a: Id): Id -> int {
    (tx: Id) => EntryNet(t.journal, a)(tx) + (if tx in t.reversals then EntryNet(t.journal, a)(t.reversals[tx]) else 0)
  }

  /** Net expense of a charge: its own postings, its refunds' and all their reversals'. */
  ghost function NetExpense(t: Tables, charge: Id): int
    requires charge in t.cards
  {
    var settled := SettledNet(t, t.cards[charge].counter);
    settled(charge) + SumSet(settled, RefundsOf(t, charge))
  }

  /** On the expense account a charge debits its units and a refund of it credits its own. */
  lemma ExpenseNet(t: Tables, tx: Id, charge: Id)
    requires RowsKnown(t) && tx in t.cards && charge in t.cards && t.cards[charge].intent == Charge
    requires tx == charge || tx in RefundsOf(t, charge)
    ensures tx in t.journal
    ensures AccountNet(t.journal[tx].legs, t.cards[charge].counter) ==
            if tx == charge then t.cards[tx].units else -t.cards[tx].units
  {
    assert CardKnown(t, tx);
    CardLegs(t, tx);
    hide CardBinds, RowsKnown;
    TwoLegs(t.journal[tx].legs, t.cards[charge].counter);
  }

  lemma SettledCard(t: Tables, tx: Id, charge: Id)
    requires RowsKnown(t) && tx in t.cards && charge in t.cards && t.cards[charge].intent == Charge
    requires tx == charge || tx in RefundsOf(t, charge)
    ensures SettledNet(t, t.cards[charge].counter)(tx) ==
            if tx in t.reversals then 0 else if tx == charge then t.cards[tx].units else -t.cards[tx].units
  {
    ExpenseNet(t, tx, charge);
    assert EntryNet(t.journal, t.cards[charge].counter)(tx) == AccountNet(t.journal[tx].legs, t.cards[charge].counter);
    if tx in t.reversals {
      assert ReversalKnown(t, tx);
      InverseNegates(t.journal[tx].legs, t.cards[charge].counter, "");
    }
  }

  /** What a charge leaves on its expense account is its units less active refunds, or nothing once reversed. */
  lemma NetExpenseBounded(t: Tables, charge: Id)
    requires Inv(t) && charge in t.cards && t.cards[charge].intent == Charge
    ensures NetExpense(t, charge) ==
            if charge in t.reversals then 0 else t.cards[charge].units - ActiveRefundUnits(t, charge)
    ensures 0 <= NetExpense(t, charge) <= t.cards[charge].units
  {
    hide RowsKnown, SettledNet, SumSet, RefundsOf;
    SettledCard(t, charge, charge);
    assert ChargeCovered(t, charge);
    RefundsNet(t, charge);
    SumSetZero(UnitsIn(t.cards), {});
  }

  lemma RefundsNet(t: Tables, charge: Id)
    requires RowsKnown(t) && charge in t.cards && t.cards[charge].intent == Charge
    ensures SumSet(SettledNet(t, t.cards[charge].counter), RefundsOf(t, charge)) == -ActiveRefundUnits(t, charge)
  {
    var f := SettledNet(t, t.cards[charge].counter);
    var active, inactive := ActiveRefundsOf(t, charge), RefundsOf(t, charge) * t.reversals.Keys;
    assert RefundsOf(t, charge) == active + inactive && active !! inactive;
    assert forall tx :: tx in inactive ==> tx in t.cards && tx in t.reversals;
    hide RowsKnown, SettledNet, SumSet, ActiveRefundsOf, RefundsOf;
    forall tx | tx in inactive ensures f(tx) == 0 { SettledCard(t, tx, charge); }
    SumSetZero(f, inactive);
    ActiveRefundsNet(t, charge, active);
    SumSetUnion(f, active, inactive);
  }

  lemma {:induction false} ActiveRefundsNet(t: Tables, charge: Id, s: set<Id>)
    requires RowsKnown(t) && charge in t.cards && t.cards[charge].intent == Charge && s <= ActiveRefundsOf(t, charge)
    ensures SumSet(SettledNet(t, t.cards[charge].counter), s) == -SumSet(UnitsIn(t.cards), s)
  {
    if s != {} {
      var tx :| tx in s;
      SumSetRemove(SettledNet(t, t.cards[charge].counter), s, tx);
      SumSetRemove(UnitsIn(t.cards), s, tx);
      assert charge !in RefundsOf(t, charge);
      SettledCard(t, tx, charge);
      ActiveRefundsNet(t, charge, s - {tx});
    }
  }

  // ---------------------------------------------------------------- the store

  lemma TwoPostings(legs: seq<Leg>, a: Leg, b: Leg)
    requires a != b
    ensures legs == [a, b] || legs == [b, a] <==>
              && |legs| == 2 && HasLeg(legs, a.position, a.account, a.side, a.asset, a.units)
              && HasLeg(legs, b.position, b.account, b.side, b.asset, b.units)
  {
    if legs == [b, a] { assert legs[0] == b && legs[1] == a; }
    if legs == [a, b] { assert legs[0] == a && legs[1] == b; }
  }

  /** The tables of one Book, written row by row; every guard may refuse a row. */
  class Store {
    const accounts: map<Id, Account>
    var journal: map<Id, Entry>
    var cards: map<Id, Card>
    var reversals: map<Id, Id>

    ghost function View(): Tables
      reads this
    {
      Tables(accounts, journal, cards, reversals)
    }

    ghost predicate Valid()
      reads this
    {
      Inv(View())
    }

    constructor (accounts: map<Id, Account>)
      requires forall a :: a in accounts && accounts[a].creditCard ==> accounts[a].accountType == Liability
      ensures Valid() && View() == NoRows(accounts)
    {
      this.accounts := accounts;
      journal, cards, reversals := map[], map[], map[];
      new;
      NoRowsInv(accounts);
    }

    method Post(tx: Id, e: Entry) returns (ok: bool)
      requires Valid()
      modifies this
      ensures Valid() && View() == Apply(old(View()), PostEntry(tx, e))
      ensures ok <==> Allowed(old(View()), PostEntry(tx, e))
    {
      ApplyKeepsInv(View(), PostEntry(tx, e));
      ok := false;
      if tx !in journal && !e.event.TransactionReversed? { ok := CheckLegs(e.legs); }
      if ok { journal := journal[tx := e]; }
    }

    method CheckLegs(legs: seq<Leg>) returns (ok: bool)
      ensures ok <==> PositionsOrdered(legs) && forall i :: 0 <= i < |legs| ==>
                legs[i].units > 0 && legs[i].account in accounts && accounts[legs[i].account].asset == legs[i].asset
    {
      for i := 0 to |legs|
        invariant PositionsOrdered(legs[..i])
        invariant forall j :: 0 <= j < i ==>
                    legs[j].units > 0 && legs[j].account in accounts && accounts[legs[j].account].asset == legs[j].asset
      {
        var l := legs[i];
        if l.units <= 0 || l.account !in accounts || accounts[l.account].asset != l.asset { return false; }
        if i > 0 && legs[i - 1].position >= l.position {
          assert !(legs[i - 1].position < legs[i].position);
          return false;
        }
      }
      assert legs[..|legs|] == legs;
      return true;
    }

    /** The row against its journal transaction, its event, its accounts and the two postings. */
    method CheckBinding(tx: Id, c: Card) returns (ok: bool)
      ensures ok <==> CardBinds(View(), tx, c)
    {
      if tx !in journal { return false; }
      var e := journal[tx];
      match e.event {
        case CardRecorded(intent, card, counter, original, legs) =>
          if intent != c.intent || card != c.card || counter != c.counter || original != c.original { return false; }
          if e.kind != CardKind(c.intent) || legs != e.legs { return false; }
        case _ => return false;
      }
      if c.card !in accounts || c.counter !in accounts { return false; }
      var owing, counter := accounts[c.card], accounts[c.counter];
      if !owing.creditCard || owing.accountType != Liability || owing.asset != c.asset { return false; }
      if counter.asset != c.asset { return false; }
      if c.intent == Payment && counter.accountType != AssetAccount { return false; }
      if c.intent != Payment && counter.accountType != Expense { return false; }
      var debit, credit := c.card, c.counter;
      if c.intent == Charge || c.intent == Fee { debit, credit := c.counter, c.card; }
      var first, second := Leg(0, debit, c.asset, Debit, c.units), Leg(1, credit, c.asset, Credit, c.units);
      TwoPostings(e.legs, first, second);
      return e.legs == [first, second] || e.legs == [second, first];
    }

    method CheckRefundSource(tx: Id, c: Card) returns (ok: bool)
      ensures ok <==> RefundSourceValid(View(), tx, c)
    {
      if c.original == None { return false; }
      var o := c.original.value;
      if o !in cards || o in reversals || o !in journal || tx !in journal { return false; }
      var charge := cards[o];
      if charge.intent != Charge || charge.asset != c.asset { return false; }
      if charge.card != c.card || charge.counter != c.counter { return false; }
      return journal[o].effectiveAt <= journal[tx].effectiveAt;
    }

    method CheckTouchesCard(legs: seq<Leg>) returns (found: bool)
      ensures found <==> exists i :: 0 <= i < |legs| && legs[i].account in accounts
                           && accounts[legs[i].account].creditCard && accounts[legs[i].account].asset == legs[i].asset
    {
      for i := 0 to |legs|
        invariant forall j :: 0 <= j < i && legs[j].account in accounts && accounts[legs[j].account].creditCard ==>
                    accounts[legs[j].account].asset != legs[j].asset
      {
        var account := legs[i].account;
        if account in accounts && accounts[account].creditCard && accounts[account].asset == legs[i].asset {
          return true;
        }
      }
      return false;
    }

    /** Units of a charge's refunds that no reversal cancels. */
    method ActiveRefundTotal(charge: Id) returns (total: int)
      ensures total == ActiveRefundUnits(View(), charge)
    {
      total := 0;
      var todo := cards.Keys;
      var counted: set<Id> := {};
      while todo != {}
        invariant todo <= cards.Keys && counted == ActiveRefundsOf(View(), charge) - todo
        invariant total == SumSet(UnitsIn(cards), counted)
        decreases todo
      {
        var tx :| tx in todo;
        todo := todo - {tx};
        if cards[tx].intent == Refund && cards[tx].original == Some(charge) && tx !in reversals {
          SumSetAdd(UnitsIn(cards), counted, tx);
          total := total + cards[tx].units;
          counted := counted + {tx};
        }
      }
      assert counted == ActiveRefundsOf(View(), charge);
    }

    method Record(tx: Id, row: Card) returns (ok: bool)
      requires Valid()
      modifies this
      ensures Valid() && View() == Apply(old(View()), RecordCard(tx, row))
      ensures ok <==> Allowed(old(View()), RecordCard(tx, row))
    {
      ApplyKeepsInv(View(), RecordCard(tx, row));
      if tx in cards || row.units <= 0 || row.card == row.counter { return false; }
      if row.intent == Refund && row.original == None { return false; }
      if row.intent != Refund && row.original.Some? { return false; }
      ok := CheckBinding(tx, row);
      if !ok { return; }
      if row.intent == Refund {
        ok := CheckRefundSource(tx, row);
        if !ok { return; }
        var active := ActiveRefundTotal(row.original.value);
        if active + row.units > cards[row.original.value].units { return false; }
      }
      cards := cards[tx := row];
      return true;
    }

    method CheckReversal(r: Id, o: Id, legs: seq<Leg>, at: int) returns (ok: bool)
      ensures ok <==> ReversalAllowed(View(), r, o, legs, at)
    {
      hide Inverse;
      if o !in journal || r in journal || o in reversals || legs != Inverse(journal[o].legs) { return false; }
      var original := journal[o];
      var touches := CheckTouchesCard(original.legs);
      if !original.kind.CardKind? && !touches { return true; }
      if original.event.TransactionReversed? || at < original.effectiveAt { return false; }
      if original.event.CardRecorded? && original.event.intent == Charge {
        var refunds := set tx | tx in cards && cards[tx].intent == Refund && cards[tx].original == Some(o);
        assert refunds == RefundsOf(View(), o);
        if refunds - reversals.Keys != {} { return false; }
      }
      return true;
    }

    method ReverseTransaction(r: Id, o: Id, legs: seq<Leg>, at: int) returns (ok: bool)
      requires Valid()
      modifies this
      ensures Valid() && View() == Apply(old(View()), Reverse(r, o, legs, at))
      ensures ok <==> Allowed(old(View()), Reverse(r, o, legs, at))
    {
      ApplyKeepsInv(View(), Reverse(r, o, legs, at));
      ok := CheckReversal(r, o, legs, at);
      if ok { AllowedReversal(View(), r, o, legs, at); }
      hide Inv, ReversalAllowed, Inverse;
      if !ok { return; }
      journal := journal[r := Entry(journal[o].kind, TransactionReversed, at, legs)];
      reversals := reversals[o := r];
    }
  }

  lemma AllowedReversal(t: Tables, r: Id, o: Id, legs: seq<Leg>, at: int)
    requires ReversalAllowed(t, r, o, legs, at)
    ensures o in t.journal
  {
  }
}
