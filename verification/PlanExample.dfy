/**
 * A source and a review that do compile, with every kind of card transaction: a purchase moved from a
 * retired alias to its card, a purchase and its reversal, and a purchase on the alias to be corrected.
 */
module PlanExample {
  import opened Ids
  import opened Outcomes
  import opened Sums
  import opened Journal
  import opened Rows
  import opened Waves
  import opened Frozen
  import opened Inventory
  import opened CardReview
  import opened PlanLog
  import opened PlanBalance
  import opened Planner

  const CARD := Account(1, "A", Liability, Some("credit_card"))
  const SPENDING := Account(2, "A", Expense, None)
  const ALIAS := Account(3, "A", Liability, Some("legacy_credit_card"))

  /** A two-legged transaction: spending first, then a card as the source has it and as the review decides. */
  datatype Deal = Deal(id: Id, found: Id, decided: Id, spent: string, owed: string, side: Side, units: int,
                       action: Action)

  const MOVED := Deal(7, 3, 1, "5", "-5", Debit, 5, NoAction)
  const BOUGHT := Deal(8, 1, 1, "3", "-3", Debit, 3, NoAction)
  const RETURNED := Deal(9, 1, 1, "-3", "3", Credit, 3, NoAction)
  const MISTAKEN := Deal(10, 3, 3, "4", "-4", Debit, 4, ExactReversal)

  function Deals(): set<Deal> { {MOVED, BOUGHT, RETURNED, MISTAKEN} }

  function SpendingRow(d: Deal): PostingRow { PostingRow(2 * d.id, d.id, 2, "A", d.spent, LegacySigned, 0) }

  function CardRow(d: Deal): PostingRow { PostingRow(2 * d.id + 1, d.id, d.found, "A", d.owed, LegacySigned, 1) }

  function DealRows(d: Deal): seq<PostingRow> { [SpendingRow(d), CardRow(d)] }

  function Decision(d: Deal): TransactionDecision {
    TransactionDecision(
      d.id, [PostingDecision(2 * d.id, 2, d.side), PostingDecision(2 * d.id + 1, d.decided, Opposite(d.side))],
          d.action)
  }

  function Rank(id: Id): int { id }

  function Postings(): seq<PostingRow> { DealRows(MOVED) + DealRows(BOUGHT) + DealRows(RETURNED) + DealRows(MISTAKEN) }

  const ACCOUNTS: map<Id, Account> := map[1 := CARD, 2 := SPENDING, 3 := ALIAS]
  const ASSETS: map<AssetCode, AssetRow> := map["A" := AssetRow(0, 0)]

  function Book(): Source { Source(ACCOUNTS, ASSETS, {7, 8, 9, 10}, Postings(), map[9 := 8], {}, Rank, 0) }

  function Reviewed(): Review {
    Review([Decision(MOVED), Decision(BOUGHT), Decision(RETURNED), Decision(MISTAKEN)], [3],
        [ExpectedBalance(1, "A", 5), ExpectedBalance(3, "A", 0)])
  }

  lemma BookHolds()
    ensures Book().accounts == ACCOUNTS && Book().assets == ASSETS && Book().transactions == {7, 8, 9, 10}
    ensures Book().links == map[9 := 8] && Book().postings == Postings() && Book().reporting == {}
  {
  }

  // ---------------------------------------------------------------- amounts and rows

  predicate Reads(d: Deal) {
    && Decimal.NormalizeLegacySigned(d.spent, 0) == Ok(Decimal.Amount(d.side, d.units))
    && Decimal.NormalizeLegacySigned(d.owed, 0) == Ok(Decimal.Amount(Opposite(d.side), d.units))
  }

  lemma Fives()
    ensures Decimal.NormalizeLegacySigned("5", 0) == Ok(Decimal.Amount(Debit, 5))
    ensures Decimal.NormalizeLegacySigned("-5", 0) == Ok(Decimal.Amount(Credit, 5))
  {
  }

  lemma Threes()
    ensures Decimal.NormalizeLegacySigned("3", 0) == Ok(Decimal.Amount(Debit, 3))
    ensures Decimal.NormalizeLegacySigned("-3", 0) == Ok(Decimal.Amount(Credit, 3))
  {
  }

  lemma Fours()
    ensures Decimal.NormalizeLegacySigned("4", 0) == Ok(Decimal.Amount(Debit, 4))
    ensures Decimal.NormalizeLegacySigned("-4", 0) == Ok(Decimal.Amount(Credit, 4))
  {
  }

  lemma AllRead()
    ensures Reads(MOVED) && Reads(BOUGHT) && Reads(RETURNED) && Reads(MISTAKEN)
  {
    Fives();
    Threes();
    Fours();
    hide Decimal.NormalizeLegacySigned;
  }

  lemma RowsAppend(t: Id, a: seq<PostingRow>, x: PostingRow)
    ensures RowsOf(t, a + [x]) == if x.transaction == t then RowsOf(t, a) + [x] else RowsOf(t, a)
    ensures SortRows(a + [x]) == InsertRow(x, SortRows(a))
  {
    hide InsertRow;
    assert (a + [x])[..|a|] == a;
  }

  function Chosen(d: Deal, t: Id): seq<PostingRow> { if d.id == t then DealRows(d) else [] }

  lemma DealAppends(t: Id, a: seq<PostingRow>, d: Deal)
    ensures RowsOf(t, a + DealRows(d)) == RowsOf(t, a) + Chosen(d, t)
  {
    hide RowsOf, SortRows;
    RowsAppend(t, a, SpendingRow(d));
    RowsAppend(t, a + [SpendingRow(d)], CardRow(d));
    assert a + DealRows(d) == a + [SpendingRow(d)] + [CardRow(d)];
  }

  lemma FirstDeal(t: Id, d: Deal)
    ensures RowsOf(t, DealRows(d)) == Chosen(d, t)
  {
    DealAppends(t, [], d);
    assert [] + DealRows(d) == DealRows(d);
    assert RowsOf(t, []) == [];
  }

  lemma DealIsSorted(d: Deal)
    ensures SortRows(DealRows(d)) == DealRows(d)
  {
    hide SortRows, SpendingRow, CardRow;
    OneSorted(SpendingRow(d));
    RowsAppend(0, [SpendingRow(d)], CardRow(d));
    assert [SpendingRow(d)] + [CardRow(d)] == DealRows(d);
    InsertSecond(SpendingRow(d), CardRow(d)) by { SpendingComesFirst(d); }
  }

  lemma SpendingComesFirst(d: Deal)
    ensures !Before(CardRow(d), SpendingRow(d))
  {
  }

  lemma OneSorted(p: PostingRow)
    ensures SortRows([p]) == [p]
  {
    RowsAppend(0, [], p);
    assert [] + [p] == [p];
  }

  lemma InsertSecond(p: PostingRow, q: PostingRow)
    requires !Before(q, p)
    ensures InsertRow(q, [p]) == [p, q]
  {
    assert [p][1..] == [] && InsertRow(q, []) == [q];
  }

  lemma FourDeals(a: Deal, b: Deal, c: Deal, e: Deal, t: Id)
    ensures RowsOf(t, DealRows(a) + DealRows(b) + DealRows(c) + DealRows(e)) ==
            Chosen(a, t) + Chosen(b, t) + Chosen(c, t) + Chosen(e, t)
  {
    hide *;
    FirstDeal(t, a);
    DealAppends(t, DealRows(a), b);
    DealAppends(t, DealRows(a) + DealRows(b), c);
    DealAppends(t, DealRows(a) + DealRows(b) + DealRows(c), e);
  }

  lemma PostingRows(d: Deal)
    requires d in Deals()
    ensures RowsOf(d.id, Postings()) == DealRows(d)
  {
    FourDeals(MOVED, BOUGHT, RETURNED, MISTAKEN, d.id);
    assert Postings() == DealRows(MOVED) + DealRows(BOUGHT) + DealRows(RETURNED) + DealRows(MISTAKEN);
    assert Chosen(MOVED, d.id) + Chosen(BOUGHT, d.id) + Chosen(RETURNED, d.id) + Chosen(MISTAKEN, d.id) ==
        Chosen(d, d.id) by {
      hide DealRows, RowsOf, Postings;
    }
    hide RowsOf, DealRows, Postings, Deals;
  }

  lemma SourceRows(d: Deal)
    requires d in Deals()
    ensures RowsOf(d.id, Book().postings) == DealRows(d) && PlanRows(Book(), d.id) == DealRows(d)
  {
    BookHolds();
    hide Book, Postings, RowsOf, DealRows, SortRows;
    PostingRows(d);
    DealIsSorted(d);
  }

  // ---------------------------------------------------------------- legs

  function DealLegs(d: Deal, card: Id): seq<Leg> {
    [Leg(0, 2, "A", d.side, d.units), Leg(1, card, "A", Opposite(d.side), d.units)]
  }

  /** What a deal puts on a card in its natural sense. */
  function Owes(d: Deal): int { if d.side == Debit then d.units else -d.units }

  lemma TwoTerms(f: Leg -> int, legs: seq<Leg>)
    requires |legs| == 2
    ensures Sum(f, legs) == f(legs[0]) + f(legs[1])
  {
    SumAppend(f, [], legs[0]);
    SumAppend(f, [legs[0]], legs[1]);
    assert [] + [legs[0]] == [legs[0]] && [legs[0]] + [legs[1]] == legs;
  }

  lemma LegsBalance(d: Deal, card: Id, k: Key)
    requires k.0 != 2 && k.1 == "A"
    ensures Balanced(DealLegs(d, card))
    ensures Sum(NaturalOn(k), DealLegs(d, card)) == if card == k.0 then Owes(d) else 0
  {
    var legs := DealLegs(d, card);
    TwoTerms(NaturalOn(k), legs);
    forall asset ensures Net(legs, asset) == 0 { TwoTerms(InAsset(asset), legs); }
  }

  // ---------------------------------------------------------------- the inventory

  /** The deal reads as it should on cards of this Book, and its rows are those the source holds for it. */
  ghost predicate Fits(s: Source, d: Deal) {
    && s.accounts == ACCOUNTS && s.assets == ASSETS && d.id in s.transactions && d.found in {1, 3}
         && d.decided in {1, 3}
    && Reads(d) && RowsOf(d.id, s.postings) == DealRows(d) && PlanRows(s, d.id) == DealRows(d)
  }

  lemma DealsRead(d: Deal)
    requires d in Deals()
    ensures d.id in {7, 8, 9, 10} && d.found in {1, 3} && d.decided in {1, 3} && Reads(d)
  {
    AllRead();
    hide Reads;
  }

  lemma DealsFit(d: Deal)
    requires d in Deals()
    ensures Fits(Book(), d)
  {
    DealsRead(d);
    BookHolds();
    SourceRows(d);
    hide Reads, RowsOf, PlanRows, DealRows, Book, Deals;
  }

  lemma AssetScale(s: Source)
    requires s.assets == ASSETS
    ensures s.scales == map["A" := 0] && ScalesAccepted(s)
  {
  }

  lemma RowNormalizes(s: Source, d: Deal)
    requires Fits(s, d)
    ensures NormalizePosting(s.scales, SpendingRow(d)) == Ok(Decimal.Amount(d.side, d.units))
    ensures NormalizePosting(s.scales, CardRow(d)) == Ok(Decimal.Amount(Opposite(d.side), d.units))
    ensures ReviewUnits(s, SpendingRow(d)) == ReviewUnits(s, CardRow(d)) == Ok(d.units)
  {
    AssetScale(s);
    hide Decimal.NormalizeLegacySigned, RowsOf, SortRows, Scales;
  }

  lemma RowsAreClean(s: Source, d: Deal)
    requires Fits(s, d)
    ensures CleanPosting(s, SpendingRow(d)) && CleanPosting(s, CardRow(d))
    ensures CleanTransaction(s, d.id)
  {
    hide *;
    FitsSource(s, d);
    RowNormalizes(s, d);
    LegsBalance(d, d.found, (1, "A"));
    SourceDealLegs(s, d);
    DealIsClean(s, d);
  }

  lemma FitsSource(s: Source, d: Deal)
    requires Fits(s, d)
    ensures s.accounts == ACCOUNTS && s.assets == ASSETS && d.id in s.transactions && d.found in {1, 3}
    ensures RowsOf(d.id, s.postings) == DealRows(d)
  {
    hide Reads, RowsOf, SortRows, DealRows;
  }

  lemma SourceDealLegs(s: Source, d: Deal)
    requires NormalizePosting(s.scales, SpendingRow(d)) == Ok(Decimal.Amount(d.side, d.units))
    requires NormalizePosting(s.scales, CardRow(d)) == Ok(Decimal.Amount(Opposite(d.side), d.units))
    ensures SourceLegs(s.scales, DealRows(d)) == DealLegs(d, d.found)
  {
    hide NormalizePosting;
    assert SourceLeg(s.scales, SpendingRow(d)) == DealLegs(d, d.found)[0];
    assert SourceLeg(s.scales, CardRow(d)) == DealLegs(d, d.found)[1];
    hide SourceLeg;
  }

  lemma DealIsClean(s: Source, d: Deal)
    requires s.accounts == ACCOUNTS && s.assets == ASSETS && d.id in s.transactions && d.found in {1, 3}
    requires NormalizePosting(s.scales, SpendingRow(d)).Ok? && NormalizePosting(s.scales, CardRow(d)).Ok?
    requires RowsOf(d.id, s.postings) == DealRows(d)
    requires SourceLegs(s.scales, DealRows(d)) == DealLegs(d, d.found) && Balanced(DealLegs(d, d.found))
    ensures CleanPosting(s, SpendingRow(d)) && CleanPosting(s, CardRow(d)) && CleanTransaction(s, d.id)
  {
    hide NormalizePosting, RowsOf, SourceLegs, Balanced, DealLegs;
  }

  lemma PostingsAre(i: nat) returns (d: Deal)
    requires i < |Postings()|
    ensures |Postings()| == 8 && d in Deals() && d.id == 7 + i / 2
    ensures Postings()[i] == if i % 2 == 0 then SpendingRow(d) else CardRow(d)
  {
    d := if i / 2 == 0 then MOVED else if i / 2 == 1 then BOUGHT else if i / 2 == 2 then RETURNED else MISTAKEN;
  }

  function DealOf(t: Id): Deal {
    if t == 7 then MOVED else if t == 8 then BOUGHT else if t == 9 then RETURNED else MISTAKEN
  }

  lemma DealIs(t: Id)
    requires t in {7, 8, 9, 10}
    ensures DealOf(t) in Deals() && DealOf(t).id == t
  {
  }

  lemma PlacesDiffer()
    ensures Unique(PostingId, Postings())
    ensures forall i, j :: 0 <= i < j < |Postings()| ==> !SamePlace(Postings()[i], Postings()[j])
  {
    forall i, j | 0 <= i < j < |Postings()|
      ensures PostingId(Postings()[i]) != PostingId(Postings()[j]) && !SamePlace(Postings()[i], Postings()[j])
    {
      var d := PostingsAre(i);
      var e := PostingsAre(j);
      hide Postings;
    }
  }

  lemma SourceIsClean()
    ensures Clean(Book())
  {
    PlacesDiffer();
    BookHolds();
    AssetScale(Book());
    hide Book, Postings, Deals, ScalesAccepted, CleanPosting, CleanTransaction, Fits, SamePlace, Unique;
    forall i | 0 <= i < |Postings()| ensures CleanPosting(Book(), Postings()[i]) {
      var d := PostingsAre(i);
      DealsFit(d);
      RowsAreClean(Book(), d);
    }
    forall t | t in Book().transactions ensures CleanTransaction(Book(), t) {
      assert DealOf(t) in Deals() && DealOf(t).id == t by { DealIs(t); }
      DealsFit(DealOf(t));
      RowsAreClean(Book(), DealOf(t));
    }
  }

  // ---------------------------------------------------------------- the review

  lemma IndexTwo(p: PostingDecision, q: PostingDecision)
    requires p.posting != q.posting
    ensures Index(DecidedPosting, [p, q]) == map[p.posting := p, q.posting := q] && Unique(DecidedPosting, [p, q])
  {
    assert [p, q][..1] == [p] && [p][..0] == [];
    assert Index(DecidedPosting, [p]) == map[p.posting := p];
    assert Index(DecidedPosting, [p, q]) == Index(DecidedPosting, [p])[q.posting := q];
  }

  lemma Decides(d: Deal)
    ensures Decided(Decision(d)) ==
            map[2 * d.id := PostingDecision(2 * d.id, 2, d.side),
                2 * d.id + 1 := PostingDecision(2 * d.id + 1, d.decided, Opposite(d.side))]
    ensures Unique(DecidedPosting, Decision(d).postings)
  {
    IndexTwo(Decision(d).postings[0], Decision(d).postings[1]);
  }

  lemma DecisionTable(d: Deal)
    requires d in Deals()
    ensures d.id in Decisions(Reviewed()) && Decisions(Reviewed())[d.id] == Decision(d)
    ensures Unique(TransactionOf, Reviewed().transactions) && Decisions(Reviewed()).Keys == {7, 8, 9, 10}
  {
    hide Index, Decision, Reviewed, Deals, DealOf;
    var ds := Reviewed().transactions;
    DecisionsListed(d);
    IndexHas(TransactionOf, ds, d.id - 7);
    assert TransactionOf(ds[0]) == 7 && TransactionOf(ds[1]) == 8 && TransactionOf(ds[2]) == 9
        && TransactionOf(ds[3]) == 10;
  }

  lemma DecisionsListed(d: Deal)
    requires d in Deals()
    ensures var ds := Reviewed().transactions;
            && |ds| == 4 && 7 <= d.id <= 10 && ds[d.id - 7] == Decision(d)
            && forall i :: 0 <= i < |ds| ==> TransactionOf(ds[i]) == i + 7
  {
    DecisionIds();
    hide Decision;
  }

  lemma DecisionIds()
    ensures forall d :: Decision(d).transaction == d.id
  {
  }

  lemma FitsRows(s: Source, d: Deal)
    requires Fits(s, d)
    ensures ReviewRows(s, Decision(d)) == DealRows(d) && s.accounts == ACCOUNTS && d.decided in {1, 3}
  {
    hide Reads, RowsOf, SortRows, DealRows;
  }

  lemma Resolves(s: Source, d: Deal)
    requires Fits(s, d)
    ensures Resolved(s, Decision(d)) == DealLegs(d, d.decided) && ValidDecision(s, Decision(d))
  {
    hide *;
    FitsRows(s, d);
    RowNormalizes(s, d);
    Decides(d);
    RowResolves(s, d, Decided(Decision(d)));
    LegsBalance(d, d.decided, (1, "A"));
    TwoLegs(s, d, Decided(Decision(d)));
    ResolvesAre(s, d);
  }

  lemma TwoLegs(s: Source, d: Deal, decided: map<Id, PostingDecision>)
    requires ReviewLeg(s, decided, SpendingRow(d)) == DealLegs(d, d.decided)[0]
    requires ReviewLeg(s, decided, CardRow(d)) == DealLegs(d, d.decided)[1]
    ensures ReviewLegs(s, decided, DealRows(d)) == DealLegs(d, d.decided)
  {
    hide ReviewLeg;
  }

  lemma ResolvesAre(s: Source, d: Deal)
    requires ReviewRows(s, Decision(d)) == DealRows(d)
    requires ReviewLegs(s, Decided(Decision(d)), DealRows(d)) == DealLegs(d, d.decided)
    requires ValidTarget(s, Decided(Decision(d)), SpendingRow(d)) && ValidTarget(s, Decided(Decision(d)), CardRow(d))
    requires Unique(DecidedPosting, Decision(d).postings) && Balanced(DealLegs(d, d.decided))
    requires Decided(Decision(d)).Keys == {2 * d.id, 2 * d.id + 1}
    ensures Resolved(s, Decision(d)) == DealLegs(d, d.decided) && ValidDecision(s, Decision(d))
  {
    RowIds(d);
    hide ReviewRows, ReviewLegs, Decided, ValidTarget, Unique, Balanced, DealLegs;
  }

  lemma RowResolves(s: Source, d: Deal, decided: map<Id, PostingDecision>)
    requires s.accounts == ACCOUNTS && d.decided in {1, 3}
    requires ReviewUnits(s, SpendingRow(d)) == ReviewUnits(s, CardRow(d)) == Ok(d.units)
    requires decided == map[2 * d.id := PostingDecision(2 * d.id, 2, d.side),
                            2 * d.id + 1 := PostingDecision(2 * d.id + 1, d.decided, Opposite(d.side))]
    ensures ReviewLeg(s, decided, SpendingRow(d)) == DealLegs(d, d.decided)[0]
    ensures ValidTarget(s, decided, SpendingRow(d))
    ensures ReviewLeg(s, decided, CardRow(d)) == DealLegs(d, d.decided)[1] && ValidTarget(s, decided, CardRow(d))
  {
    hide ReviewUnits;
  }

  lemma RowIds(d: Deal)
    ensures (set p | p in DealRows(d) :: p.id) == {2 * d.id, 2 * d.id + 1}
  {
    assert DealRows(d)[0].id == 2 * d.id && DealRows(d)[1].id == 2 * d.id + 1;
  }

  lemma CardsAre(s: Source)
    requires s.accounts == ACCOUNTS
    ensures Cards(s) == {1, 3} && Required(s) == {(1, "A"), (3, "A")}
  {
  }

  lemma EightRows()
    ensures |Postings()| == 8
  {
  }

  lemma FitsFound(s: Source, d: Deal)
    requires Fits(s, d)
    ensures d.found in {1, 3}
  {
    hide Reads, RowsOf, PlanRows, DealRows;
  }

  lemma InScopeAt(s: Source, i: nat)
    requires i < |s.postings| && s.postings[i].account in Cards(s)
    ensures s.postings[i].transaction in Scope(s)
  {
  }

  lemma CardRowIs(d: Deal)
    ensures CardRow(d).account == d.found && CardRow(d).transaction == d.id
  {
  }

  lemma CardRowAt(t: Id)
    requires t in {7, 8, 9, 10}
    ensures t in Scope(Book())
  {
    hide *;
    BookHolds();
    CardsAre(Book());
    EightRows();
    var i := 2 * (t - 7) + 1;
    var d := PostingsAre(i);
    DealsFit(d);
    FitsFound(Book(), d);
    CardRowIs(d);
    InScopeAt(Book(), i);
  }

  lemma ScopeIsAll()
    ensures Scope(Book()) == {7, 8, 9, 10}
  {
    BookHolds();
    hide Cards, Book, Postings, Deals;
    forall t | t in {7 as Id, 8, 9, 10} ensures t in Scope(Book()) { CardRowAt(t); }
    forall t | t in Scope(Book()) ensures t in {7, 8, 9, 10} {
      var i :| 0 <= i < |Book().postings| && Book().postings[i].transaction == t;
      var d := PostingsAre(i);
    }
  }

  /** What a decided deal adds to a figure; nothing in another asset. */
  lemma Contributes(s: Source, decisions: map<Id, TransactionDecision>, d: Deal, k: Key)
    requires Fits(s, d) && d.id in decisions && decisions[d.id] == Decision(d) && k.0 != 2
    ensures ContributionOf(s, decisions, k)(d.id)
         == if d.action == NoAction && d.decided == k.0 && k.1 == "A" then Owes(d) else 0
  {
    Resolves(s, d);
    TwoTerms(NaturalOn(k), DealLegs(d, d.decided));
    hide Fits, Resolved, Sum, ValidDecision;
  }

  lemma FourTerms(f: Id -> int)
    ensures SumSet(f, {7, 8, 9, 10}) == f(7) + f(8) + f(9) + f(10)
  {
    hide SumSet;
    SumSetZero(f, {});
    SumSetAdd(f, {}, 7);
    assert {} + {7 as Id} == {7};
    SumSetAdd(f, {7}, 8);
    assert {7 as Id} + {8} == {7, 8};
    SumSetAdd(f, {7, 8}, 9);
    assert {7 as Id, 8} + {9} == {7, 8, 9};
    SumSetAdd(f, {7, 8, 9}, 10);
    assert {7 as Id, 8, 9} + {10} == {7, 8, 9, 10};
  }

  lemma DealContributes(d: Deal, k: Key)
    requires d in Deals() && k.0 != 2
    ensures ContributionOf(Book(), Decisions(Reviewed()), k)(d.id)
         == if d.action == NoAction && d.decided == k.0 && k.1 == "A" then Owes(d) else 0
  {
    DealsFit(d);
    DecisionTable(d);
    hide Fits, Decisions, ContributionOf, Decision, Owes;
    Contributes(Book(), Decisions(Reviewed()), d, k);
  }

  lemma CardFigures(k: Key)
    requires k.0 in {1, 3}
    ensures Figure(Book(), Reviewed(), k) == if k == (1, "A") then 5 else 0
  {
    ScopeIsAll();
    hide Scope, ContributionOf, Decisions, SumSet;
    DealContributes(MOVED, k);
    DealContributes(BOUGHT, k);
    DealContributes(RETURNED, k);
    DealContributes(MISTAKEN, k);
    FourTerms(ContributionOf(Book(), Decisions(Reviewed()), k));
  }

  lemma ExpectedTable()
    ensures Unique(ExpectedKey, Reviewed().expected)
    ensures Index(ExpectedKey, Reviewed().expected).Keys == {(1, "A"), (3, "A")}
  {
    var es := Reviewed().expected;
    assert ExpectedKey(es[0]) == (1, "A") && ExpectedKey(es[1]) == (3, "A");
    hide Index;
  }

  lemma ReviewHolds()
    ensures Reviewed().aliases == [3] && Reviewed().expected == [ExpectedBalance(1, "A", 5), ExpectedBalance(3, "A", 0)]
  {
  }

  lemma OneAlias()
    ensures Unique(SameId, Reviewed().aliases)
  {
  }

  lemma AliasIsLegacy()
    ensures LegacyCard(Book(), 3)
  {
    BookHolds();
    CardsAre(Book());
    hide Book, Cards;
  }

  lemma AliasesMatch()
    ensures forall i :: 0 <= i < |Reviewed().aliases| ==> LegacyCard(Book(), Reviewed().aliases[i])
    ensures forall i, asset :: 0 <= i < |Reviewed().aliases| ==>
              Figure(Book(), Reviewed(), (Reviewed().aliases[i], asset)) == 0
  {
    hide Book, Reviewed, Figure, LegacyCard;
    ReviewHolds();
    AliasIsLegacy();
    forall asset ensures Figure(Book(), Reviewed(), (3, asset)) == 0 { CardFigures((3, asset)); }
  }

  lemma ExpectedMatch()
    ensures forall i :: 0 <= i < |Reviewed().expected| ==>
              Reviewed().expected[i].units == Figure(Book(), Reviewed(), ExpectedKey(Reviewed().expected[i]))
  {
    hide Book, Reviewed, Figure;
    ReviewHolds();
    CardFigures((1, "A"));
    CardFigures((3, "A"));
  }

  lemma FiguresMatch()
    ensures FiguresAgree(Book(), Reviewed())
  {
    BookHolds();
    CardsAre(Book());
    ExpectedTable();
    OneAlias();
    AliasesMatch();
    ExpectedMatch();
    hide Book, Reviewed, Figure, Cards, Required, Index, LegacyCard, Unique;
  }

  lemma OppositeDeals()
    ensures Inverse(DealLegs(BOUGHT, 1)) == DealLegs(RETURNED, 1)
  {
  }

  lemma ReversalMatches()
    ensures ReversalAgrees(Book(), Decisions(Reviewed()), 9)
  {
    DealsFit(BOUGHT);
    DealsFit(RETURNED);
    DecisionTable(BOUGHT);
    DecisionTable(RETURNED);
    hide Fits, Resolved, Decisions, Decision;
    Resolves(Book(), BOUGHT);
    Resolves(Book(), RETURNED);
    DealsMirror();
  }

  lemma DealsMirror()
    ensures MirrorLegs(DealLegs(BOUGHT, 1), DealLegs(RETURNED, 1))
  {
    assert MirroredBy(DealLegs(BOUGHT, 1), DealLegs(RETURNED, 1), [0, 1]);
  }

  lemma PostingsKnown()
    ensures forall i :: 0 <= i < |Book().postings| ==> Book().postings[i].transaction in Book().transactions
  {
    forall i | 0 <= i < |Postings()| ensures Postings()[i].transaction in Book().transactions {
      var d := PostingsAre(i);
    }
  }

  lemma DecisionsValid()
    ensures forall t :: t in Scope(Book()) && t in Decisions(Reviewed()) ==>
              ValidDecision(Book(), Decisions(Reviewed())[t])
  {
    ScopeIsAll();
    hide Book, Reviewed, Deals, Scope, Fits, ValidDecision, Decisions, Decision, DealOf;
    forall t | t in Scope(Book()) && t in Decisions(Reviewed())
      ensures ValidDecision(Book(), Decisions(Reviewed())[t])
    {
      DealIs(t);
      DealsFit(DealOf(t));
      DecisionTable(DealOf(t));
      Resolves(Book(), DealOf(t));
    }
  }

  lemma Assembled()
    requires forall i :: 0 <= i < |Book().postings| ==> Book().postings[i].transaction in Book().transactions
    requires forall t :: t in Scope(Book()) && t in Decisions(Reviewed()) ==>
               ValidDecision(Book(), Decisions(Reviewed())[t])
    requires Scope(Book()) == {7, 8, 9, 10} && Decisions(Reviewed()).Keys == {7, 8, 9, 10}
    requires Book().links == map[9 := 8]
    requires Unique(TransactionOf, Reviewed().transactions) && ScalesAccepted(Book())
    requires FiguresAgree(Book(), Reviewed()) && ReversalAgrees(Book(), Decisions(Reviewed()), 9)
    ensures ValidReview(Book(), Reviewed())
  {
    hide Book, Reviewed, Decisions, Scope, ValidDecision, FiguresAgree, ReversalAgrees, ScalesAccepted, Unique;
  }

  lemma BookScale()
    ensures ScalesAccepted(Book())
  {
    BookHolds();
    AssetScale(Book());
    hide Book;
  }

  lemma DecisionKeys()
    ensures Unique(TransactionOf, Reviewed().transactions) && Decisions(Reviewed()).Keys == {7, 8, 9, 10}
  {
    DecisionTable(MOVED);
    hide Reviewed, Decisions, Unique;
  }

  lemma ReviewIsValid()
    ensures ValidReview(Book(), Reviewed())
  {
    hide *;
    PostingsKnown();
    DecisionsValid();
    ScopeIsAll();
    DecisionKeys();
    BookScale();
    FiguresMatch();
    ReversalMatches();
    BookHolds();
    Assembled();
  }

  // ---------------------------------------------------------------- the plan

  lemma TwoCanonical(scales: map<AssetCode, int>, p: PostingRow, q: PostingRow)
    requires p.position == 0 && q.position == 1 && NormalizePosting(scales, p).Ok? && NormalizePosting(scales, q).Ok?
    ensures Canonical(scales, [p, q])
  {
    hide NormalizePosting;
    assert Normalizes(scales, p) && Normalizes(scales, q);
  }

  lemma RowsCanonical(s: Source, d: Deal)
    requires Fits(s, d)
    ensures Canonical(s.scales, DealRows(d))
  {
    RowNormalizes(s, d);
    hide Fits;
    TwoCanonical(s.scales, SpendingRow(d), CardRow(d));
  }

  lemma DealHasFacts(d: Deal)
    requires d in Deals()
    ensures Facts(Book(), DecisionMap(Reviewed().transactions), d.id).Some?
    ensures Legs(Facts(Book(), DecisionMap(Reviewed().transactions), d.id).value) == DealLegs(d, d.decided)
  {
    DealsFit(d);
    SourceIsClean();
    ReviewIsValid();
    ScopeIsAll();
    DecisionTable(d);
    RowsCanonical(Book(), d);
    SourceRows(d);
    hide Clean, ValidReview, Fits, RowsOf, SortRows, Resolved, Decisions, Scope, DecisionMap, Canonical, Decision;
    hide DealLegs, DealRows;
    Resolves(Book(), d);
    ResolvedIsPlanned(Book(), Reviewed(), d.id);
  }

  lemma ReversalIsExact()
    ensures Exact(Book(), DecisionMap(Reviewed().transactions), 9)
  {
    DealHasFacts(BOUGHT);
    DealHasFacts(RETURNED);
    OppositeDeals();
    hide Facts, DecisionMap, DealLegs;
  }

  lemma ReversalIsGrounded()
    ensures AllGrounded(Book())
  {
    assert 8 in Originals(Book());
    assert Reaches(LinkGraph(Book()), Originals(Book()), 8, 0);
    assert Reaches(LinkGraph(Book()), Originals(Book()), 9, 1);
  }

  lemma OneAction()
    ensures Actions(Reviewed()) == {10}
  {
    hide Decisions;
    forall t | t in {7, 8, 9, 10}
      ensures t in Decisions(Reviewed()) && Decisions(Reviewed())[t].action == DealOf(t).action
    {
      DecisionTable(DealOf(t));
    }
    DecisionTable(MOVED);
  }

  lemma OriginalsHaveFacts()
    ensures Originals(Book()) == {7, 8, 10}
    ensures forall t :: t in Originals(Book()) ==> Facts(Book(), DecisionMap(Reviewed().transactions), t).Some?
  {
    hide Facts, DecisionMap;
    forall t | t in {7 as Id, 8, 10} ensures Facts(Book(), DecisionMap(Reviewed().transactions), t).Some? {
      DealHasFacts(DealOf(t));
    }
  }

  /**
   * The conditions under which a plan comes out are met with a reversal, a correction, an alias and a moved
   * purchase.
   */
  lemma SettlementCompiles()
    ensures Plannable(Book(), Reviewed()) && Cards(Book()) == {1, 3} && Book().links == map[9 := 8]
    ensures Actions(Reviewed()) == {10}
    ensures Figure(Book(), Reviewed(), (1, "A")) == 5 && Figure(Book(), Reviewed(), (3, "A")) == 0
  {
    SourceIsClean();
    ReviewIsValid();
    CardFigures((1, "A"));
    CardFigures((3, "A"));
    BookHolds();
    CardsAre(Book());
    ReversalIsExact();
    ReversalIsGrounded();
    OneAction();
    OriginalsHaveFacts();
    hide *;
    PlanConditions();
  }

  lemma OneTarget(links: map<Id, Id>)
    requires links == map[9 := 8]
    ensures 10 !in links.Values
  {
    assert forall r :: r in links ==> links[r] == 8;
  }

  lemma PlanConditions()
    requires Clean(Book()) && ValidReview(Book(), Reviewed()) && Originals(Book()) == {7, 8, 10} && AllGrounded(Book())
    requires forall t :: t in Originals(Book()) ==> Facts(Book(), DecisionMap(Reviewed().transactions), t).Some?
    requires Exact(Book(), DecisionMap(Reviewed().transactions), 9) && Book().links == map[9 := 8]
    requires Actions(Reviewed()) == {10}
    requires Book().reporting == {}
    ensures Plannable(Book(), Reviewed())
  {
    hide Book, Reviewed, Clean, ValidReview, Facts, Actions, AllGrounded, DecisionMap, Exact, Originals, LinkGraph;
    hide Grounded;
    OneTarget(Book().links);
  }
}
