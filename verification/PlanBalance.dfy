/** Balances of a compiled plan: they agree with the review's card figures, and every event balances. */
module PlanBalance {
  import opened Ids
  import opened Sums
  import opened Journal
  import opened Rows
  import opened Frozen
  import opened Inventory
  import opened CardReview
  import opened Compiler
  import opened PlanLog

  // ---------------------------------------------------------------- decisions reach exactly their own postings

  lemma IndexHas<K(!new), R>(k: R -> K, rows: seq<R>, i: nat)
    requires Unique(k, rows) && i < |rows|
    ensures k(rows[i]) in Index(k, rows) && Index(k, rows)[k(rows[i])] == rows[i]
  {
    var r := Index(k, rows)[k(rows[i])];
    var j :| 0 <= j < |rows| && rows[j] == r;
    assert k(rows[j]) == k(rows[i]);
  }

  lemma {:induction false} DecisionMapHas(ds: seq<TransactionDecision>, id: Id)
    ensures id in DecisionMap(ds) ==>
              exists i :: 0 <= i < |ds| && id in Decided(ds[i]) && Decided(ds[i])[id] == DecisionMap(ds)[id]
    ensures (exists i :: 0 <= i < |ds| && id in Decided(ds[i])) ==> id in DecisionMap(ds)
  {
    hide Decided;
    if ds != [] {
      var n := |ds| - 1;
      DecisionMapHas(ds[..n], id);
      assert forall i :: 0 <= i < n ==> ds[..n][i] == ds[i];
      if id in DecisionMap(ds) && id !in Decided(ds[n]) {
        var i :| 0 <= i < n && id in Decided(ds[..n][i]) && Decided(ds[..n][i])[id] == DecisionMap(ds[..n])[id];
        assert id in Decided(ds[i]) && Decided(ds[i])[id] == DecisionMap(ds)[id];
      }
      if i :| 0 <= i < |ds| && id in Decided(ds[i]) {
        assert i < n ==> id in Decided(ds[..n][i]);
      }
    }
  }

  lemma SamePosting(s: Source, p: PostingRow, q: PostingRow)
    requires Unique(PostingId, s.postings) && p in s.postings && q in s.postings && p.id == q.id
    ensures p == q
  {
    var i :| 0 <= i < |s.postings| && s.postings[i] == p;
    var j :| 0 <= j < |s.postings| && s.postings[j] == q;
    assert PostingId(s.postings[i]) == PostingId(s.postings[j]);
  }

  /** Only the decision of a posting's own transaction can name it. */
  lemma DecidedByOwn(s: Source, review: Review, p: PostingRow, i: nat)
    requires Clean(s) && ValidReview(s, review) && p in s.postings
    requires i < |review.transactions| && p.id in Decided(review.transactions[i])
    ensures review.transactions[i].transaction == p.transaction && p.transaction in Scope(s)
    ensures Decisions(review)[p.transaction] == review.transactions[i]
  {
    var d := review.transactions[i];
    IndexHas(TransactionOf, review.transactions, i);
    OwnRow(s, d, p);
  }

  lemma OwnRow(s: Source, d: TransactionDecision, p: PostingRow)
    requires Unique(PostingId, s.postings) && p in s.postings && ValidDecision(s, d) && p.id in Decided(d)
    ensures p.transaction == d.transaction
  {
    hide Balanced, ValidTarget;
    var rows := ReviewRows(s, d);
    assert p.id in (set q | q in rows :: q.id);
    var q :| q in rows && q.id == p.id;
    SamePosting(s, p, q);
  }

  /** A posting outside the review's scope keeps its account and side. */
  lemma OutsideUndecided(s: Source, review: Review, p: PostingRow)
    requires Clean(s) && ValidReview(s, review) && p in s.postings && p.transaction !in Scope(s)
    ensures p.id !in DecisionMap(review.transactions)
  {
    hide Clean, ValidReview, Decided;
    DecisionMapHas(review.transactions, p.id);
    if p.id in DecisionMap(review.transactions) {
      var i :| 0 <= i < |review.transactions| && p.id in Decided(review.transactions[i]);
      DecidedByOwn(s, review, p, i);
      assert false;
    }
  }

  /** A posting inside it is moved as its transaction's decision says; no second decision can touch it. */
  lemma InsideDecided(s: Source, review: Review, p: PostingRow)
    requires Clean(s) && ValidReview(s, review) && p in s.postings && p.transaction in Scope(s)
    ensures p.transaction in Decisions(review) && p.id in Decided(Decisions(review)[p.transaction])
    ensures p.id in DecisionMap(review.transactions)
    ensures DecisionMap(review.transactions)[p.id] == Decided(Decisions(review)[p.transaction])[p.id]
  {
    var d := OwnDecision(s, review, p);
    hide Clean, ValidReview, Decided;
    DecisionMapHas(review.transactions, p.id);
    var k :| 0 <= k < |review.transactions| && p.id in Decided(review.transactions[k])
             && Decided(review.transactions[k])[p.id] == DecisionMap(review.transactions)[p.id];
    DecidedByOwn(s, review, p, k);
  }

  lemma OwnDecision(s: Source, review: Review, p: PostingRow) returns (d: TransactionDecision)
    requires ValidReview(s, review) && p in s.postings && p.transaction in Scope(s)
    ensures p.transaction in Decisions(review) && d == Decisions(review)[p.transaction]
    ensures d in review.transactions && p.id in Decided(d) && ValidDecision(s, d) && d.transaction == p.transaction
  {
    hide Balanced, ValidTarget, FiguresAgree, ReversalAgrees;
    assert p.transaction in Decisions(review).Keys;
    d := Decisions(review)[p.transaction];
    assert p in RowsOf(p.transaction, s.postings);
    assert p in ReviewRows(s, d);
    assert p.id in (set q | q in ReviewRows(s, d) :: q.id);
  }

  // ---------------------------------------------------------------- planned legs against reviewed and source legs

  function PlanRows(s: Source, t: Id): seq<PostingRow> { SortRows(RowsOf(t, s.postings)) }

  function PlanLegs(s: Source, review: Review, t: Id): seq<Leg> {
    PlannedLegs(s.scales, DecisionMap(review.transactions), PlanRows(s, t))
  }

  /** However a row's amount is written, the review and the planner read the same units. */
  lemma SameUnits(s: Source, p: PostingRow)
    requires Normalizes(s.scales, p)
    ensures ReviewUnits(s, p).Ok? && ReviewUnits(s, p).value == NormalizePosting(s.scales, p).value.units
  {
    hide Decimal.NormalizeLegacySigned, Decimal.NormalizeExplicit;
    match p.semantics {
      case DebitCredit(side) => Decimal.ExplicitUnitsAreLegacyUnits(p.amount, side, s.scales[p.asset]);
      case _ =>
    }
  }

  lemma RowBelongs(s: Source, t: Id, i: nat)
    requires i < |PlanRows(s, t)|
    ensures PlanRows(s, t)[i] in s.postings && PlanRows(s, t)[i].transaction == t
  {
    var p := PlanRows(s, t)[i];
    assert p in RowsOf(t, s.postings);
  }

  /** Two computations, one result: the legs the review resolved are the legs the planner posts. */
  lemma ResolvedIsPlanned(s: Source, review: Review, t: Id)
    requires Clean(s) && ValidReview(s, review) && t in Scope(s) && Canonical(s.scales, PlanRows(s, t))
    ensures t in Decisions(review) && Resolved(s, Decisions(review)[t]) == PlanLegs(s, review, t)
  {
    hide Clean, Decided, DecisionMap, Canonical, SortRows, RowsOf, ValidDecision, FiguresAgree, ReversalAgrees;
    assert t in Decisions(review).Keys;
    var d := Decisions(review)[t];
    var rows := PlanRows(s, t);
    forall i | 0 <= i < |rows|
      ensures ReviewLeg(s, Decided(d), rows[i]) == PlannedLeg(s.scales, DecisionMap(review.transactions), rows[i])
    {
      ResolvedLegIsPlanned(s, review, t, i);
    }
    hide ReviewLeg, PlannedLeg, ValidReview;
    assert Resolved(s, d) == PlanLegs(s, review, t);
  }

  lemma ResolvedLegIsPlanned(s: Source, review: Review, t: Id, i: nat)
    requires Clean(s) && ValidReview(s, review) && t in Scope(s) && Canonical(s.scales, PlanRows(s, t))
    requires i < |PlanRows(s, t)|
    requires t in Decisions(review)
    ensures ReviewLeg(s, Decided(Decisions(review)[t]), PlanRows(s, t)[i])
         == PlannedLeg(s.scales, DecisionMap(review.transactions), PlanRows(s, t)[i])
  {
    hide Clean, ValidReview, Decided, Decisions, DecisionMap, NormalizePosting, ReviewUnits, SortRows, RowsOf, Scope;
    var rows := PlanRows(s, t);
    RowBelongs(s, t, i);
    InsideDecided(s, review, rows[i]);
    CanonicalRow(s, rows, i);
    SameUnits(s, rows[i]);
  }

  lemma CanonicalRow(s: Source, rows: seq<PostingRow>, i: nat)
    requires Canonical(s.scales, rows) && i < |rows|
    ensures Normalizes(s.scales, rows[i]) && rows[i].position == i
  {
  }

  /** Outside the scope the planner posts the source legs as they are. */
  lemma OutsideIsSource(s: Source, review: Review, t: Id)
    requires Clean(s) && ValidReview(s, review) && t !in Scope(s)
    ensures PlanLegs(s, review, t) == SourceLegs(s.scales, PlanRows(s, t))
  {
    var rows := PlanRows(s, t);
    hide Clean, ValidReview, DecisionMap, SourceLeg, SortRows, RowsOf;
    forall i | 0 <= i < |rows|
      ensures PlannedLeg(s.scales, DecisionMap(review.transactions), rows[i]) == SourceLeg(s.scales, rows[i])
    {
      RowBelongs(s, t, i);
      OutsideUndecided(s, review, rows[i]);
    }
  }

  function RowWeight(scales: map<AssetCode, int>, f: Leg -> int): PostingRow -> int { p => f(SourceLeg(scales, p)) }

  lemma {:induction false} SumOfLegs(scales: map<AssetCode, int>, f: Leg -> int, rows: seq<PostingRow>)
    ensures Sum(f, SourceLegs(scales, rows)) == Sum(RowWeight(scales, f), rows)
  {
    hide SourceLeg;
    if rows != [] {
      SumOfLegs(scales, f, rows[..|rows| - 1]);
      assert SourceLegs(scales, rows)[..|rows| - 1] == SourceLegs(scales, rows[..|rows| - 1]);
    }
  }

  /** Whatever moved a leg, the planned legs of a transaction balance in every asset. */
  lemma PlannedBalances(s: Source, review: Review, t: Id)
    requires Clean(s) && ValidReview(s, review) && t in s.transactions && Canonical(s.scales, PlanRows(s, t))
    ensures Balanced(PlanLegs(s, review, t))
  {
    if t in Scope(s) {
      ResolvedIsPlanned(s, review, t);
    } else {
      OutsideIsSource(s, review, t);
      assert Balanced(SourceLegs(s.scales, RowsOf(t, s.postings))) by { assert CleanTransaction(s, t); }
      SortedBalances(s.scales, RowsOf(t, s.postings));
    }
  }

  lemma SortedBalances(scales: map<AssetCode, int>, rows: seq<PostingRow>)
    requires Balanced(SourceLegs(scales, rows))
    ensures Balanced(SourceLegs(scales, SortRows(rows)))
  {
    hide SourceLeg, SortRows;
    forall asset ensures Net(SourceLegs(scales, SortRows(rows)), asset) == 0 {
      SumOfLegs(scales, InAsset(asset), rows);
      SumOfLegs(scales, InAsset(asset), SortRows(rows));
      SortKeepsSum(RowWeight(scales, InAsset(asset)), rows);
      assert Net(SourceLegs(scales, rows), asset) == 0;
    }
  }

  // ---------------------------------------------------------------- what each transaction does to a card account

  /** A posting of a transaction outside the scope is on no card account. */
  lemma OffCardRow(s: Source, p: PostingRow, a: Id)
    requires p in s.postings && p.transaction !in Scope(s) && a in Cards(s)
    ensures OnAccount(a)(SourceLeg(s.scales, p)) == 0
  {
    hide NormalizePosting, Cards;
    var j :| 0 <= j < |s.postings| && s.postings[j] == p;
    assert s.postings[j].account != a;
  }

  lemma OutsideTouchesNoCard(s: Source, review: Review, t: Id, a: Id)
    requires Clean(s) && ValidReview(s, review) && t !in Scope(s) && a in Cards(s)
    ensures AccountNet(PlanLegs(s, review, t), a) == 0
  {
    hide Clean, ValidReview, PlanRows, SourceLeg, Cards, Scope;
    OutsideIsSource(s, review, t);
    var rows := PlanRows(s, t);
    forall i | 0 <= i < |rows| ensures OnAccount(a)(SourceLeg(s.scales, rows[i])) == 0 {
      RowBelongs(s, t, i);
      OffCardRow(s, rows[i], a);
    }
    SumOfZeros(OnAccount(a), SourceLegs(s.scales, rows));
  }

  lemma {:induction false} NaturalIsMinusNet(legs: seq<Leg>, k: Key)
    requires forall i :: 0 <= i < |legs| && legs[i].account == k.0 ==> legs[i].asset == k.1
    ensures Sum(NaturalOn(k), legs) == -AccountNet(legs, k.0)
  {
    if legs != [] { NaturalIsMinusNet(legs[..|legs| - 1], k); }
  }

  lemma CardContribution(s: Source, review: Review, t: Id, a: Id)
    requires Clean(s) && ValidReview(s, review) && t in Scope(s) && a in Cards(s) && Canonical(s.scales, PlanRows(s, t))
    ensures t in Decisions(review)
    ensures Decisions(review)[t].action == NoAction ==>
              Contribution(s, (a, s.accounts[a].currency), Decisions(review)[t]) ==
                  -AccountNet(PlanLegs(s, review, t), a)
  {
    ResolvedIsPlanned(s, review, t);
    var d := Decisions(review)[t];
    var k := (a, s.accounts[a].currency);
    var rows := ReviewRows(s, d);
    assert ValidDecision(s, d);
    hide Clean, ValidReview, Decided, SortRows, RowsOf, PlanLegs, Balanced;
    forall i | 0 <= i < |rows| ensures Resolved(s, d)[i].account == a ==> Resolved(s, d)[i].asset == k.1 {
      assert ValidTarget(s, Decided(d), rows[i]);
    }
    NaturalIsMinusNet(Resolved(s, d), k);
  }

  // ---------------------------------------------------------------- the fold over the plan

  /** Actions a review asks to reverse after import. */
  function Actions(review: Review): set<Id> {
    set t | t in Decisions(review) && Decisions(review)[t].action == ExactReversal
  }

  function EventNet(a: Id): Event -> int {
    (e: Event) => if IsJournal(e.pending.payload) then AccountNet(Legs(e.pending.payload.postings), a) else 0
  }

  function Weight(s: Source, d: DecisionTable, a: Id): Id -> int {
    (t: Id) => match Facts(s, d, t) case Some(facts) => AccountNet(Legs(facts), a) case None => 0
  }

  function TagNet(s: Source, d: DecisionTable, a: Id): EventId -> int {
    (tag: EventId) =>
      match tag
      case Post(t) => Weight(s, d, a)(t)
      case Reverse(t) => Weight(s, d, a)(t)
      case Neutralize(t) => -Weight(s, d, a)(t)
      case Assign(_) => 0
  }

  function Posts(ids: seq<Id>): seq<EventId> { seq(|ids|, i requires 0 <= i < |ids| => Post(ids[i])) }

  function Reversals(ids: seq<Id>): seq<EventId> { seq(|ids|, i requires 0 <= i < |ids| => Reverse(ids[i])) }

  function Corrections(ids: seq<Id>): seq<EventId> { seq(|ids|, i requires 0 <= i < |ids| => Neutralize(ids[i])) }

  function Assignments(ids: seq<Id>): seq<EventId> { seq(|ids|, i requires 0 <= i < |ids| => Assign(ids[i])) }

  lemma EventNetIsTagNet(s: Source, d: DecisionTable, events: seq<Event>, i: nat, a: Id)
    requires i < |events| && Shaped(s, d, events) && EventOk(s, d, events[..i], events[i].pending)
    ensures EventNet(a)(events[i]) == TagNet(s, d, a)(events[i].pending.event)
  {
    hide Facts, AccountNet, Inverse;
    var x := events[i].pending;
    OkHasShape(s, d, events[..i], x);
    if x.event.Neutralize? {
      var t := x.event.source;
      var j :| 0 <= j < i && Corrects(s, events[j], t, x);
      CarriesSource(s, d, events[j], t);
      InverseNegates(Legs(events[j].pending.payload.postings), a, "");
      assert Legs(x.payload.postings) == Inverse(Legs(events[j].pending.payload.postings)) && IsJournal(x.payload);
      assert Weight(s, d, a)(t) == AccountNet(Legs(events[j].pending.payload.postings), a);
    } else if x.event.Assign? {
      assert !IsJournal(x.payload);
    } else {
      var t := x.event.source;
      assert x.payload.postings == Facts(s, d, t).value && IsJournal(x.payload);
      assert Weight(s, d, a)(t) == AccountNet(Legs(Facts(s, d, t).value), a);
    }
  }

  lemma LogNet(digest: Digest, s: Source, d: DecisionTable, pending: seq<Pending>, tags: seq<EventId>, a: Id)
    requires Log(digest, s, d, pending, tags)
    ensures Sum(EventNet(a), Chain(digest, pending)) == Sum(TagNet(s, d, a), tags)
  {
    LogIsShaped(digest, s, d, pending, tags);
    var events := Chain(digest, pending);
    hide EventOk, Shaped, Compilable, Chain;
    forall i | 0 <= i < |events| ensures EventNet(a)(events[i]) == TagNet(s, d, a)(tags[i]) {
      assert events[i].pending == pending[i];
      EventNetIsTagNet(s, d, events, i, a);
    }
    SumPointwise(EventNet(a), TagNet(s, d, a), events, tags);
  }

  lemma {:induction false} SumPointwise<A, B>(f: A -> int, g: B -> int, xs: seq<A>, ys: seq<B>)
    requires |xs| == |ys| && forall i :: 0 <= i < |xs| ==> f(xs[i]) == g(ys[i])
    ensures Sum(f, xs) == Sum(g, ys)
  {
    if xs != [] { SumPointwise(f, g, xs[..|xs| - 1], ys[..|ys| - 1]); }
  }

  lemma {:induction false} SumNegated(f: Id -> int, g: Id -> int, xs: seq<Id>)
    requires forall x :: g(x) == -f(x)
    ensures Sum(g, xs) == -Sum(f, xs)
  {
    if xs != [] { SumNegated(f, g, xs[..|xs| - 1]); }
  }

  ghost predicate PlanOrder(s: Source, review: Review, o: seq<Id>, r: seq<Id>, c: seq<Id>) {
    && Distinct(o) && Distinct(r) && Distinct(c) && s.links.Keys <= s.transactions
    && (set x | x in o) == s.transactions - s.links.Keys && (set x | x in r) == s.links.Keys
         && (set x | x in c) == Actions(review)
  }

  /** Originals, reversals and corrections together leave each transaction once, the corrected ones not at all. */
  lemma TagsNet(s: Source, review: Review, d: DecisionTable, o: seq<Id>, r: seq<Id>, c: seq<Id>, p: seq<Id>, a: Id)
    requires PlanOrder(s, review, o, r, c) && Actions(review) <= s.transactions
    ensures Sum(TagNet(s, d, a), Posts(o) + Reversals(r) + Corrections(c) + Assignments(p))
         == SumSet(Weight(s, d, a), s.transactions - Actions(review))
  {
    var w := Weight(s, d, a);
    FourParts(s, d, a, o, r, c, p);
    hide Actions, Facts, TagNet, Weight;
    SumDistinctIs(w, o, s.transactions - s.links.Keys);
    SumDistinctIs(w, r, s.links.Keys);
    SumDistinctIs(w, c, Actions(review));
    SumSetUnion(w, s.transactions - s.links.Keys, s.links.Keys);
    assert (s.transactions - s.links.Keys) + s.links.Keys == s.transactions;
    SumSetUnion(w, s.transactions - Actions(review), Actions(review));
    assert (s.transactions - Actions(review)) + Actions(review) == s.transactions;
  }

  lemma SumDistinctIs(f: Id -> int, xs: seq<Id>, s: set<Id>)
    requires Distinct(xs) && s == set x | x in xs
    ensures Sum(f, xs) == SumSet(f, s)
  {
    SumDistinct<Id>(f, xs);
    var t := set x | x in xs;
    assert Sum<Id>(f, xs) == SumSet<Id>(f, t);
    assert t == s;
  }

  lemma FourParts(s: Source, d: DecisionTable, a: Id, o: seq<Id>, r: seq<Id>, c: seq<Id>, p: seq<Id>)
    ensures Sum(TagNet(s, d, a), Posts(o) + Reversals(r) + Corrections(c) + Assignments(p))
         == Sum(Weight(s, d, a), o) + Sum(Weight(s, d, a), r) - Sum(Weight(s, d, a), c)
  {
    hide Facts, Sum;
    var f, w := TagNet(s, d, a), Weight(s, d, a);
    SumConcat(f, Posts(o) + Reversals(r) + Corrections(c), Assignments(p));
    SumConcat(f, Posts(o) + Reversals(r), Corrections(c));
    SumConcat(f, Posts(o), Reversals(r));
    SumPointwise(f, w, Posts(o), o);
    SumPointwise(f, w, Reversals(r), r);
    var minus := (t: Id) => -w(t);
    SumPointwise(f, minus, Corrections(c), c);
    SumNegated(w, minus, c);
    SumOfZeros(f, Assignments(p));
  }

  /** The remaining transactions' weights on a card account are the review's figure, taken from the other side. */
  lemma CardFigure(s: Source, review: Review, a: Id)
    requires Clean(s) && ValidReview(s, review) && a in Cards(s)
    requires forall t :: t in s.transactions ==> Canonical(s.scales, PlanRows(s, t))
    ensures SumSet(Weight(s, DecisionMap(review.transactions), a), s.transactions - Actions(review))
         == -Figure(s, review, (a, s.accounts[a].currency))
  {
    assert a in s.accounts;
    hide *;
    var w := Weight(s, DecisionMap(review.transactions), a);
    var g := ContributionOf(s, Decisions(review), (a, s.accounts[a].currency));
    InScope(s, review);
    forall t | t in s.transactions - Scope(s) ensures w(t) == 0 { OutsideWeight(s, review, t, a); }
    forall t | t in Scope(s) - Actions(review) ensures w(t) == -g(t) { ScopeWeight(s, review, t, a); }
    forall t | t in Actions(review) ensures g(t) == 0 { ActionAddsNothing(s, review, t, (a, s.accounts[a].currency)); }
    SplitSums(w, g, s.transactions, Scope(s), Actions(review));
    FigureIs(s, review, (a, s.accounts[a].currency));
  }

  lemma FigureIs(s: Source, review: Review, k: Key)
    ensures Figure(s, review, k) == SumSet(ContributionOf(s, Decisions(review), k), Scope(s))
  {
  }

  lemma SplitSums(w: Id -> int, g: Id -> int, all: set<Id>, scope: set<Id>, actions: set<Id>)
    requires actions <= scope <= all
    requires forall t :: t in all - scope ==> w(t) == 0
    requires forall t :: t in scope - actions ==> w(t) == -g(t)
    requires forall t :: t in actions ==> g(t) == 0
    ensures SumSet(w, all - actions) == -SumSet(g, scope)
  {
    hide SumSet;
    SumSetZero(w, all - scope);
    SumSetNegated(w, g, scope - actions);
    SumSetZero(g, actions);
    SumSetUnion(w, scope - actions, all - scope);
    assert (scope - actions) + (all - scope) == all - actions;
    SumSetUnion(g, scope - actions, actions);
    assert (scope - actions) + actions == scope;
  }

  lemma OutsideWeight(s: Source, review: Review, t: Id, a: Id)
    requires Clean(s) && ValidReview(s, review) && t !in Scope(s) && a in Cards(s)
    requires Canonical(s.scales, PlanRows(s, t))
    ensures Weight(s, DecisionMap(review.transactions), a)(t) == 0
  {
    hide Clean, ValidReview, Canonical, Cards;
    OutsideTouchesNoCard(s, review, t, a);
    WeightIs(s, review, t, a);
  }

  lemma InScope(s: Source, review: Review)
    requires Clean(s) && ValidReview(s, review)
    ensures Actions(review) <= Scope(s) <= s.transactions
  {
    hide FiguresAgree, ValidDecision, ReversalAgrees;
    forall t | t in Scope(s) ensures t in s.transactions {
      var i :| 0 <= i < |s.postings| && s.postings[i].transaction == t;
    }
    assert Decisions(review).Keys == Scope(s);
  }

  lemma WeightIs(s: Source, review: Review, t: Id, a: Id)
    requires Canonical(s.scales, PlanRows(s, t))
    ensures Weight(s, DecisionMap(review.transactions), a)(t) == AccountNet(PlanLegs(s, review, t), a)
  {
  }

  lemma ScopeWeight(s: Source, review: Review, t: Id, a: Id)
    requires Clean(s) && ValidReview(s, review) && a in Cards(s) && t in Scope(s) && t !in Actions(review)
    requires Canonical(s.scales, PlanRows(s, t))
    ensures Weight(s, DecisionMap(review.transactions), a)(t)
         == -ContributionOf(s, Decisions(review), (a, s.accounts[a].currency))(t)
  {
    hide Clean, ValidReview, Canonical, Contribution, Cards;
    CardContribution(s, review, t, a);
    WeightIs(s, review, t, a);
  }

  lemma ActionAddsNothing(s: Source, review: Review, t: Id, k: Key)
    requires t in Actions(review)
    ensures ContributionOf(s, Decisions(review), k)(t) == 0
  {
  }

  lemma {:induction false} SumSetNegated(f: Id -> int, g: Id -> int, s: set<Id>)
    requires forall x :: x in s ==> f(x) == -g(x)
    ensures SumSet(f, s) == -SumSet(g, s)
  {
    if s != {} {
      var x :| x in s;
      SumSetRemove(f, s, x);
      SumSetRemove(g, s, x);
      SumSetNegated(f, g, s - {x});
    }
  }

  // ---------------------------------------------------------------- every event balances

  /** Posted and reversed events balance per asset, whether read, decided or inverted. */
  lemma EventsBalance(digest: Digest, s: Source, review: Review, pending: seq<Pending>, tags: seq<EventId>, i: nat)
    requires Clean(s) && ValidReview(s, review) && Log(digest, s, DecisionMap(review.transactions), pending, tags)
    requires i < |pending| && IsJournal(pending[i].payload)
    ensures Balanced(Legs(pending[i].payload.postings))
  {
    var d := DecisionMap(review.transactions);
    var events := Chain(digest, pending);
    LogIsShaped(digest, s, d, pending, tags);
    assert forall j :: 0 <= j < |events| ==> events[j].pending == pending[j] && EventOk(s, d, events[..j], pending[j]);
    hide *;
    EventBalances(s, review, events, i);
  }

  lemma CorrectionBalances(s: Source, review: Review, events: seq<Event>, j: nat, x: Pending)
    requires Clean(s) && ValidReview(s, review) && Shaped(s, DecisionMap(review.transactions), events) && j < |events|
    requires EventOk(s, DecisionMap(review.transactions), events[..j], events[j].pending)
    requires x.event.Neutralize? && Corrects(s, events[j], x.event.source, x)
    ensures IsJournal(x.payload) && Balanced(Legs(x.payload.postings))
  {
    hide Clean, ValidReview, Facts, DecisionMap, Balanced;
    var d, t := DecisionMap(review.transactions), x.event.source;
    CarriesSource(s, d, events[j], t);
    FactsBalance(s, review, t);
    InverseBalances(Legs(events[j].pending.payload.postings));
  }

  lemma EventBalances(s: Source, review: Review, events: seq<Event>, i: nat)
    requires Clean(s) && ValidReview(s, review) && Shaped(s, DecisionMap(review.transactions), events) && i < |events|
    requires forall j :: 0 <= j < |events| ==>
               EventOk(s, DecisionMap(review.transactions), events[..j], events[j].pending)
    requires IsJournal(events[i].pending.payload)
    ensures Balanced(Legs(events[i].pending.payload.postings))
  {
    hide Clean, ValidReview, Facts, DecisionMap, Balanced;
    var d, x := DecisionMap(review.transactions), events[i].pending;
    OkHasShape(s, d, events[..i], x);
    if x.event.Neutralize? {
      var j :| 0 <= j < i && Corrects(s, events[j], x.event.source, x);
      assert EventOk(s, d, events[..j], events[j].pending);
      CorrectionBalances(s, review, events, j, x);
    } else {
      FactsBalance(s, review, x.event.source);
    }
  }

  lemma FactsBalance(s: Source, review: Review, t: Id)
    requires Clean(s) && ValidReview(s, review) && Facts(s, DecisionMap(review.transactions), t).Some?
    requires t in s.transactions
    ensures Balanced(Legs(Facts(s, DecisionMap(review.transactions), t).value))
  {
    PlannedBalances(s, review, t);
  }

  lemma InverseBalances(legs: seq<Leg>)
    requires Balanced(legs)
    ensures Balanced(Inverse(legs))
  {
    forall asset ensures Net(Inverse(legs), asset) == 0 { InverseNegates(legs, 0, asset); }
  }
}
