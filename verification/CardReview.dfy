/** Reviewed card decisions checked against the source (credit_card_review.py). */
module CardReview {
  import opened Ids
  import opened Outcomes
  import opened Sums
  import opened Journal
  import opened Rows
  import opened Frozen

  type Key = (Id, AssetCode)

  function TransactionOf(d: TransactionDecision): Id { d.transaction }

  function DecidedPosting(d: PostingDecision): Id { d.posting }

  function ExpectedKey(e: ExpectedBalance): Key { (e.account, e.asset) }

  function SameId(id: Id): Id { id }

  /** Transactions with a posting on a card account. */
  function Scope(s: Source): (r: set<Id>)
    ensures forall i :: 0 <= i < |s.postings| && s.postings[i].account in Cards(s) ==> s.postings[i].transaction in r
    ensures forall t :: t in r ==>
              exists i :: 0 <= i < |s.postings| && s.postings[i].transaction == t && s.postings[i].account in Cards(s)
  {
    set i | 0 <= i < |s.postings| && s.postings[i].account in Cards(s) :: s.postings[i].transaction
  }

  /** A transaction's decisions by the posting they decide. */
  function Decided(d: TransactionDecision): (r: map<Id, PostingDecision>)
    ensures forall p :: p in r ==> r[p] in d.postings && r[p].posting == p
    ensures forall i :: 0 <= i < |d.postings| ==> d.postings[i].posting in r
  {
    Index(DecidedPosting, d.postings)
  }

  function ReviewRows(s: Source, d: TransactionDecision): seq<PostingRow> {
    SortRows(RowsOf(d.transaction, s.postings))
  }

  /** Units as the review reads them: always the signed text, whatever the row's own semantics. */
  function ReviewUnits(s: Source, p: PostingRow): Result<int, Decimal.Rejection> {
    if p.asset !in s.scales then Err(Decimal.BadScale) else
      match Decimal.NormalizeLegacySigned(p.amount, s.scales[p.asset])
      case Ok(a) => Ok(a.units)
      case Err(e) => Err(e)
  }

  ghost predicate ValidTarget(s: Source, decided: map<Id, PostingDecision>, p: PostingRow) {
    && p.id in decided && decided[p.id].account in s.accounts && s.accounts[decided[p.id].account].currency == p.asset
    && ReviewUnits(s, p).Ok?
  }

  function ReviewLeg(s: Source, decided: map<Id, PostingDecision>, p: PostingRow): Leg {
    var units := match ReviewUnits(s, p) case Ok(n) => n case Err(_) => 0;
    var position := if p.position < 0 then 0 else p.position;
    if p.id in decided then Leg(position, decided[p.id].account, p.asset, decided[p.id].side, units)
    else Leg(position, p.account, p.asset, Debit, units)
  }

  function ReviewLegs(s: Source, decided: map<Id, PostingDecision>, rows: seq<PostingRow>): (r: seq<Leg>)
    ensures |r| == |rows| && forall i :: 0 <= i < |r| ==> r[i] == ReviewLeg(s, decided, rows[i])
  {
    seq(|rows|, i requires 0 <= i < |rows| => ReviewLeg(s, decided, rows[i]))
  }

  function Resolved(s: Source, d: TransactionDecision): seq<Leg> { ReviewLegs(s, Decided(d), ReviewRows(s, d)) }

  ghost predicate ValidDecision(s: Source, d: TransactionDecision) {
    var rows := ReviewRows(s, d);
    && Unique(DecidedPosting, d.postings) && Decided(d).Keys == (set p | p in rows :: p.id)
    && (forall i :: 0 <= i < |rows| ==> ValidTarget(s, Decided(d), rows[i]))
    && Balanced(Resolved(s, d))
  }

  // ---------------------------------------------------------------- the natural figures

  /** Credit-positive weight of a leg on one account and asset. */
  ghost function NaturalOn(k: Key): Leg -> int {
    (l: Leg) => if l.account == k.0 && l.asset == k.1 then -Signed(l) else 0
  }

  /** What one decision adds to a card's figure: nothing once it is to be reversed. */
  ghost function Contribution(s: Source, k: Key, d: TransactionDecision): int {
    if d.action == NoAction then Sum(NaturalOn(k), Resolved(s, d)) else 0
  }

  ghost function ContributionOf(s: Source, decisions: map<Id, TransactionDecision>, k: Key): Id -> int {
    t => if t in decisions then Contribution(s, k, decisions[t]) else 0
  }

  function Decisions(review: Review): (r: map<Id, TransactionDecision>)
    ensures forall t :: t in r ==> r[t] in review.transactions && r[t].transaction == t
    ensures forall i :: 0 <= i < |review.transactions| ==> review.transactions[i].transaction in r
  {
    Index(TransactionOf, review.transactions)
  }

  ghost function Figure(s: Source, review: Review, k: Key): int {
    SumSet(ContributionOf(s, Decisions(review), k), Scope(s))
  }

  // ---------------------------------------------------------------- a valid review

  function Tuple(l: Leg): (Id, AssetCode, Side, int) { (l.account, l.asset, l.side, l.units) }

  function Tuples(legs: seq<Leg>): seq<(Id, AssetCode, Side, int)> {
    seq(|legs|, i requires 0 <= i < |legs| => Tuple(legs[i]))
  }

  /** The sorted comparison of the reversal's tuples with the original's on the other sides. */
  ghost predicate TuplesAgree(original: seq<Leg>, reversal: seq<Leg>) {
    multiset(Tuples(Inverse(original))) == multiset(Tuples(reversal))
  }

  /** Legs pair off one to one: same account, asset and units, opposite sides. */
  ghost predicate MirrorLegs(original: seq<Leg>, reversal: seq<Leg>) {
    exists m :: MirroredBy(original, reversal, m)
  }

  ghost predicate MirroredBy(original: seq<Leg>, reversal: seq<Leg>, m: seq<nat>) {
    && |original| == |reversal| && Pairing(m, |original|)
    && forall i :: 0 <= i < |original| ==> Mirrors(original[i], reversal[m[i]])
  }

  ghost predicate Mirrors(l: Leg, r: Leg) {
    l.account == r.account && l.asset == r.asset && l.units == r.units && l.side != r.side
  }

  lemma TuplesMirror(original: seq<Leg>, reversal: seq<Leg>)
    ensures TuplesAgree(original, reversal) <==> MirrorLegs(original, reversal)
  {
    var xs, ys := Tuples(Inverse(original)), Tuples(reversal);
    forall l: Leg, r: Leg ensures Mirrors(l, r) <==> Tuple(l.(side := Opposite(l.side))) == Tuple(r) {}
    hide Mirrors;
    if TuplesAgree(original, reversal) {
      var m := SameBagIsRearranged(xs, ys);
      assert MirroredBy(original, reversal, m);
    }
    if MirrorLegs(original, reversal) {
      var m :| MirroredBy(original, reversal, m);
      assert Rearranged(xs, ys, m);
      RearrangedIsSameBag(xs, ys, m);
    }
  }

  ghost predicate ReversalAgrees(s: Source, decisions: map<Id, TransactionDecision>, reversal: Id) {
    reversal in s.links && reversal in decisions && s.links[reversal] in decisions ==>
      MirrorLegs(Resolved(s, decisions[s.links[reversal]]), Resolved(s, decisions[reversal]))
  }

  ghost function Required(s: Source): set<Key> { set a | a in Cards(s) :: (a, s.accounts[a].currency) }

  ghost predicate LegacyCard(s: Source, a: Id) { a in Cards(s) && s.accounts[a].subtype == Some("legacy_credit_card") }

  ghost predicate Covers(s: Source, review: Review) {
    && (forall i :: 0 <= i < |s.postings| ==> s.postings[i].transaction in s.transactions)
    && Unique(TransactionOf, review.transactions) && Decisions(review).Keys == Scope(s)
  }

  ghost predicate FiguresAgree(s: Source, review: Review) {
    && Distinct(review.aliases)
    && (forall i :: 0 <= i < |review.aliases| ==> LegacyCard(s, review.aliases[i]))
    && (forall i, asset :: 0 <= i < |review.aliases| ==> Figure(s, review, (review.aliases[i], asset)) == 0)
    && Unique(ExpectedKey, review.expected) && Index(ExpectedKey, review.expected).Keys == Required(s)
    && forall i :: 0 <= i < |review.expected| ==>
         review.expected[i].units == Figure(s, review, ExpectedKey(review.expected[i]))
  }

  ghost predicate ValidReview(s: Source, review: Review) {
    && Covers(s, review) && ScalesAccepted(s)
    && (forall t :: t in Scope(s) && t in Decisions(review) ==> ValidDecision(s, Decisions(review)[t]))
    && (forall t :: t in s.links ==> ReversalAgrees(s, Decisions(review), t))
    && FiguresAgree(s, review)
  }

  // ---------------------------------------------------------------- the validation loops

  method ValidateAgainstSource(s: Source, review: Review) returns (ok: bool)
    ensures ok <==> ValidReview(s, review)
  {
    hide Decisions, FiguresAgree, ValidDecision, MirrorLegs, Resolved, Figure;
    var decisions := CheckCoverage(s, review);
    if decisions == None { return false; }
    var scaled := CheckScales(s);
    if !scaled { return false; }
    var expected := ExpectedNatural(s, decisions.value, Scope(s));
    if expected == None { return false; }
    var left := s.links.Keys;
    while left != {}
      invariant left <= s.links.Keys
      invariant forall t :: t in s.links && t !in left ==> ReversalAgrees(s, decisions.value, t)
    {
      var t :| t in left;
      if t in decisions.value && s.links[t] in decisions.value {
        var original, reversal := decisions.value[s.links[t]], decisions.value[t];
        TuplesMirror(Resolved(s, original), Resolved(s, reversal));
        var undone := Tuples(Inverse(Resolved(s, original)));
        if multiset(undone) != multiset(Tuples(Resolved(s, reversal))) {
          assert !ReversalAgrees(s, decisions.value, t);
          return false;
        }
      }
      left := left - {t};
    }
    ok := CheckFigures(s, review, expected.value);
  }

  method CheckScales(s: Source) returns (ok: bool)
    ensures ok <==> ScalesAccepted(s)
  {
    hide ScaleAccepted;
    var left := s.assets.Keys;
    while left != {}
      invariant left <= s.assets.Keys
      invariant forall code :: code in s.assets && code !in left ==> ScaleAccepted(code, s.assets[code])
    {
      var code :| code in left;
      if !ScaleAccepted(code, s.assets[code]) { return false; }
      left := left - {code};
    }
    ok := true;
  }

  method CheckCoverage(s: Source, review: Review) returns (decisions: Option<map<Id, TransactionDecision>>)
    ensures decisions.Some? <==> Covers(s, review)
    ensures decisions.Some? ==> decisions.value == Decisions(review)
  {
    for i := 0 to |s.postings|
      invariant forall j :: 0 <= j < i ==> s.postings[j].transaction in s.transactions
    {
      if s.postings[i].transaction !in s.transactions { return None; }
    }
    decisions := BuildIndex(TransactionOf, review.transactions);
    if decisions.Some? && decisions.value.Keys != Scope(s) { decisions := None; }
  }

  /** The counters after every decision of the scope: only card accounts are counted. */
  ghost predicate Counts(s: Source, decisions: map<Id, TransactionDecision>, done: set<Id>, m: map<Key, int>) {
    && (forall k: Key :: k.0 in Cards(s) ==> At(m, k) == SumSet(ContributionOf(s, decisions, k), done))
    && (forall k: Key :: k in m ==> k.0 in Cards(s))
  }

  method ExpectedNatural(s: Source, decisions: map<Id, TransactionDecision>, scope: set<Id>)
    returns (r: Option<map<Key, int>>)
    requires decisions.Keys == scope
    ensures r.Some? <==> forall t :: t in scope && t in decisions ==> ValidDecision(s, decisions[t])
    ensures r.Some? ==> Counts(s, decisions, scope, r.value)
  {
    hide ValidDecision, Counts, ContributionOf;
    var natural: map<Key, int> := map[];
    var left := scope;
    NothingCounted(s, decisions);
    assert scope - left == {};
    while left != {}
      invariant left <= scope
      invariant forall t :: t in scope && t !in left ==> ValidDecision(s, decisions[t])
      invariant Counts(s, decisions, scope - left, natural)
    {
      var t :| t in left;
      ghost var before := natural;
      var next := CountDecision(s, decisions[t], natural);
      if next == None { return None; }
      natural := next.value;
      CountedOne(s, decisions, scope - left, t, before, natural);
      assert scope - left + {t} == scope - (left - {t});
      left := left - {t};
    }
    assert scope - left == scope;
    r := Some(natural);
  }

  lemma NothingCounted(s: Source, decisions: map<Id, TransactionDecision>)
    ensures Counts(s, decisions, {}, map[])
  {
  }

  ghost predicate Counted(s: Source, d: TransactionDecision, before: map<Key, int>, after: map<Key, int>) {
    && (forall k: Key :: k.0 in Cards(s) ==> At(after, k) == At(before, k) + Contribution(s, k, d))
    && (forall k: Key :: k in after ==> k in before || k.0 in Cards(s))
  }

  lemma CountedOne(s: Source, decisions: map<Id, TransactionDecision>, done: set<Id>, t: Id, before: map<Key, int>,
                   after: map<Key, int>)
    requires t in decisions && t !in done && Counts(s, decisions, done, before)
    requires Counted(s, decisions[t], before, after)
    ensures Counts(s, decisions, done + {t}, after)
  {
    hide Contribution;
    forall k: Key | k.0 in Cards(s) ensures At(after, k) == SumSet(ContributionOf(s, decisions, k), done + {t}) {
      SumSetAdd(ContributionOf(s, decisions, k), done, t);
    }
  }

  /** One transaction: its coverage, targets and balance, and the card legs it adds. */
  method CountDecision(s: Source, d: TransactionDecision, natural: map<Key, int>) returns (r: Option<map<Key, int>>)
    ensures r.Some? <==> ValidDecision(s, d)
    ensures r.Some? ==> Counted(s, d, natural, r.value)
  {
    hide Balanced, ValidTarget, ReviewLeg, SortRows, RowsOf;
    var decided := BuildIndex(DecidedPosting, d.postings);
    if decided == None { return None; }
    var rows := ReviewRows(s, d);
    if decided.value.Keys != (set p | p in rows :: p.id) { return None; }
    var legs := CheckTargets(s, decided.value, rows);
    if legs == None { return None; }
    var balanced := CheckBalance(legs.value);
    if !balanced { return None; }
    var m := natural;
    if d.action == NoAction { m := AddNatural(s, legs.value, natural); }
    r := Some(m);
  }

  method CheckTargets(s: Source, decided: map<Id, PostingDecision>, rows: seq<PostingRow>) returns (r: Option<seq<Leg>>)
    ensures r.Some? <==> forall i :: 0 <= i < |rows| ==> ValidTarget(s, decided, rows[i])
    ensures r.Some? ==> r.value == ReviewLegs(s, decided, rows)
  {
    hide Decimal.NormalizeLegacySigned;
    var legs: seq<Leg> := [];
    for i := 0 to |rows|
      invariant legs == ReviewLegs(s, decided, rows[..i])
      invariant forall j :: 0 <= j < i ==> ValidTarget(s, decided, rows[j])
    {
      var p := rows[i];
      if p.id !in decided || p.asset !in s.scales { return None; }
      var target := decided[p.id];
      if target.account !in s.accounts || s.accounts[target.account].currency != p.asset { return None; }
      var amount := Decimal.NormalizeLegacySigned(p.amount, s.scales[p.asset]);
      if amount.Err? { return None; }
      var position := if p.position < 0 then 0 else p.position;
      legs := legs + [Leg(position, target.account, p.asset, target.side, amount.value.units)];
      assert rows[..i + 1] == rows[..i] + [rows[i]];
    }
    assert rows[..|rows|] == rows;
    r := Some(legs);
  }

  method AddNatural(s: Source, legs: seq<Leg>, natural: map<Key, int>) returns (m: map<Key, int>)
    ensures forall k: Key :: k.0 in Cards(s) ==> At(m, k) == At(natural, k) + Sum(NaturalOn(k), legs)
    ensures forall k: Key :: k in m ==> k in natural || k.0 in Cards(s)
  {
    m := natural;
    for i := 0 to |legs|
      invariant forall k: Key :: k.0 in Cards(s) ==> At(m, k) == At(natural, k) + Sum(NaturalOn(k), legs[..i])
      invariant forall k: Key :: k in m ==> k in natural || k.0 in Cards(s)
    {
      var l := legs[i];
      forall k: Key ensures Sum(NaturalOn(k), legs[..i + 1]) == Sum(NaturalOn(k), legs[..i]) + NaturalOn(k)(l) {
        SumStep(NaturalOn(k), legs, i);
      }
      if l.account in Cards(s) {
        var k := (l.account, l.asset);
        m := m[k := At(m, k) + if l.side == Credit then l.units else -l.units];
      }
    }
    assert legs[..|legs|] == legs;
  }

  method CheckFigures(s: Source, review: Review, natural: map<Key, int>) returns (ok: bool)
    requires Counts(s, Decisions(review), Scope(s), natural)
    ensures ok <==> FiguresAgree(s, review)
  {
    FiguresAreCounted(s, review, natural);
    hide Counts, Scope, Decisions, ContributionOf, Figure, LegacyCard, Required, Cards, Index;
    var aliases := BuildIndex(SameId, review.aliases);
    if aliases == None { return false; }
    var settled := AliasesSettled(s, review, natural);
    if !settled { return false; }
    var expected := BuildIndex(ExpectedKey, review.expected);
    var required := CardKeys(s);
    if expected == None || expected.value.Keys != required { return false; }
    ok := ExpectedAgree(s, review, natural);
  }

  /** Each card account with its own currency: the balances a review must state. */
  method CardKeys(s: Source) returns (required: set<Key>)
    ensures required == Required(s)
  {
    required := {};
    var left := Cards(s);
    while left != {}
      invariant left <= Cards(s) && required == set a | a in Cards(s) - left :: (a, s.accounts[a].currency)
    {
      var a :| a in left;
      required := required + {(a, s.accounts[a].currency)};
      left := left - {a};
    }
  }

  /** Every retired alias is a historical card account whose figure is zero in every asset. */
  method AliasesSettled(s: Source, review: Review, natural: map<Key, int>) returns (ok: bool)
    requires forall k: Key :: k.0 in Cards(s) ==> Figure(s, review, k) == At(natural, k)
    ensures ok <==> (forall i :: 0 <= i < |review.aliases| ==> LegacyCard(s, review.aliases[i]))
                    && (forall i, asset :: 0 <= i < |review.aliases| ==>
                         Figure(s, review, (review.aliases[i], asset)) == 0)
  {
    hide Figure;
    for i := 0 to |review.aliases|
      invariant forall j :: 0 <= j < i ==> LegacyCard(s, review.aliases[j])
      invariant forall j, asset :: 0 <= j < i ==> Figure(s, review, (review.aliases[j], asset)) == 0
    {
      var alias := review.aliases[i];
      if alias !in Cards(s) || s.accounts[alias].subtype != Some("legacy_credit_card") { return false; }
      var open := OpenUnits(natural, review.aliases[i]);
      assert open.Some? ==> Figure(s, review, open.value) != 0;
      if open.Some? { return false; }
    }
    ok := true;
  }

  lemma FiguresAreCounted(s: Source, review: Review, natural: map<Key, int>)
    requires Counts(s, Decisions(review), Scope(s), natural)
    ensures forall k: Key :: k.0 in Cards(s) ==> Figure(s, review, k) == At(natural, k)
  {
  }

  /** An entry of this account that is not zero, if there is one. */
  method OpenUnits(natural: map<Key, int>, a: Id) returns (r: Option<Key>)
    ensures r.Some? ==> r.value.0 == a && At(natural, r.value) != 0
    ensures r == None ==> forall asset :: At(natural, (a, asset)) == 0
  {
    var left := natural.Keys;
    while left != {}
      invariant left <= natural.Keys
      invariant forall k :: k in natural && k !in left && k.0 == a ==> natural[k] == 0
    {
      var k :| k in left;
      if k.0 == a && natural[k] != 0 { return Some(k); }
      left := left - {k};
    }
    r := None;
  }

  method ExpectedAgree(s: Source, review: Review, natural: map<Key, int>) returns (ok: bool)
    requires forall k: Key :: k.0 in Cards(s) ==> Figure(s, review, k) == At(natural, k)
    requires Index(ExpectedKey, review.expected).Keys == Required(s)
    ensures ok <==> forall i :: 0 <= i < |review.expected| ==>
              review.expected[i].units == Figure(s, review, ExpectedKey(review.expected[i]))
  {
    hide Figure;
    for i := 0 to |review.expected|
      invariant forall j :: 0 <= j < i ==>
                  review.expected[j].units == Figure(s, review, ExpectedKey(review.expected[j]))
    {
      var e := review.expected[i];
      assert ExpectedKey(e) in Index(ExpectedKey, review.expected).Keys;
      if e.units != At(natural, ExpectedKey(e)) { return false; }
    }
    ok := true;
  }
}
