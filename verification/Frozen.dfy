/** Frozen source rows, reviewed card decisions, and the posting facts read from them (planner.py, inventory.py). */
module Frozen {
  import opened Ids
  import opened Outcomes
  import opened Sums
  import opened Journal
  import opened Rows
  import Decimal

  datatype Account = Account(id: Id, currency: AssetCode, kind: AccountType, subtype: Option<string>)

  /** How the amount column is to be read; `DebitCredit` carries the side column. */
  datatype Semantics = LegacySigned | DebitCredit(side: string) | Unsupported

  datatype PostingRow = PostingRow(id: Id, transaction: Id, account: Id, asset: AssetCode, amount: string,
                                   semantics: Semantics, position: int)

  datatype PostingDecision = PostingDecision(posting: Id, account: Id, side: Side)

  datatype Action = NoAction | ExactReversal

  datatype TransactionDecision = TransactionDecision(transaction: Id, postings: seq<PostingDecision>, action: Action)

  datatype ExpectedBalance = ExpectedBalance(account: Id, asset: AssetCode, units: int)

  datatype AssetRow = AssetRow(scale: int, display: int)

  /** Ledger scales of the assets whose rows are acceptable. */
  function Scales(assets: map<AssetCode, AssetRow>): (r: map<AssetCode, int>)
    ensures forall code :: code in r <==> code in assets && ScaleAccepted(code, assets[code])
    ensures forall code :: code in r ==>
              r[code] == if code == "USDT" && assets[code].scale < 8 then 8 else assets[code].scale
  {
    map code | code in assets && ScaleAccepted(code, assets[code]) ::
      Decimal.ForSource(code, assets[code].scale, assets[code].display).value.ledger
  }

  predicate ScaleAccepted(code: AssetCode, row: AssetRow) { Decimal.ForSource(code, row.scale, row.display).Ok? }

  predicate ScalesAccepted(s: Source) { forall code :: code in s.assets ==> ScaleAccepted(code, s.assets[code]) }

  /**
   * One Book. `rank` orders transactions by occurrence time, then identity; `links` maps a reversal to
   * its target; `command` is the one command every imported event carries.
   */
  datatype Source = Source(accounts: map<Id, Account>, assets: map<AssetCode, AssetRow>, transactions: set<Id>,
                           postings: seq<PostingRow>, links: map<Id, Id>, reporting: set<Id>, rank: Id -> int,
                           command: Id)
  {
    const scales: map<AssetCode, int> := Scales(assets)
  }

  datatype Review = Review(transactions: seq<TransactionDecision>, aliases: seq<Id>, expected: seq<ExpectedBalance>)

  function PostingId(p: PostingRow): Id { p.id }

  /** Accounts that owe: liabilities of the current or the historical card subtype. */
  function Cards(s: Source): (r: set<Id>)
    ensures forall id :: id in r <==>
              id in s.accounts && s.accounts[id].kind == Liability
              && s.accounts[id].subtype in {Some("credit_card"), Some("legacy_credit_card")}
  {
    set id | id in s.accounts && IsCard(s.accounts[id])
  }

  predicate IsCard(a: Account) {
    a.kind == Liability && (a.subtype == Some("credit_card") || a.subtype == Some("legacy_credit_card"))
  }

  // ---------------------------------------------------------------- rows of a transaction, in order

  function RowsOf(t: Id, rows: seq<PostingRow>): (r: seq<PostingRow>)
    ensures forall i :: 0 <= i < |r| ==> r[i] in rows && r[i].transaction == t
    ensures forall i :: 0 <= i < |rows| && rows[i].transaction == t ==> rows[i] in r
  {
    if rows == [] then [] else
      var n := |rows| - 1;
      RowsOf(t, rows[..n]) + if rows[n].transaction == t then [rows[n]] else []
  }

  /** A row is kept as often as it occurs, and only in its own transaction. */
  lemma {:induction false} RowsOfKeepsRows(t: Id, rows: seq<PostingRow>, p: PostingRow)
    ensures multiset(RowsOf(t, rows))[p] == if p.transaction == t then multiset(rows)[p] else 0
  {
    if rows != [] {
      var n := |rows| - 1;
      RowsOfKeepsRows(t, rows[..n], p);
      assert rows == rows[..n] + [rows[n]];
    }
  }

  predicate Before(p: PostingRow, q: PostingRow) {
    p.position < q.position || (p.position == q.position && p.id <= q.id)
  }

  function InsertRow(p: PostingRow, rows: seq<PostingRow>): (r: seq<PostingRow>)
    ensures |r| == |rows| + 1 && multiset(r) == multiset{p} + multiset(rows)
    ensures forall q :: q in r <==> q == p || q in rows
  {
    assert rows != [] ==> rows == [rows[0]] + rows[1..];
    if rows == [] || Before(p, rows[0]) then [p] + rows else [rows[0]] + InsertRow(p, rows[1..])
  }

  /** By position, then identity. */
  function SortRows(rows: seq<PostingRow>): (r: seq<PostingRow>)
    ensures |r| == |rows| && multiset(r) == multiset(rows) && forall q :: q in r <==> q in rows
  {
    if rows == [] then [] else
      assert rows == rows[..|rows| - 1] + [rows[|rows| - 1]];
      InsertRow(rows[|rows| - 1], SortRows(rows[..|rows| - 1]))
  }

  lemma {:induction false} InsertKeepsSum(f: PostingRow -> int, p: PostingRow, rows: seq<PostingRow>)
    ensures Sum(f, InsertRow(p, rows)) == f(p) + Sum(f, rows)
  {
    if rows == [] || Before(p, rows[0]) {
      SumConcat(f, [p], rows);
      SumAppend(f, [], p);
    } else {
      InsertKeepsSum(f, p, rows[1..]);
      SumConcat(f, [rows[0]], InsertRow(p, rows[1..]));
      SumConcat(f, [rows[0]], rows[1..]);
      assert [rows[0]] + rows[1..] == rows;
    }
  }

  /** A sum over postings does not depend on their order. */
  lemma {:induction false} SortKeepsSum(f: PostingRow -> int, rows: seq<PostingRow>)
    ensures Sum(f, SortRows(rows)) == Sum(f, rows)
  {
    if rows != [] {
      SortKeepsSum(f, rows[..|rows| - 1]);
      InsertKeepsSum(f, rows[|rows| - 1], SortRows(rows[..|rows| - 1]));
    }
  }

  lemma {:induction false} InsertSorts(p: PostingRow, rows: seq<PostingRow>)
    requires forall i, j :: 0 <= i < j < |rows| ==> Before(rows[i], rows[j])
    ensures forall i, j :: 0 <= i < j < |rows| + 1 ==> Before(InsertRow(p, rows)[i], InsertRow(p, rows)[j])
  {
    if rows != [] && !Before(p, rows[0]) {
      InsertSorts(p, rows[1..]);
      var r := InsertRow(p, rows[1..]);
      forall j | 0 <= j < |r| ensures Before(rows[0], r[j]) {
        assert r[j] == p || r[j] in rows[1..];
      }
    }
  }

  lemma {:induction false} SortSorts(rows: seq<PostingRow>)
    ensures forall i, j :: 0 <= i < j < |rows| ==> Before(SortRows(rows)[i], SortRows(rows)[j])
  {
    if rows != [] {
      SortSorts(rows[..|rows| - 1]);
      InsertSorts(rows[|rows| - 1], SortRows(rows[..|rows| - 1]));
    }
  }

  // ---------------------------------------------------------------- normalized amounts and legs

  function NormalizePosting(scales: map<AssetCode, int>, p: PostingRow): Result<Decimal.Amount, Decimal.Rejection> {
    if p.asset !in scales then Err(Decimal.BadScale)
    else match p.semantics
      case LegacySigned => Decimal.NormalizeLegacySigned(p.amount, scales[p.asset])
      case DebitCredit(side) => Decimal.NormalizeExplicit(p.amount, side, scales[p.asset])
      case Unsupported => Err(Decimal.BadText)
  }

  /** Whether a row's amount can be read under the row's own semantics. */
  predicate RowReadable(scales: map<AssetCode, int>, p: PostingRow) {
    && p.asset in scales && Decimal.Readable(p.amount, scales[p.asset])
    && match p.semantics
       case LegacySigned => true
       case DebitCredit(side) => !Decimal.Minus(p.amount) && (side == "debit" || side == "credit")
       case Unsupported => false
  }

  /** The side a row is on: its sign, or the side column. */
  function OwnSide(p: PostingRow): Side {
    match p.semantics
    case DebitCredit(side) => if side == "debit" then Debit else Credit
    case _ => if Decimal.Minus(p.amount) then Credit else Debit
  }

  /** Acceptance, side and units of a row, read off the row itself. */
  lemma RowIsAsWritten(scales: map<AssetCode, int>, p: PostingRow)
    ensures Normalizes(scales, p) <==> RowReadable(scales, p)
    ensures Normalizes(scales, p) ==>
              var a := NormalizePosting(scales, p).value;
              && a.side == OwnSide(p) && a.units > 0
              && a.units as real == Decimal.SizeAt(p.amount, scales[p.asset])
  {
    hide Decimal.NormalizeLegacySigned, Decimal.NormalizeExplicit, Decimal.Readable, Decimal.SizeAt;
    if p.asset in scales {
      match p.semantics {
        case LegacySigned => Decimal.LegacyIsAsWritten(p.amount, scales[p.asset]);
        case DebitCredit(side) => Decimal.ExplicitIsAsWritten(p.amount, side, scales[p.asset]);
        case Unsupported =>
      }
    }
  }

  predicate Normalizes(scales: map<AssetCode, int>, p: PostingRow) { NormalizePosting(scales, p).Ok? }

  /** The leg a row records by itself. */
  function SourceLeg(scales: map<AssetCode, int>, p: PostingRow): Leg {
    match NormalizePosting(scales, p)
    case Ok(a) => Leg(if p.position < 0 then 0 else p.position, p.account, p.asset, a.side, a.units)
    case Err(_) => Leg(0, p.account, p.asset, Debit, 0)
  }

  /** The leg the planner posts: a decision moves the account and the side, never asset or units. */
  function PlannedLeg(scales: map<AssetCode, int>, decisions: map<Id, PostingDecision>, p: PostingRow): Leg {
    var leg := SourceLeg(scales, p);
    if p.id in decisions then leg.(account := decisions[p.id].account, side := decisions[p.id].side) else leg
  }

  function SourceLegs(scales: map<AssetCode, int>, rows: seq<PostingRow>): (r: seq<Leg>)
    ensures |r| == |rows| && forall i :: 0 <= i < |r| ==> r[i] == SourceLeg(scales, rows[i])
  {
    seq(|rows|, i requires 0 <= i < |rows| => SourceLeg(scales, rows[i]))
  }

  function PlannedLegs(scales: map<AssetCode, int>, decisions: map<Id, PostingDecision>,
                       rows: seq<PostingRow>): (r: seq<Leg>)
    ensures |r| == |rows| && forall i :: 0 <= i < |r| ==> r[i] == PlannedLeg(scales, decisions, rows[i])
  {
    seq(|rows|, i requires 0 <= i < |rows| => PlannedLeg(scales, decisions, rows[i]))
  }

  // ---------------------------------------------------------------- posting facts

  datatype FactId = SourcePosting(transaction: Id, posting: Id) | InversePosting(transaction: Id, position: nat)

  datatype Fact = Fact(id: FactId, leg: Leg)

  function Legs(facts: seq<Fact>): (r: seq<Leg>)
    ensures |r| == |facts| && forall i :: 0 <= i < |r| ==> r[i] == facts[i].leg
  {
    seq(|facts|, i requires 0 <= i < |facts| => facts[i].leg)
  }

  predicate Canonical(scales: map<AssetCode, int>, rows: seq<PostingRow>) {
    forall i :: 0 <= i < |rows| ==> rows[i].position == i && Normalizes(scales, rows[i])
  }

  function FactsOf(scales: map<AssetCode, int>, decisions: map<Id, PostingDecision>, t: Id,
                   postings: seq<PostingRow>): (r: Option<seq<Fact>>)
    ensures r.Some? <==> Canonical(scales, SortRows(RowsOf(t, postings)))
    ensures r.Some? ==> Legs(r.value) == PlannedLegs(scales, decisions, SortRows(RowsOf(t, postings)))
    ensures r.Some? ==> forall i :: 0 <= i < |r.value| ==>
              r.value[i].id == SourcePosting(t, SortRows(RowsOf(t, postings))[i].id) && r.value[i].leg.position == i
  {
    var rows := SortRows(RowsOf(t, postings));
    if !Canonical(scales, rows) then None
    else
      LegsAtPositions(scales, decisions, rows);
      Some(FactList(scales, decisions, t, rows))
  }

  function FactList(scales: map<AssetCode, int>, decisions: map<Id, PostingDecision>, t: Id,
                    rows: seq<PostingRow>): (r: seq<Fact>)
    ensures |r| == |rows|
    ensures forall i :: 0 <= i < |r| ==>
              r[i] == Fact(SourcePosting(t, rows[i].id), PlannedLeg(scales, decisions, rows[i]))
    ensures Legs(r) == PlannedLegs(scales, decisions, rows)
  {
    seq(|rows|, i requires 0 <= i < |rows| =>
      Fact(SourcePosting(t, rows[i].id), PlannedLeg(scales, decisions, rows[i])))
  }

  lemma LegsAtPositions(scales: map<AssetCode, int>, decisions: map<Id, PostingDecision>, rows: seq<PostingRow>)
    requires Canonical(scales, rows)
    ensures forall i :: 0 <= i < |rows| ==> PlannedLeg(scales, decisions, rows[i]).position == i
  {
    hide NormalizePosting;
  }

  function PositionOf(p: PostingRow): int { p.position }

  /** The positions are exactly 0 to n-1, in whatever order the rows come, and every amount normalizes. */
  predicate Numbered(scales: map<AssetCode, int>, rows: seq<PostingRow>) {
    && Unique(PositionOf, rows)
    && forall i :: 0 <= i < |rows| ==> 0 <= rows[i].position < |rows| && Normalizes(scales, rows[i])
  }

  lemma NumberedIgnoresOrder(scales: map<AssetCode, int>, rows: seq<PostingRow>, other: seq<PostingRow>)
    requires multiset(rows) == multiset(other) && |rows| == |other| && Numbered(scales, rows)
    ensures Numbered(scales, other)
  {
    hide Normalizes;
    UniqueIgnoresOrder(PositionOf, rows);
    UniqueIgnoresOrder(PositionOf, other);
    forall i | 0 <= i < |other| ensures 0 <= other[i].position < |other| && Normalizes(scales, other[i]) {
      assert other[i] in multiset(rows);
    }
  }

  /** Distinct positions in order, none below its place. */
  lemma {:induction false} NoneBelowPlace(rows: seq<PostingRow>, i: nat)
    requires i < |rows| && Unique(PositionOf, rows) && rows[0].position >= 0
    requires forall j, k :: 0 <= j < k < |rows| ==> Before(rows[j], rows[k])
    ensures rows[i].position >= i
  {
    if i > 0 {
      NoneBelowPlace(rows, i - 1);
      assert PositionOf(rows[i - 1]) != PositionOf(rows[i]);
    }
  }

  lemma {:induction false} NoneAbovePlace(rows: seq<PostingRow>, i: nat)
    requires i < |rows| && Unique(PositionOf, rows) && rows[|rows| - 1].position < |rows|
    requires forall j, k :: 0 <= j < k < |rows| ==> Before(rows[j], rows[k])
    ensures rows[i].position <= i
    decreases |rows| - i
  {
    if i < |rows| - 1 {
      NoneAbovePlace(rows, i + 1);
      assert PositionOf(rows[i]) != PositionOf(rows[i + 1]);
    }
  }

  /** What the sorted loop demands of rows, said of them unsorted. */
  lemma CanonicalIffNumbered(scales: map<AssetCode, int>, rows: seq<PostingRow>)
    ensures Canonical(scales, SortRows(rows)) <==> Numbered(scales, rows)
  {
    var sorted := SortRows(rows);
    SortSorts(rows);
    hide Normalizes, SortRows, Before;
    if Canonical(scales, sorted) {
      NumberedIgnoresOrder(scales, sorted, rows);
    }
    if Numbered(scales, rows) {
      NumberedIgnoresOrder(scales, rows, sorted);
      forall i | 0 <= i < |sorted| ensures sorted[i].position == i {
        NoneBelowPlace(sorted, i);
        NoneAbovePlace(sorted, i);
      }
    }
  }

  /** A fact stands at its row's own position. */
  lemma FactAtPosition(scales: map<AssetCode, int>, decisions: map<Id, PostingDecision>, t: Id,
                       postings: seq<PostingRow>, p: PostingRow)
    requires FactsOf(scales, decisions, t, postings).Some? && p in RowsOf(t, postings)
    ensures var facts := FactsOf(scales, decisions, t, postings).value;
            && |facts| == |RowsOf(t, postings)| && 0 <= p.position < |facts|
            && facts[p.position] == Fact(SourcePosting(t, p.id), PlannedLeg(scales, decisions, p))
  {
    hide NormalizePosting, RowsOf, PlannedLeg, SortRows;
    var rows := SortRows(RowsOf(t, postings));
    assert p in rows;
    var i :| 0 <= i < |rows| && rows[i] == p;
    var facts := FactsOf(scales, decisions, t, postings).value;
    assert facts[i].leg == Legs(facts)[i];
  }

  /** The fact of a row, read off the row and the decision on it, if there is one. */
  ghost predicate Records(scales: map<AssetCode, int>, decisions: map<Id, PostingDecision>, t: Id, p: PostingRow,
                          f: Fact) {
    && RowReadable(scales, p)
    && f.id == SourcePosting(t, p.id) && f.leg.position == p.position && f.leg.asset == p.asset
    && f.leg.units > 0 && f.leg.units as real == Decimal.SizeAt(p.amount, scales[p.asset])
    && if p.id in decisions then f.leg.account == decisions[p.id].account && f.leg.side == decisions[p.id].side
       else f.leg.account == p.account && f.leg.side == OwnSide(p)
  }

  lemma FactRecords(scales: map<AssetCode, int>, decisions: map<Id, PostingDecision>, t: Id, p: PostingRow)
    requires Normalizes(scales, p) && p.position >= 0
    ensures Records(scales, decisions, t, p, Fact(SourcePosting(t, p.id), PlannedLeg(scales, decisions, p)))
  {
    RowIsAsWritten(scales, p);
    hide NormalizePosting, RowReadable, OwnSide, Decimal.SizeAt;
    assert RowReadable(scales, p) ==> p.asset in scales by { ReadableHasAsset(scales, p); }
  }

  lemma ReadableHasAsset(scales: map<AssetCode, int>, p: PostingRow)
    requires RowReadable(scales, p)
    ensures p.asset in scales && Decimal.Parse(p.amount).Some?
  {
  }

  /** Each row of the transaction, in the place its position names, and nothing else. */
  ghost predicate RecordsAll(scales: map<AssetCode, int>, decisions: map<Id, PostingDecision>, t: Id,
                             postings: seq<PostingRow>, facts: seq<Fact>)
  {
    && |facts| == |RowsOf(t, postings)|
    && forall p :: p in RowsOf(t, postings) ==>
         0 <= p.position < |facts| && Records(scales, decisions, t, p, facts[p.position])
  }

  lemma RowRecorded(scales: map<AssetCode, int>, decisions: map<Id, PostingDecision>, t: Id, postings: seq<PostingRow>,
                    p: PostingRow)
    requires FactsOf(scales, decisions, t, postings).Some? && p in RowsOf(t, postings)
    ensures var facts := FactsOf(scales, decisions, t, postings).value;
            && |facts| == |RowsOf(t, postings)| && 0 <= p.position < |facts|
            && Records(scales, decisions, t, p, facts[p.position])
  {
    hide RowsOf, SortRows, PlannedLeg, Records, NormalizePosting;
    FactAtPosition(scales, decisions, t, postings, p);
    CanonicalIffNumbered(scales, RowsOf(t, postings));
    var i :| 0 <= i < |RowsOf(t, postings)| && RowsOf(t, postings)[i] == p;
    FactRecords(scales, decisions, t, p);
  }

  lemma NumberedIsLegible(scales: map<AssetCode, int>, rows: seq<PostingRow>)
    ensures Numbered(scales, rows) <==> Legible(scales, rows)
  {
    hide Normalizes, RowReadable;
    forall i | 0 <= i < |rows| ensures Normalizes(scales, rows[i]) <==> RowReadable(scales, rows[i]) {
      RowIsAsWritten(scales, rows[i]);
    }
  }

  lemma FactsRecord(scales: map<AssetCode, int>, decisions: map<Id, PostingDecision>, t: Id, postings: seq<PostingRow>)
    ensures FactsOf(scales, decisions, t, postings).Some? <==> Legible(scales, RowsOf(t, postings))
    ensures FactsOf(scales, decisions, t, postings).Some? ==>
              RecordsAll(scales, decisions, t, postings, FactsOf(scales, decisions, t, postings).value)
  {
    hide RowsOf, SortRows, Records, Canonical, Numbered, Legible;
    CanonicalIffNumbered(scales, RowsOf(t, postings));
    NumberedIsLegible(scales, RowsOf(t, postings));
    if r :| r == FactsOf(scales, decisions, t, postings) && r.Some? {
      forall p | p in RowsOf(t, postings)
        ensures 0 <= p.position < |r.value| && Records(scales, decisions, t, p, r.value[p.position])
      {
        RowRecorded(scales, decisions, t, postings, p);
      }
      hide FactsOf;
      assert |r.value| == |RowsOf(t, postings)|;
    }
  }

  /** The positions are exactly 0 to n-1, in whatever order the rows come, and every amount can be read. */
  predicate Legible(scales: map<AssetCode, int>, rows: seq<PostingRow>) {
    && Unique(PositionOf, rows)
    && forall i :: 0 <= i < |rows| ==> 0 <= rows[i].position < |rows| && RowReadable(scales, rows[i])
  }

  /** The loop that builds a journal payload: positions must be 0, 1, 2 and so on after sorting. */
  method JournalPostingFacts(scales: map<AssetCode, int>, decisions: map<Id, PostingDecision>, t: Id,
                             postings: seq<PostingRow>)
    returns (r: Option<seq<Fact>>)
    ensures r == FactsOf(scales, decisions, t, postings)
    ensures r.Some? <==> Legible(scales, RowsOf(t, postings))
    ensures r.Some? ==> RecordsAll(scales, decisions, t, postings, r.value)
  {
    FactsRecord(scales, decisions, t, postings);
    hide NormalizePosting, RowsOf, SortRows, Legible, RecordsAll;
    var rows := SortRows(RowsOf(t, postings));
    var facts: seq<Fact> := [];
    for i := 0 to |rows|
      invariant |facts| == i && Canonical(scales, rows[..i])
      invariant forall j :: 0 <= j < i ==>
                  facts[j] == Fact(SourcePosting(t, rows[j].id), PlannedLeg(scales, decisions, rows[j]))
    {
      var p := rows[i];
      if p.position != i { return None; }
      var amount := NormalizePosting(scales, p);
      if amount.Err? {
        assert !Normalizes(scales, rows[i]);
        return None;
      }
      var account, side := p.account, amount.value.side;
      if p.id in decisions { account, side := decisions[p.id].account, decisions[p.id].side; }
      var leg := Leg(i, account, p.asset, side, amount.value.units);
      assert leg == PlannedLeg(scales, decisions, p);
      hide SourceLeg, PlannedLeg;
      facts := facts + [Fact(SourcePosting(t, p.id), leg)];
      assert rows[..i + 1] == rows[..i] + [p];
    }
    assert rows[..|rows|] == rows;
    assert facts == FactsOf(scales, decisions, t, postings).value by {
      assert forall i :: 0 <= i < |rows| ==> facts[i].leg == Legs(FactsOf(scales, decisions, t, postings).value)[i];
    }
    r := Some(facts);
  }

  /** The postings of a reversing event: same positions, accounts, assets and units on the other side. */
  function InverseFacts(t: Id, facts: seq<Fact>): (r: seq<Fact>)
    ensures Legs(r) == Inverse(Legs(facts))
    ensures forall i :: 0 <= i < |r| ==> r[i].id == InversePosting(t, r[i].leg.position)
  {
    seq(|facts|, i requires 0 <= i < |facts| =>
      Fact(InversePosting(t, facts[i].leg.position), facts[i].leg.(side := Opposite(facts[i].leg.side))))
  }

  // ---------------------------------------------------------------- balance per asset

  function SideUnits(asset: AssetCode, side: Side): Leg -> int {
    (l: Leg) => if l.asset == asset && l.side == side then l.units else 0
  }

  lemma {:induction false} NetIsDebitsLessCredits(legs: seq<Leg>, asset: AssetCode)
    ensures Net(legs, asset) == Sum(SideUnits(asset, Debit), legs) - Sum(SideUnits(asset, Credit), legs)
  {
    if legs != [] { NetIsDebitsLessCredits(legs[..|legs| - 1], asset); }
  }

  lemma UnusedAssetIsZero(legs: seq<Leg>, asset: AssetCode)
    requires forall i :: 0 <= i < |legs| ==> legs[i].asset != asset
    ensures Net(legs, asset) == 0
  {
    SumOfZeros(InAsset(asset), legs);
  }

  /** Counters per asset and side, compared for every asset that occurs. */
  method CheckBalance(legs: seq<Leg>) returns (ok: bool)
    ensures ok <==> Balanced(legs)
  {
    var counter: map<(AssetCode, Side), int> := map[];
    var assets: set<AssetCode> := {};
    for i := 0 to |legs|
      invariant forall k: (AssetCode, Side) :: At(counter, k) == Sum(SideUnits(k.0, k.1), legs[..i])
      invariant forall j :: 0 <= j < i ==> legs[j].asset in assets
    {
      forall k: (AssetCode, Side)
        ensures Sum(SideUnits(k.0, k.1), legs[..i + 1]) ==
                  Sum(SideUnits(k.0, k.1), legs[..i]) + SideUnits(k.0, k.1)(legs[i])
      {
        SumStep(SideUnits(k.0, k.1), legs, i);
      }
      var k := (legs[i].asset, legs[i].side);
      counter := counter[k := At(counter, k) + legs[i].units];
      assets := assets + {legs[i].asset};
    }
    assert legs[..|legs|] == legs;
    ok := AssetsAgree(legs, counter, assets);
  }

  method AssetsAgree(legs: seq<Leg>, counter: map<(AssetCode, Side), int>, assets: set<AssetCode>) returns (ok: bool)
    requires forall k: (AssetCode, Side) :: At(counter, k) == Sum(SideUnits(k.0, k.1), legs)
    requires forall j :: 0 <= j < |legs| ==> legs[j].asset in assets
    ensures ok <==> Balanced(legs)
  {
    var left := assets;
    while left != {}
      invariant left <= assets
      invariant forall a :: a in assets && a !in left ==> Net(legs, a) == 0
    {
      var a :| a in left;
      NetIsDebitsLessCredits(legs, a);
      assert At(counter, (a, Debit)) == Sum(SideUnits(a, Debit), legs);
      assert At(counter, (a, Credit)) == Sum(SideUnits(a, Credit), legs);
      if At(counter, (a, Debit)) != At(counter, (a, Credit)) { return false; }
      left := left - {a};
    }
    forall a ensures Net(legs, a) == 0 {
      if a !in assets { UnusedAssetIsZero(legs, a); }
    }
    ok := true;
  }
}
