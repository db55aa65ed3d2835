/** Which transaction reverses which, resolved from both ends of the source rows (reversal_links.py). */
module ReversalLinks {
  import opened Ids
  import opened Outcomes
  import opened Journal
  import opened Rows
  import opened Waves
  import opened Frozen

  /** A row may name the transaction it reverses, and the one that reversed it. */
  datatype TransactionRow = TransactionRow(id: Id, book: Id, reverses: Option<Id>, reversedBy: Option<Id>)

  datatype Refusal = Ambiguous | Multiple | Orphan | CrossBook | NotInverse | Cycle

  function RowId(row: TransactionRow): Id { row.id }

  // ---------------------------------------------------------------- raw posting facts

  datatype RawFact = RawFact(account: Id, asset: AssetCode, side: Side, amount: real)

  /** Reads an amount as a number; nothing when it is no finite number. */
  type Reader = string -> Option<real>

  function PostingFact(number: Reader, p: PostingRow): Option<RawFact> {
    match number(p.amount)
    case None => None
    case Some(x) =>
      if x == 0.0 then None
      else match p.semantics
        case LegacySigned =>
          Some(RawFact(p.account, p.asset, if x > 0.0 then Debit else Credit, if x > 0.0 then x else -x))
        case DebitCredit(side) =>
          if x <= 0.0 || (side != "debit" && side != "credit") then None
          else Some(RawFact(p.account, p.asset, if side == "debit" then Debit else Credit, x))
        case Unsupported => None
  }

  function RawFacts(number: Reader, rows: seq<PostingRow>): (r: Option<seq<RawFact>>)
    ensures r.Some? <==> forall i :: 0 <= i < |rows| ==> PostingFact(number, rows[i]).Some?
    ensures r.Some? ==> |r.value| == |rows| && forall i :: 0 <= i < |rows| ==>
              Some(r.value[i]) == PostingFact(number, rows[i])
  {
    if forall i :: 0 <= i < |rows| ==> PostingFact(number, rows[i]).Some?
    then Some(seq(|rows|, i requires 0 <= i < |rows| => PostingFact(number, rows[i]).value))
    else None
  }

  function OtherSide(f: RawFact): RawFact { f.(side := Opposite(f.side)) }

  function Inverted(facts: seq<RawFact>): seq<RawFact> {
    seq(|facts|, i requires 0 <= i < |facts| => OtherSide(facts[i]))
  }

  /** The same accounts, assets and amounts on the other sides, in whatever order. */
  predicate ExactInverses(number: Reader, original: seq<PostingRow>, reversal: seq<PostingRow>) {
    var o, r := RawFacts(number, original), RawFacts(number, reversal);
    original != [] && o.Some? && r.Some? && multiset(Inverted(o.value)) == multiset(r.value)
  }

  // ---------------------------------------------------------------- what exactly inverse postings are

  /** A row's amount with its sign: the number itself, or by the side column; no row without one counts. */
  predicate SignedAmount(number: Reader, p: PostingRow, x: real) {
    x != 0.0
    && match p.semantics
       case LegacySigned => number(p.amount) == Some(x)
       case DebitCredit(side) =>
         (side == "debit" && x > 0.0 && number(p.amount) == Some(x))
         || (side == "credit" && x < 0.0 && number(p.amount) == Some(-x))
       case Unsupported => false
  }

  /** Two rows on one account in one asset whose signed amounts cancel. */
  ghost predicate Cancel(number: Reader, p: PostingRow, q: PostingRow) {
    p.account == q.account && p.asset == q.asset
    && exists x :: SignedAmount(number, p, x) && SignedAmount(number, q, -x)
  }

  /** The rows of a transaction and of its reversal pair off one to one, each pair cancelling. */
  ghost predicate CancelOut(number: Reader, original: seq<PostingRow>, reversal: seq<PostingRow>, m: seq<nat>) {
    && original != [] && |original| == |reversal| && Pairing(m, |original|)
    && forall i :: 0 <= i < |original| ==> Cancel(number, original[i], reversal[m[i]])
  }

  ghost predicate Cancelling(number: Reader, original: seq<PostingRow>, reversal: seq<PostingRow>) {
    exists m :: CancelOut(number, original, reversal, m)
  }

  lemma FactIsSigned(number: Reader, p: PostingRow, x: real)
    ensures SignedAmount(number, p, x) <==>
              x != 0.0 && PostingFact(number, p) ==
                            Some(RawFact(p.account, p.asset, if x > 0.0 then Debit else Credit, if x > 0.0 then x
                                else -x))
  {
  }

  lemma CancelIsInverse(number: Reader, p: PostingRow, q: PostingRow)
    ensures Cancel(number, p, q) <==>
              PostingFact(number, p).Some? && PostingFact(number, q) == Some(OtherSide(PostingFact(number, p).value))
  {
    forall x ensures SignedAmount(number, p, x) <==>
                       x != 0.0 && PostingFact(number, p) ==
                                     Some(RawFact(p.account, p.asset, if x > 0.0 then Debit
                                         else Credit, if x > 0.0 then x else -x))
    {
      FactIsSigned(number, p, x);
    }
    if PostingFact(number, p).Some? && PostingFact(number, q) == Some(OtherSide(PostingFact(number, p).value)) {
      var f := PostingFact(number, p).value;
      var x := if f.side == Debit then f.amount else -f.amount;
      FactIsSigned(number, q, -x);
      assert SignedAmount(number, p, x) && SignedAmount(number, q, -x);
    }
    if Cancel(number, p, q) {
      var x :| SignedAmount(number, p, x) && SignedAmount(number, q, -x);
      FactIsSigned(number, q, -x);
    }
  }

  /** The sorted comparison of raw facts decides whether the rows cancel out. */
  lemma ExactInversesCancel(number: Reader, original: seq<PostingRow>, reversal: seq<PostingRow>)
    ensures ExactInverses(number, original, reversal) <==> Cancelling(number, original, reversal)
  {
    hide PostingFact, SignedAmount, Cancel;
    var o, r := RawFacts(number, original), RawFacts(number, reversal);
    forall p, q ensures Cancel(number, p, q) <==>
                          PostingFact(number, p).Some?
                              && PostingFact(number, q) == Some(OtherSide(PostingFact(number, p).value))
    {
      CancelIsInverse(number, p, q);
    }
    if ExactInverses(number, original, reversal) {
      var m := SameBagIsRearranged(Inverted(o.value), r.value);
      assert CancelOut(number, original, reversal, m);
    }
    if Cancelling(number, original, reversal) {
      var m :| CancelOut(number, original, reversal, m);
      PairedRead(number, original, reversal, m);
      assert Rearranged(Inverted(o.value), r.value, m);
      RearrangedIsSameBag(Inverted(o.value), r.value, m);
    }
  }

  /** Rows that cancel out can all be read. */
  lemma PairedRead(number: Reader, original: seq<PostingRow>, reversal: seq<PostingRow>, m: seq<nat>)
    requires CancelOut(number, original, reversal, m)
    ensures RawFacts(number, original).Some? && RawFacts(number, reversal).Some?
  {
    hide PostingFact, SignedAmount, Cancel;
    forall i | 0 <= i < |original|
      ensures PostingFact(number, original[i]).Some? && PostingFact(number, reversal[m[i]]).Some?
    {
      CancelIsInverse(number, original[i], reversal[m[i]]);
    }
    forall k | 0 <= k < |reversal| ensures PostingFact(number, reversal[k]).Some? {
      PairingReaches(m, |original|, k);
      var i :| 0 <= i < |original| && m[i] == k;
    }
  }

  // ---------------------------------------------------------------- the links the rows name

  ghost predicate ReversesRow(rows: seq<TransactionRow>, r: Id, o: Id) {
    exists i :: 0 <= i < |rows| && rows[i].id == r && rows[i].reverses == Some(o)
  }

  ghost predicate ReversedByRow(rows: seq<TransactionRow>, r: Id, o: Id) {
    exists i :: 0 <= i < |rows| && rows[i].id == o && rows[i].reversedBy == Some(r)
  }

  /** Either end says that `r` reverses `o`. */
  ghost predicate Names(rows: seq<TransactionRow>, r: Id, o: Id) {
    ReversesRow(rows, r, o) || ReversedByRow(rows, r, o)
  }

  predicate Maps(links: map<Id, Id>, r: Id, o: Id) { r in links && links[r] == o }

  ghost predicate Spells(rows: seq<TransactionRow>, links: map<Id, Id>) {
    forall r: Id, o: Id :: Maps(links, r, o) <==> Names(rows, r, o)
  }

  predicate OneToOne(links: map<Id, Id>) { forall r, q :: r in links && q in links && links[r] == links[q] ==> r == q }

  ghost predicate LinkSound(number: Reader, byId: map<Id, TransactionRow>, postings: seq<PostingRow>, r: Id, o: Id) {
    && r in byId && o in byId && byId[r].book == byId[o].book
    && Cancelling(number, RowsOf(o, postings), RowsOf(r, postings))
  }

  ghost predicate LinksSound(number: Reader, byId: map<Id, TransactionRow>, postings: seq<PostingRow>, links: map<Id,
                             Id>) {
    forall r :: r in links ==> LinkSound(number, byId, postings, r, links[r])
  }

  /**
   * The rows, with unique identities, name exactly these links; each transaction is reversed at most
   * once, by an exact inverse in its Book; and no chain of reversals comes round.
   */
  ghost predicate ResolvesTo(number: Reader, rows: seq<TransactionRow>, postings: seq<PostingRow>, links: map<Id, Id>) {
    && Unique(RowId, rows) && Spells(rows, links) && OneToOne(links)
    && LinksSound(number, Index(RowId, rows), postings, links) && !Cyclic(Edges(links))
  }

  ghost predicate Unresolvable(number: Reader, rows: seq<TransactionRow>, postings: seq<PostingRow>) {
    forall links :: !ResolvesTo(number, rows, postings, links)
  }

  /** Every chain of resolved reversals reaches a transaction that reverses nothing. */
  lemma ResolvedIsGrounded(number: Reader, rows: seq<TransactionRow>, postings: seq<PostingRow>, links: map<Id, Id>,
                           t: Id)
    requires ResolvesTo(number, rows, postings, links) && t in links
    ensures links.Keys <= Index(RowId, rows).Keys
    ensures Grounded(Edges(links), Index(RowId, rows).Keys - links.Keys, t)
  {
    var g, originals := Edges(links), Index(RowId, rows).Keys - links.Keys;
    hide Spells, Cyclic, Grounded, LinkSound, Index, Cancelling, RowsOf;
    forall r | r in links ensures r in Index(RowId, rows).Keys && links[r] in Index(RowId, rows).Keys {
      LinkEnds(number, Index(RowId, rows), postings, r, links[r]);
    }
    assert ClosedOver(g, originals);
    if !Grounded(g, originals, t) { UngroundedIsCyclic(g, originals, t); }
  }

  lemma LinkEnds(number: Reader, byId: map<Id, TransactionRow>, postings: seq<PostingRow>, r: Id, o: Id)
    requires LinkSound(number, byId, postings, r, o)
    ensures r in byId && o in byId
  {
  }

  // ---------------------------------------------------------------- the resolver's loops

  /** Links from the reversal's own row; identities are unique, so a row names at most one target. */
  method CollectExplicit(rows: seq<TransactionRow>) returns (explicit: map<Id, Id>)
    requires Unique(RowId, rows)
    ensures forall r: Id, o: Id :: Maps(explicit, r, o) <==> ReversesRow(rows, r, o)
  {
    explicit := map[];
    for i := 0 to |rows|
      invariant forall r: Id, o: Id :: Maps(explicit, r, o) <==> ReversesRow(rows[..i], r, o)
    {
      assert rows[..i + 1] == rows[..i] + [rows[i]];
      ReversesAppend(rows[..i], rows[i]);
      UniqueSoFar(rows, i);
      if rows[i].reverses.Some? { explicit := explicit[rows[i].id := rows[i].reverses.value]; }
    }
    assert rows[..|rows|] == rows;
  }

  lemma UniqueSoFar(rows: seq<TransactionRow>, i: nat)
    requires Unique(RowId, rows) && i < |rows|
    ensures forall o :: !ReversesRow(rows[..i], rows[i].id, o)
  {
    assert forall k :: 0 <= k < i ==> RowId(rows[k]) != RowId(rows[i]) && rows[..i][k] == rows[k];
  }

  lemma ReversesAppend(rows: seq<TransactionRow>, row: TransactionRow)
    ensures forall r: Id, o: Id :: ReversesRow(rows + [row], r, o) <==>
              ReversesRow(rows, r, o) || (row.id == r && row.reverses == Some(o))
    ensures forall r: Id, o: Id :: ReversedByRow(rows + [row], r, o) <==>
              ReversedByRow(rows, r, o) || (row.id == o && row.reversedBy == Some(r))
  {
    var all := rows + [row];
    assert all[|rows|] == row && forall i :: 0 <= i < |rows| ==> all[i] == rows[i];
    forall r: Id, o: Id | ReversesRow(rows, r, o) ensures ReversesRow(all, r, o) {
      var i :| 0 <= i < |rows| && rows[i].id == r && rows[i].reverses == Some(o);
      assert all[i].id == r;
    }
    forall r: Id, o: Id | ReversedByRow(rows, r, o) ensures ReversedByRow(all, r, o) {
      var i :| 0 <= i < |rows| && rows[i].id == o && rows[i].reversedBy == Some(r);
      assert all[i].id == o;
    }
  }

  /** Links from the original's row; two originals reversed by one transaction are ambiguous. */
  method CollectReversedBy(rows: seq<TransactionRow>) returns (r: Option<map<Id, Id>>)
    requires Unique(RowId, rows)
    ensures r.Some? ==> forall a: Id, o: Id :: Maps(r.value, a, o) <==> ReversedByRow(rows, a, o)
    ensures r == None ==> exists a, o, p :: ReversedByRow(rows, a, o) && ReversedByRow(rows, a, p) && o != p
  {
    var m: map<Id, Id> := map[];
    for i := 0 to |rows|
      invariant forall a: Id, o: Id :: Maps(m, a, o) <==> ReversedByRow(rows[..i], a, o)
    {
      assert rows[..i + 1] == rows[..i] + [rows[i]];
      ReversesAppend(rows[..i], rows[i]);
      if rows[i].reversedBy.Some? {
        var a := rows[i].reversedBy.value;
        if a in m {
          TwoOriginals(rows, i, a, m[a]);
          return None;
        }
        m := m[a := rows[i].id];
      }
    }
    assert rows[..|rows|] == rows;
    r := Some(m);
  }

  lemma TwoOriginals(rows: seq<TransactionRow>, i: nat, a: Id, o: Id)
    requires Unique(RowId, rows) && i < |rows| && rows[i].reversedBy == Some(a) && ReversedByRow(rows[..i], a, o)
    ensures ReversedByRow(rows, a, o) && ReversedByRow(rows, a, rows[i].id) && o != rows[i].id
  {
    var k :| 0 <= k < i && rows[..i][k].id == o && rows[..i][k].reversedBy == Some(a);
    assert rows[k].id == o && RowId(rows[k]) != RowId(rows[i]);
  }

  /** What each refusal says of the rows. */
  ghost predicate Because(number: Reader, rows: seq<TransactionRow>, postings: seq<PostingRow>, why: Refusal) {
    match why
    case Ambiguous =>
      !Unique(RowId, rows) || exists r: Id, o: Id, p: Id :: Names(rows, r, o) && Names(rows, r, p) && o != p
    case Multiple => exists r: Id, q: Id, o: Id :: Names(rows, r, o) && Names(rows, q, o) && r != q
    case Cycle => exists links :: Spells(rows, links) && Cyclic(Edges(links))
    case _ => exists r: Id, o: Id :: Names(rows, r, o) && Fault(number, Index(RowId, rows), postings, r, o, why)
  }

  /** What is wrong with one link. */
  ghost predicate Fault(number: Reader, byId: map<Id, TransactionRow>, postings: seq<PostingRow>, r: Id, o: Id,
                        why: Refusal)
  {
    match why
    case Orphan => r !in byId || o !in byId
    case CrossBook => r in byId && o in byId && byId[r].book != byId[o].book
    case NotInverse => !Cancelling(number, RowsOf(o, postings), RowsOf(r, postings))
    case _ => false
  }

  /** No target has two reversals. */
  method CheckOneToOne(links: map<Id, Id>) returns (ok: bool)
    ensures ok <==> OneToOne(links)
  {
    var targets: set<Id> := {};
    var left := links.Keys;
    while left != {}
      invariant left <= links.Keys
      invariant forall o :: o in targets <==> exists r :: r in links && r !in left && links[r] == o
      invariant forall r, q :: r in links && q in links && r !in left && q !in left && links[r] == links[q] ==> r == q
    {
      var r :| r in left;
      if links[r] in targets { return false; }
      targets := targets + {links[r]};
      left := left - {r};
    }
    ok := true;
  }

  /** Links named at the original's end are added where the reversal's own row names none, and may not contradict it. */
  method Merge(explicit: map<Id, Id>, reversedBy: map<Id, Id>) returns (r: Option<map<Id, Id>>)
    ensures r.Some? <==> forall a :: a in explicit && a in reversedBy ==> explicit[a] == reversedBy[a]
    ensures r.Some? ==> forall a: Id, o: Id :: Maps(r.value, a, o) <==> Maps(explicit, a, o) || Maps(reversedBy, a, o)
  {
    var links: map<Id, Id> := explicit;
    var left := reversedBy.Keys;
    while left != {}
      invariant left <= reversedBy.Keys
      invariant forall a :: a in explicit && a in reversedBy && a !in left ==> explicit[a] == reversedBy[a]
      invariant forall a: Id, o: Id :: Maps(links, a, o) <==>
                  Maps(explicit, a, o) || (a !in left && a !in explicit && Maps(reversedBy, a, o))
    {
      var a :| a in left;
      if a in explicit && explicit[a] != reversedBy[a] { return None; }
      if a !in explicit { links := links[a := reversedBy[a]]; }
      left := left - {a};
    }
    r := Some(links);
  }

  /** Each link's ends exist, are in one Book, do not contradict each other, and have exactly inverse postings. */
  method CheckLinks(number: Reader, byId: map<Id, TransactionRow>, postings: seq<PostingRow>, links: map<Id, Id>)
    returns (problem: Option<Refusal>)
    requires forall o, a :: o in byId && byId[o].reversedBy == Some(a) ==> a in links && links[a] == o
    requires OneToOne(links)
    ensures problem == None <==> LinksSound(number, byId, postings, links)
    ensures problem.Some? ==> problem.value in {Orphan, CrossBook, NotInverse}
    ensures problem.Some? ==> exists r :: r in links && Fault(number, byId, postings, r, links[r], problem.value)
  {
    hide ExactInverses, RowsOf, Cancelling;
    var left := links.Keys;
    while left != {}
      invariant left <= links.Keys
      invariant forall r :: r in links && r !in left ==> LinkSound(number, byId, postings, r, links[r])
    {
      var r :| r in left;
      var o := links[r];
      if r !in byId || o !in byId {
        assert !LinkSound(number, byId, postings, r, links[r]) && Fault(number, byId, postings, r, o, Orphan);
        return Some(Orphan);
      }
      if byId[r].book != byId[o].book {
        assert !LinkSound(number, byId, postings, r, links[r]) && Fault(number, byId, postings, r, o, CrossBook);
        return Some(CrossBook);
      }
      assert byId[o].reversedBy == None || byId[o].reversedBy == Some(r);
      ExactInversesCancel(number, RowsOf(o, postings), RowsOf(r, postings));
      if !ExactInverses(number, RowsOf(o, postings), RowsOf(r, postings)) {
        assert !LinkSound(number, byId, postings, r, links[r]) && Fault(number, byId, postings, r, o, NotInverse);
        return Some(NotInverse);
      }
      left := left - {r};
    }
    problem := None;
  }

  method Resolve(number: Reader, rows: seq<TransactionRow>, postings: seq<PostingRow>)
    returns (r: Result<map<Id, Id>, Refusal>)
    ensures r.Ok? ==> ResolvesTo(number, rows, postings, r.value)
    ensures r.Err? ==> Unresolvable(number, rows, postings) && Because(number, rows, postings, r.error)
  {
    hide LinksSound, Cyclic, OneToOne, Unique, Index, Fault;
    var byId := BuildIndex(RowId, rows);
    if byId == None { return Err(Ambiguous); }
    var explicit := CollectExplicit(rows);
    var once := CheckOneToOne(explicit);
    if !once {
      assert forall r :: r in explicit ==> Maps(explicit, r, explicit[r]);
      TwoReversals(rows, explicit);
      PartOfLinks(number, rows, postings, explicit);
      return Err(Multiple);
    }
    var reversedBy := CollectReversedBy(rows);
    if reversedBy == None {
      ghost var a: Id, o: Id, p: Id :| ReversedByRow(rows, a, o) && ReversedByRow(rows, a, p) && o != p;
      TwoTargets(number, rows, postings, a, o, p);
      return Err(Ambiguous);
    }
    var links := Merge(explicit, reversedBy.value);
    if links == None {
      ghost var a :| a in explicit && a in reversedBy.value && explicit[a] != reversedBy.value[a];
      assert Maps(explicit, a, explicit[a]) && Maps(reversedBy.value, a, reversedBy.value[a]);
      TwoTargets(number, rows, postings, a, explicit[a], reversedBy.value[a]);
      return Err(Ambiguous);
    }
    assert Spells(rows, links.value);
    OnlyLinks(number, rows, postings, links.value);
    once := CheckOneToOne(links.value);
    if !once {
      assert forall r :: r in links.value ==> Maps(links.value, r, links.value[r]);
      TwoReversals(rows, links.value);
      return Err(Multiple);
    }
    EndsAgree(rows, links.value);
    var problem := CheckLinks(number, byId.value, postings, links.value);
    if problem.Some? {
      ghost var a :| a in links.value && Fault(number, byId.value, postings, a, links.value[a], problem.value);
      assert Maps(links.value, a, links.value[a]) && Names(rows, a, links.value[a]);
      return Err(problem.value);
    }
    var cycle := CycleExists(links.value);
    if cycle { return Err(Cycle); }
    r := Ok(links.value);
  }

  /** Rows that name their links twice over resolve to nothing. */
  lemma TwoTargets(number: Reader, rows: seq<TransactionRow>, postings: seq<PostingRow>, a: Id, o: Id, p: Id)
    requires Names(rows, a, o) && Names(rows, a, p) && o != p
    ensures Unresolvable(number, rows, postings) && Because(number, rows, postings, Ambiguous)
  {
    forall links ensures !ResolvesTo(number, rows, postings, links) {
      assert Spells(rows, links) ==> Maps(links, a, o) && Maps(links, a, p);
    }
  }

  lemma TwoReversals(rows: seq<TransactionRow>, some: map<Id, Id>)
    requires !OneToOne(some) && forall r :: r in some ==> Names(rows, r, some[r])
    ensures exists r: Id, q: Id, o: Id :: Names(rows, r, o) && Names(rows, q, o) && r != q
  {
    var r: Id, q: Id :| r in some && q in some && some[r] == some[q] && r != q;
    assert Names(rows, r, some[r]) && Names(rows, q, some[r]);
  }

  lemma PartOfLinks(number: Reader, rows: seq<TransactionRow>, postings: seq<PostingRow>, some: map<Id, Id>)
    requires !OneToOne(some) && forall r :: r in some ==> Names(rows, r, some[r])
    ensures Unresolvable(number, rows, postings)
  {
    var r: Id, q: Id :| r in some && q in some && some[r] == some[q] && r != q;
    forall links ensures !ResolvesTo(number, rows, postings, links) {
      assert Spells(rows, links) ==> Maps(links, r, some[r]) && Maps(links, q, some[q]);
    }
  }

  /** The rows name one set of links. */
  lemma OnlyLinks(number: Reader, rows: seq<TransactionRow>, postings: seq<PostingRow>, links: map<Id, Id>)
    requires Spells(rows, links)
    ensures forall other :: ResolvesTo(number, rows, postings, other) ==> other == links
  {
    hide LinksSound, Cyclic, OneToOne, Unique, Index;
    forall other | ResolvesTo(number, rows, postings, other) ensures other == links {
      SameLinks(rows, links, other);
      SameLinks(rows, other, links);
      assert other.Keys == links.Keys;
    }
  }

  lemma SameLinks(rows: seq<TransactionRow>, links: map<Id, Id>, other: map<Id, Id>)
    requires Spells(rows, links) && Spells(rows, other)
    ensures forall r :: r in links ==> r in other && other[r] == links[r]
  {
    forall r | r in links ensures r in other && other[r] == links[r] {
      assert Maps(links, r, links[r]) && Maps(other, r, links[r]);
    }
  }

  /** An original's own row cannot name another reversal than the link to it. */
  lemma EndsAgree(rows: seq<TransactionRow>, links: map<Id, Id>)
    requires Spells(rows, links)
    ensures var byId := Index(RowId, rows);
            forall o, a :: o in byId && byId[o].reversedBy == Some(a) ==> a in links && links[a] == o
  {
    var byId := Index(RowId, rows);
    forall o, a | o in byId && byId[o].reversedBy == Some(a) ensures a in links && links[a] == o {
      assert ReversedByRow(rows, a, o);
      assert Names(rows, a, o) && Maps(links, a, o);
    }
  }
}
