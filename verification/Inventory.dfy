/** Posting checks of the source inventory (inventory.py). */
module Inventory {
  import opened Ids
  import opened Outcomes
  import opened Journal
  import opened Rows
  import opened Frozen

  datatype Code = DuplicateIdentity | OrphanTransaction | OrphanAccount | UnknownAsset | AssetMismatch
                | InvalidSemantics | InvalidAmount | InvalidPosition | DuplicatePosition | InsufficientPostings
                | UnbalancedTransaction

  datatype Issue = Issue(code: Code, reference: Id) | InvalidScale(asset: AssetCode)

  ghost predicate CleanPosting(s: Source, p: PostingRow) {
    && p.transaction in s.transactions && p.account in s.accounts && p.asset in s.assets
    && s.accounts[p.account].currency == p.asset && Normalizes(s.scales, p) && p.position >= 0
  }

  ghost predicate CleanTransaction(s: Source, t: Id) {
    var rows := RowsOf(t, s.postings);
    && |rows| >= 2 && (forall i :: 0 <= i < |rows| ==> Normalizes(s.scales, rows[i]))
         && Balanced(SourceLegs(s.scales, rows))
  }

  ghost predicate SamePlace(p: PostingRow, q: PostingRow) { p.transaction == q.transaction && p.position == q.position }

  ghost predicate CleanPrefix(s: Source, n: nat)
    requires n <= |s.postings|
  {
    && (forall i :: 0 <= i < n ==> CleanPosting(s, s.postings[i]))
    && (forall i, j :: 0 <= i < j < n ==> !SamePlace(s.postings[i], s.postings[j]))
  }

  /** What an inventory without issues says of the postings. */
  ghost predicate Clean(s: Source) {
    && ScalesAccepted(s) && Unique(PostingId, s.postings)
    && CleanPrefix(s, |s.postings|)
    && forall t :: t in s.transactions ==> CleanTransaction(s, t)
  }

  // ---------------------------------------------------------------- what each issue means

  ghost predicate RowDefect(s: Source, p: PostingRow, c: Code) {
    match c
    case OrphanTransaction => p.transaction !in s.transactions
    case OrphanAccount => p.account !in s.accounts
    case UnknownAsset => p.asset !in s.assets
    case AssetMismatch => p.account in s.accounts && s.accounts[p.account].currency != p.asset
    case InvalidSemantics => p.semantics.Unsupported?
    case InvalidAmount => !p.semantics.Unsupported? && !RowReadable(s.scales, p)
    case InvalidPosition => p.position < 0
    case _ => false
  }

  /** The posting at place `i` repeats the identity, or the place in its transaction, of one before it. */
  ghost predicate Repeats(s: Source, i: int, c: Code) {
    && 0 <= i < |s.postings|
    && match c
       case DuplicateIdentity => exists j :: 0 <= j < i && s.postings[j].id == s.postings[i].id
       case DuplicatePosition => exists j :: 0 <= j < i && SamePlace(s.postings[j], s.postings[i])
       case _ => false
  }

  ghost predicate TransactionDefect(s: Source, t: Id, c: Code) {
    var rows := RowsOf(t, s.postings);
    match c
    case InsufficientPostings => |rows| < 2
    case UnbalancedTransaction =>
      |rows| >= 2 && ((exists p :: p in rows && !RowReadable(s.scales, p)) || !Balanced(SourceLegs(s.scales, rows)))
    case _ => false
  }

  ghost predicate PostingDefect(s: Source, i: int, x: Issue) {
    && 0 <= i < |s.postings| && x.Issue? && x.reference == s.postings[i].id
    && (RowDefect(s, s.postings[i], x.code) || Repeats(s, i, x.code))
  }

  /** The issue names something wrong with the source. */
  ghost predicate Defect(s: Source, x: Issue) {
    match x
    case InvalidScale(asset) => asset in s.assets && !ScaleAccepted(asset, s.assets[asset])
    case Issue(code, reference) =>
      (exists i :: PostingDefect(s, i, x)) || (reference in s.transactions && TransactionDefect(s, reference, code))
  }

  /** A source with nothing wrong with it is a clean source. */
  lemma CleanIffNoDefect(s: Source)
    ensures Clean(s) <==> forall x :: !Defect(s, x)
  {
    hide CleanPrefix, CleanTransaction, TransactionDefect, PostingDefect, ScaleAccepted;
    PostingsAreClean(s);
    forall t ensures CleanTransaction(s, t) <==> forall c :: !TransactionDefect(s, t, c) { TransactionIsClean(s, t); }
    if forall x :: !Defect(s, x) {
      forall asset | asset in s.assets ensures ScaleAccepted(asset, s.assets[asset]) {
        assert !Defect(s, InvalidScale(asset));
      }
      forall i, x ensures !PostingDefect(s, i, x) {
        assert x.Issue? ==> !Defect(s, x);
        if x.InvalidScale? { ScalesNameNoPosting(s, i, x); }
      }
      forall t, c | t in s.transactions ensures !TransactionDefect(s, t, c) { assert !Defect(s, Issue(c, t)); }
    }
  }

  lemma ScalesNameNoPosting(s: Source, i: int, x: Issue)
    requires x.InvalidScale?
    ensures !PostingDefect(s, i, x)
  {
  }

  lemma TransactionIsClean(s: Source, t: Id)
    ensures CleanTransaction(s, t) <==> forall c :: !TransactionDefect(s, t, c)
  {
    hide RowReadable, Normalizes, Balanced, SourceLeg;
    var rows := RowsOf(t, s.postings);
    forall p ensures Normalizes(s.scales, p) <==> RowReadable(s.scales, p) { RowIsAsWritten(s.scales, p); }
    if forall c :: !TransactionDefect(s, t, c) {
      assert !TransactionDefect(s, t, InsufficientPostings) && !TransactionDefect(s, t, UnbalancedTransaction);
    }
  }

  lemma PostingsAreClean(s: Source)
    ensures Unique(PostingId, s.postings) && CleanPrefix(s, |s.postings|) <==> forall i, x :: !PostingDefect(s, i, x)
  {
    hide CleanPosting, RowDefect;
    forall p ensures CleanPosting(s, p) <==> forall c :: !RowDefect(s, p, c) { RowIsClean(s, p); }
    if Unique(PostingId, s.postings) && CleanPrefix(s, |s.postings|) {
      forall i, x ensures !PostingDefect(s, i, x) {
        if 0 <= i < |s.postings| {
          assert CleanPosting(s, s.postings[i]);
          assert forall j :: 0 <= j < i ==> PostingId(s.postings[j]) != PostingId(s.postings[i]);
        }
      }
    }
    if forall i, x :: !PostingDefect(s, i, x) {
      forall i | 0 <= i < |s.postings| ensures CleanPosting(s, s.postings[i]) {
        forall c ensures !RowDefect(s, s.postings[i], c) { assert !PostingDefect(s, i, Issue(c, s.postings[i].id)); }
      }
      forall i, j | 0 <= i < j < |s.postings|
        ensures !SamePlace(s.postings[i], s.postings[j]) && s.postings[i].id != s.postings[j].id
      {
        assert !PostingDefect(s, j, Issue(DuplicateIdentity, s.postings[j].id));
        assert !PostingDefect(s, j, Issue(DuplicatePosition, s.postings[j].id));
      }
    }
  }

  lemma ReadableIsSupported(scales: map<AssetCode, int>, p: PostingRow)
    requires RowReadable(scales, p)
    ensures !p.semantics.Unsupported? && p.asset in scales
  {
  }

  lemma RowIsClean(s: Source, p: PostingRow)
    ensures CleanPosting(s, p) <==> forall c :: !RowDefect(s, p, c)
  {
    hide RowReadable, Normalizes;
    RowIsAsWritten(s.scales, p);
    if RowReadable(s.scales, p) { ReadableIsSupported(s.scales, p); }
    if forall c :: !RowDefect(s, p, c) {
      assert !RowDefect(s, p, OrphanTransaction) && !RowDefect(s, p, OrphanAccount) && !RowDefect(s, p, UnknownAsset);
      assert !RowDefect(s, p, AssetMismatch) && !RowDefect(s, p, InvalidSemantics);
      assert !RowDefect(s, p, InvalidAmount) && !RowDefect(s, p, InvalidPosition);
    }
  }

  // ---------------------------------------------------------------- the checks

  method InventoryRows(s: Source) returns (issues: seq<Issue>)
    ensures forall x :: x in issues <==> Defect(s, x)
    ensures issues == [] <==> Clean(s)
  {
    hide Clean, RowDefect, Repeats, TransactionDefect, ScaleAccepted;
    var scales := CheckScales(s);
    var identities := CheckIdentities(s);
    var rows := CheckPostings(s);
    var totals := CheckTransactions(s);
    issues := scales + identities + rows + totals;
    forall i, x ensures PostingDefect(s, i, x) <==> IdentityDefect(s, i, x) || PlaceDefect(s, i, x) {
      PostingDefects(s, i, x);
    }
    hide PostingDefect, IdentityDefect, PlaceDefect;
    CleanIffNoDefect(s);
    assert issues == [] <==> forall x :: x !in issues by { if issues != [] { assert issues[0] in issues; } }
  }

  ghost predicate IdentityDefect(s: Source, i: int, x: Issue) {
    Repeats(s, i, DuplicateIdentity) && x == Issue(DuplicateIdentity, s.postings[i].id)
  }

  /** What is wrong with a posting on its own, or with its place. */
  ghost predicate PlaceDefect(s: Source, i: int, x: Issue) {
    && 0 <= i < |s.postings| && x.Issue? && x.reference == s.postings[i].id
    && (RowDefect(s, s.postings[i], x.code) || (x.code == DuplicatePosition && Repeats(s, i, DuplicatePosition)))
  }

  lemma PostingDefects(s: Source, i: int, x: Issue)
    ensures PostingDefect(s, i, x) <==> IdentityDefect(s, i, x) || PlaceDefect(s, i, x)
  {
  }

  method CheckScales(s: Source) returns (issues: seq<Issue>)
    ensures forall x :: x in issues <==>
              x.InvalidScale? && x.asset in s.assets && !ScaleAccepted(x.asset, s.assets[x.asset])
  {
    hide ScaleAccepted;
    issues := [];
    var left := s.assets.Keys;
    while left != {}
      invariant left <= s.assets.Keys
      invariant forall x :: x in issues <==>
                  x.InvalidScale? && x.asset in s.assets - left && !ScaleAccepted(x.asset, s.assets[x.asset])
    {
      var code :| code in left;
      if !ScaleAccepted(code, s.assets[code]) { issues := issues + [InvalidScale(code)]; }
      left := left - {code};
    }
  }

  method CheckIdentities(s: Source) returns (issues: seq<Issue>)
    ensures forall x :: x in issues <==> exists i :: IdentityDefect(s, i, x)
  {
    issues := [];
    var seen: set<Id> := {};
    for n := 0 to |s.postings|
      invariant forall id :: id in seen <==> exists j :: 0 <= j < n && s.postings[j].id == id
      invariant forall x :: x in issues <==> exists i :: i < n && IdentityDefect(s, i, x)
    {
      var id := s.postings[n].id;
      assert id in seen <==> Repeats(s, n, DuplicateIdentity);
      if id in seen {
        assert IdentityDefect(s, n, Issue(DuplicateIdentity, id));
        issues := issues + [Issue(DuplicateIdentity, id)];
      }
      seen := seen + {id};
    }
  }

  method CheckPostings(s: Source) returns (issues: seq<Issue>)
    ensures forall x :: x in issues <==> exists i :: PlaceDefect(s, i, x)
  {
    hide RowDefect;
    issues := [];
    var places: set<(Id, int)> := {};
    for n := 0 to |s.postings|
      invariant forall t, k :: (t, k) in places <==>
                  exists j :: 0 <= j < n && s.postings[j].transaction == t && s.postings[j].position == k
      invariant forall x :: x in issues <==> exists i :: i < n && PlaceDefect(s, i, x)
    {
      var p := s.postings[n];
      var found := PostingIssues(s, p);
      var place := (p.transaction, p.position);
      assert place in places <==> exists j :: 0 <= j < n && SamePlace(s.postings[j], p);
      if place in places { found := found + [Issue(DuplicatePosition, p.id)]; }
      assert forall x :: x in found <==> PlaceDefect(s, n, x);
      issues := issues + found;
      places := places + {place};
    }
  }

  method PostingIssues(s: Source, p: PostingRow) returns (issues: seq<Issue>)
    ensures forall x :: x in issues <==> x.Issue? && x.reference == p.id && RowDefect(s, p, x.code)
  {
    hide RowReadable;
    var named := NameIssues(s, p);
    var written := AmountIssues(s, p);
    issues := named + written;
  }

  method NameIssues(s: Source, p: PostingRow) returns (issues: seq<Issue>)
    ensures forall x :: x in issues <==>
              x.Issue? && x.reference == p.id && RowDefect(s, p, x.code)
              && x.code in {OrphanTransaction, OrphanAccount, UnknownAsset, AssetMismatch}
  {
    hide RowReadable;
    issues := [];
    if p.transaction !in s.transactions { issues := issues + [Issue(OrphanTransaction, p.id)]; }
    if p.account !in s.accounts { issues := issues + [Issue(OrphanAccount, p.id)]; }
    if p.asset !in s.assets { issues := issues + [Issue(UnknownAsset, p.id)]; }
    if p.account in s.accounts && s.accounts[p.account].currency != p.asset {
      issues := issues + [Issue(AssetMismatch, p.id)];
    }
  }

  method AmountIssues(s: Source, p: PostingRow) returns (issues: seq<Issue>)
    ensures forall x :: x in issues <==>
              x.Issue? && x.reference == p.id && RowDefect(s, p, x.code)
              && x.code in {InvalidSemantics, InvalidAmount, InvalidPosition}
  {
    RowIsAsWritten(s.scales, p);
    hide RowReadable, NormalizePosting;
    issues := [];
    if p.semantics.Unsupported? {
      issues := issues + [Issue(InvalidSemantics, p.id)];
    } else if NormalizePosting(s.scales, p).Err? {
      issues := issues + [Issue(InvalidAmount, p.id)];
    }
    if p.position < 0 { issues := issues + [Issue(InvalidPosition, p.id)]; }
  }

  method CheckTransactions(s: Source) returns (issues: seq<Issue>)
    ensures forall x :: x in issues <==>
              x.Issue? && x.reference in s.transactions && TransactionDefect(s, x.reference, x.code)
  {
    hide TransactionDefect;
    issues := [];
    var left := s.transactions;
    while left != {}
      invariant left <= s.transactions
      invariant forall x :: x in issues <==>
                  x.Issue? && x.reference in s.transactions - left && TransactionDefect(s, x.reference, x.code)
    {
      var t :| t in left;
      var found := TransactionIssues(s, t);
      issues := issues + found;
      left := left - {t};
    }
  }

  method TransactionIssues(s: Source, t: Id) returns (issues: seq<Issue>)
    ensures forall x :: x in issues <==> x.Issue? && x.reference == t && TransactionDefect(s, t, x.code)
  {
    hide SourceLegs, Balanced, RowReadable;
    var rows := RowsOf(t, s.postings);
    if |rows| < 2 { return [Issue(InsufficientPostings, t)]; }
    var legs := ReadLegs(s.scales, rows);
    var balanced := false;
    if legs.Some? { balanced := CheckBalance(legs.value); }
    issues := if balanced then [] else [Issue(UnbalancedTransaction, t)];
  }

  /** The legs of rows that can all be read. */
  method ReadLegs(scales: map<AssetCode, int>, rows: seq<PostingRow>) returns (r: Option<seq<Leg>>)
    ensures r.Some? <==> forall p :: p in rows ==> RowReadable(scales, p)
    ensures r.Some? ==> r.value == SourceLegs(scales, rows)
  {
    hide NormalizePosting, SourceLeg, RowReadable;
    var legs: seq<Leg> := [];
    for i := 0 to |rows|
      invariant forall j :: 0 <= j < i ==> RowReadable(scales, rows[j])
      invariant legs == SourceLegs(scales, rows[..i])
    {
      RowIsAsWritten(scales, rows[i]);
      assert rows[..i + 1] == rows[..i] + [rows[i]];
      if NormalizePosting(scales, rows[i]).Err? { return None; }
      legs := legs + [SourceLeg(scales, rows[i])];
    }
    assert rows[..|rows|] == rows;
    r := Some(legs);
  }
}
