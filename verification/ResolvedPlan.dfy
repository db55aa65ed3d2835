/** Planning on links resolved from the source rows themselves (planner.py). */
module ResolvedPlan {
  import opened Ids
  import opened Outcomes
  import opened Journal
  import opened Rows
  import opened Waves
  import opened Frozen
  import opened CardReview
  import opened Compiler
  import opened Planner
  import opened ReversalLinks

  /** On resolved links no chain is without an original. */
  lemma ResolvedSourceIsGrounded(number: Reader, rows: seq<TransactionRow>, s: Source)
    requires s.transactions == Index(RowId, rows).Keys && ResolvesTo(number, rows, s.postings, s.links)
    ensures AllGrounded(s) && s.links.Keys <= s.transactions
  {
    hide ResolvesTo, Grounded, Index;
    forall t | t in s.links ensures Grounded(LinkGraph(s), Originals(s), t) && t in s.transactions {
      ResolvedIsGrounded(number, rows, s.postings, s.links, t);
    }
  }

  /** Links are resolved first; then the reversal worklist can never be stuck. */
  method CompileResolved(digest: Digest, number: Reader, rows: seq<TransactionRow>, s: Source, review: Review)
    returns (r: Result<Plan, Failure>, ghost links: map<Id, Id>, ghost pending: seq<Pending>)
    requires Injective(s.rank) && s.transactions == Index(RowId, rows).Keys
    ensures r == Err(LinksUnresolved) <==> Unresolvable(number, rows, s.postings)
    ensures r != Err(LinksUnresolved) ==> ResolvesTo(number, rows, s.postings, links)
    ensures r.Ok? ==> IsPlan(digest, s.(links := links), review, pending, r.value)
    ensures r.Ok? <==> !Unresolvable(number, rows, s.postings) && Plannable(s.(links := links), review)
    ensures r != Err(ReversalsStuck) && r != Err(CardBalanceInvalid) && r != Err(AliasNotZero)
  {
    hide Plannable, IsPlan, ResolvesTo, AllGrounded, Injective, Index;
    links, pending := map[], [];
    var resolved := Resolve(number, rows, s.postings);
    if resolved.Err? {
      r := Err(LinksUnresolved);
      return;
    }
    links := resolved.value;
    ResolvedSourceIsGrounded(number, rows, s.(links := links));
    r, pending := CompilePlan(digest, s.(links := resolved.value), review);
  }
}
