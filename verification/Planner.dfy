/**
 * The plan compiler: originals, the reversal worklist, corrections, reporting and the final balance checks
 * (planner.py).
 */
module Planner {
  import opened Ids
  import opened Outcomes
  import opened Sums
  import opened Journal
  import opened Rows
  import opened Waves
  import opened Frozen
  import opened Inventory
  import opened CardReview
  import opened Compiler
  import opened PlanLog
  import opened PlanBalance

  datatype Failure = LinksUnresolved | SourceInvalid | ReviewInvalid | PostingsInvalid | CompilationRejected
                   | ReversalsStuck | NotInverse | AlreadyReversed | ReportingInvalid | CardBalanceInvalid
                   | AliasNotZero

  datatype Plan = Plan(events: seq<Event>, natural: map<Id, int>)

  /** A pending list with what it compiles to. */
  datatype Compiled = Compiled(pending: seq<Pending>, events: seq<Event>)

  /** Transactions that reverse nothing. */
  function Originals(s: Source): (r: set<Id>)
    ensures forall t :: t in r <==> t in s.transactions && t !in s.links
  {
    s.transactions - s.links.Keys
  }

  function LinkGraph(s: Source): Graph { Edges(s.links) }

  /** A reversal whose own rows are the inverse of its target's, position by position. */
  predicate Exact(s: Source, d: DecisionTable, t: Id) {
    && t in s.transactions && t in s.links && Facts(s, d, t).Some? && Facts(s, d, s.links[t]).Some?
    && Legs(Facts(s, d, t).value) == Inverse(Legs(Facts(s, d, s.links[t]).value))
  }

  ghost predicate AllGrounded(s: Source) { forall t :: t in s.links ==> Grounded(LinkGraph(s), Originals(s), t) }

  ghost predicate GroundedAreExact(s: Source, d: DecisionTable) {
    forall t :: t in s.links && Grounded(LinkGraph(s), Originals(s), t) ==> Exact(s, d, t)
  }

  // ---------------------------------------------------------------- finding a target in the log

  predicate Recorded(s: Source, tags: seq<EventId>, u: Id) { (if u in s.links then Reverse(u) else Post(u)) in tags }

  lemma TargetFound(digest: Digest, s: Source, d: DecisionTable, pending: seq<Pending>, tags: seq<EventId>, u: Id)
    requires Log(digest, s, d, pending, tags) && Recorded(s, tags, u)
    ensures var found := FindJournal(Chain(digest, pending), OfSource(u));
            && found.Some? && found.value in Chain(digest, pending) && Carries(found.value, OfSource(u))
            && Facts(s, d, u).Some? && found.value.pending.payload.postings == Facts(s, d, u).value
            && (u !in s.links ==> found.value.pending.payload.Posted?)
  {
    LogIsShaped(digest, s, d, pending, tags);
    var events := Chain(digest, pending);
    var tag := if u in s.links then Reverse(u) else Post(u);
    var i :| 0 <= i < |tags| && tags[i] == tag;
    assert events[i].pending == pending[i] && pending[i].event == tag;
    hide *;
    FoundByTag(s, d, events, i, u);
  }

  lemma FoundByTag(s: Source, d: DecisionTable, events: seq<Event>, i: nat, u: Id)
    requires Shaped(s, d, events) && i < |events| && events[i].pending.event == if u in s.links then Reverse(u)
               else Post(u)
    ensures var found := FindJournal(events, OfSource(u));
            && found.Some? && found.value in events && Carries(found.value, OfSource(u))
            && Facts(s, d, u).Some? && found.value.pending.payload.postings == Facts(s, d, u).value
            && (u !in s.links ==> found.value.pending.payload.Posted?)
  {
    hide Facts, FindJournal;
    assert Shape(s, d, events[i].pending);
    assert Carries(events[i], OfSource(u));
    var found := FindJournal(events, OfSource(u));
    var j :| 0 <= j < |events| && events[j] == found.value;
    CarriesSource(s, d, events[j], u);
  }

  /** Adding one event that is what it should be, and compiling the longer list. */
  method AddEvent(digest: Digest, s: Source, d: DecisionTable, c: Compiled, ghost tags: seq<EventId>, x: Pending)
    returns (r: Compiled)
    requires c.events == Chain(digest, c.pending) && Log(digest, s, d, c.pending, tags)
    requires MayFollow(tags, x.event) && EventOk(s, d, c.events, x)
    ensures r.pending == c.pending + [x] && r.events == Chain(digest, r.pending)
    ensures Log(digest, s, d, r.pending, tags + [x.event])
  {
    LogGrows(digest, s, d, c.pending, tags, x);
    LogCompiles(digest, s, d, c.pending + [x], tags + [x.event]);
    hide *;
    var compiled := CompileEvents(digest, c.pending + [x]);
    r := Compiled(c.pending + [x], compiled.value);
  }

  lemma LogCompiles(digest: Digest, s: Source, d: DecisionTable, pending: seq<Pending>, tags: seq<EventId>)
    requires Log(digest, s, d, pending, tags)
    ensures Compilable(digest, pending) && OneCommand(pending)
  {
    hide EventOk, Compilable, Chain;
    var events := Chain(digest, pending);
    forall i | 0 <= i < |pending| ensures pending[i].envelope == Imported(s) {
      OkHasEnvelope(s, d, events[..i], pending[i]);
    }
  }

  // ---------------------------------------------------------------- originals

  method PostOriginals(digest: Digest, s: Source, d: DecisionTable) returns (r: Option<seq<Pending>>)
    requires Injective(s.rank)
    ensures r.Some? <==> forall t :: t in Originals(s) ==> Facts(s, d, t).Some?
    ensures r.Some? ==> Log(digest, s, d, r.value, Posts(Sorted(Originals(s), s.rank)))
  {
    hide Log, Facts, Sorted, Numbered, FactsOf, Injective, Originals, Posts;
    var order := SortByKey(s.rank, Originals(s));
    AscendingHasNoRepeat(s.rank, order);
    var pending: seq<Pending> := [];
    EmptyLog(digest, s, d);
    assert order[..0] == [];
    for i := 0 to |order|
      invariant Log(digest, s, d, pending, Posts(order[..i]))
      invariant forall j :: 0 <= j < i ==> Facts(s, d, order[j]).Some?
    {
      var t := order[i];
      assert t in Elems(order);
      var facts := JournalPostingFacts(s.scales, d, t, s.postings);
      FactsIs(s, d, t);
      if facts == None { return None; }
      PostFollows(digest, s, d, pending, order, i);
      pending := pending + [OriginalEvent(s, t, facts.value)];
    }
    assert order[..|order|] == order;
    forall t | t in Originals(s) ensures Facts(s, d, t).Some? { assert t in Elems(order); }
    r := Some(pending);
  }

  lemma EmptyLog(digest: Digest, s: Source, d: DecisionTable)
    ensures Log(digest, s, d, [], Posts([]))
  {
  }

  lemma FactsIs(s: Source, d: DecisionTable, t: Id)
    ensures FactsOf(s.scales, d, t, s.postings) == Facts(s, d, t)
  {
  }

  lemma PostFollows(digest: Digest, s: Source, d: DecisionTable, pending: seq<Pending>, order: seq<Id>, i: nat)
    requires i < |order| && Log(digest, s, d, pending, Posts(order[..i])) && Facts(s, d, order[i]).Some?
    requires order[i] in Originals(s) && forall j, k :: 0 <= j < k < |order| ==> order[j] != order[k]
    ensures Log(digest, s, d, pending + [OriginalEvent(s, order[i], Facts(s, d, order[i]).value)],
              Posts(order[..i + 1]))
  {
    hide Log, Facts;
    var x := OriginalEvent(s, order[i], Facts(s, d, order[i]).value);
    LogGrows(digest, s, d, pending, Posts(order[..i]), x);
    assert Posts(order[..i + 1]) == Posts(order[..i]) + [x.event];
  }

  // ---------------------------------------------------------------- the reversal worklist

  ghost function JournalTags(s: Source, ids: seq<Id>): seq<EventId>
    requires Injective(s.rank)
  {
    Posts(Sorted(Originals(s), s.rank)) + Reversals(ids)
  }

  ghost predicate LinkNumbers(s: Source, ids: seq<Id>) {
    Distinct(ids) && forall i :: 0 <= i < |ids| ==> ids[i] in s.links
  }

  lemma RecordedIn(s: Source, ids: seq<Id>, more: seq<EventId>, u: Id)
    requires Injective(s.rank) && u in Originals(s) + Elems(ids) && LinkNumbers(s, ids)
    ensures Recorded(s, JournalTags(s, ids) + more, u)
  {
    hide Sorted, Injective;
    var o, tags := Sorted(Originals(s), s.rank), JournalTags(s, ids) + more;
    if u in Originals(s) {
      assert u in Elems(o);
      var i :| 0 <= i < |o| && o[i] == u;
      assert tags[i] == Post(u);
    } else {
      var i :| 0 <= i < |ids| && ids[i] == u;
      assert tags[|o| + i] == Reverse(u);
    }
  }

  lemma ReverseMayFollow(s: Source, ids: seq<Id>, t: Id)
    requires Injective(s.rank) && t !in ids
    ensures MayFollow(JournalTags(s, ids), Reverse(t))
    ensures JournalTags(s, ids + [t]) == JournalTags(s, ids) + [Reverse(t)]
  {
    assert Reversals(ids + [t]) == Reversals(ids) + [Reverse(t)];
  }

  /** One reversal: accepted exactly when its rows invert its target's. */
  method OneReversal(digest: Digest, s: Source, d: DecisionTable, c: Compiled, ghost ids: seq<Id>, t: Id)
    returns (r: Option<Compiled>)
    requires Injective(s.rank) && LinkNumbers(s, ids) && t in s.links && t !in ids
    requires s.links[t] in Originals(s) + Elems(ids)
    requires c.events == Chain(digest, c.pending) && Log(digest, s, d, c.pending, JournalTags(s, ids))
    ensures r.Some? <==> Exact(s, d, t)
    ensures r.Some? ==> r.value.events == Chain(digest, r.value.pending) && r.value.pending != []
                        && Log(digest, s, d, r.value.pending, JournalTags(s, ids + [t]))
  {
    hide Log, Chain, JournalTags, Facts, FactsOf, Sorted, Originals, MayFollow, Recorded, EventOk, Injective;
    hide LinkNumbers, Elems, FindJournal;
    if t !in s.transactions { return None; }
    RecordedIn(s, ids, [], s.links[t]);
    assert JournalTags(s, ids) + [] == JournalTags(s, ids);
    TargetFound(digest, s, d, c.pending, JournalTags(s, ids), s.links[t]);
    var target := FindJournal(c.events, OfSource(s.links[t])).value;
    var facts := JournalPostingFacts(s.scales, d, t, s.postings);
    FactsIs(s, d, t);
    if facts == None { return None; }
    var expected := InverseFacts(t, target.pending.payload.postings);
    if Legs(facts.value) != Legs(expected) { return None; }
    var x := ReversalEvent(s, t, target, facts.value);
    ReverseMayFollow(s, ids, t);
    ReversalIsOk(s, d, c.events, target, t);
    var added := AddEvent(digest, s, d, c, JournalTags(s, ids), x);
    r := Some(added);
  }

  lemma ReversalIsOk(s: Source, d: DecisionTable, events: seq<Event>, target: Event, t: Id)
    requires t in s.transactions && t in s.links && target in events && Carries(target, OfSource(s.links[t]))
    requires Facts(s, d, t).Some?
    requires Legs(Facts(s, d, t).value) == Inverse(Legs(target.pending.payload.postings))
    ensures EventOk(s, d, events, ReversalEvent(s, t, target, Facts(s, d, t).value))
  {
    hide Facts;
    var j :| 0 <= j < |events| && events[j] == target;
    assert Reverses(s, d, events[j], t, ReversalEvent(s, t, target, Facts(s, d, t).value));
  }

  /** Everything one wave makes ready, in order. */
  method ReversalWave(digest: Digest, s: Source, d: DecisionTable, c: Compiled, ghost ids: seq<Id>, wave: seq<Id>)
    returns (r: Option<Compiled>)
    requires Injective(s.rank) && LinkNumbers(s, ids + wave) && c.pending != []
    requires forall i :: 0 <= i < |wave| ==> wave[i] in s.links && s.links[wave[i]] in Originals(s) + Elems(ids)
    requires c.events == Chain(digest, c.pending) && Log(digest, s, d, c.pending, JournalTags(s, ids))
    ensures r.Some? <==> forall i :: 0 <= i < |wave| ==> Exact(s, d, wave[i])
    ensures r.Some? ==> r.value.events == Chain(digest, r.value.pending) && r.value.pending != []
                        && Log(digest, s, d, r.value.pending, JournalTags(s, ids + wave))
  {
    hide Log, Chain, JournalTags, Exact, Originals;
    var now := c;
    assert ids + wave[..0] == ids;
    for i := 0 to |wave|
      invariant now.events == Chain(digest, now.pending) && now.pending != []
      invariant Log(digest, s, d, now.pending, JournalTags(s, ids + wave[..i]))
      invariant forall j :: 0 <= j < i ==> Exact(s, d, wave[j])
    {
      WaveItem(s, ids, wave, i);
      var next := OneReversal(digest, s, d, now, ids + wave[..i], wave[i]);
      if next == None { return None; }
      now := next.value;
    }
    assert wave[..|wave|] == wave;
    r := Some(now);
  }

  lemma WaveItem(s: Source, ids: seq<Id>, wave: seq<Id>, i: nat)
    requires LinkNumbers(s, ids + wave) && i < |wave| && wave[i] in s.links
    requires s.links[wave[i]] in Originals(s) + Elems(ids)
    ensures LinkNumbers(s, ids + wave[..i]) && wave[i] in s.links && wave[i] !in ids + wave[..i]
    ensures s.links[wave[i]] in Originals(s) + Elems(ids + wave[..i])
    ensures (ids + wave[..i]) + [wave[i]] == ids + wave[..i + 1]
  {
    var all := ids + wave;
    assert all[|ids| + i] == wave[i];
    assert forall k :: 0 <= k < |ids| + i ==> (ids + wave[..i])[k] == all[k];
    assert forall u :: u in ids ==> u in ids + wave[..i];
  }

  ghost predicate Worked(s: Source, ids: seq<Id>, emitted: set<Id>)
    requires Injective(s.rank)
  {
    && emitted == Originals(s) + Elems(ids) && LinkNumbers(s, ids)
    && ids + Order(LinkGraph(s), emitted, s.rank) == Order(LinkGraph(s), Originals(s), s.rank)
  }

  method PostReversals(digest: Digest, s: Source, d: DecisionTable, c: Compiled) returns (r: Result<Compiled, Failure>)
    requires Injective(s.rank) && c.pending != []
    requires c.events == Chain(digest, c.pending) && Log(digest, s, d, c.pending, JournalTags(s, []))
    ensures r.Ok? <==> AllGrounded(s) && GroundedAreExact(s, d)
    ensures r == Err(ReversalsStuck) <==> !AllGrounded(s) && GroundedAreExact(s, d)
    ensures r == Err(NotInverse) <==> !GroundedAreExact(s, d)
    ensures r.Err? ==> r.error == ReversalsStuck || r.error == NotInverse
    ensures r.Ok? ==> r.value.events == Chain(digest, r.value.pending) && r.value.pending != []
                      && Log(digest, s, d, r.value.pending, JournalTags(s, Order(LinkGraph(s), Originals(s), s.rank)))
    ensures r.Ok? ==> s.links.Keys <= s.transactions
  {
    hide Log, Chain, JournalTags, Exact, Originals, Order, AllGrounded, GroundedAreExact, LinkGraph, Injective;
    hide Sorted, Worked, Elems;
    var now := c;
    var remaining, emitted := s.links.Keys, Originals(s);
    ghost var ids: seq<Id> := [];
    StartWork(s);
    while remaining != {}
      invariant remaining == s.links.Keys - emitted && Worked(s, ids, emitted)
      invariant now.events == Chain(digest, now.pending) && now.pending != []
      invariant Log(digest, s, d, now.pending, JournalTags(s, ids))
      invariant forall t :: t in ids ==> Exact(s, d, t)
      decreases |remaining|
    {
      var available := set t | t in remaining && s.links[t] in emitted;
      ReadyIs(s, remaining, emitted, available);
      if available == {} {
        StuckOutcome(s, d, ids, remaining, emitted);
        r := Err(ReversalsStuck);
        return;
      }
      WaveStep(s, ids, emitted);
      var wave := SortByKey(s.rank, available);
      var next := ReversalWave(digest, s, d, now, ids, wave);
      if next == None {
        NotExactOutcome(s, d, ids, emitted);
        r := Err(NotInverse);
        return;
      }
      now, ids, emitted := next.value, ids + wave, emitted + available;
      remaining := remaining - available;
    }
    DoneOutcome(s, d, ids, emitted);
    r := Ok(now);
  }

  lemma StartWork(s: Source)
    requires Injective(s.rank)
    ensures Worked(s, [], Originals(s)) && s.links.Keys == s.links.Keys - Originals(s)
  {
  }

  lemma ReadyIs(s: Source, remaining: set<Id>, emitted: set<Id>, available: set<Id>)
    requires remaining == s.links.Keys - emitted && available == set t | t in remaining && s.links[t] in emitted
    ensures available == Ready(LinkGraph(s), emitted) && available <= remaining
    ensures remaining - available == s.links.Keys - (emitted + available)
    ensures available != {} ==> |remaining - available| < |remaining|
  {
    if available != {} { Fewer(remaining, available); }
  }

  lemma WaveStep(s: Source, ids: seq<Id>, emitted: set<Id>)
    requires Injective(s.rank) && Worked(s, ids, emitted) && Ready(LinkGraph(s), emitted) != {}
    ensures var wave := Sorted(Ready(LinkGraph(s), emitted), s.rank);
            && Worked(s, ids + wave, emitted + Ready(LinkGraph(s), emitted)) && LinkNumbers(s, ids + wave)
            && (forall i :: 0 <= i < |wave| ==> wave[i] in s.links && s.links[wave[i]] in Originals(s) + Elems(ids))
            && (forall t :: t in ids + wave ==> t in ids || exists i :: 0 <= i < |wave| && wave[i] == t)
  {
    var g := LinkGraph(s);
    var ready := Ready(g, emitted);
    var wave := Sorted(ready, s.rank);
    assert emitted == Originals(s) + Elems(ids) && LinkNumbers(s, ids);
    hide Worked, Originals, Elems, LinkNumbers, Order, LinkGraph, Injective;
    AscendingHasNoRepeat(s.rank, wave);
    OrderUnfolds(g, emitted, s.rank);
    WaveNumbers(s, ids, emitted, wave);
    WorkedNext(s, ids, emitted, ready, wave);
    hide *;
  }

  lemma WorkedNext(s: Source, ids: seq<Id>, emitted: set<Id>, ready: set<Id>, wave: seq<Id>)
    requires Injective(s.rank) && Worked(s, ids, emitted) && LinkNumbers(s, ids + wave) && Elems(wave) == ready
    requires Order(LinkGraph(s), emitted, s.rank) == wave + Order(LinkGraph(s), emitted + ready, s.rank)
    ensures Worked(s, ids + wave, emitted + ready)
  {
    hide Order, Originals, LinkNumbers, Injective, LinkGraph;
    assert Elems(ids + wave) == Elems(ids) + Elems(wave);
    assert (ids + wave) + Order(LinkGraph(s), emitted + ready, s.rank) == ids + Order(LinkGraph(s), emitted, s.rank);
  }

  lemma WaveNumbers(s: Source, ids: seq<Id>, emitted: set<Id>, wave: seq<Id>)
    requires emitted == Originals(s) + Elems(ids) && LinkNumbers(s, ids) && Elems(wave) == Ready(LinkGraph(s), emitted)
    requires forall i, j :: 0 <= i < j < |wave| ==> wave[i] != wave[j]
    ensures LinkNumbers(s, ids + wave)
    ensures forall i :: 0 <= i < |wave| ==> wave[i] in s.links && s.links[wave[i]] in emitted
    ensures forall t :: t in ids + wave ==> t in ids || exists i :: 0 <= i < |wave| && wave[i] == t
  {
    forall i | 0 <= i < |wave| ensures wave[i] in s.links && wave[i] !in ids && s.links[wave[i]] in emitted {
      assert wave[i] in Elems(wave);
    }
  }

  /** Whatever the worklist has emitted is grounded. */
  lemma WorkedIsGrounded(s: Source, ids: seq<Id>, emitted: set<Id>)
    requires Injective(s.rank) && Worked(s, ids, emitted)
    ensures forall t :: t in ids ==> Grounded(LinkGraph(s), Originals(s), t)
    ensures forall t :: t in s.links && t !in emitted && Ready(LinkGraph(s), emitted) == {} ==>
              !Grounded(LinkGraph(s), Originals(s), t)
  {
    var g := LinkGraph(s);
    OrderIsSound(g, Originals(s), s.rank);
    var order := Order(g, Originals(s), s.rank);
    hide Order, Grounded, Originals;
    forall t | t in ids ensures Grounded(g, Originals(s), t) {
      var i :| 0 <= i < |ids| && ids[i] == t;
      assert order[i] == t && SoundAt(g, Originals(s), order, i);
    }
    forall t | t in s.links && t !in emitted && Ready(g, emitted) == {} ensures !Grounded(g, Originals(s), t) {
      StuckWhenUngrounded(g, Originals(s), emitted, t);
    }
  }

  lemma StuckOutcome(s: Source, d: DecisionTable, ids: seq<Id>, remaining: set<Id>, emitted: set<Id>)
    requires Injective(s.rank) && Worked(s, ids, emitted) && Ready(LinkGraph(s), emitted) == {}
    requires remaining == s.links.Keys - emitted && remaining != {} && forall t :: t in ids ==> Exact(s, d, t)
    ensures !AllGrounded(s) && GroundedAreExact(s, d)
  {
    hide Exact, Order, Grounded;
    WorkedIsGrounded(s, ids, emitted);
    var t :| t in remaining;
    assert !Grounded(LinkGraph(s), Originals(s), t);
    forall u | u in s.links && Grounded(LinkGraph(s), Originals(s), u) ensures Exact(s, d, u) {
      assert u in emitted && u !in Originals(s);
      assert u in Elems(ids);
    }
  }

  lemma NotExactOutcome(s: Source, d: DecisionTable, ids: seq<Id>, emitted: set<Id>)
    requires Injective(s.rank) && Worked(s, ids, emitted) && Ready(LinkGraph(s), emitted) != {}
    requires var wave := Sorted(Ready(LinkGraph(s), emitted), s.rank);
             exists i :: 0 <= i < |wave| && !Exact(s, d, wave[i])
    ensures !GroundedAreExact(s, d)
  {
    hide Exact, Order, Grounded;
    var wave := Sorted(Ready(LinkGraph(s), emitted), s.rank);
    WaveStep(s, ids, emitted);
    WorkedIsGrounded(s, ids + wave, emitted + Ready(LinkGraph(s), emitted));
    var i :| 0 <= i < |wave| && !Exact(s, d, wave[i]);
    assert wave[i] in ids + wave;
    assert wave[i] in Elems(wave);
  }

  lemma DoneOutcome(s: Source, d: DecisionTable, ids: seq<Id>, emitted: set<Id>)
    requires Injective(s.rank) && Worked(s, ids, emitted) && s.links.Keys - emitted == {}
    requires forall t :: t in ids ==> Exact(s, d, t)
    ensures AllGrounded(s) && GroundedAreExact(s, d) && ids == Order(LinkGraph(s), Originals(s), s.rank)
    ensures s.links.Keys <= s.transactions
  {
    hide Grounded, Facts, Legs;
    assert Ready(LinkGraph(s), emitted) == {};
    WorkedIsGrounded(s, ids, emitted);
    assert ids + [] == ids;
    forall t | t in s.links ensures t in ids {
      assert t in emitted by { assert t !in emitted ==> t in s.links.Keys - emitted; }
      assert t in Elems(ids);
    }
  }

  // ---------------------------------------------------------------- corrections

  /** The neutralizing event of each transaction the review wants reversed. */
  method PostCorrections(digest: Digest, s: Source, d: DecisionTable, c: Compiled, ghost ids: seq<Id>, actions: set<Id>)
    returns (r: Compiled)
    requires Injective(s.rank) && LinkNumbers(s, ids) && actions <= Originals(s) + Elems(ids) && c.pending != []
    requires c.events == Chain(digest, c.pending) && Log(digest, s, d, c.pending, JournalTags(s, ids))
    ensures r.events == Chain(digest, r.pending) && r.pending != []
    ensures Log(digest, s, d, r.pending, JournalTags(s, ids) + Corrections(Sorted(actions, s.rank)))
  {
    hide Log, Chain, JournalTags, Originals, LinkNumbers, Facts;
    var order := SortByKey(s.rank, actions);
    AscendingHasNoRepeat(s.rank, order);
    r := c;
    assert JournalTags(s, ids) + Corrections(order[..0]) == JournalTags(s, ids);
    for i := 0 to |order|
      invariant r.events == Chain(digest, r.pending) && r.pending != []
      invariant Log(digest, s, d, r.pending, JournalTags(s, ids) + Corrections(order[..i]))
    {
      assert order[i] in Elems(order);
      ghost var tags := JournalTags(s, ids) + Corrections(order[..i]);
      RecordedIn(s, ids, Corrections(order[..i]), order[i]);
      TargetFound(digest, s, d, r.pending, tags, order[i]);
      var target := FindJournal(r.events, OfSource(order[i])).value;
      var x := CorrectionEvent(s, order[i], target);
      CorrectionIsOk(s, d, r.events, target, order[i]);
      CorrectionMayFollow(s, ids, order, i);
      r := AddEvent(digest, s, d, r, tags, x);
    }
    assert order[..|order|] == order;
  }

  lemma CorrectionIsOk(s: Source, d: DecisionTable, events: seq<Event>, target: Event, t: Id)
    requires target in events && Carries(target, OfSource(t))
    ensures EventOk(s, d, events, CorrectionEvent(s, t, target))
  {
    var j :| 0 <= j < |events| && events[j] == target;
    assert Corrects(s, events[j], t, CorrectionEvent(s, t, target));
  }

  lemma CorrectionMayFollow(s: Source, ids: seq<Id>, order: seq<Id>, i: nat)
    requires Injective(s.rank) && i < |order| && forall j, k :: 0 <= j < k < |order| ==> order[j] != order[k]
    ensures var tags := JournalTags(s, ids) + Corrections(order[..i]);
            && MayFollow(tags, Neutralize(order[i]))
            && tags + [Neutralize(order[i])] == JournalTags(s, ids) + Corrections(order[..i + 1])
  {
    assert Corrections(order[..i + 1]) == Corrections(order[..i]) + [Neutralize(order[i])];
  }

  // ---------------------------------------------------------------- reporting

  ghost predicate Reportable(s: Source, t: Id) { t in s.transactions && t !in s.links }

  /** The chain of the whole list so far still begins with the compiled journal. */
  ghost predicate Extends(digest: Digest, c: Compiled, pending: seq<Pending>) {
    |c.events| <= |pending| && Chain(digest, pending)[..|c.events|] == c.events
  }

  lemma NoneReported(digest: Digest, c: Compiled, tags: seq<EventId>, order: seq<Id>)
    requires c.events == Chain(digest, c.pending)
    ensures tags + Assignments(order[..0]) == tags && Extends(digest, c, c.pending)
  {
    hide Chain;
    assert order[..0] == [] && Assignments([]) == [];
    assert c.events[..|c.events|] == c.events;
  }

  method AssignReporting(digest: Digest, s: Source, d: DecisionTable, c: Compiled, ghost ids: seq<Id>,
                         ghost more: seq<EventId>)
    returns (r: Option<seq<Pending>>)
    requires Injective(s.rank) && LinkNumbers(s, ids) && c.pending != [] && c.events == Chain(digest, c.pending)
    requires Log(digest, s, d, c.pending, JournalTags(s, ids) + more)
    requires forall i :: 0 <= i < |more| ==> more[i].Neutralize?
    ensures r.Some? <==> forall t :: t in s.reporting ==> Reportable(s, t)
    ensures r.Some? ==>
              r.value != []
              && Log(digest, s, d, r.value, JournalTags(s, ids) + more + Assignments(Sorted(s.reporting, s.rank)))
  {
    hide Log, Chain, JournalTags, LinkNumbers, Facts, Sorted, Injective, Recorded, FindJournal, Extends, Assignments;
    var order := SortByKey(s.rank, s.reporting);
    AscendingHasNoRepeat(s.rank, order);
    NothingAssigned(s, ids, more);
    var pending := c.pending;
    ghost var tags := JournalTags(s, ids) + more;
    NoneReported(digest, c, tags, order);
    for i := 0 to |order|
      invariant Log(digest, s, d, pending, tags + Assignments(order[..i])) && pending != []
      invariant Extends(digest, c, pending)
      invariant forall j :: 0 <= j < i ==> Reportable(s, order[j])
    {
      var t := order[i];
      assert t in Elems(order);
      if t !in s.transactions || t in s.links { return None; }
      RecordedIn(s, ids, more, t);
      TargetFound(digest, s, d, c.pending, tags, t);
      var target := FindJournal(c.events, OfSource(t)).value;
      ReportFollows(digest, s, d, c, pending, tags, order, i, target);
      pending := pending + [ReportingEvent(s, t, target)];
    }
    assert order[..|order|] == order;
    forall t | t in s.reporting ensures Reportable(s, t) { assert t in Elems(order); }
    r := Some(pending);
  }

  lemma NothingAssigned(s: Source, ids: seq<Id>, more: seq<EventId>)
    requires Injective(s.rank) && forall i :: 0 <= i < |more| ==> more[i].Neutralize?
    ensures forall j :: 0 <= j < |JournalTags(s, ids) + more| ==> !(JournalTags(s, ids) + more)[j].Assign?
  {
  }

  lemma AssignmentsGrow(tags: seq<EventId>, order: seq<Id>, i: nat)
    requires i < |order| && (forall j, k :: 0 <= j < k < |order| ==> order[j] != order[k])
    requires forall j :: 0 <= j < |tags| ==> !tags[j].Assign?
    ensures MayFollow(tags + Assignments(order[..i]), Assign(order[i]))
    ensures tags + Assignments(order[..i + 1]) == (tags + Assignments(order[..i])) + [Assign(order[i])]
  {
    assert Assignments(order[..i + 1]) == Assignments(order[..i]) + [Assign(order[i])];
  }

  lemma ReportFollows(digest: Digest, s: Source, d: DecisionTable, c: Compiled, pending: seq<Pending>,
                      tags: seq<EventId>,
                      order: seq<Id>, i: nat, target: Event)
    requires i < |order| && (forall j, k :: 0 <= j < k < |order| ==> order[j] != order[k]) && Reportable(s, order[i])
    requires Log(digest, s, d, pending, tags + Assignments(order[..i])) && Extends(digest, c, pending)
    requires forall j :: 0 <= j < |tags| ==> !tags[j].Assign?
    requires target in c.events && Carries(target, OfSource(order[i])) && target.pending.payload.Posted?
    ensures Log(digest, s, d, pending + [ReportingEvent(s, order[i], target)], tags + Assignments(order[..i + 1]))
    ensures Extends(digest, c, pending + [ReportingEvent(s, order[i], target)])
  {
    hide Log, Compilable, Chain, Facts;
    var t, x, events := order[i], ReportingEvent(s, order[i], target), Chain(digest, pending);
    var j :| 0 <= j < |c.events| && c.events[j] == target;
    assert events[..|c.events|][j] == target;
    assert Reports(s, events[j], t, x);
    AssignmentsGrow(tags, order, i);
    LogGrows(digest, s, d, pending, tags + Assignments(order[..i]), x);
    assert Chain(digest, pending + [x])[..|c.events|] == events[..|c.events|];
  }

  // ---------------------------------------------------------------- the balance fold and the final checks

  method FoldBalances(events: seq<Event>) returns (balances: map<Id, int>)
    ensures forall a :: At(balances, a) == Sum(EventNet(a), events)
  {
    balances := map[];
    for i := 0 to |events|
      invariant forall a :: At(balances, a) == Sum(EventNet(a), events[..i])
    {
      forall a ensures Sum(EventNet(a), events[..i + 1]) == Sum(EventNet(a), events[..i]) + EventNet(a)(events[i]) {
        SumStep(EventNet(a), events, i);
      }
      if events[i].pending.payload.Posted? || events[i].pending.payload.Reversed? {
        balances := FoldPostings(Legs(events[i].pending.payload.postings), balances);
      }
    }
    assert events[..|events|] == events;
  }

  method FoldPostings(legs: seq<Leg>, before: map<Id, int>) returns (m: map<Id, int>)
    ensures forall a :: At(m, a) == At(before, a) + AccountNet(legs, a)
  {
    m := before;
    for i := 0 to |legs|
      invariant forall a :: At(m, a) == At(before, a) + AccountNet(legs[..i], a)
    {
      forall a ensures AccountNet(legs[..i + 1], a) == AccountNet(legs[..i], a) + OnAccount(a)(legs[i]) {
        SumStep(OnAccount(a), legs, i);
      }
      m := m[legs[i].account := At(m, legs[i].account)
                                + if legs[i].side == Debit then legs[i].units else -legs[i].units];
    }
    assert legs[..|legs|] == legs;
  }

  ghost function Natural(kind: AccountType, raw: int): int {
    if kind == Liability || kind == Equity || kind == Income then -raw else raw
  }

  ghost predicate NaturalOf(s: Source, events: seq<Event>, natural: map<Id, int>) {
    natural.Keys == s.accounts.Keys && forall a :: a in s.accounts ==>
        natural[a] == Natural(s.accounts[a].kind, Sum(EventNet(a), events))
  }

  ghost predicate ExpectedHolds(s: Source, natural: map<Id, int>, e: ExpectedBalance) {
    e.account in s.accounts && s.accounts[e.account].currency == e.asset && e.account in natural
        && natural[e.account] == e.units
  }

  ghost predicate TerminalOk(s: Source, review: Review, natural: map<Id, int>) {
    && (forall i :: 0 <= i < |review.expected| ==> ExpectedHolds(s, natural, review.expected[i]))
    && forall i :: 0 <= i < |review.aliases| ==> review.aliases[i] in natural && natural[review.aliases[i]] == 0
  }

  /** Reviewed terminal balances, then retired aliases. */
  method CheckTerminal(s: Source, review: Review, natural: map<Id, int>) returns (problem: Option<Failure>)
    ensures problem == None <==> TerminalOk(s, review, natural)
    ensures problem.Some? ==> problem.value == CardBalanceInvalid || problem.value == AliasNotZero
  {
    for i := 0 to |review.expected|
      invariant forall j :: 0 <= j < i ==> ExpectedHolds(s, natural, review.expected[j])
    {
      var e := review.expected[i];
      if e.account !in s.accounts || s.accounts[e.account].currency != e.asset { return Some(CardBalanceInvalid); }
      if e.account !in natural || natural[e.account] != e.units { return Some(CardBalanceInvalid); }
    }
    for i := 0 to |review.aliases|
      invariant forall j :: 0 <= j < i ==> review.aliases[j] in natural && natural[review.aliases[j]] == 0
    {
      if review.aliases[i] !in natural || natural[review.aliases[i]] != 0 { return Some(AliasNotZero); }
    }
    problem := None;
  }

  // ---------------------------------------------------------------- the plan

  /** Exactly when a plan comes out. */
  ghost predicate Plannable(s: Source, review: Review) {
    var d := DecisionMap(review.transactions);
    && Clean(s) && ValidReview(s, review)
    && Originals(s) != {} && (forall t :: t in Originals(s) ==> Facts(s, d, t).Some?)
    && AllGrounded(s) && GroundedAreExact(s, d)
    && (forall t :: t in Actions(review) ==> t !in s.links.Values)
    && (forall t :: t in s.reporting ==> Reportable(s, t))
  }

  /** Why each refusal is made, in the order of the checks; the links and the final balances are never refused here. */
  ghost predicate Refuses(s: Source, review: Review, why: Failure) {
    var d := DecisionMap(review.transactions);
    match why
    case SourceInvalid => !Clean(s)
    case ReviewInvalid => Clean(s) && !ValidReview(s, review)
    case PostingsInvalid => exists t :: t in Originals(s) && Facts(s, d, t) == None
    case CompilationRejected => Originals(s) == {}
    case ReversalsStuck => !AllGrounded(s) && GroundedAreExact(s, d)
    case NotInverse => !GroundedAreExact(s, d)
    case AlreadyReversed => exists t :: t in Actions(review) && t in s.links.Values
    case ReportingInvalid => exists t :: t in s.reporting && !Reportable(s, t)
    case _ => false
  }

  ghost function PlanTags(s: Source, review: Review): seq<EventId>
    requires Injective(s.rank)
  {
    JournalTags(s, Order(LinkGraph(s), Originals(s), s.rank)) + Corrections(Sorted(Actions(review), s.rank))
    + Assignments(Sorted(s.reporting, s.rank))
  }

  /** What a plan holds: its events are a log in the planned order, chained, and its balances are their fold. */
  ghost predicate IsPlan(digest: Digest, s: Source, review: Review, pending: seq<Pending>, plan: Plan)
    requires Injective(s.rank)
  {
    && Log(digest, s, DecisionMap(review.transactions), pending, PlanTags(s, review))
    && plan.events == Chain(digest, pending) && NaturalOf(s, plan.events, plan.natural)
  }

  method CompilePlan(digest: Digest, s: Source, review: Review)
    returns (r: Result<Plan, Failure>, ghost pending: seq<Pending>)
    requires Injective(s.rank)
    ensures r.Ok? <==> Plannable(s, review)
    ensures r.Ok? ==> IsPlan(digest, s, review, pending, r.value)
    ensures r.Err? ==> Refuses(s, review, r.error)
  {
    hide Clean, ValidReview, Log, Chain, Facts, Originals, AllGrounded, GroundedAreExact, JournalTags,
         Order, Sorted, Actions, Decisions, DecisionMap, Injective, NaturalOf, TerminalOk, LinkNumbers, Compilable;
    hide OneCommand;
    pending := [];
    var issues := InventoryRows(s);
    if issues != [] { r := Err(SourceInvalid); return; }
    var valid := ValidateAgainstSource(s, review);
    if !valid { r := Err(ReviewInvalid); return; }
    r, pending := CompileReviewed(digest, s, review);
  }

  /** The conditions of a plan, and why each that fails is the refusal made. */
  lemma Conditions(s: Source, review: Review, d: DecisionTable)
    requires Clean(s) && ValidReview(s, review) && d == DecisionMap(review.transactions)
    ensures Plannable(s, review) <==>
              && Originals(s) != {} && (forall t :: t in Originals(s) ==> Facts(s, d, t).Some?)
              && AllGrounded(s) && GroundedAreExact(s, d)
              && (forall t :: t in Actions(review) ==> t !in s.links.Values)
              && (forall t :: t in s.reporting ==> Reportable(s, t))
    ensures (exists t :: t in Originals(s) && Facts(s, d, t) == None) ==> Refuses(s, review, PostingsInvalid)
    ensures Originals(s) == {} ==> Refuses(s, review, CompilationRejected)
    ensures !AllGrounded(s) && GroundedAreExact(s, d) ==> Refuses(s, review, ReversalsStuck)
    ensures !GroundedAreExact(s, d) ==> Refuses(s, review, NotInverse)
    ensures (exists t :: t in Actions(review) && t in s.links.Values) ==> Refuses(s, review, AlreadyReversed)
    ensures (exists t :: t in s.reporting && !Reportable(s, t)) ==> Refuses(s, review, ReportingInvalid)
  {
    hide Clean, ValidReview, Originals, AllGrounded, GroundedAreExact, Facts, Actions, DecisionMap, Reportable;
  }

  lemma PlanTagsAre(s: Source, review: Review)
    requires Injective(s.rank)
    ensures PlanTags(s, review) ==
            JournalTags(s, Order(LinkGraph(s), Originals(s), s.rank)) + Corrections(Sorted(Actions(review), s.rank))
            + Assignments(Sorted(s.reporting, s.rank))
    ensures forall i :: 0 <= i < |Corrections(Sorted(Actions(review), s.rank))| ==>
              Corrections(Sorted(Actions(review), s.rank))[i].Neutralize?
  {
  }

  /** Originals, then the reversal worklist on what they compile to. */
  method PostJournal(digest: Digest, s: Source, d: DecisionTable) returns (r: Result<Compiled, Failure>)
    requires Injective(s.rank)
    ensures r.Ok? <==> Originals(s) != {} && (forall t :: t in Originals(s) ==> Facts(s, d, t).Some?)
                       && AllGrounded(s) && GroundedAreExact(s, d)
    ensures r.Err? ==> r.error in {PostingsInvalid, CompilationRejected, ReversalsStuck, NotInverse}
    ensures r == Err(PostingsInvalid) ==> exists t :: t in Originals(s) && Facts(s, d, t) == None
    ensures r == Err(CompilationRejected) ==> Originals(s) == {}
    ensures r == Err(ReversalsStuck) ==> !AllGrounded(s) && GroundedAreExact(s, d)
    ensures r == Err(NotInverse) ==> !GroundedAreExact(s, d)
    ensures r.Ok? ==> r.value.events == Chain(digest, r.value.pending) && r.value.pending != []
                      && Log(digest, s, d, r.value.pending, JournalTags(s, Order(LinkGraph(s), Originals(s), s.rank)))
  {
    hide *;
    var originals := PostOriginals(digest, s, d);
    if originals == None { return Err(PostingsInvalid); }
    OriginalsLog(digest, s, d, originals.value);
    var first := CompileEvents(digest, originals.value);
    if first == None { return Err(CompilationRejected); }
    r := PostReversals(digest, s, d, Compiled(originals.value, first.value));
  }

  method CompileReviewed(digest: Digest, s: Source, review: Review)
    returns (r: Result<Plan, Failure>, ghost pending: seq<Pending>)
    requires Injective(s.rank) && Clean(s) && ValidReview(s, review)
    ensures r.Ok? <==> Plannable(s, review)
    ensures r.Ok? ==> IsPlan(digest, s, review, pending, r.value)
    ensures r.Err? ==> Refuses(s, review, r.error)
  {
    pending := [];
    var d := DecisionMap(review.transactions);
    Conditions(s, review, d);
    hide *;
    var journal := PostJournal(digest, s, d);
    if journal.Err? { r := Err(journal.error); return; }
    var all := PostRest(digest, s, review, d, journal.value);
    if all.Err? { r := Err(all.error); return; }
    pending := all.value;
    r := Finish(digest, s, review, all.value);
  }

  /** Corrections, unless one hits a reversed transaction, then reporting. */
  method PostRest(digest: Digest, s: Source, review: Review, d: DecisionTable, journal: Compiled)
    returns (r: Result<seq<Pending>, Failure>)
    requires Injective(s.rank) && Clean(s) && ValidReview(s, review) && AllGrounded(s)
    requires journal.events == Chain(digest, journal.pending) && journal.pending != []
    requires Log(digest, s, d, journal.pending, JournalTags(s, Order(LinkGraph(s), Originals(s), s.rank)))
    ensures r.Ok? <==> (forall t :: t in Actions(review) ==> t !in s.links.Values)
                       && (forall t :: t in s.reporting ==> Reportable(s, t))
    ensures r.Err? ==> r.error in {AlreadyReversed, ReportingInvalid}
    ensures r == Err(AlreadyReversed) ==> exists t :: t in Actions(review) && t in s.links.Values
    ensures r == Err(ReportingInvalid) ==> exists t :: t in s.reporting && !Reportable(s, t)
    ensures r.Ok? ==> r.value != [] && Log(digest, s, d, r.value, PlanTags(s, review))
  {
    PlanTagsAre(s, review);
    OrderCovers(s, review);
    hide *;
    var actions := Actions(review);
    var again := actions * s.links.Values;
    if again != {} {
      ghost var t :| t in again;
      assert t in actions && t in s.links.Values;
      return Err(AlreadyReversed);
    }
    assert forall t :: t in actions && t in s.links.Values ==> t in again;
    ghost var ids := Order(LinkGraph(s), Originals(s), s.rank);
    var corrected := PostCorrections(digest, s, d, journal, ids, actions);
    var all := AssignReporting(digest, s, d, corrected, ids, Corrections(Sorted(actions, s.rank)));
    r := if all.Some? then Ok(all.value) else Err(ReportingInvalid);
  }

  /** The whole list is compiled once more, its balances are folded, and the final checks are made. */
  method Finish(digest: Digest, s: Source, review: Review, pending: seq<Pending>) returns (r: Result<Plan, Failure>)
    requires Injective(s.rank) && Plannable(s, review) && pending != []
    requires Log(digest, s, DecisionMap(review.transactions), pending, PlanTags(s, review))
    ensures r.Ok? && IsPlan(digest, s, review, pending, r.value)
  {
    hide Plannable, Log, Chain, PlanTags, NaturalOf, TerminalOk, Compilable, OneCommand, Injective, DecisionMap;
    LogCompiles(digest, s, DecisionMap(review.transactions), pending, PlanTags(s, review));
    var events := CompileEvents(digest, pending);
    var balances := FoldBalances(events.value);
    var natural := map a | a in s.accounts ::
      if s.accounts[a].kind in {Liability, Equity, Income} then -At(balances, a) else At(balances, a);
    assert natural == map a | a in s.accounts :: Natural(s.accounts[a].kind, At(balances, a));
    NaturalIs(s, events.value, balances, natural);
    TerminalHolds(digest, s, review, pending, Plan(events.value, natural));
    var problem := CheckTerminal(s, review, natural);
    r := match problem case None => Ok(Plan(events.value, natural)) case Some(f) => Err(f);
  }

  lemma NaturalIs(s: Source, events: seq<Event>, balances: map<Id, int>, natural: map<Id, int>)
    requires forall a :: At(balances, a) == Sum(EventNet(a), events)
    requires natural == map a | a in s.accounts :: Natural(s.accounts[a].kind, At(balances, a))
    ensures NaturalOf(s, events, natural)
  {
  }

  /** The originals' list is empty only when there is no original, and it starts the reversal worklist. */
  lemma OriginalsLog(digest: Digest, s: Source, d: DecisionTable, pending: seq<Pending>)
    requires Injective(s.rank) && Log(digest, s, d, pending, Posts(Sorted(Originals(s), s.rank)))
    ensures Log(digest, s, d, pending, JournalTags(s, [])) && Compilable(digest, pending) && OneCommand(pending)
    ensures pending == [] <==> Originals(s) == {}
  {
    LogCompiles(digest, s, d, pending, Posts(Sorted(Originals(s), s.rank)));
    assert JournalTags(s, []) == Posts(Sorted(Originals(s), s.rank));
    assert |pending| == |Posts(Sorted(Originals(s), s.rank))| == |Sorted(Originals(s), s.rank)|;
    if pending != [] { assert Sorted(Originals(s), s.rank)[0] in Elems(Sorted(Originals(s), s.rank)); }
  }

  lemma OrderCovers(s: Source, review: Review)
    requires Injective(s.rank) && Clean(s) && ValidReview(s, review) && AllGrounded(s)
    ensures var ids := Order(LinkGraph(s), Originals(s), s.rank);
            LinkNumbers(s, ids) && Elems(ids) == s.links.Keys && Actions(review) <= Originals(s) + Elems(ids)
  {
    var g, ids := LinkGraph(s), Order(LinkGraph(s), Originals(s), s.rank);
    OrderIsSound(g, Originals(s), s.rank);
    OrderIsComplete(g, Originals(s), s.rank);
    InScope(s, review);
    hide Clean, ValidReview, Order, Grounded, Actions, Decisions, Originals;
    forall i | 0 <= i < |ids| ensures ids[i] in s.links { assert SoundAt(g, Originals(s), ids, i); }
    assert forall t :: t in s.links ==> t in g && t !in Originals(s);
    forall t | t in s.links ensures t in Elems(ids) { assert Grounded(g, Originals(s), t) && t in ids; }
  }

  // ---------------------------------------------------------------- two computations of the card balances

  lemma AllCanonical(s: Source, review: Review)
    requires Plannable(s, review)
    ensures forall t :: t in s.transactions ==> Canonical(s.scales, PlanRows(s, t))
    ensures s.links.Keys <= s.transactions
  {
    var d := DecisionMap(review.transactions);
    hide Clean, ValidReview, Grounded, Canonical;
    assert forall t :: t in s.links ==> Exact(s, d, t);
    forall t | t in s.transactions ensures Canonical(s.scales, PlanRows(s, t)) {
      assert Facts(s, d, t).Some? by { assert t in s.links || t in Originals(s); }
    }
  }

  lemma DistinctIds(key: Id -> int, xs: seq<Id>)
    requires Ascending(key, xs)
    ensures Distinct(xs) && Elems(xs) == set x | x in xs
  {
  }

  lemma PlanIsOrdered(s: Source, review: Review)
    requires Injective(s.rank) && Plannable(s, review)
    ensures PlanOrder(s, review, Sorted(Originals(s), s.rank), Order(LinkGraph(s), Originals(s), s.rank),
              Sorted(Actions(review), s.rank))
    ensures Actions(review) <= s.transactions
  {
    AllCanonical(s, review);
    OrderCovers(s, review);
    InScope(s, review);
    var o, r, c := Sorted(Originals(s), s.rank), Order(LinkGraph(s), Originals(s), s.rank),
        Sorted(Actions(review), s.rank);
    DistinctIds(s.rank, o);
    DistinctIds(s.rank, c);
    assert Distinct(r) && Elems(r) == s.links.Keys;
    hide *;
    Ordered(s, review, o, r, c);
  }

  lemma Ordered(s: Source, review: Review, o: seq<Id>, r: seq<Id>, c: seq<Id>)
    requires Distinct(o) && Distinct(r) && Distinct(c) && s.links.Keys <= s.transactions
    requires Elems(o) == Originals(s) && Elems(r) == s.links.Keys && Elems(c) == Actions(review)
    ensures PlanOrder(s, review, o, r, c)
  {
    hide Actions;
  }

  lemma CardIsLiability(s: Source, a: Id)
    requires a in Cards(s)
    ensures a in s.accounts && s.accounts[a].kind == Liability
  {
  }

  lemma NaturalIsFold(digest: Digest, s: Source, review: Review, pending: seq<Pending>, plan: Plan, a: Id)
    requires Injective(s.rank) && IsPlan(digest, s, review, pending, plan) && a in s.accounts
    requires s.accounts[a].kind == Liability
    ensures a in plan.natural && plan.natural[a] == -Sum(EventNet(a), plan.events)
  {
    hide Log, Chain, Sum, PlanTags, EventNet;
  }

  /** The balance folded from the final events of a card account is the figure the review computed on its own. */
  lemma CardBalanceAgrees(digest: Digest, s: Source, review: Review, pending: seq<Pending>, plan: Plan, a: Id)
    requires Injective(s.rank) && Plannable(s, review) && IsPlan(digest, s, review, pending, plan) && a in Cards(s)
    ensures a in plan.natural && plan.natural[a] == Figure(s, review, (a, s.accounts[a].currency))
  {
    hide *;
    CardIsLiability(s, a);
    NaturalIsFold(digest, s, review, pending, plan, a);
    RawCardBalance(digest, s, review, pending, plan, a);
  }

  lemma RawCardBalance(digest: Digest, s: Source, review: Review, pending: seq<Pending>, plan: Plan, a: Id)
    requires Injective(s.rank) && Plannable(s, review) && IsPlan(digest, s, review, pending, plan) && a in Cards(s)
    ensures a in s.accounts && Sum(EventNet(a), plan.events) == -Figure(s, review, (a, s.accounts[a].currency))
  {
    PlanIsOrdered(s, review);
    AllCanonical(s, review);
    var d := DecisionMap(review.transactions);
    assert Clean(s) && ValidReview(s, review) && Log(digest, s, d, pending, PlanTags(s, review));
    assert PlanTags(s, review) ==
           Posts(Sorted(Originals(s), s.rank)) + Reversals(Order(LinkGraph(s), Originals(s), s.rank))
           + Corrections(Sorted(Actions(review), s.rank)) + Assignments(Sorted(s.reporting, s.rank));
    assert a in s.accounts && plan.events == Chain(digest, pending);
    hide *;
    LogNet(digest, s, d, pending, PlanTags(s, review), a);
    TagsNet(s, review, d, Sorted(Originals(s), s.rank), Order(LinkGraph(s), Originals(s), s.rank),
            Sorted(Actions(review), s.rank), Sorted(s.reporting, s.rank), a);
    CardFigure(s, review, a);
  }

  /** So neither final check can fail. */
  lemma TerminalHolds(digest: Digest, s: Source, review: Review, pending: seq<Pending>, plan: Plan)
    requires Injective(s.rank) && Plannable(s, review) && IsPlan(digest, s, review, pending, plan)
    ensures TerminalOk(s, review, plan.natural)
  {
    hide Plannable, IsPlan, Injective, ExpectedHolds;
    forall i | 0 <= i < |review.expected| ensures ExpectedHolds(s, plan.natural, review.expected[i]) {
      ExpectedInPlan(digest, s, review, pending, plan, i);
    }
    forall i | 0 <= i < |review.aliases|
      ensures review.aliases[i] in plan.natural && plan.natural[review.aliases[i]] == 0
    {
      AliasInPlan(digest, s, review, pending, plan, i);
    }
  }

  lemma ExpectedInPlan(digest: Digest, s: Source, review: Review, pending: seq<Pending>, plan: Plan, i: nat)
    requires Injective(s.rank) && Plannable(s, review) && IsPlan(digest, s, review, pending, plan)
    requires i < |review.expected|
    ensures ExpectedHolds(s, plan.natural, review.expected[i])
  {
    assert ValidReview(s, review);
    hide Plannable, IsPlan, Injective, ValidReview, Cards, Figure;
    ExpectedCard(s, review, i);
    CardBalanceAgrees(digest, s, review, pending, plan, review.expected[i].account);
  }

  lemma AliasInPlan(digest: Digest, s: Source, review: Review, pending: seq<Pending>, plan: Plan, i: nat)
    requires Injective(s.rank) && Plannable(s, review) && IsPlan(digest, s, review, pending, plan)
    requires i < |review.aliases|
    ensures review.aliases[i] in plan.natural && plan.natural[review.aliases[i]] == 0
  {
    assert ValidReview(s, review);
    hide Plannable, IsPlan, Injective, ValidReview, Cards, Figure;
    AliasCard(s, review, i);
    CardBalanceAgrees(digest, s, review, pending, plan, review.aliases[i]);
  }

  lemma ExpectedCard(s: Source, review: Review, i: nat)
    requires ValidReview(s, review) && i < |review.expected|
    ensures var e := review.expected[i];
            && e.account in Cards(s) && e.account in s.accounts && s.accounts[e.account].currency == e.asset
            && e.units == Figure(s, review, (e.account, e.asset))
  {
    hide Figure, Covers, ValidDecision, ReversalAgrees;
    assert ExpectedKey(review.expected[i]) in Index(ExpectedKey, review.expected).Keys;
  }

  lemma AliasCard(s: Source, review: Review, i: nat)
    requires ValidReview(s, review) && i < |review.aliases|
    ensures var a := review.aliases[i];
            a in Cards(s) && a in s.accounts && Figure(s, review, (a, s.accounts[a].currency)) == 0
  {
    hide Figure, Covers, ValidDecision, ReversalAgrees;
    assert LegacyCard(s, review.aliases[i]);
  }

  // ---------------------------------------------------------------- reversals in the final list

  lemma PlanAccepts(digest: Digest, s: Source, review: Review, pending: seq<Pending>, plan: Plan, i: nat)
    requires Injective(s.rank) && IsPlan(digest, s, review, pending, plan) && i < |plan.events|
    ensures |pending| == |plan.events| && plan.events[i].pending == pending[i] && Accepts(plan.events[..i], pending[i])
    ensures forall j :: 0 <= j < i ==> plan.events[..i][j] == plan.events[j]
  {
    hide Chain, Accepts, PlanTags, NaturalOf, EachOk;
  }

  /** Every reversal comes after its target, names the target's hash in the final list, and inverts it leg by leg. */
  lemma ReversalsFollowTargets(digest: Digest, s: Source, review: Review, pending: seq<Pending>, plan: Plan, i: nat)
    requires Injective(s.rank) && IsPlan(digest, s, review, pending, plan)
    requires i < |plan.events| && plan.events[i].pending.payload.Reversed?
    ensures var p := plan.events[i].pending.payload;
            exists j :: 0 <= j < i && Carries(plan.events[j], p.reverses) && plan.events[j].hash == p.originalHash
                        && plan.events[j].pending.event == p.original
                        && Legs(p.postings) == Inverse(Legs(plan.events[j].pending.payload.postings))
  {
    PlanAccepts(digest, s, review, pending, plan, i);
    hide IsPlan, StreamIdentity, NewEvent;
    var j :| 0 <= j < i && ReversesEvent(pending[i], plan.events[..i][j]);
    assert plan.events[..i][j] == plan.events[j];
  }

  /** Positions run from one and every hash covers the one before it, starting from zero. */
  lemma {:induction false} ChainLinks(digest: Digest, pending: seq<Pending>, i: nat)
    requires i < |pending|
    ensures var events := Chain(digest, pending);
            && events[i].position == i + 1 && events[i].previous == (if i == 0 then ZERO_HASH else events[i - 1].hash)
            && events[i].hash == digest(pending[i], i + 1, events[i].previous)
  {
    var n := |pending| - 1;
    if i < n {
      ChainLinks(digest, pending[..n], i);
    } else {
      assert Chain(digest, pending)[..n] == Chain(digest, pending[..n]);
    }
  }

  // ---------------------------------------------------------------- the trial balance

  function AssetNet(asset: AssetCode): Event -> int {
    (e: Event) => if IsJournal(e.pending.payload) then Net(Legs(e.pending.payload.postings), asset) else 0
  }

  /** Every event balances, so the whole plan does. */
  lemma TrialBalanceIsZero(digest: Digest, s: Source, review: Review, pending: seq<Pending>, plan: Plan,
                           asset: AssetCode)
    requires Injective(s.rank) && Plannable(s, review) && IsPlan(digest, s, review, pending, plan)
    ensures forall i :: 0 <= i < |plan.events| && IsJournal(plan.events[i].pending.payload) ==>
              Balanced(Legs(plan.events[i].pending.payload.postings))
    ensures Sum(AssetNet(asset), plan.events) == 0
  {
    hide Log, Chain, Clean, ValidReview, Balanced;
    forall i | 0 <= i < |plan.events| && IsJournal(plan.events[i].pending.payload)
      ensures Balanced(Legs(plan.events[i].pending.payload.postings))
    {
      EventsBalance(digest, s, review, pending, PlanTags(s, review), i);
    }
    forall i | 0 <= i < |plan.events| ensures AssetNet(asset)(plan.events[i]) == 0 {
      if IsJournal(plan.events[i].pending.payload) { BalancedIn(Legs(plan.events[i].pending.payload.postings), asset); }
    }
    SumOfZeros(AssetNet(asset), plan.events);
  }

  lemma BalancedIn(legs: seq<Leg>, asset: AssetCode)
    requires Balanced(legs)
    ensures Net(legs, asset) == 0
  {
  }
}
