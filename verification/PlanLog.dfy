/** What every event of a compiled plan is, and why the compiler accepts it (planner.py, event_compiler.py). */
module PlanLog {
  import opened Ids
  import opened Outcomes
  import opened Sums
  import opened Journal
  import opened Frozen
  import opened CardReview
  import opened Compiler

  /** Posting decisions of the whole review, by posting identity. */
  function DecisionMap(ds: seq<TransactionDecision>): map<Id, PostingDecision> {
    if ds == [] then map[] else DecisionMap(ds[..|ds| - 1]) + Decided(ds[|ds| - 1])
  }

  type DecisionTable = map<Id, PostingDecision>

  function Facts(s: Source, d: DecisionTable, t: Id): Option<seq<Fact>> { FactsOf(s.scales, d, t, s.postings) }

  predicate Carries(e: Event, t: TransactionId) { IsJournal(e.pending.payload) && e.pending.payload.transaction == t }

  function Imported(s: Source): Envelope { Envelope(s.command, IMPORT_ACTOR, s.command) }

  function OriginalEvent(s: Source, t: Id, facts: seq<Fact>): Pending {
    Pending(Post(t), JournalTransaction, OfSource(t), Posted(OfSource(t), facts), None, Imported(s))
  }

  function ReversalEvent(s: Source, t: Id, target: Event, facts: seq<Fact>): Pending
    requires IsJournal(target.pending.payload)
  {
    Pending(Reverse(t), JournalTransaction, OfSource(t),
            Reversed(OfSource(t), target.pending.payload.transaction, target.pending.event, target.hash, facts),
            Some(target.pending.event), Imported(s))
  }

  function CorrectionEvent(s: Source, t: Id, target: Event): Pending
    requires IsJournal(target.pending.payload)
  {
    Pending(Neutralize(t), JournalTransaction, CorrectionOf(t),
            Reversed(CorrectionOf(t), target.pending.payload.transaction, target.pending.event, target.hash,
                     InverseFacts(t, target.pending.payload.postings)),
            Some(target.pending.event), Imported(s))
  }

  function ReportingEvent(s: Source, t: Id, target: Event): Pending {
    Pending(Assign(t), ReportingLines, OfSource(t), Reporting(OfSource(t)), Some(target.pending.event), Imported(s))
  }

  // ---------------------------------------------------------------- one event over the events before it

  ghost predicate Reverses(s: Source, d: DecisionTable, target: Event, t: Id, x: Pending) {
    && t in s.links && Carries(target, OfSource(s.links[t])) && Facts(s, d, t).Some?
    && x == ReversalEvent(s, t, target, Facts(s, d, t).value)
    && Legs(Facts(s, d, t).value) == Inverse(Legs(target.pending.payload.postings))
  }

  ghost predicate Corrects(s: Source, target: Event, t: Id, x: Pending) {
    Carries(target, OfSource(t)) && x == CorrectionEvent(s, t, target)
  }

  ghost predicate Reports(s: Source, target: Event, t: Id, x: Pending) {
    Carries(target, OfSource(t)) && target.pending.payload.Posted? && x == ReportingEvent(s, t, target)
  }

  ghost predicate EventOk(s: Source, d: DecisionTable, prefix: seq<Event>, x: Pending) {
    match x.event
    case Post(t) => t in s.transactions && t !in s.links && Facts(s, d, t).Some?
        && x == OriginalEvent(s, t, Facts(s, d, t).value)
    case Reverse(t) => t in s.transactions && exists j :: 0 <= j < |prefix| && Reverses(s, d, prefix[j], t, x)
    case Neutralize(t) => exists j :: 0 <= j < |prefix| && Corrects(s, prefix[j], t, x)
    case Assign(t) => t !in s.links && exists j :: 0 <= j < |prefix| && Reports(s, prefix[j], t, x)
  }

  /** The event is of its own kind, whatever came before. */
  ghost predicate Shape(s: Source, d: DecisionTable, x: Pending) {
    match x.event
    case Post(t) => t !in s.links && Facts(s, d, t).Some? && x == OriginalEvent(s, t, Facts(s, d, t).value)
    case Reverse(t) =>
      && t in s.links && Facts(s, d, t).Some? && x.streamType == JournalTransaction && x.stream == OfSource(t)
      && x.payload.Reversed? && x.payload.transaction == OfSource(t) && x.payload.postings == Facts(s, d, t).value
    case Neutralize(t) =>
      && x.streamType == JournalTransaction && x.stream == CorrectionOf(t) && x.payload.Reversed?
           && x.payload.transaction == CorrectionOf(t)
    case Assign(t) => x.streamType == ReportingLines && x.stream == OfSource(t) && x.payload.Reporting?
  }

  lemma OkHasEnvelope(s: Source, d: DecisionTable, prefix: seq<Event>, x: Pending)
    requires EventOk(s, d, prefix, x)
    ensures x.envelope == Envelope(s.command, IMPORT_ACTOR, s.command)
  {
    hide Facts;
  }

  lemma OkHasShape(s: Source, d: DecisionTable, prefix: seq<Event>, x: Pending)
    requires EventOk(s, d, prefix, x)
    ensures Shape(s, d, x)
  {
    hide Facts;
  }

  /** Different events are on different streams. */
  lemma StreamsApart(s: Source, d: DecisionTable, x: Pending, y: Pending)
    requires Shape(s, d, x) && Shape(s, d, y) && x.event != y.event
    ensures (x.streamType, x.stream) != (y.streamType, y.stream)
    ensures IsJournal(x.payload) && IsJournal(y.payload) ==> x.payload.transaction != y.payload.transaction
  {
    hide Facts;
  }

  lemma CarriesSource(s: Source, d: DecisionTable, e: Event, t: Id)
    requires Shape(s, d, e.pending) && Carries(e, OfSource(t))
    ensures e.pending.event == if t in s.links then Reverse(t) else Post(t)
    ensures Facts(s, d, t).Some? && e.pending.payload.postings == Facts(s, d, t).value
    ensures t !in s.links ==> e.pending.payload.Posted?
  {
    hide Facts;
  }

  // ---------------------------------------------------------------- the log

  /** A pending list whose every event is what it should be over the chain compiled before it. */
  ghost predicate Log(digest: Digest, s: Source, d: DecisionTable, pending: seq<Pending>, tags: seq<EventId>) {
    && |tags| == |pending| && Distinct(tags)
    && (forall i :: 0 <= i < |tags| ==> pending[i].event == tags[i])
    && EachOk(s, d, pending, Chain(digest, pending)) && Compilable(digest, pending)
  }

  ghost predicate EachOk(s: Source, d: DecisionTable, pending: seq<Pending>, events: seq<Event>) {
    |events| == |pending| && forall i :: 0 <= i < |pending| ==> EventOk(s, d, events[..i], pending[i])
  }

  lemma EachOkGrows(s: Source, d: DecisionTable, pending: seq<Pending>, events: seq<Event>, x: Pending,
                    grown: seq<Event>)
    requires EachOk(s, d, pending, events) && EventOk(s, d, events, x) && |grown| == |events| + 1
    requires grown[..|events|] == events
    ensures EachOk(s, d, pending + [x], grown)
  {
    hide EventOk;
    forall i | 0 <= i < |pending| + 1 ensures EventOk(s, d, grown[..i], (pending + [x])[i]) {
      if i < |pending| {
        assert grown[..i] == events[..i];
        assert EventOk(s, d, events[..i], pending[i]);
      }
    }
  }

  lemma FactIds(s: Source, d: DecisionTable, t: Id, u: Id)
    requires Facts(s, d, t).Some? && Facts(s, d, u).Some?
    ensures t != u ==> PostingIds(Facts(s, d, t).value) !! PostingIds(Facts(s, d, u).value)
    ensures PostingIds(InverseFacts(u, Facts(s, d, t).value)) !! PostingIds(Facts(s, d, t).value)
  {
    var f, g, h := Facts(s, d, t).value, Facts(s, d, u).value, InverseFacts(u, Facts(s, d, t).value);
    assert forall id :: id in PostingIds(f) ==> id.SourcePosting? && id.transaction == t;
    assert forall id :: id in PostingIds(g) ==> id.SourcePosting? && id.transaction == u;
    assert forall id :: id in PostingIds(h) ==> id.InversePosting?;
  }

  ghost predicate Shaped(s: Source, d: DecisionTable, events: seq<Event>) {
    && (forall i :: 0 <= i < |events| ==> Shape(s, d, events[i].pending))
    && forall i, j :: 0 <= i < j < |events| ==> events[i].pending.event != events[j].pending.event
  }

  ghost predicate Fresh(events: seq<Event>, x: Pending) {
    && (forall i :: 0 <= i < |events| ==> events[i].pending.event != x.event)
    && (IsJournal(x.payload) ==> JournalOnly(events))
  }

  lemma ReversalMatches(s: Source, d: DecisionTable, events: seq<Event>, x: Pending, j: nat)
    requires Shaped(s, d, events) && Fresh(events, x) && j < |events| && x.event.Reverse?
    requires Reverses(s, d, events[j], x.event.source, x)
    ensures ReversesEvent(x, events[j])
  {
    hide Facts;
    var t := x.event.source;
    CarriesSource(s, d, events[j], s.links[t]);
    FactIds(s, d, t, s.links[t]);
  }

  lemma CorrectionMatches(s: Source, d: DecisionTable, events: seq<Event>, x: Pending, j: nat)
    requires Shaped(s, d, events) && j < |events| && x.event.Neutralize? && Corrects(s, events[j], x.event.source, x)
    ensures ReversesEvent(x, events[j])
  {
    hide Facts;
    var t := x.event.source;
    CarriesSource(s, d, events[j], t);
    FactIds(s, d, t, t);
  }

  lemma ReportMatches(s: Source, d: DecisionTable, events: seq<Event>, x: Pending, j: nat)
    requires Shaped(s, d, events) && j < |events| && x.event.Assign? && x.event.source !in s.links
    requires Reports(s, events[j], x.event.source, x)
    ensures StreamIdentity(events, x)
  {
    hide Facts;
    var t := x.event.source;
    CarriesSource(s, d, events[j], t);
    assert FindJournal(events, OfSource(t)).Some?;
    var found := FindJournal(events, OfSource(t)).value;
    var i :| 0 <= i < |events| && events[i] == found;
    CarriesSource(s, d, events[i], t);
    assert i == j;
  }

  lemma NextIsNew(s: Source, d: DecisionTable, events: seq<Event>, x: Pending)
    requires Shaped(s, d, events) && Fresh(events, x) && Shape(s, d, x)
    ensures NewEvent(events, x)
    ensures IsJournal(x.payload) ==> FindJournal(events, x.payload.transaction) == None
  {
    hide Shape, FindJournal;
    forall i | 0 <= i < |events|
      ensures (events[i].pending.streamType, events[i].pending.stream) != (x.streamType, x.stream)
      ensures IsJournal(events[i].pending.payload) && IsJournal(x.payload) ==>
                events[i].pending.payload.transaction != x.payload.transaction
    {
      StreamsApart(s, d, events[i].pending, x);
    }
  }

  /** No check of the compiler can fail on an event that is what it should be. */
  lemma NextIsAccepted(s: Source, d: DecisionTable, events: seq<Event>, x: Pending)
    requires Shaped(s, d, events) && Fresh(events, x) && EventOk(s, d, events, x)
    ensures Accepts(events, x)
  {
    hide Facts, ReversesEvent, FindJournal, NewEvent;
    OkHasShape(s, d, events, x);
    NextIsNew(s, d, events, x);
    hide Shaped;
    match x.event {
      case Post(_) =>
      case Reverse(t) =>
        var j :| 0 <= j < |events| && Reverses(s, d, events[j], t, x);
        ReversalMatches(s, d, events, x, j);
      case Neutralize(t) =>
        var j :| 0 <= j < |events| && Corrects(s, events[j], t, x);
        CorrectionMatches(s, d, events, x, j);
      case Assign(t) =>
        var j :| 0 <= j < |events| && Reports(s, events[j], t, x);
        ReportMatches(s, d, events, x, j);
    }
  }

  lemma LogIsShaped(digest: Digest, s: Source, d: DecisionTable, pending: seq<Pending>, tags: seq<EventId>)
    requires Log(digest, s, d, pending, tags)
    ensures Shaped(s, d, Chain(digest, pending))
  {
    hide Compilable, EventOk, Shape;
    var events := Chain(digest, pending);
    forall i | 0 <= i < |events| ensures Shape(s, d, events[i].pending) { OkHasShape(s, d, events[..i], pending[i]); }
    forall i, j | 0 <= i < j < |events| ensures events[i].pending.event != events[j].pending.event {
      assert tags[i] != tags[j];
    }
  }

  /** Journal events are never added once reporting has begun. */
  predicate MayFollow(tags: seq<EventId>, tag: EventId) {
    tag !in tags && (tag.Assign? || forall i :: 0 <= i < |tags| ==> !tags[i].Assign?)
  }

  lemma LogGrows(digest: Digest, s: Source, d: DecisionTable, pending: seq<Pending>, tags: seq<EventId>, x: Pending)
    requires Log(digest, s, d, pending, tags) && MayFollow(tags, x.event) && EventOk(s, d, Chain(digest, pending), x)
    ensures Log(digest, s, d, pending + [x], tags + [x.event])
    ensures Chain(digest, pending + [x])[..|pending|] == Chain(digest, pending)
  {
    hide EventOk, Shape, Accepts, Shaped, Compilable, EachOk, Chain;
    var events := Chain(digest, pending);
    LogIsShaped(digest, s, d, pending, tags);
    OkHasShape(s, d, events, x);
    FreshAfter(s, d, pending, tags, events, x);
    NextIsAccepted(s, d, events, x);
    CompilableAppends(digest, pending, x);
    ChainAppends(digest, pending, x);
    EachOkGrows(s, d, pending, events, x, Chain(digest, pending + [x]));
  }

  lemma FreshAfter(s: Source, d: DecisionTable, pending: seq<Pending>, tags: seq<EventId>, events: seq<Event>,
                   x: Pending)
    requires Shaped(s, d, events) && |tags| == |pending| == |events| && Shape(s, d, x) && MayFollow(tags, x.event)
    requires forall i :: 0 <= i < |tags| ==> pending[i].event == tags[i] && events[i].pending == pending[i]
    ensures Fresh(events, x)
  {
    hide Facts;
    if IsJournal(x.payload) {
      forall i | 0 <= i < |events| ensures IsJournal(events[i].pending.payload) {
        assert Shape(s, d, events[i].pending) && !tags[i].Assign?;
      }
    }
  }
}
