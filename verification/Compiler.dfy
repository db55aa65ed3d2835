/** Hash-chained compilation of an ordered event list (event_compiler.py). */
module Compiler {
  import opened Ids
  import opened Outcomes
  import opened Sums
  import opened Journal
  import opened Frozen

  type Hash = nat

  datatype EventId = Post(source: Id) | Reverse(source: Id) | Neutralize(source: Id) | Assign(source: Id)

  datatype TransactionId = OfSource(source: Id) | CorrectionOf(source: Id)

  datatype Payload =
    | Posted(transaction: TransactionId, postings: seq<Fact>)
    | Reversed(transaction: TransactionId, reverses: TransactionId, original: EventId, originalHash: Hash,
               postings: seq<Fact>)
    | Reporting(transaction: TransactionId)

  datatype StreamType = JournalTransaction | ReportingLines

  /** The command, actor and correlation an event is recorded under. */
  datatype Envelope = Envelope(command: Id, actor: Id, correlation: Id)

  datatype Pending = Pending(event: EventId, streamType: StreamType, stream: TransactionId, payload: Payload,
                             causation: Option<EventId>, envelope: Envelope)

  const IMPORT_ACTOR: Id := 0

  /** All events share one command, the import actor records them, and they correlate to their command. */
  predicate OneCommand(pending: seq<Pending>) {
    forall i :: 0 <= i < |pending| ==>
      pending[i].envelope == Envelope(pending[0].envelope.command, IMPORT_ACTOR, pending[0].envelope.command)
  }

  datatype Event = Event(pending: Pending, position: nat, previous: Hash, hash: Hash)

  /** Digest of one event at a position, over the digest before it. */
  type Digest = (Pending, nat, Hash) -> Hash

  const ZERO_HASH: Hash := 0

  function LastHash(events: seq<Event>): Hash { if events == [] then ZERO_HASH else events[|events| - 1].hash }

  function Chain(digest: Digest, pending: seq<Pending>): (r: seq<Event>)
    ensures |r| == |pending|
    ensures forall i :: 0 <= i < |r| ==> r[i].pending == pending[i] && r[i].position == i + 1
  {
    if pending == [] then [] else
      var before := Chain(digest, pending[..|pending| - 1]);
      var last := pending[|pending| - 1];
      before + [Event(last, |pending|, LastHash(before), digest(last, |pending|, LastHash(before)))]
  }

  /** Compiling more events never changes those already compiled. */
  lemma {:induction false} PrefixIsStable(digest: Digest, pending: seq<Pending>, n: nat)
    requires n <= |pending|
    ensures Chain(digest, pending[..n]) == Chain(digest, pending)[..n]
  {
    if n == |pending| {
      assert pending[..n] == pending;
    } else {
      var m := |pending| - 1;
      PrefixIsStable(digest, pending[..m], n);
      assert pending[..m][..n] == pending[..n];
      ChainIsLonger(digest, pending);
      hide Chain;
    }
  }

  lemma ChainIsLonger(digest: Digest, pending: seq<Pending>)
    requires pending != []
    ensures var before := Chain(digest, pending[..|pending| - 1]);
            var last := pending[|pending| - 1];
            Chain(digest, pending) ==
            before + [Event(last, |pending|, LastHash(before), digest(last, |pending|, LastHash(before)))]
  {
  }

  lemma ChainAppends(digest: Digest, pending: seq<Pending>, x: Pending)
    ensures Chain(digest, pending + [x])[..|pending|] == Chain(digest, pending)
  {
    assert (pending + [x])[..|pending|] == pending;
    PrefixIsStable(digest, pending + [x], |pending|);
  }

  predicate IsJournal(p: Payload) { p.Posted? || p.Reversed? }

  /** The last event recorded for a journal transaction, if there is one. */
  function FindJournal(events: seq<Event>, t: TransactionId): (r: Option<Event>)
    ensures r == None <==> forall i :: 0 <= i < |events| && IsJournal(events[i].pending.payload) ==>
              events[i].pending.payload.transaction != t
    ensures r.Some? ==>
              r.value in events && IsJournal(r.value.pending.payload)
              && r.value.pending.payload.transaction == t
  {
    if events == [] then None else
      var last := events[|events| - 1];
      if IsJournal(last.pending.payload) && last.pending.payload.transaction == t then Some(last)
      else FindJournal(events[..|events| - 1], t)
  }

  ghost predicate JournalOnly(events: seq<Event>) {
    forall i :: 0 <= i < |events| ==> IsJournal(events[i].pending.payload)
  }

  ghost function PostingIds(facts: seq<Fact>): set<FactId> { set i | 0 <= i < |facts| :: facts[i].id }

  /** A reversal names an event of the prefix by id and hash and posts its exact inverse under new posting ids. */
  ghost predicate ReversesEvent(x: Pending, e: Event)
    requires x.payload.Reversed?
  {
    && e.pending.event == x.payload.original && IsJournal(e.pending.payload)
    && e.hash == x.payload.originalHash && x.causation == Some(e.pending.event)
    && e.pending.payload.transaction == x.payload.reverses
    && PostingIds(e.pending.payload.postings) !! PostingIds(x.payload.postings)
    && Legs(x.payload.postings) == Inverse(Legs(e.pending.payload.postings))
  }

  ghost predicate StreamIdentity(prefix: seq<Event>, x: Pending) {
    match x.payload
    case Posted(t, _) =>
      JournalOnly(prefix) && x.streamType == JournalTransaction && x.stream == t && x.causation == None
          && FindJournal(prefix, t) == None
    case Reversed(t, _, _, _, _) =>
      JournalOnly(prefix) && x.streamType == JournalTransaction && x.stream == t && FindJournal(prefix, t) == None
    case Reporting(t) =>
      && x.streamType == ReportingLines && x.stream == t
      && FindJournal(prefix, t).Some? && FindJournal(prefix, t).value.pending.payload.Posted?
      && x.causation == Some(FindJournal(prefix, t).value.pending.event)
  }

  ghost predicate NewEvent(prefix: seq<Event>, x: Pending) {
    && (forall i :: 0 <= i < |prefix| ==> prefix[i].pending.event != x.event)
    && (forall i :: 0 <= i < |prefix| ==>
         (prefix[i].pending.streamType, prefix[i].pending.stream) != (x.streamType, x.stream))
  }

  ghost predicate Accepts(prefix: seq<Event>, x: Pending) {
    && NewEvent(prefix, x) && StreamIdentity(prefix, x)
    && (x.payload.Reversed? ==> exists i :: 0 <= i < |prefix| && ReversesEvent(x, prefix[i]))
  }

  /** The whole list compiles: every event is accepted on the events compiled before it. */
  ghost predicate Compilable(digest: Digest, pending: seq<Pending>) {
    forall i :: 0 <= i < |pending| ==> Accepts(Chain(digest, pending)[..i], pending[i])
  }

  lemma CompilableAppends(digest: Digest, pending: seq<Pending>, x: Pending)
    requires Compilable(digest, pending) && Accepts(Chain(digest, pending), x)
    ensures Compilable(digest, pending + [x])
  {
    ChainAppends(digest, pending, x);
    hide Accepts, Chain;
    var before, events := Chain(digest, pending), Chain(digest, pending + [x]);
    forall i | 0 <= i < |pending| + 1 ensures Accepts(events[..i], (pending + [x])[i]) {
      assert events[..i] == before[..i];
      if i < |pending| {
        assert Accepts(before[..i], pending[i]);
      } else {
        assert before[..i] == before;
      }
    }
  }

  // ---------------------------------------------------------------- the compiler's loop

  method CompileEvents(digest: Digest, pending: seq<Pending>) returns (r: Option<seq<Event>>)
    ensures r == if pending != [] && OneCommand(pending) && Compilable(digest, pending)
                 then Some(Chain(digest, pending)) else None
  {
    hide Accepts, OneCommand;
    if pending == [] { return None; }
    var streams := StreamsDistinct(pending);
    if !streams {
      RepeatedStreamIsRefused(digest, pending);
      return None;
    }
    var enveloped := EnvelopesAgree(pending);
    if !enveloped { return None; }
    var previous := ZERO_HASH;
    var planned: seq<Event> := [];
    var byId: map<EventId, Event> := map[];
    StartsEmpty(digest, pending);
    var journal: map<TransactionId, Event> := map[];
    var reportingStarted := false;
    hide Chain, ById, Journaled, Compilable;
    for i := 0 to |pending|
      invariant planned == Chain(digest, pending[..i]) && previous == LastHash(planned)
      invariant ById(byId, planned) && Journaled(journal, reportingStarted, planned)
      invariant Compilable(digest, pending[..i])
    {
      var x := pending[i];
      var ok := Validate(planned, byId, journal, reportingStarted, x, pending);
      if !ok {
        RefusedStaysRefused(digest, pending, i);
        return None;
      }
      ChainGrows(digest, pending, i);
      var event := Event(x, i + 1, previous, digest(x, i + 1, previous));
      ByIdGrows(byId, planned, x.event, event);
      journal, reportingStarted := Record(journal, reportingStarted, planned, event);
      planned, byId, previous := planned + [event], byId[x.event := event], event.hash;
    }
    assert pending[..|pending|] == pending;
    r := Some(planned);
  }

  lemma StartsEmpty(digest: Digest, pending: seq<Pending>)
    ensures Chain(digest, pending[..0]) == [] && Compilable(digest, pending[..0])
    ensures ById(map[], []) && Journaled(map[], false, [])
  {
  }

  lemma ChainGrows(digest: Digest, pending: seq<Pending>, i: nat)
    requires i < |pending| && Compilable(digest, pending[..i]) && Accepts(Chain(digest, pending[..i]), pending[i])
    ensures var before := Chain(digest, pending[..i]);
            Chain(digest, pending[..i + 1]) ==
            before + [Event(pending[i], i + 1, LastHash(before), digest(pending[i], i + 1, LastHash(before)))]
    ensures Compilable(digest, pending[..i + 1])
  {
    hide *;
    Prefixes(pending, i);
    CompilableAppends(digest, pending[..i], pending[i]);
    ChainIsLonger(digest, pending[..i + 1]);
  }

  lemma Prefixes(pending: seq<Pending>, i: nat)
    requires i < |pending|
    ensures pending[..i + 1] == pending[..i] + [pending[i]] && pending[..i + 1][..i] == pending[..i]
    ensures |pending[..i + 1]| == i + 1 && pending[..i + 1][i] == pending[i]
  {
  }

  /** The index by event id: everything planned and nothing else. */
  ghost predicate ById(byId: map<EventId, Event>, planned: seq<Event>) {
    && (forall i :: 0 <= i < |planned| ==>
         planned[i].pending.event in byId && byId[planned[i].pending.event] == planned[i])
    && (forall id :: id in byId ==> byId[id] in planned && byId[id].pending.event == id)
  }

  /** The last event of each journal transaction, and whether a reporting event has been planned. */
  ghost predicate Journaled(journal: map<TransactionId, Event>, reportingStarted: bool, planned: seq<Event>) {
    && (reportingStarted <==> !JournalOnly(planned))
    && forall t :: FindJournal(planned, t) == if t in journal then Some(journal[t]) else None
  }

  /** What the loop remembers of one more planned event. */
  method Record(journal: map<TransactionId, Event>, reportingStarted: bool, ghost planned: seq<Event>, e: Event)
    returns (j: map<TransactionId, Event>, started: bool)
    requires Journaled(journal, reportingStarted, planned)
    ensures Journaled(j, started, planned + [e])
  {
    ghost var grown := planned + [e];
    assert grown[..|planned|] == planned && grown[|planned|] == e;
    assert JournalOnly(grown) <==> JournalOnly(planned) && IsJournal(e.pending.payload) by {
      assert forall i :: 0 <= i < |planned| ==> grown[i] == planned[i];
      assert JournalOnly(grown) ==> IsJournal(grown[|planned|].pending.payload);
    }
    j, started := journal, reportingStarted;
    match e.pending.payload {
      case Posted(t, _) => j := journal[t := e];
      case Reversed(t, _, _, _, _) => j := journal[t := e];
      case Reporting(_) => started := true;
    }
  }

  lemma ByIdGrows(byId: map<EventId, Event>, planned: seq<Event>, id: EventId, e: Event)
    requires ById(byId, planned) && e.pending.event == id && id !in byId
    ensures ById(byId[id := e], planned + [e])
  {
    var m := byId[id := e];
    forall k | k in m ensures m[k] in planned + [e] && m[k].pending.event == k {
      assert (planned + [e])[|planned|] == e;
      assert k != id ==> byId[k] in planned;
    }
  }

  lemma CommandsAreOne(pending: seq<Pending>, commands: set<Id>)
    requires pending != [] && commands == set j | 0 <= j < |pending| :: pending[j].envelope.command
    ensures OneCommand(pending) ==> |commands| == 1
  {
    if OneCommand(pending) { assert commands == {pending[0].envelope.command}; }
  }

  method EnvelopesAgree(pending: seq<Pending>) returns (ok: bool)
    requires pending != []
    ensures ok <==> OneCommand(pending)
  {
    var commands: set<Id> := {};
    for i := 0 to |pending|
      invariant commands == set j | 0 <= j < i :: pending[j].envelope.command
    {
      commands := commands + {pending[i].envelope.command};
    }
    CommandsAreOne(pending, commands);
    if |commands| != 1 { return false; }
    SingletonSet(commands, pending[0].envelope.command);
    for i := 0 to |pending|
      invariant forall j :: 0 <= j < i ==>
                  pending[j].envelope.actor == IMPORT_ACTOR
                      && pending[j].envelope.correlation == pending[j].envelope.command
    {
      if pending[i].envelope.actor != IMPORT_ACTOR || pending[i].envelope.correlation != pending[i].envelope.command {
        return false;
      }
    }
    assert forall j :: 0 <= j < |pending| ==> pending[j].envelope.command in commands;
    ok := true;
  }

  method StreamsDistinct(pending: seq<Pending>) returns (ok: bool)
    ensures ok <==> forall i, j :: 0 <= i < j < |pending| ==>
                      (pending[i].streamType, pending[i].stream) != (pending[j].streamType, pending[j].stream)
  {
    var seen: set<(StreamType, TransactionId)> := {};
    for i := 0 to |pending|
      invariant forall k :: k in seen <==> exists j :: 0 <= j < i && (pending[j].streamType, pending[j].stream) == k
      invariant forall j, k :: 0 <= j < k < i ==>
                  (pending[j].streamType, pending[j].stream) != (pending[k].streamType, pending[k].stream)
    {
      if (pending[i].streamType, pending[i].stream) in seen { return false; }
      seen := seen + {(pending[i].streamType, pending[i].stream)};
    }
    ok := true;
  }

  lemma RepeatedStreamIsRefused(digest: Digest, pending: seq<Pending>)
    requires exists i, j :: 0 <= i < j < |pending|
               && (pending[i].streamType, pending[i].stream) == (pending[j].streamType, pending[j].stream)
    ensures !Compilable(digest, pending)
  {
    var i, j :| 0 <= i < j < |pending|
        && (pending[i].streamType, pending[i].stream) == (pending[j].streamType, pending[j].stream);
    var prefix := Chain(digest, pending)[..j];
    assert prefix[i].pending == pending[i];
    assert !NewEvent(prefix, pending[j]);
  }

  lemma RefusedStaysRefused(digest: Digest, pending: seq<Pending>, i: nat)
    requires i < |pending| && !Accepts(Chain(digest, pending[..i]), pending[i])
    ensures !Compilable(digest, pending)
  {
    PrefixIsStable(digest, pending, i);
  }

  method Validate(planned: seq<Event>, byId: map<EventId, Event>, journal: map<TransactionId, Event>,
                  reportingStarted: bool, x: Pending, ghost pending: seq<Pending>)
    returns (ok: bool)
    requires Journaled(journal, reportingStarted, planned)
    requires ById(byId, planned) && |planned| < |pending| && x == pending[|planned|]
    requires forall j :: 0 <= j < |planned| ==> planned[j].pending == pending[j]
    requires forall i, j :: 0 <= i < j < |pending| ==>
               (pending[i].streamType, pending[i].stream) != (pending[j].streamType, pending[j].stream)
    ensures ok <==> Accepts(planned, x)
    ensures ok ==> x.event !in byId
  {
    if x.event in byId { return false; }
    assert NewEvent(planned, x);
    ok := CheckStream(planned, journal, reportingStarted, x);
    if !ok { return; }
    if x.payload.Reversed? {
      if x.payload.original !in byId { return false; }
      var e := byId[x.payload.original];
      ok := ValidateReversal(x, e);
      return;
    }
    ok := true;
  }

  /** The stream check of one event against what the loop has recorded. */
  method CheckStream(ghost planned: seq<Event>, journal: map<TransactionId, Event>, reportingStarted: bool, x: Pending)
    returns (ok: bool)
    requires Journaled(journal, reportingStarted, planned)
    ensures ok <==> StreamIdentity(planned, x)
  {
    hide FindJournal, JournalOnly;
    match x.payload {
      case Posted(t, _) =>
        ok := !reportingStarted && x.streamType == JournalTransaction && x.stream == t && x.causation == None
              && t !in journal;
      case Reversed(t, _, _, _, _) =>
        ok := !reportingStarted && x.streamType == JournalTransaction && x.stream == t && t !in journal;
      case Reporting(t) =>
        ok := x.streamType == ReportingLines && x.stream == t && t in journal
              && journal[t].pending.payload.Posted? && x.causation == Some(journal[t].pending.event);
    }
  }

  /** The exact-inverse check, posting by posting. */
  method ValidateReversal(x: Pending, e: Event) returns (ok: bool)
    requires x.payload.Reversed? && e.pending.event == x.payload.original
    ensures ok <==> ReversesEvent(x, e)
  {
    if !IsJournal(e.pending.payload) || e.hash != x.payload.originalHash || x.causation != Some(e.pending.event) {
      return false;
    }
    if e.pending.payload.transaction != x.payload.reverses { return false; }
    var source, inverse := e.pending.payload.postings, x.payload.postings;
    assert |Legs(inverse)| == |inverse|;
    if |source| != |inverse| { return false; }
    var sourceIds := set i | 0 <= i < |source| :: source[i].id;
    var inverseIds := set i | 0 <= i < |inverse| :: inverse[i].id;
    assert sourceIds == PostingIds(source) && inverseIds == PostingIds(inverse);
    if sourceIds !! inverseIds {
      for i := 0 to |source|
        invariant forall j :: 0 <= j < i ==> Legs(inverse)[j] == Inverse(Legs(source))[j]
      {
        var l, m := source[i].leg, inverse[i].leg;
        assert Legs(inverse)[i] == m;
        if m.position != l.position || m.account != l.account || m.asset != l.asset || m.units != l.units
            || m.side == l.side {
          return false;
        }
      }
      return true;
    }
    ok := false;
  }
}
