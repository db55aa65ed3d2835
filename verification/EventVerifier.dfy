/** The event pass of the streaming verifier (verification.py). */
module EventVerifier {
  import opened Ids
  import opened Outcomes

  type Hash = nat

  const ZERO_HASH: Hash := 0

  /** The hashed fields of an event; `content` stands for its stream, type, actor, times and payload. */
  datatype Envelope = Envelope(event: Id, book: Id, position: int, content: nat, previous: Hash)

  /** A stored row: the envelope, its hash, and the two columns the hash leaves out. */
  datatype Stored = Stored(envelope: Envelope, hash: Hash, globalSequence: int, recordedAt: int)

  datatype Head = Head(position: int, hash: Hash)

  type Heads = map<Id, Head>

  /** `contract` says whether the registry accepts the payload; `digest` is the event hash. */
  datatype Registry = Registry(contract: Envelope -> bool, digest: Envelope -> Hash)

  datatype Issue = InvalidContract(event: Id) | HashMismatch(event: Id) | PositionGap(book: Id)
                 | PreviousHashMismatch(event: Id) | EventsWithoutHead(book: Id)
                 | HeadPositionMismatch(book: Id) | HeadHashMismatch(book: Id)

  // ---------------------------------------------------------------- the declarative ledger

  function EventsOf(rows: seq<Stored>, book: Id): seq<Stored> {
    if rows == [] then [] else
      var n := |rows| - 1;
      EventsOf(rows[..n], book) + if rows[n].envelope.book == book then [rows[n]] else []
  }

  function LastHash(events: seq<Stored>): Hash { if events == [] then ZERO_HASH else events[|events| - 1].hash }

  predicate SoundEvent(g: Registry, e: Stored) { g.contract(e.envelope) && g.digest(e.envelope) == e.hash }

  predicate Linked(g: Registry, events: seq<Stored>, i: nat)
    requires i < |events|
  {
    && events[i].envelope.position == i + 1
    && events[i].envelope.previous == LastHash(events[..i])
    && SoundEvent(g, events[i])
  }

  /** Positions are exactly 1 to n, each previous hash is its predecessor's, and every hash recomputes. */
  predicate Chained(g: Registry, events: seq<Stored>) { forall i :: 0 <= i < |events| ==> Linked(g, events, i) }

  predicate HeadMatches(head: Head, events: seq<Stored>) { head == Head(|events|, LastHash(events)) }

  predicate SoundBook(g: Registry, heads: Heads, book: Id, events: seq<Stored>) {
    if book in heads then Chained(g, events) && HeadMatches(heads[book], events) else events == []
  }

  ghost predicate SoundLedger(g: Registry, heads: Heads, rows: seq<Stored>) {
    forall book: Id :: SoundBook(g, heads, book, EventsOf(rows, book))
  }

  /** Rows as the query returns them: by book, then position. */
  predicate Ordered(rows: seq<Stored>) {
    forall i, j :: 0 <= i < j < |rows| ==>
      rows[i].envelope.book < rows[j].envelope.book
      || (rows[i].envelope.book == rows[j].envelope.book && rows[i].envelope.position <= rows[j].envelope.position)
  }

  // ---------------------------------------------------------------- the streaming pass

  /** What the loop carries about the Book it is in. */
  datatype Cursor = Cursor(book: Option<Id>, head: Option<Head>, count: nat, previous: Hash, expected: int)

  const START := Cursor(None, None, 0, ZERO_HASH, 1)

  predicate Follows(heads: Heads, rows: seq<Stored>, c: Cursor) {
    match c.book
    case None => rows == [] && c == START
    case Some(b) =>
      var events := EventsOf(rows, b);
      && rows != [] && rows[|rows| - 1].envelope.book == b
      && c.head == (if b in heads then Some(heads[b]) else None)
      && c.count == |events| && events != []
      && (c.head.Some? ==> c.previous == LastHash(events) && c.expected == |events| + 1)
  }

  predicate Seen(rows: seq<Stored>, b: Id) { exists i :: 0 <= i < |rows| && rows[i].envelope.book == b }

  // ---------------------------------------------------------------- what each issue means

  /** What is wrong with the event at place `i` of its Book. */
  predicate EventDefect(g: Registry, events: seq<Stored>, i: int, x: Issue) {
    && 0 <= i < |events|
    && match x
       case PositionGap(book) => book == events[i].envelope.book && events[i].envelope.position != i + 1
       case PreviousHashMismatch(event) =>
         event == events[i].envelope.event && events[i].envelope.previous != LastHash(events[..i])
       case InvalidContract(event) => event == events[i].envelope.event && !g.contract(events[i].envelope)
       case HashMismatch(event) =>
         event == events[i].envelope.event && g.contract(events[i].envelope)
         && g.digest(events[i].envelope) != events[i].hash
       case _ => false
  }

  /** What is wrong with a Book's head. */
  predicate HeadDefect(heads: Heads, b: Id, events: seq<Stored>, x: Issue) {
    match x
    case EventsWithoutHead(book) => book == b && b !in heads && events != []
    case HeadPositionMismatch(book) => book == b && b in heads && heads[b].position != |events|
    case HeadHashMismatch(book) => book == b && b in heads && heads[b].hash != LastHash(events)
    case _ => false
  }

  ghost predicate InEvents(g: Registry, heads: Heads, rows: seq<Stored>, b: Id, x: Issue) {
    b in heads && exists i :: EventDefect(g, EventsOf(rows, b), i, x)
  }

  /** The issue names something wrong with the ledger. */
  ghost predicate Defect(g: Registry, heads: Heads, rows: seq<Stored>, x: Issue) {
    exists b: Id :: HeadDefect(heads, b, EventsOf(rows, b), x) || InEvents(g, heads, rows, b, x)
  }

  /** A ledger with nothing wrong with it is a sound ledger. */
  lemma SoundIffNoDefect(g: Registry, heads: Heads, rows: seq<Stored>)
    ensures SoundLedger(g, heads, rows) <==> forall x :: !Defect(g, heads, rows, x)
  {
    hide EventsOf;
    if SoundLedger(g, heads, rows) {
      forall x, b: Id ensures !HeadDefect(heads, b, EventsOf(rows, b), x) && !InEvents(g, heads, rows, b, x) {
        SoundBookHasNoDefect(g, heads, b, EventsOf(rows, b), x);
      }
    }
    if forall x :: !Defect(g, heads, rows, x) {
      forall b: Id ensures SoundBook(g, heads, b, EventsOf(rows, b)) {
        var events := EventsOf(rows, b);
        forall x ensures !HeadDefect(heads, b, events, x) && !InEvents(g, heads, rows, b, x) {
          assert !Defect(g, heads, rows, x);
        }
        if b in heads {
          forall i, x ensures !EventDefect(g, events, i, x) { assert !InEvents(g, heads, rows, b, x); }
        }
        BookWithoutDefect(g, heads, b, events);
      }
    }
  }

  lemma SoundBookHasNoDefect(g: Registry, heads: Heads, b: Id, events: seq<Stored>, x: Issue)
    requires SoundBook(g, heads, b, events)
    ensures !HeadDefect(heads, b, events, x) && (b in heads ==> forall i :: !EventDefect(g, events, i, x))
  {
    if b in heads {
      forall i | 0 <= i < |events| ensures !EventDefect(g, events, i, x) { assert Linked(g, events, i); }
    }
  }

  lemma BookWithoutDefect(g: Registry, heads: Heads, b: Id, events: seq<Stored>)
    requires forall x :: !HeadDefect(heads, b, events, x)
    requires b in heads ==> forall i, x :: !EventDefect(g, events, i, x)
    ensures SoundBook(g, heads, b, events)
  {
    assert !HeadDefect(heads, b, events, EventsWithoutHead(b));
    assert !HeadDefect(heads, b, events, HeadPositionMismatch(b)) && !HeadDefect(heads, b, events, HeadHashMismatch(b));
    if b in heads {
      forall i | 0 <= i < |events| ensures Linked(g, events, i) {
        assert !EventDefect(g, events, i, PositionGap(events[i].envelope.book));
        assert !EventDefect(g, events, i, PreviousHashMismatch(events[i].envelope.event));
        assert !EventDefect(g, events, i, InvalidContract(events[i].envelope.event));
        assert !EventDefect(g, events, i, HashMismatch(events[i].envelope.event));
      }
    }
  }

  // ---------------------------------------------------------------- the loop

  /** Found so far: what is wrong with the heads of finished Books and with the events read. */
  ghost predicate Found(g: Registry, heads: Heads, rows: seq<Stored>, current: Option<Id>, x: Issue) {
    || (exists b: Id :: Seen(rows, b) && current != Some(b) && HeadDefect(heads, b, EventsOf(rows, b), x))
    || exists b: Id :: InEvents(g, heads, rows, b, x)
  }

  method FinishState(book: Id, count: nat, previous: Hash, head: Option<Head>) returns (issues: seq<Issue>)
    ensures forall x :: x in issues <==>
              || (head == None && count != 0 && x == EventsWithoutHead(book))
              || (head.Some? && head.value.position != count && x == HeadPositionMismatch(book))
              || (head.Some? && head.value.hash != previous && x == HeadHashMismatch(book))
  {
    issues := [];
    if head == None {
      if count != 0 { issues := [EventsWithoutHead(book)]; }
      return;
    }
    if head.value.position != count { issues := issues + [HeadPositionMismatch(book)]; }
    if head.value.hash != previous { issues := issues + [HeadHashMismatch(book)]; }
  }

  method FinishBook(g: Registry, heads: Heads, rows: seq<Stored>, c: Cursor) returns (issues: seq<Issue>)
    requires Follows(heads, rows, c) && c.book.Some?
    ensures forall x :: x in issues <==> HeadDefect(heads, c.book.value, EventsOf(rows, c.book.value), x)
  {
    hide EventsOf;
    issues := FinishState(c.book.value, c.count, c.previous, c.head);
  }

  method CheckEvent(g: Registry, e: Stored, c: Cursor, ghost events: seq<Stored>) returns (issues: seq<Issue>)
    requires c.previous == LastHash(events) && c.expected == |events| + 1
    ensures forall x :: x in issues <==> EventDefect(g, events + [e], |events|, x)
  {
    issues := [];
    if e.envelope.position != c.expected { issues := issues + [PositionGap(e.envelope.book)]; }
    if e.envelope.previous != c.previous { issues := issues + [PreviousHashMismatch(e.envelope.event)]; }
    if !g.contract(e.envelope) {
      issues := issues + [InvalidContract(e.envelope.event)];
    } else if g.digest(e.envelope) != e.hash {
      issues := issues + [HashMismatch(e.envelope.event)];
    }
    assert (events + [e])[..|events|] == events;
  }

  method VerifyEvents(g: Registry, heads: Heads, rows: seq<Stored>) returns (issues: seq<Issue>, total: nat)
    requires Ordered(rows)
    ensures forall x :: x in issues <==> Defect(g, heads, rows, x)
    ensures issues == [] <==> SoundLedger(g, heads, rows)
    ensures total == |rows|
  {
    hide EventsOf, Ordered, Follows, Found, HeadDefect, EventDefect, Seen, SoundLedger;
    issues, total := [], 0;
    var c := START;
    var headsLeft := heads.Keys;
    NothingRead(g, heads);
    assert rows[..0] == [];
    for i := 0 to |rows|
      invariant total == i && Follows(heads, rows[..i], c) && headsLeft == heads.Keys - Books(rows[..i])
      invariant forall x :: x in issues <==> Found(g, heads, rows[..i], c.book, x)
    {
      var e := rows[i];
      var book := e.envelope.book;
      if c.book != Some(book) {
        if c.book.Some? {
          var finished := FinishBook(g, heads, rows[..i], c);
          issues := issues + finished;
        }
        NewBook(g, heads, rows, i, c);
        c := Enter(heads, book);
        headsLeft := headsLeft - {book};
      } else {
        SameBook(heads, rows, i, c);
      }
      total := total + 1;
      ghost var before := c;
      c := c.(count := c.count + 1);
      if c.head.Some? {
        var found := CheckEvent(g, e, c, EventsOf(rows[..i], book));
        issues := issues + found;
        c := c.(previous := e.hash, expected := c.expected + 1);
      }
      OneEvent(g, heads, rows, i, before, c);
    }
    assert rows[..|rows|] == rows;
    if c.book.Some? {
      var finished := FinishBook(g, heads, rows, c);
      issues := issues + finished;
    }
    var rest := UnusedHeads(heads, headsLeft);
    issues := issues + rest;
    Finished(g, heads, rows, c, headsLeft);
    SoundIffNoDefect(g, heads, rows);
    hide Defect;
    assert issues == [] <==> forall x :: x !in issues by { if issues != [] { assert issues[0] in issues; } }
  }

  function Books(rows: seq<Stored>): (r: set<Id>)
    ensures forall b :: b in r <==> Seen(rows, b)
  {
    set i | 0 <= i < |rows| :: rows[i].envelope.book
  }

  function Enter(heads: Heads, b: Id): Cursor {
    Cursor(Some(b), if b in heads then Some(heads[b]) else None, 0, ZERO_HASH, 1)
  }

  /** A cursor for the Book of the next event: within the Book, or fresh for a Book not seen before. */
  ghost predicate Entering(heads: Heads, rows: seq<Stored>, b: Id, c: Cursor) {
    && c.book == Some(b) && c.head == (if b in heads then Some(heads[b]) else None)
    && c.count == |EventsOf(rows, b)|
    && (c.head.Some? ==> c.previous == LastHash(EventsOf(rows, b)) && c.expected == |EventsOf(rows, b)| + 1)
  }

  lemma NothingRead(g: Registry, heads: Heads)
    ensures Follows(heads, [], START) && forall x :: !Found(g, heads, [], None, x)
    ensures heads.Keys == heads.Keys - Books([])
  {
    assert forall b: Id :: EventsOf([], b) == [];
  }

  lemma {:induction false} UnseenIsEmpty(rows: seq<Stored>, b: Id)
    ensures EventsOf(rows, b) == [] <==> !Seen(rows, b)
  {
    if rows != [] {
      var n := |rows| - 1;
      UnseenIsEmpty(rows[..n], b);
      SeenOther(rows[..n], rows[n], b);
      assert rows == rows[..n] + [rows[n]];
    }
  }

  lemma SeenOther(rows: seq<Stored>, e: Stored, x: Id)
    ensures Seen(rows + [e], x) <==> Seen(rows, x) || e.envelope.book == x
  {
    if Seen(rows + [e], x) {
      var k :| 0 <= k < |rows| + 1 && (rows + [e])[k].envelope.book == x;
      assert k < |rows| ==> rows[k].envelope.book == x;
    }
    if Seen(rows, x) {
      var k :| 0 <= k < |rows| && rows[k].envelope.book == x;
      assert (rows + [e])[k].envelope.book == x;
    }
    assert (rows + [e])[|rows|] == e;
  }

  lemma EventsAppend(rows: seq<Stored>, e: Stored)
    ensures forall b: Id :: EventsOf(rows + [e], b) ==
              if e.envelope.book == b then EventsOf(rows, b) + [e] else EventsOf(rows, b)
  {
    assert (rows + [e])[..|rows|] == rows;
  }

  lemma SameBook(heads: Heads, rows: seq<Stored>, i: nat, c: Cursor)
    requires i < |rows| && Follows(heads, rows[..i], c) && c.book == Some(rows[i].envelope.book)
    ensures Entering(heads, rows[..i], rows[i].envelope.book, c) && Seen(rows[..i], rows[i].envelope.book)
  {
    hide EventsOf;
  }

  /** Finishing the current Book leaves nothing current; the next Book has not been seen, by the order of the rows. */
  lemma NewBook(g: Registry, heads: Heads, rows: seq<Stored>, i: nat, c: Cursor)
    requires i < |rows| && Ordered(rows) && Follows(heads, rows[..i], c) && c.book != Some(rows[i].envelope.book)
    ensures !Seen(rows[..i], rows[i].envelope.book)
    ensures Entering(heads, rows[..i], rows[i].envelope.book, Enter(heads, rows[i].envelope.book))
    ensures forall x :: Found(g, heads, rows[..i], Some(rows[i].envelope.book), x) <==>
              Found(g, heads, rows[..i], c.book, x)
              || (c.book.Some? && HeadDefect(heads, c.book.value, EventsOf(rows[..i], c.book.value), x))
  {
    var prefix, b := rows[..i], rows[i].envelope.book;
    assert i > 0 ==> prefix[i - 1] == rows[i - 1];
    assert forall k :: 0 <= k < i ==> prefix[k] == rows[k] && rows[k].envelope.book <= rows[i - 1].envelope.book;
    assert !Seen(prefix, b);
    UnseenIsEmpty(prefix, b);
    if c.book.Some? { CurrentIsSeen(heads, prefix, c); }
    hide EventsOf, Ordered, Follows, HeadDefect, InEvents, Seen;
  }

  lemma CurrentIsSeen(heads: Heads, rows: seq<Stored>, c: Cursor)
    requires Follows(heads, rows, c) && c.book.Some?
    ensures Seen(rows, c.book.value)
  {
    hide EventsOf;
    assert rows[|rows| - 1].envelope.book == c.book.value;
  }

  /** One more event of a Book with a head adds what is wrong with it, and nothing else. */
  lemma OneEvent(g: Registry, heads: Heads, rows: seq<Stored>, i: nat, before: Cursor, after: Cursor)
    requires i < |rows| && Entering(heads, rows[..i], rows[i].envelope.book, before)
    requires after == if before.head == None then before.(count := before.count + 1)
                      else before.(count := before.count + 1, previous := rows[i].hash, expected := before.expected + 1)
    ensures Follows(heads, rows[..i + 1], after)
    ensures heads.Keys - Books(rows[..i + 1]) == heads.Keys - Books(rows[..i]) - {rows[i].envelope.book}
    ensures forall x :: Found(g, heads, rows[..i + 1], after.book, x) <==>
              Found(g, heads, rows[..i], before.book, x)
              || (before.head.Some? &&
                  EventDefect(g, EventsOf(rows[..i], rows[i].envelope.book) + [rows[i]], before.count, x))
  {
    var e, prefix := rows[i], rows[..i];
    var b := e.envelope.book;
    assert rows[..i + 1] == prefix + [e];
    EventsAppend(prefix, e);
    forall x: Id ensures Seen(prefix + [e], x) <==> Seen(prefix, x) || b == x { SeenOther(prefix, e, x); }
    hide EventsOf, Seen, HeadDefect;
    forall x: Issue, c: Id
      ensures InEvents(g, heads, prefix + [e], c, x) <==>
                InEvents(g, heads, prefix, c, x)
                || (c == b && b in heads && EventDefect(g, EventsOf(prefix, b) + [e], before.count, x))
    {
      if c == b { DefectsGrow(g, EventsOf(prefix, b), e, x); }
    }
    hide EventDefect;
    assert LastHash(EventsOf(prefix, b) + [e]) == e.hash;
    forall x: Issue
      ensures Found(g, heads, prefix + [e], Some(b), x) <==>
                Found(g, heads, prefix, Some(b), x)
                || (b in heads && EventDefect(g, EventsOf(prefix, b) + [e], before.count, x))
    {
      hide InEvents;
      assert forall c: Id | c != b :: HeadDefect(heads, c, EventsOf(prefix + [e], c), x) <==>
                                        HeadDefect(heads, c, EventsOf(prefix, c), x);
      if b in heads && EventDefect(g, EventsOf(prefix, b) + [e], before.count, x) {
        assert InEvents(g, heads, prefix + [e], b, x);
      }
    }
  }

  lemma DefectsGrow(g: Registry, events: seq<Stored>, e: Stored, x: Issue)
    ensures (exists i :: EventDefect(g, events + [e], i, x)) <==>
              (exists i :: EventDefect(g, events, i, x)) || EventDefect(g, events + [e], |events|, x)
  {
    forall i | 0 <= i < |events| ensures EventDefect(g, events + [e], i, x) <==> EventDefect(g, events, i, x) {
      assert (events + [e])[..i] == events[..i];
    }
    if i :| EventDefect(g, events + [e], i, x) { assert i < |events| ==> EventDefect(g, events, i, x); }
    if i :| EventDefect(g, events, i, x) { assert EventDefect(g, events + [e], i, x); }
  }

  method UnusedHeads(heads: Heads, unused: set<Id>) returns (issues: seq<Issue>)
    requires unused <= heads.Keys
    ensures forall x :: x in issues <==> exists b :: b in unused && HeadDefect(heads, b, [], x)
  {
    issues := [];
    var left := unused;
    while left != {}
      invariant left <= unused
      invariant forall x :: x in issues <==> exists b :: b in unused && b !in left && HeadDefect(heads, b, [], x)
    {
      var b :| b in left;
      var found := FinishState(b, 0, ZERO_HASH, Some(heads[b]));
      assert forall x :: x in found <==> HeadDefect(heads, b, [], x);
      issues := issues + found;
      left := left - {b};
    }
  }

  lemma Finished(g: Registry, heads: Heads, rows: seq<Stored>, c: Cursor, unused: set<Id>)
    requires Follows(heads, rows, c) && unused == heads.Keys - Books(rows)
    ensures forall x :: Defect(g, heads, rows, x) <==>
              || Found(g, heads, rows, c.book, x)
              || (c.book.Some? && HeadDefect(heads, c.book.value, EventsOf(rows, c.book.value), x))
              || exists b :: b in unused && HeadDefect(heads, b, [], x)
  {
    if c.book.Some? { CurrentIsSeen(heads, rows, c); }
    forall b: Id ensures EventsOf(rows, b) == [] <==> !Seen(rows, b) { UnseenIsEmpty(rows, b); }
    hide EventsOf, Follows, InEvents, Seen;
    forall x, b: Id | HeadDefect(heads, b, [], x) ensures b in heads {}
    hide HeadDefect;
  }

  // ---------------------------------------------------------------- what a pass pins down

  /** With collision-free hashing, two Books that pass under the same head hold the same events on all hashed fields. */
  lemma {:induction false} SameHeadSameEvents(g: Registry, a: seq<Stored>, b: seq<Stored>)
    requires forall e, f :: g.digest(e) == g.digest(f) ==> e == f
    requires Chained(g, a) && Chained(g, b) && |a| == |b| && LastHash(a) == LastHash(b)
    ensures forall i :: 0 <= i < |a| ==> a[i].envelope == b[i].envelope && a[i].hash == b[i].hash
  {
    if a != [] {
      var n := |a| - 1;
      assert Linked(g, a, n) && Linked(g, b, n);
      Shorter(g, a);
      Shorter(g, b);
      SameHeadSameEvents(g, a[..n], b[..n]);
      forall i | 0 <= i < |a| ensures a[i].envelope == b[i].envelope && a[i].hash == b[i].hash {
        if i < n { assert a[..n][i] == a[i] && b[..n][i] == b[i]; }
      }
    }
  }

  lemma Shorter(g: Registry, a: seq<Stored>)
    requires Chained(g, a) && a != []
    ensures Chained(g, a[..|a| - 1])
  {
    var n := |a| - 1;
    forall i | 0 <= i < n ensures Linked(g, a[..n], i) {
      assert Linked(g, a, i) && a[..n][..i] == a[..i];
    }
  }

  lemma PassingLedgersAgree(g: Registry, heads: Heads, heads': Heads, rows: seq<Stored>, rows': seq<Stored>, book: Id)
    requires forall e, f :: g.digest(e) == g.digest(f) ==> e == f
    requires SoundLedger(g, heads, rows) && SoundLedger(g, heads', rows')
    requires book in heads && book in heads' && heads[book] == heads'[book]
    ensures var a, b := EventsOf(rows, book), EventsOf(rows', book);
            |a| == |b| && forall i :: 0 <= i < |a| ==> a[i].envelope == b[i].envelope && a[i].hash == b[i].hash
  {
    var a, b := EventsOf(rows, book), EventsOf(rows', book);
    assert SoundBook(g, heads, book, a) && SoundBook(g, heads', book, b);
    SameHeadSameEvents(g, a, b);
  }
}
