/** The crash-safe credential profile store (config.py) and the token refresh that runs on it (oauth_login.py). */
module ProfileStore {
  import opened Outcomes

  /** A refresh token is known by the moment the server handed it out. */
  datatype Token = Token(issued: nat)

  datatype Profile = Profile(access: nat, refresh: Option<Token>, expires: Option<int>, endpoint: bool,
                             scope: Option<nat>)

  /** The profile document: this profile's entry and the others', or text that is not a document. */
  datatype Doc = Profiles(own: Option<Profile>, others: map<nat, nat>) | Legacy(text: nat)

  const NO_FILE := Profiles(None, map[])

  datatype Disk = Disk(keyring: Option<Profile>, doc: Doc, blocked: bool)

  /** Whether the token file is named explicitly, and whether a keyring module is there: fixed for all processes. */
  datatype Config = Config(explicit: bool, keyringModule: bool)

  predicate UsesKeyring(c: Config) { c.keyringModule && !c.explicit }

  datatype LoadError = Blocked | InvalidDocument

  /** A bare token is its own access token; nothing can refresh it. */
  function LegacyProfile(text: nat): (p: Profile)
    ensures p.access == text && p.refresh == None && p.expires == None && !p.endpoint
  {
    Profile(text, None, None, false, None)
  }

  function Load(c: Config, d: Disk): Result<Option<Profile>, LoadError> {
    if d.blocked then Err(Blocked)
    else if UsesKeyring(c) && d.keyring.Some? then Ok(d.keyring)
    else match d.doc
      case Profiles(own, _) => Ok(own)
      case Legacy(text) => if c.explicit then Ok(Some(LegacyProfile(text))) else Err(InvalidDocument)
  }

  // ---------------------------------------------------------------- what a cleared marker promises

  /** The last operation whose marker was cleared. */
  datatype Committed = Nothing | Saved(profile: Profile) | Deleted

  function Own(d: Disk): Option<Profile> { if d.doc.Profiles? then d.doc.own else None }

  /** Without the marker the profile is in at most one store, the one the last completed operation left it in. */
  predicate Settled(c: Config, d: Disk, done: Committed) {
    && (!UsesKeyring(c) ==> d.keyring == None)
    && (!d.blocked ==>
          && (d.keyring == None || (Own(d) == None && d.doc.Profiles?))
          && (done.Saved? ==> d.doc.Profiles? && (if d.keyring.Some? then d.keyring else Own(d)) == Some(done.profile))
          && (done.Deleted? ==> d.keyring == None && Own(d) == None && (c.explicit ==> d.doc.Profiles?)))
  }

  function Stored(d: Disk): set<Profile> {
    (if d.keyring.Some? then {d.keyring.value} else {}) + (if Own(d).Some? then {Own(d).value} else {})
  }

  /**
   * Load answers the last completed save; after a completed delete it answers nothing, unless an unreadable
   * document remains.
   */
  lemma LoadIsLastCompleted(c: Config, d: Disk, done: Committed)
    requires Settled(c, d, done) && !d.blocked
    ensures d.keyring == None || Own(d) == None
    ensures done.Saved? ==> Load(c, d) == Ok(Some(done.profile))
    ensures done.Deleted? ==>
              (Load(c, d) == Ok(None) <==> d.doc.Profiles?)
              && (Load(c, d) == Err(InvalidDocument) <==> d.doc.Legacy?)
    ensures done.Deleted? && d.doc.Legacy? ==> !c.explicit
  {
  }

  // ---------------------------------------------------------------- failures, crashes and other processes

  /**
   * How a step ends: whether it took effect, whether it raised (and if so an operating-system error),
   * whether the process died.
   */
  datatype Fate = Fate(effect: bool, raises: bool, crashes: bool, system: bool)

  function Effect(f: Fate): bool { f.effect || !(f.raises || f.crashes) }

  /** `Foreign` is an exception that handlers for operating-system errors let through. */
  datatype Outcome = Done | Raised | Foreign | Crashed

  function OutcomeOf(f: Fate): Outcome {
    if f.crashes then Crashed else if !f.raises then Done else if f.system then Raised else Foreign
  }

  /** A step that returns took effect; one that does not may have, or not, however it ends. */
  lemma EveryFate(effect: bool, outcome: Outcome)
    ensures (exists f :: Effect(f) == effect && OutcomeOf(f) == outcome) <==> (outcome.Done? ==> effect)
  {
    var f := Fate(effect, outcome.Raised? || outcome.Foreign?, outcome.Crashed?, outcome.Raised?);
    assert !outcome.Done? ==> Effect(f) == effect && OutcomeOf(f) == outcome;
    assert Effect(Fate(true, false, false, false)) && OutcomeOf(Fate(true, false, false, false)).Done?;
  }

  /** What a process working on another profile does to the shared document between two of our steps. */
  datatype Other = Idle | Put(key: nat, value: nat) | Drop(key: nat) | DiscardLegacy

  function After(doc: Doc, w: Other): Doc {
    match w
    case Idle => doc
    case Put(k, v) => if doc.Profiles? then doc.(others := doc.others[k := v]) else Profiles(None, map[k := v])
    case Drop(k) => if doc.Profiles? then doc.(others := doc.others - {k}) else doc
    case DiscardLegacy => if doc.Profiles? then doc else NO_FILE
  }

  function AfterAll(doc: Doc, ws: seq<Other>): Doc {
    if ws == [] then doc else After(AfterAll(doc, ws[..|ws| - 1]), ws[|ws| - 1])
  }

  type Entries = map<nat, nat>

  /** The other profiles' entries; a document that cannot be read holds none. */
  function OthersIn(doc: Doc): Entries { if doc.Profiles? then doc.others else map[] }

  /** What one writer, and a list of them, makes of the other profiles' entries. */
  function Entered(m: Entries, w: Other): Entries {
    match w
    case Idle => m
    case Put(k, v) => m[k := v]
    case Drop(k) => m - {k}
    case DiscardLegacy => m
  }

  function EnteredAll(m: Entries, ws: seq<Other>): Entries {
    if ws == [] then m else Entered(EnteredAll(m, ws[..|ws| - 1]), ws[|ws| - 1])
  }

  lemma {:induction false} OthersEnter(doc: Doc, ws: seq<Other>)
    ensures OthersIn(AfterAll(doc, ws)) == EnteredAll(OthersIn(doc), ws)
  {
    if ws != [] { OthersEnter(doc, ws[..|ws| - 1]); }
  }

  /** Writers of the steps `from` up to `to`, leaving out the steps at which our process held the document. */
  ghost function Replay(others: nat -> seq<Other>, held: set<nat>, m: Entries, from: nat, to: nat): Entries
    decreases to
  {
    if to <= from then m
    else EnteredAll(Replay(others, held, m, from, to - 1), if to - 1 in held then [] else others(to - 1))
  }

  lemma {:induction false} ReplaySplits(others: nat -> seq<Other>, held: set<nat>, m: Entries, a: nat, b: nat, c: nat)
    requires a <= b <= c
    ensures Replay(others, held, m, a, c) == Replay(others, held, Replay(others, held, m, a, b), b, c)
    decreases c
  {
    if b < c { ReplaySplits(others, held, m, a, b, c - 1); }
  }

  lemma {:induction false} ReplayIgnoresLater(others: nat -> seq<Other>, held: set<nat>, more: set<nat>, m: Entries,
                                              a: nat, b: nat)
    requires forall n :: n < b ==> (n in held <==> n in more)
    ensures Replay(others, held, m, a, b) == Replay(others, more, m, a, b)
    decreases b
  {
    if a < b { ReplayIgnoresLater(others, held, more, m, a, b - 1); }
  }

  lemma {:induction false} ReplayIdle(others: nat -> seq<Other>, held: set<nat>, m: Entries, a: nat, b: nat)
    requires forall n :: others(n) == []
    ensures Replay(others, held, m, a, b) == m
    decreases b
  {
    if a < b { ReplayIdle(others, held, m, a, b - 1); }
  }

  /** Whether another profile's writer puts something readable where the document could not be read. */
  predicate Replaces(w: Other) { w.Put? || w.DiscardLegacy? }

  /**
   * However many of them write, they never touch this profile's entry and never leave an unreadable document
   * behind.
   */
  lemma {:induction false} OthersKeepOwn(c: Config, d: Disk, done: Committed, ws: seq<Other>)
    requires Settled(c, d, done)
    ensures Settled(c, d.(doc := AfterAll(d.doc, ws)), done)
    ensures Own(d.(doc := AfterAll(d.doc, ws))) == Own(d) && (d.doc.Profiles? ==> AfterAll(d.doc, ws).Profiles?)
    ensures d.doc.Legacy? && (forall i :: 0 <= i < |ws| ==> !Replaces(ws[i])) ==> AfterAll(d.doc, ws) == d.doc
  {
    if ws != [] { OthersKeepOwn(c, d, done, ws[..|ws| - 1]); }
  }

  predicate Due(p: Profile, deadline: int) { p.expires.Some? && p.expires.value <= deadline }

  predicate Exchangeable(p: Profile) { p.refresh.Some? && p.endpoint }

  datatype Answer = Refused | Malformed | Tokens(access: nat, rotates: bool, lifetime: int, scope: Option<nat>)

  /** The server's values in place of the old ones, and the rest as found. */
  ghost predicate Renewed(found: Profile, answer: Answer, now: int, p: Profile) {
    && answer.Tokens? && answer.lifetime > 0
    && p.access == answer.access && p.expires == Some(now + answer.lifetime) && p.endpoint == found.endpoint
    && p.scope == (if answer.scope.Some? then answer.scope else found.scope)
    && p.refresh.Some? && (p.refresh == found.refresh <==> !answer.rotates)
  }

  class TokenStore {
    const config: Config
    /** The outcome of each step, the other processes' work before it, and the server's answer at it. */
    const fates: nat -> Fate
    const others: nat -> seq<Other>
    const answers: nat -> Answer
    var disk: Disk
    /** Whether our process holds the document lock. */
    var holdsDocument: bool
    var step: nat
    /** The other profiles' entries at the start, and the steps taken while holding the document. */
    ghost const initial: Entries
    ghost var held: set<nat>
    ghost var done: Committed
    ghost var sent: set<Token>
    /** Handed out at login and not yet saved. */
    ghost var pending: set<Token>

    ghost predicate Rotating() { forall n :: answers(n).Tokens? ==> answers(n).rotates }

    ghost predicate Known(p: Profile)
      reads this
    {
      p.refresh.Some? ==> p.refresh.value.issued < step
    }

    ghost predicate Unspent(p: Profile)
      reads this
    {
      p.refresh.Some? ==> p.refresh.value !in sent && p.refresh.value !in pending
    }

    /** Every token anywhere was handed out at an earlier step. */
    ghost predicate TokensKnown()
      reads this
    {
      && (forall t :: t in pending || t in sent ==> t.issued < step)
      && (forall p :: p in Stored(disk) && p.refresh.Some? ==> p.refresh.value.issued < step)
    }

    /** Tokens not yet saved are unspent and nowhere stored, and without the marker no stored one has been sent. */
    ghost predicate TokensSafe()
      reads this
    {
      && (forall t :: t in pending ==> t !in sent)
      && (forall p :: p in Stored(disk) && p.refresh.Some? ==> p.refresh.value !in pending)
      && (!disk.blocked ==> forall p :: p in Stored(disk) && p.refresh.Some? ==> p.refresh.value !in sent)
    }

    ghost predicate Valid()
      reads this
    {
      Settled(config, disk, done) && TokensKnown() && (Rotating() ==> TokensSafe()) && OthersSafe()
    }

    /** Nothing but other profiles' writers has ever changed their entries. */
    ghost predicate OthersSafe()
      reads this
    {
      OthersIn(disk.doc) == Replay(others, held, initial, 0, step) && forall n :: n in held ==> n < step
    }

    /** Their entries are those before plus exactly what their writers did since; with no writer, as before. */
    twostate predicate OthersKept()
      reads this
    {
      && OthersIn(disk.doc) == Replay(others, held, old(OthersIn(disk.doc)), old(step), step)
      && (Alone() ==> OthersIn(disk.doc) == old(OthersIn(disk.doc)))
    }

    twostate lemma OthersSince()
      requires old(OthersSafe()) && OthersSafe() && Passed()
      ensures OthersKept()
    {
      ReplayIgnoresLater(others, held, old(held), initial, 0, old(step));
      ReplaySplits(others, held, initial, 0, old(step), step);
      if Alone() { ReplayIdle(others, held, old(OthersIn(disk.doc)), old(step), step); }
    }

    /** Steps have gone by; what was held before them stays on record, and a readable document stays readable. */
    twostate predicate Passed()
      reads this
    {
      step >= old(step) && (old(disk.doc.Profiles?) ==> disk.doc.Profiles?)
      && forall n :: n < old(step) ==> (n in held <==> n in old(held))
    }

    /** The document and the ghost record outside it are as before. */
    twostate predicate OnlyDisk()
      reads this
    {
      done == old(done) && sent == old(sent) && pending == old(pending) && Passed()
    }

    /** The document changed as other profiles' writers change it, and not otherwise. */
    twostate predicate OthersOnly()
      reads this
    {
      && Own(disk) == Own(old(disk)) && (old(disk.doc.Profiles?) ==> disk.doc.Profiles?)
      && (Quiet() && old(disk.doc.Legacy?) ==> disk.doc == old(disk.doc))
    }

    /** There is no other writer. */
    ghost predicate Alone() { forall n :: others(n) == [] }

    /** No other writer replaces an unreadable document. */
    ghost predicate Quiet() { forall n, i :: 0 <= i < |others(n)| ==> !Replaces(others(n)[i]) }

    ghost predicate AlwaysAnswers() { forall n :: answers(n).Tokens? && answers(n).lifetime > 0 }

    /** None of the steps `from` up to `to` fails. */
    ghost predicate Fine(from: nat, to: nat) { forall n :: from <= n < to ==> OutcomeOf(fates(n)).Done? }

    /** No step fails but, where there is a keyring, the second, which does not end the process. */
    ghost predicate FineBut(from: nat, to: nat) {
      Fine(from, if from + 1 < to then from + 1 else to) && FineButFirst(from + 1, to)
    }

    /** The same for what follows the marker. */
    ghost predicate FineButFirst(from: nat, to: nat) {
      if UsesKeyring(config) && from < to then !OutcomeOf(fates(from)).Crashed? && Fine(from + 1, to)
      else Fine(from, to)
    }

    /** The outcome is that of the last step taken, and no step before it failed. */
    ghost predicate Ran(from: nat, r: Outcome)
      reads this
    {
      from < step && Fine(from, step - 1) && r == OutcomeOf(fates(step - 1))
    }

    /**
     * Step `n` failed and the operation ended there, or after marking the profile again. An error of the operating
     * system from step `from` on is always followed by marking.
     */
    ghost predicate Stopped(from: nat, n: nat, r: Outcome)
      reads this
    {
      && !OutcomeOf(fates(n)).Done?
      && ((step == n + 1 && r == OutcomeOf(fates(n)) && (r.Raised? ==> n < from))
          || (step == n + 2 && r == (if OutcomeOf(fates(n + 1)).Done? then Raised else OutcomeOf(fates(n + 1)))
              && (Effect(fates(n + 1)) ==> disk.blocked)))
    }

    /** No step fails. */
    ghost predicate Smooth() { forall n :: !fates(n).raises && !fates(n).crashes }

    constructor (config: Config, doc: Doc, blocked: bool, fates: nat -> Fate, others: nat -> seq<Other>,
                 answers: nat -> Answer)
      requires doc.Profiles? ==> doc.own == None
      ensures Valid() && this.config == config && this.fates == fates && this.others == others
      ensures this.answers == answers
      ensures disk == Disk(None, doc, blocked) && done == Nothing && sent == {} && pending == {} && !holdsDocument
    {
      this.config, this.fates, this.others, this.answers := config, fates, others, answers;
      disk, holdsDocument, step, done, sent, pending := Disk(None, doc, blocked), false, 0, Nothing, {}, {};
      initial, held := OthersIn(doc), {};
    }

    /** Start one step: other processes may have been at the document, unless we hold its lock. */
    method Begin() returns (f: Fate)
      requires Valid()
      modifies this
      ensures Valid() && OnlyDisk() && holdsDocument == old(holdsDocument)
      ensures step == old(step) + 1 && f == fates(old(step))
      ensures disk.keyring == old(disk.keyring) && disk.blocked == old(disk.blocked) && OthersOnly()
      ensures Smooth() ==> OutcomeOf(f).Done?
      ensures holdsDocument ==> disk == old(disk)
    {
      ghost var before := held;
      if !holdsDocument {
        OthersKeepOwn(config, disk, done, others(step));
        OthersEnter(disk.doc, others(step));
        disk := disk.(doc := AfterAll(disk.doc, others(step)));
      } else {
        held := held + {step};
      }
      ReplayIgnoresLater(others, before, held, initial, 0, step);
      f := fates(step);
      step := step + 1;
    }

    // -------------------------------------------------------------- the marker

    method Mark() returns (r: Outcome)
      requires Valid()
      modifies this
      ensures Valid() && OnlyDisk() && holdsDocument == old(holdsDocument)
      ensures disk.keyring == old(disk.keyring) && OthersOnly()
      ensures disk.blocked <==> old(disk.blocked) || Effect(fates(old(step)))
      ensures step == old(step) + 1 && r == OutcomeOf(fates(old(step)))
    {
      var f := Begin();
      if Effect(f) { disk := disk.(blocked := true); }
      r := OutcomeOf(f);
    }

    /** Removing the marker commits what the stores now hold. */
    method Clear(ghost intent: Committed) returns (r: Outcome)
      requires Valid() && disk.blocked && Settled(config, disk.(blocked := false), intent) && !holdsDocument
      requires Rotating() ==> forall p :: p in Stored(disk) ==> Unspent(p)
      modifies this
      ensures Valid() && !holdsDocument && sent == old(sent) && pending == old(pending) && Passed()
      ensures disk.keyring == old(disk.keyring) && OthersOnly()
      ensures disk.blocked ==> done == old(done)
      ensures !disk.blocked ==> done == intent
      ensures disk.blocked <==> !Effect(fates(old(step)))
      ensures step == old(step) + 1 && r == OutcomeOf(fates(old(step)))
    {
      OthersKeepOwn(config, disk.(blocked := false), intent, others(step));
      var f := Begin();
      assert Stored(disk) == Stored(old(disk));
      if Effect(f) {
        disk := disk.(blocked := false);
        done := intent;
      }
      r := OutcomeOf(f);
    }

    // -------------------------------------------------------------- the keyring

    method SetKeyring(p: Profile) returns (r: Outcome)
      requires Valid() && disk.blocked && UsesKeyring(config) && Known(p) && (Rotating() ==> Unspent(p))
      modifies this
      ensures Valid() && OnlyDisk() && holdsDocument == old(holdsDocument) && disk.blocked
      ensures disk.keyring == if Effect(fates(old(step))) then Some(p) else old(disk.keyring)
      ensures OthersOnly()
      ensures step == old(step) + 1 && r == OutcomeOf(fates(old(step)))
    {
      var f := Begin();
      if Effect(f) { disk := disk.(keyring := Some(p)); }
      r := OutcomeOf(f);
    }

    method GetKeyring() returns (r: Outcome, p: Option<Profile>)
      requires Valid() && UsesKeyring(config)
      modifies this
      ensures Valid() && OnlyDisk() && holdsDocument == old(holdsDocument) && disk.blocked == old(disk.blocked)
      ensures disk.keyring == old(disk.keyring) && (r.Done? ==> p == disk.keyring)
      ensures OthersOnly()
      ensures step == old(step) + 1 && r == OutcomeOf(fates(old(step)))
    {
      var f := Begin();
      r, p := OutcomeOf(f), disk.keyring;
    }

    method DeleteKeyring() returns (r: Outcome)
      requires Valid() && disk.blocked && UsesKeyring(config)
      modifies this
      ensures Valid() && OnlyDisk() && holdsDocument == old(holdsDocument) && disk.blocked
      ensures disk.keyring == if Effect(fates(old(step))) then None else old(disk.keyring)
      ensures OthersOnly()
      ensures step == old(step) + 1 && r == OutcomeOf(fates(old(step)))
    {
      var f := Begin();
      if Effect(f) { disk := disk.(keyring := None); }
      r := OutcomeOf(f);
    }

    // -------------------------------------------------------------- the document

    method LockDocument() returns (r: Outcome)
      requires Valid() && !holdsDocument
      modifies this
      ensures Valid() && OnlyDisk() && disk.blocked == old(disk.blocked) && disk.keyring == old(disk.keyring)
      ensures holdsDocument <==> r.Done?
      ensures OthersOnly()
      ensures step == old(step) + 1 && r == OutcomeOf(fates(old(step)))
    {
      var f := Begin();
      r := OutcomeOf(f);
      holdsDocument := r.Done?;
    }

    method ReadDocument() returns (r: Outcome, doc: Doc)
      requires Valid()
      modifies this
      ensures Valid() && OnlyDisk() && holdsDocument == old(holdsDocument) && disk.blocked == old(disk.blocked)
      ensures disk.keyring == old(disk.keyring) && (r.Done? ==> doc == disk.doc)
      ensures OthersOnly()
      ensures holdsDocument ==> disk == old(disk)
      ensures step == old(step) + 1 && r == OutcomeOf(fates(old(step)))
    {
      var f := Begin();
      r, doc := OutcomeOf(f), disk.doc;
    }

    /** An atomic replacement of the document, or its removal when `doc` is `NO_FILE`. */
    method ReplaceDocument(doc: Doc) returns (r: Outcome)
      requires Valid() && disk.blocked && holdsDocument
      requires OthersIn(doc) == OthersIn(disk.doc)
      requires doc.Profiles? && (doc.own.Some? ==> Known(doc.own.value) && (Rotating() ==> Unspent(doc.own.value)))
      modifies this
      ensures Valid() && OnlyDisk() && holdsDocument && disk.blocked && disk.keyring == old(disk.keyring)
      ensures disk.doc == if Effect(fates(old(step))) then doc else old(disk.doc)
      ensures step == old(step) + 1 && r == OutcomeOf(fates(old(step)))
    {
      var f := Begin();
      if Effect(f) { disk := disk.(doc := doc); }
      r := OutcomeOf(f);
    }

    // -------------------------------------------------------------- compound steps

    /** Leaving the document's lock, normally or by dying. */
    method UnlockDocument()
      requires Valid()
      modifies this`holdsDocument
      ensures Valid() && !holdsDocument
    {
      holdsDocument := false;
    }

    /** Delete the keyring entry if there is one, and look again. */
    method CleanKeyring() returns (r: Outcome)
      requires Valid() && disk.blocked && !holdsDocument && UsesKeyring(config)
      modifies this
      ensures Valid() && OnlyDisk() && !holdsDocument && disk.blocked
      ensures disk.keyring == None || disk.keyring == old(disk.keyring)
      ensures r.Done? ==> disk.keyring == None
      ensures OthersOnly()
      ensures Ran(old(step), r)
    {
      var p;
      r, p := GetKeyring();
      if !r.Done? { return; }
      if p.Some? {
        r := DeleteKeyring();
        if !r.Done? { return; }
      }
      r, p := GetKeyring();
      if r.Done? && p.Some? { r := Raised; }
    }

    /** After a save to the keyring: take this profile out of the document, or drop an unreadable document. */
    method RemoveProfileFile() returns (r: Outcome)
      requires Valid() && disk.blocked && !holdsDocument
      modifies this
      ensures Valid() && OnlyDisk() && !holdsDocument && disk.blocked && disk.keyring == old(disk.keyring)
      ensures r.Done? ==> disk.doc.Profiles? && Own(disk) == None
      ensures Ran(old(step), r)
      ensures OthersKept()
    {
      hide Replay, OthersKept, AfterAll, EnteredAll, Alone;
      label steps: {
        r := LockDocument();
        if !r.Done? { break steps; }
        var doc;
        r, doc := ReadDocument();
        if r.Done? && (doc.Legacy? || doc.own.Some?) {
          r := ReplaceDocument(if doc.Legacy? then NO_FILE else doc.(own := None));
        }
        UnlockDocument();
      }
      OthersSince();
    }

    method WriteProfileFile(p: Profile) returns (r: Outcome)
      requires Valid() && disk.blocked && !holdsDocument && Known(p) && (Rotating() ==> Unspent(p))
      modifies this
      ensures Valid() && OnlyDisk() && !holdsDocument && disk.blocked && disk.keyring == old(disk.keyring)
      ensures r.Done? ==> disk.doc.Profiles? && Own(disk) == Some(p)
      ensures Ran(old(step), r)
      ensures OthersKept()
    {
      hide Replay, OthersKept, AfterAll, EnteredAll, Alone;
      label steps: {
        r := LockDocument();
        if !r.Done? { break steps; }
        var doc;
        r, doc := ReadDocument();
        if r.Done? { r := ReplaceDocument(Profiles(Some(p), if doc.Profiles? then doc.others else map[])); }
        UnlockDocument();
      }
      OthersSince();
    }

    /** A failed last part of a save marks the profile again before it raises. */
    method Remark(before: Outcome) returns (r: Outcome)
      requires Valid() && !before.Done? && !holdsDocument
      modifies this
      ensures Valid() && OnlyDisk() && !holdsDocument && !r.Done? && (old(disk.blocked) ==> disk.blocked)
      ensures if before.Raised? then
                && step == old(step) + 1 && (disk.blocked <==> old(disk.blocked) || Effect(fates(old(step))))
                && r == if OutcomeOf(fates(old(step))).Done? then Raised else OutcomeOf(fates(old(step)))
              else r == before && step == old(step) && disk == old(disk)
    {
      r := before;
      if r.Raised? {
        var m := Mark();
        if !m.Done? { r := m; }
      }
    }

    method SaveFileAuthority(p: Profile) returns (r: Outcome)
      requires Valid() && disk.blocked && disk.keyring == None && !holdsDocument && Known(p)
      requires Rotating() ==> Unspent(p)
      modifies this
      ensures Valid() && !holdsDocument && sent == old(sent) && pending == old(pending) && Passed()
      ensures r.Done? ==> !disk.blocked && done == Saved(p) && disk.keyring == None
      ensures disk.blocked || done == Saved(p)
      ensures r.Done? <==> Fine(old(step), step)
      ensures !r.Done? ==> exists n :: old(step) <= n < step && Fine(old(step), n) && Stopped(old(step), n, r)
      ensures OthersKept()
    {
      hide Replay, OthersKept, AfterAll, EnteredAll, Alone;
      label steps: {
        r := WriteProfileFile(p);
        if r.Done? {
          r := Clear(Saved(p));
          if r.Done? { break steps; }
        }
        ghost var n := step - 1;
        r := Remark(r);
        assert Stopped(old(step), n, r);
      }
      OthersSince();
    }

    /** The keyring holds the profile: take it out of the document and unmark. */
    method LeaveInKeyring(p: Profile) returns (r: Outcome)
      requires Valid() && disk.blocked && disk.keyring == Some(p) && UsesKeyring(config) && !holdsDocument
      requires Rotating() ==> Unspent(p)
      modifies this
      ensures Valid() && !holdsDocument && sent == old(sent) && pending == old(pending) && Passed()
      ensures r.Done? ==> !disk.blocked && done == Saved(p) && disk.keyring == Some(p)
      ensures disk.blocked || done == Saved(p)
      ensures r.Done? <==> Fine(old(step), step)
      ensures !r.Done? ==> exists n :: old(step) <= n < step && Fine(old(step), n) && Stopped(old(step), n, r)
    {
      hide Replay, OthersKept, AfterAll, EnteredAll, Alone;
      r := RemoveProfileFile();
      if r.Done? {
        r := Clear(Saved(p));
        if r.Done? { return; }
      }
      ghost var n := step - 1;
      r := Remark(r);
      assert Stopped(old(step), n, r);
    }

    /** The keyring write failed: empty the keyring, mark again if that fails too, and save to the file instead. */
    method FallBack(p: Profile) returns (r: Outcome)
      requires Valid() && disk.blocked && UsesKeyring(config) && !holdsDocument && Known(p)
      requires Rotating() ==> Unspent(p)
      modifies this
      ensures Valid() && !holdsDocument && sent == old(sent) && pending == old(pending) && Passed()
      ensures r.Done? ==> !disk.blocked && done == Saved(p) && disk.keyring == None
      ensures disk.blocked || done == Saved(p)
      ensures r.Done? <==> Fine(old(step), step)
      ensures !r.Done? ==> exists n :: old(step) <= n < step && Fine(old(step), n) && Stopped(old(step), n, r)
    {
      hide Replay, OthersKept, AfterAll, EnteredAll, Alone;
      r := CleanKeyring();
      ghost var n, from := step - 1, step;
      if r.Crashed? {
        assert Stopped(old(step), n, r);
        return;
      }
      if !r.Done? {
        r := Remark(Raised);
        assert Stopped(old(step), n, r);
        return;
      }
      r := SaveFileAuthority(p);
      if !r.Done? {
        n :| from <= n < step && Fine(from, n) && Stopped(from, n, r);
        assert Fine(old(step), n) && Stopped(old(step), n, r);
      }
    }

    // -------------------------------------------------------------- operations under the profile lock

    /** Save: mark, write one store, empty the other, unmark. */
    method SaveLocked(p: Profile) returns (r: Outcome)
      requires Valid() && !holdsDocument && Known(p) && (Rotating() ==> Unspent(p))
      modifies this
      ensures Valid() && !holdsDocument && sent == old(sent) && pending == old(pending) && Passed()
      ensures r.Done? ==> !disk.blocked && done == Saved(p)
      ensures disk.blocked || done == Saved(p) || (done == old(done) && !old(disk.blocked))
      // the profile is in the keyring exactly when there is one and its write returned, and otherwise in the file
      ensures r.Done? ==> (disk.keyring.Some? <==> UsesKeyring(config) && OutcomeOf(fates(old(step) + 1)).Done?)
      // returned exactly when no step failed, but for a keyring write that did not end the process
      ensures r.Done? <==> FineBut(old(step), step)
      ensures !r.Done? ==>
                exists n :: old(step) <= n < step && FineBut(old(step), n) && Stopped(old(step) + 1, n, r)
      ensures OthersKept()
    {
      hide Replay, OthersKept, AfterAll, EnteredAll, Alone, TokensKnown, TokensSafe;
      ghost var n := step;
      label steps: {
        r := Mark();
        if !r.Done? {
          assert FineBut(old(step), n) && Stopped(old(step) + 1, n, r);
          break steps;
        }
        ghost var from := step;
        r := SaveMarked(p);
        if !r.Done? {
          n :| from <= n < step && FineButFirst(from, n) && Stopped(from, n, r);
          assert FineBut(old(step), n);
        }
      }
      OthersSince();
    }

    /** The marked profile is written to one store and taken out of the other. */
    method SaveMarked(p: Profile) returns (r: Outcome)
      requires Valid() && disk.blocked && !holdsDocument && Known(p) && (Rotating() ==> Unspent(p))
      modifies this
      ensures Valid() && !holdsDocument && sent == old(sent) && pending == old(pending) && Passed()
      ensures r.Done? ==> !disk.blocked && done == Saved(p)
      ensures disk.blocked || done == Saved(p)
      ensures r.Done? ==> (disk.keyring.Some? <==> UsesKeyring(config) && OutcomeOf(fates(old(step))).Done?)
      ensures r.Done? <==> FineButFirst(old(step), step)
      ensures !r.Done? ==> exists n :: old(step) <= n < step && FineButFirst(old(step), n) && Stopped(old(step), n, r)
    {
      hide Replay, OthersSafe, OthersKept, AfterAll, EnteredAll, Alone, TokensKnown, TokensSafe, Settled;
      ghost var n, from := step, step;
      if config.keyringModule && !config.explicit {
        assert disk.blocked;
        r := SetKeyring(p);
        if r.Crashed? {
          assert Stopped(old(step), n, r);
          return;
        }
        from := step;
        if r.Done? { r := LeaveInKeyring(p); } else { r := FallBack(p); }
      } else {
        KeyringUnused();
        r := SaveFileAuthority(p);
      }
      if !r.Done? {
        n :| from <= n < step && Fine(from, n) && Stopped(from, n, r);
        StopsLater(from, old(step), n, r);
        assert FineButFirst(old(step), n);
      }
    }

    lemma KeyringUnused()
      requires Valid() && !UsesKeyring(config)
      ensures disk.keyring == None
    {
    }

    lemma StopsLater(from: nat, first: nat, n: nat, r: Outcome)
      requires first <= from <= n && Stopped(from, n, r)
      ensures Stopped(first, n, r)
    {
    }

    /** Delete: mark, empty both stores, look again, unmark only if nothing went wrong. */
    method DeleteLocked() returns (r: Outcome, deleted: bool)
      requires Valid() && !holdsDocument
      modifies this
      ensures Valid() && !holdsDocument && sent == old(sent) && pending == old(pending) && Passed()
      ensures deleted ==> r.Done? && !disk.blocked && done == Deleted
      ensures deleted && (config.explicit || old(disk.doc.Profiles?)) ==> Load(config, disk) == Ok(None)
      ensures deleted && !config.explicit && old(disk.doc.Legacy?) && Quiet() ==>
                disk.doc == old(disk.doc) && Load(config, disk) == Err(InvalidDocument)
      ensures deleted <==> Fine(old(step), step)
      ensures disk.blocked || done == Deleted || (done == old(done) && !old(disk.blocked))
      ensures OthersKept()
    {
      hide Replay, OthersKept, AfterAll, EnteredAll, Alone;
      label steps: {
        deleted := false;
        r := Mark();
        if !r.Done? { break steps; }
        var failed;
        r, failed := EmptyStores();
        if !r.Done? || failed { break steps; }
        r := Clear(Deleted);
        deleted := r.Done?;
      }
      OthersSince();
    }

    /** Both stores are emptied, the document even where the keyring could not be. */
    method EmptyStores() returns (r: Outcome, failed: bool)
      requires Valid() && disk.blocked && !holdsDocument
      modifies this
      ensures Valid() && OnlyDisk() && !holdsDocument && disk.blocked
      ensures r.Done? ==> Own(disk) == None && (config.explicit ==> disk.doc.Profiles?)
      ensures r.Done? && !failed ==> disk.keyring == None
      ensures !config.explicit && Quiet() && old(disk.doc.Legacy?) ==> disk.doc == old(disk.doc)
      ensures r.Done? && !failed <==> Fine(old(step), step)
      ensures failed ==> UsesKeyring(config)
      ensures failed ==> exists n :: old(step) <= n < step && Fine(old(step), n) && !OutcomeOf(fates(n)).Done?
                                     && (OutcomeOf(fates(n)).Crashed? || Ran(n + 1, r))
    {
      hide Replay, OthersKept, AfterAll, EnteredAll, Alone;
      failed := false;
      ghost var n := step;
      if config.keyringModule && !config.explicit {
        r := CleanKeyring();
        n := step - 1;
        failed := !r.Done?;
        if r.Crashed? { return; }
      }
      r := EmptyDocument();
      assert failed ==> Fine(old(step), n) && Ran(n + 1, r);
    }

    method EmptyDocument() returns (r: Outcome)
      requires Valid() && disk.blocked && !holdsDocument
      modifies this
      ensures Valid() && OnlyDisk() && !holdsDocument && disk.blocked && disk.keyring == old(disk.keyring)
      ensures r.Done? ==> Own(disk) == None && (config.explicit ==> disk.doc.Profiles?)
      ensures !config.explicit && Quiet() && old(disk.doc.Legacy?) ==> disk.doc == old(disk.doc)
      ensures Ran(old(step), r)
      ensures OthersKept()
    {
      hide Replay, OthersKept, AfterAll, EnteredAll, Alone;
      label steps: {
        r := LockDocument();
        if !r.Done? { break steps; }
        r := TakeOut();
        if r.Done? {
          var doc;
          r, doc := ReadDocument();
          if r.Done? && ((doc.Profiles? && doc.own.Some?) || (config.explicit && doc.Legacy?)) { r := Raised; }
        }
        UnlockDocument();
      }
      OthersSince();
    }

    /** Holding the document: drop it where a bare token is the whole file, otherwise take this profile's entry out. */
    method TakeOut() returns (r: Outcome)
      requires Valid() && disk.blocked && holdsDocument
      modifies this
      ensures Valid() && OnlyDisk() && holdsDocument && disk.blocked && disk.keyring == old(disk.keyring)
      ensures r.Done? ==> Own(disk) == None && (config.explicit ==> disk.doc.Profiles?)
      ensures !config.explicit && old(disk.doc.Legacy?) ==> disk.doc == old(disk.doc)
      ensures Ran(old(step), r)
    {
      hide Replay, AfterAll, EnteredAll, Alone;
      var doc;
      r, doc := ReadDocument();
      if !r.Done? { return; }
      if doc.Legacy? && config.explicit {
        r := ReplaceDocument(NO_FILE);
      } else if doc.Profiles? && doc.own.Some? {
        r := ReplaceDocument(doc.(own := None));
      }
    }

    /** Load, holding the profile lock: the last completed operation's profile, and never a token already sent. */
    method LoadLocked() returns (r: Outcome, p: Option<Profile>)
      requires Valid() && !holdsDocument
      modifies this
      ensures Valid() && OnlyDisk() && !holdsDocument && disk.blocked == old(disk.blocked)
      ensures disk.keyring == old(disk.keyring) && Own(disk) == Own(old(disk))
      ensures r.Done? <==> Fine(old(step), step) && !disk.blocked && Load(config, disk).Ok?
      ensures r.Done? ==> Load(config, disk) == Ok(p)
      ensures r.Done? ==> (done.Saved? ==> p == Some(done.profile)) && (done.Deleted? ==> p == None)
      ensures r.Done? && p.Some? && p.value.refresh.Some? ==>
                p.value in Stored(disk) && (Rotating() ==> p.value.refresh.value !in sent)
    {
      hide Settled, TokensKnown, TokensSafe, OthersSafe, Replay, AfterAll;
      p := None;
      var f := Begin();
      r := OutcomeOf(f);
      if !r.Done? { return; }
      if disk.blocked {
        r := Raised;
        return;
      }
      r, p := ReadStores();
      if r.Done? { LoadedIsLast(p); }
    }

    /** The keyring first, where it is in use, then the document. */
    method ReadStores() returns (r: Outcome, p: Option<Profile>)
      requires Valid() && !holdsDocument && !disk.blocked
      modifies this
      ensures Valid() && OnlyDisk() && !holdsDocument && !disk.blocked
      ensures disk.keyring == old(disk.keyring) && Own(disk) == Own(old(disk)) && step > old(step)
      ensures r.Done? <==> Fine(old(step), step) && Load(config, disk).Ok?
      ensures r.Done? ==> Load(config, disk) == Ok(p)
    {
      hide Settled, TokensKnown, TokensSafe, OthersSafe, Replay, AfterAll;
      p := None;
      if config.keyringModule && !config.explicit {
        r, p := GetKeyring();
        if !r.Done? || p.Some? { return; }
      }
      var doc;
      r, doc := ReadDocument();
      if !r.Done? { return; }
      match doc {
        case Profiles(own, _) => p := own;
        case Legacy(text) =>
          if config.explicit { p := Some(LegacyProfile(text)); } else { r := Raised; }
      }
    }

    /** What a load of an unmarked store returns is what the last completed operation left, and is unspent. */
    lemma LoadedIsLast(p: Option<Profile>)
      requires Valid() && !disk.blocked && Load(config, disk) == Ok(p)
      ensures (done.Saved? ==> p == Some(done.profile)) && (done.Deleted? ==> p == None)
      ensures p.Some? && p.value.refresh.Some? ==>
                p.value in Stored(disk) && (Rotating() ==> p.value.refresh.value !in sent)
    {
    }

    /** The token request: the token counts as sent whatever comes back. */
    method Send(t: Token) returns (r: Outcome, answer: Answer, next: Token)
      requires Valid() && disk.blocked && !holdsDocument
      requires t.issued < step && (Rotating() ==> t !in pending)
      modifies this
      ensures Valid() && disk.blocked && !holdsDocument && done == old(done) && pending == old(pending)
      ensures sent == old(sent) + {t}
      ensures Passed() && next.issued < step && next !in sent && next !in pending
      ensures answer == answers(old(step))
      ensures Smooth() ==> r.Done?
    {
      next, answer := Token(step), answers(step);
      var f := Begin();
      sent := sent + {t};
      r := OutcomeOf(f);
    }

    /**
     * Refresh an expired profile: load again under the lock, mark, exchange the token, save what came back.
     * `found` is the profile loaded under the lock, `answered` the server's answer to the token sent.
     */
    method RefreshLocked(now: int, leeway: int)
      returns (r: Outcome, p: Option<Profile>, ghost found: Option<Profile>, ghost answered: Option<Answer>)
      requires Valid() && !holdsDocument
      modifies this
      ensures Valid() && !holdsDocument && pending == old(pending) && Passed() && old(sent) <= sent
      ensures OthersKept()
      ensures r.Done? ==>
                p.Some? && !disk.blocked
                && (done == Saved(p.value) || (done == old(done) && Load(config, disk) == Ok(p)))
      ensures Rotating() && r.Done? && p.value.refresh.Some? ==> p.value.refresh.value !in sent
      // what was loaded
      ensures r.Done? ==> found.Some?
      ensures found.Some? && old(done).Saved? ==> found.value == old(done).profile
      // not yet due: returned as it is, nothing sent; due but not exchangeable: refused, nothing sent
      ensures found.Some? && !Due(found.value, now + leeway) ==>
                r.Done? && p == found && answered == None && sent == old(sent) && !disk.blocked && done == old(done)
      ensures found.Some? && Due(found.value, now + leeway) && !Exchangeable(found.value) ==>
                r.Raised? && sent == old(sent) && !disk.blocked && done == old(done)
      ensures forall t :: t in sent && t !in old(sent) ==>
                found.Some? && Due(found.value, now + leeway) && found.value.refresh == Some(t)
      // due: the server's new values, everything else as found
      ensures r.Done? && Due(found.value, now + leeway) ==> answered.Some?
      ensures r.Done? && answered.Some? ==>
                done == Saved(p.value) && Renewed(found.value, answered.value, now, p.value)
                && found.value.refresh.Some? && found.value.refresh.value in sent
                && (p.value.refresh.value !in sent <==> answered.value.rotates)
      ensures answered.Some? ==> exists n :: answered.value == answers(n)
      ensures (Smooth() && AlwaysAnswers() && !old(disk.blocked) && old(done).Saved?
               && Due(old(done).profile, now + leeway) && Exchangeable(old(done).profile)) ==>
                r.Done? && answered.Some?
    {
      hide Replay, OthersKept, AfterAll, EnteredAll, Alone;
      label steps: {
        found, answered := None, None;
        r, p := LoadLocked();
        if !r.Done? { break steps; }
        if p == None { r := Raised; break steps; }
        var profile := p.value;
        found := Some(profile);
        if profile.expires == None || profile.expires.value > now + leeway { break steps; }
        if profile.refresh == None || !profile.endpoint { r := Raised; break steps; }
        r, p, answered := Exchange(profile, now);
      }
      OthersSince();
    }

    /** Mark, send the token, and save what came back. */
    method Exchange(profile: Profile, now: int)
      returns (r: Outcome, p: Option<Profile>, ghost answered: Option<Answer>)
      requires Valid() && !holdsDocument && Exchangeable(profile) && Known(profile)
      requires Rotating() ==> profile.refresh.value !in pending
      modifies this
      ensures Valid() && !holdsDocument && pending == old(pending) && Passed()
      ensures old(sent) <= sent <= old(sent) + {profile.refresh.value}
      ensures r.Done? ==>
                p.Some? && answered.Some? && !disk.blocked && done == Saved(p.value)
                && Renewed(profile, answered.value, now, p.value) && profile.refresh.value in sent
                && (p.value.refresh.value !in sent <==> answered.value.rotates)
      ensures answered.Some? ==> exists n :: answered.value == answers(n)
      ensures Smooth() && AlwaysAnswers() ==> r.Done?
    {
      hide Replay, OthersKept, AfterAll, EnteredAll, Alone, Settled;
      p, answered := None, None;
      r := Mark();
      if !r.Done? { return; }
      var answer, next;
      r, answer, next := Send(profile.refresh.value);
      if !r.Done? { return; }
      answered := Some(answer);
      if !answer.Tokens? || answer.lifetime <= 0 {
        r := Raised;
        return;
      }
      var refreshed := profile.(access := answer.access, expires := Some(now + answer.lifetime),
                                scope := if answer.scope.Some? then answer.scope else profile.scope,
                                refresh := if answer.rotates then Some(next) else profile.refresh);
      p := Some(refreshed);
      r := SaveLocked(refreshed);
    }

    /** A login hands out a token that only this process knows until it is saved. */
    method Login(access: nat, expires: Option<int>) returns (p: Profile)
      requires Valid() && !holdsDocument
      modifies this
      ensures Valid() && !holdsDocument && disk.blocked == old(disk.blocked) && done == old(done) && sent == old(sent)
      ensures p.refresh.Some? && p.refresh.value.issued >= old(step) && step > p.refresh.value.issued
      ensures pending == old(pending) + {p.refresh.value}
      ensures p.access == access && p.expires == expires && p.endpoint
    {
      p := Profile(access, Some(Token(step)), expires, true, None);
      var f := Begin();
      pending := pending + {p.refresh.value};
    }

    method SaveLogin(p: Profile) returns (r: Outcome)
      requires Valid() && !holdsDocument && p.refresh.Some? && p.refresh.value in pending
      modifies this
      ensures Valid() && !holdsDocument && Passed() && sent == old(sent)
      ensures pending == old(pending) - {p.refresh.value}
      ensures r.Done? ==> !disk.blocked && done == Saved(p)
      ensures Smooth() ==> r.Done?
    {
      pending := pending - {p.refresh.value};
      r := SaveLocked(p);
    }

    /** Any number of processes, one at a time under the profile lock, each ending at any of its steps. */
    method Run(work: seq<Work>)
      requires Valid() && !holdsDocument && pending == {}
      modifies this
      ensures Valid() && !holdsDocument && old(sent) <= sent
    {
      var held: seq<Profile> := [];
      for i := 0 to |work|
        invariant Valid() && !holdsDocument && old(sent) <= sent
        invariant forall j :: 0 <= j < |held| ==>
                    held[j].refresh.Some? && held[j].refresh.value in pending && held[j].refresh.value.issued < step
        invariant forall j, k :: 0 <= j < k < |held| ==> held[j].refresh != held[k].refresh
      {
        match work[i] {
          case Authenticate(access, expires) =>
            var p := Login(access, expires);
            held := held + [p];
          case Save(n) =>
            if n < |held| {
              var p := held[n];
              held := held[..n] + held[n + 1..];
              var _ := SaveLogin(p);
            }
          case Delete =>
            var _, _ := DeleteLocked();
          case Refresh(now, leeway) =>
            var _, _, _, _ := RefreshLocked(now, leeway);
        }
      }
    }
  }

  // ---------------------------------------------------------------- runs that end badly

  /** A delete from an unreadable document, every step succeeding: reported deleted, and the next load raises. */
  method DeleteBesideGarbage(keyringModule: bool, text: nat) returns (s: TokenStore, deleted: bool)
    ensures fresh(s) && s.config == Config(false, keyringModule) && s.Smooth() && s.Quiet() && s.Valid()
    ensures deleted && s.done == Deleted && s.disk == Disk(None, Legacy(text), false)
    ensures Load(s.config, s.disk) == Err(InvalidDocument)
  {
    s := new TokenStore(Config(false, keyringModule), Legacy(text), false,
                        _ => Fate(true, false, false, true), _ => [], _ => Refused);
    var r;
    r, deleted := s.DeleteLocked();
  }

  /** A refresh answered without a new token, every step succeeding: the token that was sent is loaded again. */
  method SentTokenLoadedAgain(config: Config, access: nat)
    returns (s: TokenStore, first: Profile, again: Option<Profile>)
    ensures fresh(s) && s.config == config && s.Smooth() && s.Valid() && !s.Rotating()
    ensures first.refresh.Some? && first.refresh.value in s.sent
    ensures again.Some? && again.value.refresh == first.refresh && Load(s.config, s.disk) == Ok(again)
  {
    s := new TokenStore(config, NO_FILE, false, _ => Fate(true, false, false, true), _ => [],
        _ => Tokens(access, false, 1, None));
    assert s.answers(0).Tokens? && !s.answers(0).rotates;
    first := s.Login(access, Some(0));
    var saved := s.SaveLogin(first);
    var refreshed, p, found, answered := s.RefreshLocked(0, 0);
    var r;
    r, again := s.LoadLocked();
  }

  datatype Work =
    | Authenticate(access: nat, expires: Option<int>)
    | Save(held: nat)
    | Delete
    | Refresh(now: int, leeway: int)
}
