/** Rebuild and switch-over of one projection of one Book (migration v2_0005). */
module Generations {
  import opened Ids
  import opened Outcomes
  import opened Sums

  datatype State = Building | CatchingUp | Active | Retired | Failed

  datatype Generation = Generation(state: State, rebuildFrom: int, last: int, target: int,
                                   createdAt: int, activatedAt: Option<int>, completedAt: Option<int>)

  datatype Checkpoint = Checkpoint(last: int, active: Id)

  /** `reached` records, for each generation ever activated, the target it had reached at that moment. */
  datatype Tables = Tables(events: set<int>, checkpoint: Option<Checkpoint>, generations: map<Id, Generation>,
                           reached: map<Id, int>)

  // ---------------------------------------------------------------- row guards

  ghost predicate KnownPosition(t: Tables, p: int) { p > 0 ==> p in t.events }

  ghost predicate ProgressShape(g: Generation) {
    g.rebuildFrom > 0 && 0 <= g.last <= g.target && g.target >= g.rebuildFrom - 1
  }

  /** The lifecycle CHECK: which timestamps each state carries, and their order. */
  ghost predicate TimestampShape(g: Generation) {
    && (g.activatedAt.Some? <==> g.state == Active || g.state == Retired)
    && (g.completedAt.Some? <==> g.state == Retired || g.state == Failed)
    && (g.activatedAt.Some? ==> g.activatedAt.value >= g.createdAt)
    && (g.completedAt.Some? ==>
          g.completedAt.value >= (if g.activatedAt.Some? then g.activatedAt.value else g.createdAt))
  }

  ghost predicate TransitionAllowed(before: State, after: State) {
    match before
    case Building => after in {Building, CatchingUp, Failed}
    case CatchingUp => after in {CatchingUp, Active, Failed}
    case Active => after in {Active, Retired}
    case Retired => false
    case Failed => false
  }

  /** The row an update stores: written columns, with both timestamps rewritten by the trigger. */
  ghost function Rewritten(g: Generation, state: State, last: int, target: int, now: int): Generation {
    Generation(state, g.rebuildFrom, last, target, g.createdAt,
               if state == Active && g.state != Active then Some(now)
               else if state == Active || state == Retired then g.activatedAt else None,
               if state == Retired || state == Failed then Some(now) else None)
  }

  ghost predicate NoOtherActive(t: Tables, g: Id) {
    forall k :: k in t.generations && k != g ==> t.generations[k].state != Active
  }

  // ---------------------------------------------------------------- transitions

  datatype Op =
    | RecordEvent(position: int)
    | InsertGeneration(g: Id, state: State, rebuildFrom: int, last: int, target: int, now: int)
    | UpdateGeneration(g: Id, state: State, last: int, target: int, now: int)
    | InsertCheckpoint(row: Checkpoint)
    | UpdateCheckpoint(row: Checkpoint)

  ghost predicate Allowed(t: Tables, op: Op) {
    match op
    case RecordEvent(p) => p > 0 && p !in t.events
    case InsertGeneration(g, state, from, last, target, now) =>
      && g !in t.generations && g > 0 && state == Building
      && ProgressShape(Generation(Building, from, last, target, now, None, None))
      && KnownPosition(t, last) && KnownPosition(t, target)
    case UpdateGeneration(g, state, last, target, now) =>
      && g in t.generations
      && var row := t.generations[g];
      && last >= row.last && target >= row.target
      && TransitionAllowed(row.state, state)
      && (state == Active && row.state == CatchingUp ==> last == target)
      && KnownPosition(t, last) && KnownPosition(t, target)
      && ProgressShape(Rewritten(row, state, last, target, now))
      && TimestampShape(Rewritten(row, state, last, target, now))
      && (state == Active ==> NoOtherActive(t, g))
    case InsertCheckpoint(c) => t.checkpoint == None && c.last >= 0 && c.active > 0
    case UpdateCheckpoint(c) => t.checkpoint.Some? && c.last >= 0 && c.last >= t.checkpoint.value.last && c.active > 0
  }

  ghost function Apply(t: Tables, op: Op): Tables {
    if !Allowed(t, op) then t
    else match op
      case RecordEvent(p) => t.(events := t.events + {p})
      case InsertGeneration(g, state, from, last, target, now) =>
        t.(generations := t.generations[g := Generation(Building, from, last, target, now, None, None)])
      case UpdateGeneration(g, state, last, target, now) =>
        t.(generations := t.generations[g := Rewritten(t.generations[g], state, last, target, now)],
           reached := if state == Active && t.generations[g].state == CatchingUp
                      then t.reached[g := target] else t.reached)
      case InsertCheckpoint(c) => t.(checkpoint := Some(c))
      case UpdateCheckpoint(c) => t.(checkpoint := Some(c))
  }

  /** Whether a write fires the deferred check; event rows have no such trigger. */
  ghost predicate Fires(t: Tables, op: Op) { Allowed(t, op) && !op.RecordEvent? }

  // ---------------------------------------------------------------- the deferred check

  ghost function ActiveSet(t: Tables): set<Id> { set g | g in t.generations && t.generations[g].state == Active }

  ghost predicate CommitCheck(t: Tables) {
    match t.checkpoint
    case None => |ActiveSet(t)| == 0
    case Some(c) =>
      && |ActiveSet(t)| == 1
      && c.active in t.generations && t.generations[c.active].state == Active
      && c.last == t.generations[c.active].last
      && KnownPosition(t, c.last)
  }

  /** A checkpointed projection has exactly one active generation, at the same cursor. */
  ghost predicate Served(t: Tables) {
    && (t.checkpoint.Some? ==>
          ActiveSet(t) == {t.checkpoint.value.active}
              && t.generations[t.checkpoint.value.active].last == t.checkpoint.value.last
          && KnownPosition(t, t.checkpoint.value.last))
    && (t.checkpoint == None ==> ActiveSet(t) == {})
  }

  lemma CommitCheckIsServed(t: Tables)
    ensures CommitCheck(t) <==> Served(t)
  {
    if CommitCheck(t) && t.checkpoint.Some? { SingletonSet(ActiveSet(t), t.checkpoint.value.active); }
    if Served(t) && t.checkpoint.Some? { assert t.checkpoint.value.active in ActiveSet(t); }
  }

  // ---------------------------------------------------------------- what every write keeps

  ghost predicate GenerationKnown(t: Tables, k: Id)
    requires k in t.generations
  {
    var g := t.generations[k];
    && ProgressShape(g) && TimestampShape(g)
    && (g.state == Active || g.state == Retired ==> k in t.reached && t.reached[k] <= g.last)
  }

  ghost predicate Inv(t: Tables) {
    && (forall k :: k in t.generations ==> GenerationKnown(t, k))
    && (forall k :: k in t.reached ==> k in t.generations && t.generations[k].state in {Active, Retired})
    && (forall j, k :: j in ActiveSet(t) && k in ActiveSet(t) ==> j == k)
  }

  ghost predicate Later(before: State, after: State) {
    before == after || before == Building || (before == CatchingUp && after != Building)
        || (before == Active && after == Retired)
  }

  /** Cursors and lifecycles only move forward, a terminal generation is frozen, and activation targets stay. */
  ghost predicate Advances(before: Tables, after: Tables) {
    && before.events <= after.events
    && (before.checkpoint.Some? ==>
         after.checkpoint.Some? && after.checkpoint.value.last >= before.checkpoint.value.last)
    && (forall k :: k in before.generations ==>
         k in after.generations && GenerationAdvances(before.generations[k], after.generations[k]))
    && (forall k :: k in before.reached ==> k in after.reached && after.reached[k] == before.reached[k])
  }

  ghost predicate GenerationAdvances(g: Generation, h: Generation) {
    && h.last >= g.last && h.target >= g.target && Later(g.state, h.state)
    && (g.state == Retired || g.state == Failed ==> h == g)
  }

  lemma ApplyKeepsInv(t: Tables, op: Op)
    requires Inv(t)
    ensures Inv(Apply(t, op)) && Advances(t, Apply(t, op))
    ensures !Fires(t, op) ==> Apply(t, op).checkpoint == t.checkpoint && Apply(t, op).generations == t.generations
  {
    ApplyAdvances(t, op);
    ApplyKnows(t, op);
    OneActive(t, op);
    hide Apply, Allowed, Advances, GenerationKnown;
  }

  lemma ApplyAdvances(t: Tables, op: Op)
    requires Inv(t)
    ensures Advances(t, Apply(t, op))
    ensures !Fires(t, op) ==> Apply(t, op).checkpoint == t.checkpoint && Apply(t, op).generations == t.generations
  {
    hide ProgressShape, TimestampShape, NoOtherActive, KnownPosition, ActiveSet;
  }

  lemma ApplyKnows(t: Tables, op: Op)
    requires Inv(t)
    ensures var u := Apply(t, op);
            && (forall k :: k in u.generations ==> GenerationKnown(u, k))
            && (forall k :: k in u.reached ==> k in u.generations && u.generations[k].state in {Active, Retired})
  {
    hide NoOtherActive, ActiveSet;
    var u := Apply(t, op);
    forall k | k in u.generations ensures GenerationKnown(u, k) { assert k in t.generations ==> GenerationKnown(t, k); }
  }

  lemma OneActive(t: Tables, op: Op)
    requires Inv(t)
    ensures forall j, k :: j in ActiveSet(Apply(t, op)) && k in ActiveSet(Apply(t, op)) ==> j == k
  {
    hide ProgressShape, TimestampShape, KnownPosition, GenerationKnown;
    var u := Apply(t, op);
    forall j, k | j in ActiveSet(u) && k in ActiveSet(u) ensures j == k {
      assert j in ActiveSet(t) && k in ActiveSet(t) ==> j == k;
    }
  }

  lemma AdvancesTransitive(a: Tables, b: Tables, c: Tables)
    requires Advances(a, b) && Advances(b, c)
    ensures Advances(a, c)
  {
    forall k | k in a.generations ensures k in c.generations && GenerationAdvances(a.generations[k], c.generations[k]) {
      assert GenerationAdvances(a.generations[k], b.generations[k]);
      assert GenerationAdvances(b.generations[k], c.generations[k]);
    }
  }

  // ---------------------------------------------------------------- over every run

  /** Committed states in order. */
  ghost predicate CommitChain(states: seq<Tables>) {
    && (forall i :: 0 <= i < |states| ==> Inv(states[i]) && Served(states[i]))
    && (forall i :: 0 <= i < |states| - 1 ==> Advances(states[i], states[i + 1]))
  }

  lemma {:induction false} ChainAdvances(states: seq<Tables>, i: nat, j: nat)
    requires CommitChain(states) && i <= j < |states|
    ensures Advances(states[i], states[j])
    decreases j
  {
    if i < j {
      ChainAdvances(states, i, j - 1);
      assert Advances(states[j - 1], states[j - 1 + 1]);
      AdvancesTransitive(states[i], states[j - 1], states[j]);
    }
  }

  /** Between any two commits the cursor readers see never decreases, and the checkpoint never disappears. */
  lemma VisibleCursorMonotone(states: seq<Tables>, i: nat, j: nat)
    requires CommitChain(states) && i <= j < |states| && states[i].checkpoint.Some?
    ensures states[j].checkpoint.Some?
    ensures states[j].checkpoint.value.active in states[j].generations
    ensures states[j].generations[states[j].checkpoint.value.active].last >= states[i].checkpoint.value.last
  {
    ChainAdvances(states, i, j);
    assert Served(states[j]);
    assert states[j].checkpoint.value.active in ActiveSet(states[j]);
  }

  /**
   * A commit that serves another generation has retired the old one for good, and the replacement
   * has reached the target it was activated at and is at or past the old one's committed cursor.
   */
  lemma SwitchIsSafe(states: seq<Tables>, i: nat, j: nat)
    requires CommitChain(states) && i <= j < |states| && states[i].checkpoint.Some?
    requires states[j].checkpoint.Some? && states[j].checkpoint.value.active != states[i].checkpoint.value.active
    ensures var was, now := states[i].checkpoint.value.active, states[j].checkpoint.value.active;
            && was in states[i].generations && was in states[j].generations && now in states[j].generations
            && states[j].generations[was].state == Retired
            && now in states[j].reached && states[j].reached[now] <= states[j].generations[now].last
            && states[j].generations[now].last >= states[i].generations[was].last
  {
    var was, now := states[i].checkpoint.value.active, states[j].checkpoint.value.active;
    VisibleCursorMonotone(states, i, j);
    ChainAdvances(states, i, j);
    assert Served(states[i]) && Served(states[j]);
    assert was in ActiveSet(states[i]) && now in ActiveSet(states[j]);
    assert GenerationAdvances(states[i].generations[was], states[j].generations[was]);
    assert was !in ActiveSet(states[j]);
    assert GenerationKnown(states[j], now);
  }

  // ---------------------------------------------------------------- the store

  /** The before-update trigger, branch by branch: the row to store, or nothing when it raises. */
  method BeforeUpdate(before: Generation, state: State, last: int, target: int, now: int)
    returns (row: Option<Generation>)
    ensures row.Some? <==> last >= before.last && target >= before.target && TransitionAllowed(before.state, state)
                           && (state == Active && before.state == CatchingUp ==> last == target)
    ensures row.Some? ==> row.value == Rewritten(before, state, last, target, now)
  {
    if last < before.last || target < before.target { return None; }
    var r := before.(state := state, last := last, target := target);
    match before.state {
      case Building =>
        if state == Building || state == CatchingUp { r := r.(activatedAt := None, completedAt := None); }
        else if state == Failed { r := r.(activatedAt := None, completedAt := Some(now)); }
        else { return None; }
      case CatchingUp =>
        if state == CatchingUp { r := r.(activatedAt := None, completedAt := None); }
        else if state == Active {
          if last != target { return None; }
          r := r.(activatedAt := Some(now), completedAt := None);
        }
        else if state == Failed { r := r.(activatedAt := None, completedAt := Some(now)); }
        else { return None; }
      case Active =>
        if state == Active { r := r.(activatedAt := before.activatedAt, completedAt := None); }
        else if state == Retired { r := r.(activatedAt := before.activatedAt, completedAt := Some(now)); }
        else { return None; }
      case Retired => return None;
      case Failed => return None;
    }
    return Some(r);
  }

  /** The lifecycle CHECK of a row, state by state. */
  method CheckTimestamps(g: Generation) returns (ok: bool)
    ensures ok <==> TimestampShape(g)
  {
    match g.state {
      case Building => ok := g.activatedAt == None && g.completedAt == None;
      case CatchingUp => ok := g.activatedAt == None && g.completedAt == None;
      case Active => ok := g.activatedAt.Some? && g.completedAt == None && g.activatedAt.value >= g.createdAt;
      case Retired =>
        ok := g.activatedAt.Some? && g.completedAt.Some?
              && g.createdAt <= g.activatedAt.value <= g.completedAt.value;
      case Failed => ok := g.activatedAt == None && g.completedAt.Some? && g.completedAt.value >= g.createdAt;
    }
  }

  class Store {
    var events: set<int>
    var checkpoint: Option<Checkpoint>
    var generations: map<Id, Generation>
    var reached: map<Id, int>
    var pending: bool
    var saved: Tables
    ghost var commits: seq<Tables>

    function View(): Tables
      reads this
    {
      Tables(events, checkpoint, generations, reached)
    }

    ghost predicate Valid()
      reads this
    {
      && Inv(View()) && Advances(saved, View())
      && (!pending ==> checkpoint == saved.checkpoint && generations == saved.generations)
      && CommitChain(commits) && commits != [] && commits[|commits| - 1] == saved
    }

    constructor ()
      ensures Valid() && View() == saved == Tables({}, None, map[], map[]) && !pending
    {
      events, checkpoint, generations, reached, pending := {}, None, map[], map[], false;
      saved := Tables({}, None, map[], map[]);
      commits := [Tables({}, None, map[], map[])];
    }

    /** Progress within its target, and both cursors at events that exist. */
    method CheckProgress(g: Generation) returns (ok: bool)
      ensures ok <==> ProgressShape(g) && KnownPosition(View(), g.last) && KnownPosition(View(), g.target)
    {
      if g.rebuildFrom < 1 || g.last < 0 || g.target < g.last || g.target < g.rebuildFrom - 1 { return false; }
      if g.last != 0 && g.last !in events { return false; }
      return g.target == 0 || g.target in events;
    }

    method Insert(g: Id, state: State, rebuildFrom: int, last: int, target: int, now: int) returns (ok: bool)
      requires Valid()
      modifies this
      ensures var op := InsertGeneration(g, state, rebuildFrom, last, target, now);
              View() == Apply(old(View()), op) && ok == Allowed(old(View()), op)
      ensures Valid() && saved == old(saved) && commits == old(commits) && pending == (old(pending) || ok)
    {
      ghost var op := InsertGeneration(g, state, rebuildFrom, last, target, now);
      ApplyKeepsInv(View(), op);
      AdvancesTransitive(saved, View(), Apply(View(), op));
      if g in generations || g == 0 || state != Building { return false; }
      var row := Generation(state, rebuildFrom, last, target, now, None, None);
      ok := CheckProgress(row);
      if !ok { return; }
      generations := generations[g := row];
      pending := true;
      return true;
    }

    /** The row an update stores, if the trigger, the row checks and the unique index let it. */
    method CheckUpdate(g: Id, state: State, last: int, target: int, now: int) returns (row: Option<Generation>)
      ensures row.Some? <==> Allowed(View(), UpdateGeneration(g, state, last, target, now))
      ensures row.Some? ==> g in generations && row.value == Rewritten(generations[g], state, last, target, now)
    {
      hide TimestampShape, ProgressShape, TransitionAllowed;
      if g !in generations { return None; }
      row := BeforeUpdate(generations[g], state, last, target, now);
      if row == None { return; }
      var ok := CheckProgress(row.value);
      if !ok { return None; }
      ok := CheckTimestamps(row.value);
      if !ok { return None; }
      if state == Active && exists k :: k in generations && k != g && generations[k].state == Active { return None; }
    }

    method Update(g: Id, state: State, last: int, target: int, now: int) returns (ok: bool)
      requires Valid()
      modifies this
      ensures var op := UpdateGeneration(g, state, last, target, now);
              View() == Apply(old(View()), op) && ok == Allowed(old(View()), op)
      ensures Valid() && saved == old(saved) && commits == old(commits) && pending == (old(pending) || ok)
    {
      ghost var op := UpdateGeneration(g, state, last, target, now);
      ApplyKeepsInv(View(), op);
      AdvancesTransitive(saved, View(), Apply(View(), op));
      var row := CheckUpdate(g, state, last, target, now);
      hide Inv, Advances, Allowed, Rewritten;
      if row == None { return false; }
      if state == Active && generations[g].state == CatchingUp { reached := reached[g := target]; }
      generations := generations[g := row.value];
      pending := true;
      return true;
    }

    method SetCheckpoint(row: Checkpoint) returns (ok: bool)
      requires Valid()
      modifies this
      ensures var op := if old(checkpoint) == None then InsertCheckpoint(row) else UpdateCheckpoint(row);
              View() == Apply(old(View()), op) && ok == Allowed(old(View()), op)
      ensures Valid() && saved == old(saved) && commits == old(commits) && pending == (old(pending) || ok)
    {
      ghost var op := if checkpoint == None then InsertCheckpoint(row) else UpdateCheckpoint(row);
      ApplyKeepsInv(View(), op);
      AdvancesTransitive(saved, View(), Apply(View(), op));
      if row.last < 0 || row.active == 0 || (checkpoint.Some? && row.last < checkpoint.value.last) { return false; }
      checkpoint := Some(row);
      pending := true;
      return true;
    }

    method Record(p: int) returns (ok: bool)
      requires Valid()
      modifies this
      ensures View() == Apply(old(View()), RecordEvent(p)) && ok == Allowed(old(View()), RecordEvent(p))
      ensures Valid() && saved == old(saved) && commits == old(commits) && pending == old(pending)
    {
      ApplyKeepsInv(View(), RecordEvent(p));
      AdvancesTransitive(saved, View(), Apply(View(), RecordEvent(p)));
      ok := p > 0 && p !in events;
      if ok { events := events + {p}; }
    }

    /** The deferred check: counts the active generations and compares the checkpoint with the one it names. */
    method RunCheck() returns (ok: bool)
      ensures ok <==> CommitCheck(View())
    {
      var active := set g | g in generations && generations[g].state == Active;
      assert active == ActiveSet(View());
      if checkpoint == None { return |active| == 0; }
      var c := checkpoint.value;
      if |active| != 1 || c.active !in generations || generations[c.active].state != Active { return false; }
      if c.last != generations[c.active].last { return false; }
      return c.last <= 0 || c.last in events;
    }

    /** Runs the deferred check if any row fired it; commits exactly the states that serve readers. */
    method Commit() returns (ok: bool)
      requires Valid()
      modifies this
      ensures Valid() && !pending && ok == Served(old(View()))
      ensures View() == saved == if ok then old(View()) else old(saved)
      ensures commits == if ok then old(commits) + [old(View())] else old(commits)
    {
      CommitCheckIsServed(View());
      hide CommitCheck;
      assert Served(saved) by { assert Served(commits[|commits| - 1]); }
      ok := true;
      if pending { ok := RunCheck(); }
      assert !pending ==> ActiveSet(View()) == ActiveSet(saved);
      if ok {
        saved := View();
        commits := commits + [saved];
      } else {
        events, checkpoint, generations, reached := saved.events, saved.checkpoint, saved.generations, saved.reached;
      }
      pending := false;
    }
  }
}
