/** The planned category list (planner.py): one current version per category, parents before children. */
module Categories {
  import opened Ids
  import opened Outcomes
  import opened Waves
  import opened Rows

  datatype CategoryRow = CategoryRow(id: Id, archived: bool)

  datatype VersionRow = VersionRow(id: Id, category: Id, parent: Option<Id>, name: string, closed: bool,
                                   reason: Option<string>)

  datatype Planned = Planned(category: nat, parent: Option<nat>, name: string, version: nat, archived: bool,
                             reason: string)

  datatype Failure = DuplicateIdentity | NotOneVersionEach | InvalidParent | InvalidReason | DependencyCycle

  const WHITESPACE: string :=
    "\t\n\U{000B}\U{000C}\r \U{001C}\U{001D}\U{001E}\U{001F}\U{0085}\U{00A0}" +
    "\U{1680}\U{2000}\U{2001}\U{2002}\U{2003}\U{2004}" +
    "\U{2005}\U{2006}\U{2007}\U{2008}\U{2009}\U{200A}\U{2028}\U{2029}\U{202F}\U{205F}\U{3000}"

  function Reason(v: VersionRow): string { if v.reason == None then "frozen_import" else v.reason.value }

  predicate ReasonAccepted(v: VersionRow) {
    |Reason(v)| <= 64 && exists i :: 0 <= i < |Reason(v)| && Reason(v)[i] !in WHITESPACE
  }

  function CategoryId(r: CategoryRow): Id { r.id }

  function CategoryOf(v: VersionRow): Id { v.category }

  // ---------------------------------------------------------------- the plan, declaratively

  function Parents(versions: map<Id, VersionRow>): Graph { map id | id in versions :: versions[id].parent }

  function Plan(uuid: Id -> nat, row: CategoryRow, v: VersionRow): Planned {
    Planned(uuid(row.id), if v.parent == None then None else Some(uuid(v.parent.value)), v.name, v.id,
            v.closed || row.archived, Reason(v))
  }

  /** The rows give each category one version, no version without a category, parents that exist, good reasons. */
  predicate Snapshot(categories: seq<CategoryRow>, versions: seq<VersionRow>) {
    && Unique(CategoryId, categories) && Unique(CategoryOf, versions)
    && Index(CategoryId, categories).Keys == Index(CategoryOf, versions).Keys
    && var v := Index(CategoryOf, versions); Closed(Parents(v)) && forall id :: id in v ==> ReasonAccepted(v[id])
  }

  ghost predicate Lists(uuid: Id -> nat, c: map<Id, CategoryRow>, v: map<Id, VersionRow>, ids: seq<Id>,
                        plan: seq<Planned>) {
    |plan| == |ids| && forall i :: 0 <= i < |ids| ==>
        ids[i] in c && ids[i] in v && plan[i] == Plan(uuid, c[ids[i]], v[ids[i]])
  }

  ghost predicate Emits(uuid: Id -> nat, categories: seq<CategoryRow>, versions: seq<VersionRow>, plan: seq<Planned>)
    requires Injective(uuid)
  {
    var c, v := Index(CategoryId, categories), Index(CategoryOf, versions);
    Lists(uuid, c, v, Order(Parents(v), {}, uuid), plan)
  }

  /** The archived flag and the default reason are decided from the two rows; everything else is carried over. */
  ghost predicate PlannedAs(uuid: Id -> nat, row: CategoryRow, v: VersionRow, p: Planned) {
    && p.category == uuid(row.id) && p.version == v.id && p.name == v.name
    && (p.archived <==> row.archived || v.closed)
    && (v.parent == None ==> p.parent == None)
    && (v.parent.Some? ==> p.parent == Some(uuid(v.parent.value)))
    && (v.reason == None ==> p.reason == "frozen_import") && (v.reason.Some? ==> p.reason == v.reason.value)
  }

  /** `source` is where each planned category comes from: every category once, each parent strictly earlier. */
  ghost predicate ParentsFirst(uuid: Id -> nat, c: map<Id, CategoryRow>, v: map<Id, VersionRow>, plan: seq<Planned>,
                               source: seq<Id>) {
    && |source| == |plan| && c.Keys == v.Keys == Elems(source)
    && (forall i, j :: 0 <= i < j < |source| ==> source[i] != source[j])
    && forall i :: 0 <= i < |source| ==> ParentFirst(uuid, c, v, plan, source, i)
  }

  ghost predicate ParentFirst(uuid: Id -> nat, c: map<Id, CategoryRow>, v: map<Id, VersionRow>, plan: seq<Planned>,
                              source: seq<Id>, i: nat)
    requires |source| == |plan| && i < |source|
  {
    && source[i] in c && source[i] in v && c[source[i]].id == source[i] && v[source[i]].category == source[i]
    && PlannedAs(uuid, c[source[i]], v[source[i]], plan[i])
    && (v[source[i]].parent.Some? ==> v[source[i]].parent.value in source[..i])
    && (plan[i].parent.Some? ==> exists j :: 0 <= j < i && plan[j].category == plan[i].parent.value)
  }

  lemma EmitsEverything(g: Graph, order: seq<Id>)
    requires SoundOrder(g, {}, order) && g.Keys <= {} + Elems(order)
    ensures Elems(order) == g.Keys
  {
    hide Grounded;
    forall i | 0 <= i < |order| ensures order[i] in g { assert SoundAt(g, {}, order, i); }
  }

  lemma EmittedInOrder(uuid: Id -> nat, c: map<Id, CategoryRow>, v: map<Id, VersionRow>, plan: seq<Planned>)
    requires Injective(uuid) && c.Keys == v.Keys
    requires forall id :: (id in c ==> c[id].id == id) && (id in v ==> v[id].category == id)
    requires !Cyclic(Parents(v)) && Closed(Parents(v)) && Lists(uuid, c, v, Order(Parents(v), {}, uuid), plan)
    ensures ParentsFirst(uuid, c, v, plan, Order(Parents(v), {}, uuid))
  {
    var g := Parents(v);
    var order := Order(g, {}, uuid);
    OrderIsSound(g, {}, uuid);
    OrderIsComplete(g, {}, uuid);
    GroundedIffAcyclic(g);
    EmitsEverything(g, order);
    assert |plan| == |order| && c.Keys == v.Keys == Elems(order) && SoundOrder(g, {}, order);
    hide Order, Grounded, Cyclic, Elems, Lists, ParentFirst, SoundAt, Injective, Closed;
    forall i | 0 <= i < |order| ensures ParentFirst(uuid, c, v, plan, order, i) {
      EmittedAfterParent(uuid, c, v, plan, order, i);
    }
  }

  lemma EmittedAfterParent(uuid: Id -> nat, c: map<Id, CategoryRow>, v: map<Id, VersionRow>, plan: seq<Planned>,
                           order: seq<Id>, i: nat)
    requires c.Keys == v.Keys && forall id :: (id in c ==> c[id].id == id) && (id in v ==> v[id].category == id)
    requires SoundOrder(Parents(v), {}, order) && Lists(uuid, c, v, order, plan) && i < |order|
    ensures ParentFirst(uuid, c, v, plan, order, i)
  {
    hide Grounded;
    assert SoundAt(Parents(v), {}, order, i);
    if v[order[i]].parent.Some? {
      var j :| 0 <= j < i && order[..i][j] == v[order[i]].parent.value;
      assert plan[j].category == uuid(order[j]);
    }
  }

  /** Which plan comes out does not depend on the order of either table's rows. */
  lemma RowOrderIsIrrelevant(uuid: Id -> nat, categories: seq<CategoryRow>, versions: seq<VersionRow>,
                             categories': seq<CategoryRow>, versions': seq<VersionRow>, plan: seq<Planned>,
                                 plan': seq<Planned>)
    requires Injective(uuid) && multiset(categories) == multiset(categories')
    requires multiset(versions) == multiset(versions')
    ensures Snapshot(categories, versions) == Snapshot(categories', versions')
    ensures Snapshot(categories, versions) ==>
              Index(CategoryOf, versions) == Index(CategoryOf, versions')
              && (Emits(uuid, categories, versions, plan) && Emits(uuid, categories', versions', plan') ==>
                   plan == plan')
  {
    IndexIgnoresOrder(CategoryId, categories, categories');
    IndexIgnoresOrder(CategoryOf, versions, versions');
  }

  // ---------------------------------------------------------------- the loops

  method PlanCategories(uuid: Id -> nat, categories: seq<CategoryRow>, versions: seq<VersionRow>)
    returns (r: Result<seq<Planned>, Failure>)
    requires Injective(uuid)
    ensures r.Ok? <==> Snapshot(categories, versions) && !Cyclic(Parents(Index(CategoryOf, versions)))
    ensures r.Ok? ==> Emits(uuid, categories, versions, r.value)
    ensures r.Ok? ==> ParentsFirst(uuid, Index(CategoryId, categories), Index(CategoryOf, versions), r.value,
                                   Order(Parents(Index(CategoryOf, versions)), {}, uuid))
    ensures r == Err(DuplicateIdentity) <==> !Unique(CategoryId, categories)
    ensures r == Err(NotOneVersionEach) <==>
              Unique(CategoryId, categories)
              && !(Unique(CategoryOf, versions)
                   && Index(CategoryId, categories).Keys == Index(CategoryOf, versions).Keys)
    ensures r == Err(InvalidParent) ==> !Closed(Parents(Index(CategoryOf, versions)))
    ensures r == Err(InvalidReason) ==> exists v :: v in versions && !ReasonAccepted(v)
    ensures r == Err(DependencyCycle) <==>
              Snapshot(categories, versions) && Cyclic(Parents(Index(CategoryOf, versions)))
  {
    var rows := BuildIndex(CategoryId, categories);
    if rows == None { return Err(DuplicateIdentity); }
    var current := BuildIndex(CategoryOf, versions);
    if current == None || current.value.Keys != rows.value.Keys { return Err(NotOneVersionEach); }
    var checked := CheckVersions(rows.value, current.value);
    if checked.Some? { return Err(checked.value); }
    var planned := Planning(uuid, rows.value, current.value);
    ghost var ids;
    r, ids := Wave(uuid, Parents(current.value), planned);
    hide Cyclic, Order;
    if r.Ok? { EmittedInOrder(uuid, rows.value, current.value, r.value); }
  }

  method CheckVersions(rows: map<Id, CategoryRow>, current: map<Id, VersionRow>) returns (problem: Option<Failure>)
    requires rows.Keys == current.Keys
    ensures problem == None <==> Closed(Parents(current)) && forall id :: id in current ==> ReasonAccepted(current[id])
    ensures problem.Some? ==> problem.value == InvalidParent || problem.value == InvalidReason
    ensures problem == Some(InvalidParent) ==> !Closed(Parents(current))
    ensures problem == Some(InvalidReason) ==> exists id :: id in current && !ReasonAccepted(current[id])
  {
    var left := rows.Keys;
    while left != {}
      invariant left <= rows.Keys
      invariant forall id :: id in current && id !in left ==>
                  ReasonAccepted(current[id]) && (current[id].parent.Some? ==> current[id].parent.value in current)
    {
      var id :| id in left;
      var v := current[id];
      if v.parent.Some? && v.parent.value !in rows {
        assert Parents(current)[id].value !in Parents(current);
        return Some(InvalidParent);
      }
      var accepted := CheckReason(if v.reason == None then "frozen_import" else v.reason.value);
      if !accepted { return Some(InvalidReason); }
      left := left - {id};
    }
    problem := None;
  }

  /** At most 64 characters, and something left of it once surrounding whitespace is stripped. */
  method CheckReason(reason: string) returns (ok: bool)
    ensures ok <==> |reason| <= 64 && exists i :: 0 <= i < |reason| && reason[i] !in WHITESPACE
  {
    var first := 0;
    while first < |reason| && reason[first] in WHITESPACE
      invariant first <= |reason| && forall i :: 0 <= i < first ==> reason[i] in WHITESPACE
    {
      first := first + 1;
    }
    ok := first < |reason| && |reason| <= 64;
  }

  function Planning(uuid: Id -> nat, rows: map<Id, CategoryRow>, current: map<Id, VersionRow>): map<Id, Planned>
    requires rows.Keys == current.Keys
  {
    map id | id in rows :: Plan(uuid, rows[id], current[id])
  }

  method Wave(uuid: Id -> nat, parents: Graph, planned: map<Id, Planned>)
    returns (r: Result<seq<Planned>, Failure>, ghost ids: seq<Id>)
    requires Injective(uuid) && planned.Keys == parents.Keys && Closed(parents)
    ensures r.Err? <==> Cyclic(parents)
    ensures r.Err? ==> r.error == DependencyCycle
    ensures r.Ok? ==> ids == Order(parents, {}, uuid) && Each(planned, ids, r.value)
  {
    hide Cyclic, Grounded, Order, Sorted, Each, Injective, Elems, Closed;
    var ordered: seq<Planned> := [];
    var remaining, emitted := planned.Keys, {};
    ids := [];
    Start(parents, planned, uuid);
    while remaining != {}
      invariant remaining == parents.Keys - emitted && Progress(parents, planned, uuid, emitted, ids, ordered)
      decreases |remaining|
    {
      var available := set id | id in remaining && (parents[id] == None || parents[id].value in emitted);
      assert available == Ready(parents, emitted);
      if available == {} {
        var id :| id in remaining;
        StuckIsCyclic(parents, emitted, id);
        r := Err(DependencyCycle);
        return;
      }
      Shrinks(parents, emitted);
      OneWave(parents, planned, uuid, emitted, ids, ordered);
      var wave := SortByKey(uuid, available);
      ordered := Append(planned, ids, ordered, wave);
      ids, emitted := ids + wave, emitted + available;
      remaining := remaining - available;
      assert remaining == parents.Keys - emitted;
    }
    AllDone(parents, planned, uuid, emitted, ids, ordered);
    r := Ok(ordered);
  }

  ghost predicate Progress(parents: Graph, planned: map<Id, Planned>, uuid: Id -> nat, emitted: set<Id>, ids: seq<Id>,
                           list: seq<Planned>)
    requires Injective(uuid)
  {
    && emitted == Elems(ids) && emitted <= parents.Keys && Each(planned, ids, list)
    && ids + Order(parents, emitted, uuid) == Order(parents, {}, uuid)
  }

  lemma Start(parents: Graph, planned: map<Id, Planned>, uuid: Id -> nat)
    requires Injective(uuid)
    ensures Progress(parents, planned, uuid, {}, [], [])
  {
  }

  ghost predicate Each(planned: map<Id, Planned>, ids: seq<Id>, list: seq<Planned>) {
    |list| == |ids| && forall i :: 0 <= i < |ids| ==> ids[i] in planned && list[i] == planned[ids[i]]
  }

  method Append(planned: map<Id, Planned>, ghost ids: seq<Id>, list: seq<Planned>, wave: seq<Id>)
    returns (r: seq<Planned>)
    requires Each(planned, ids, list) && Elems(wave) <= planned.Keys
    ensures Each(planned, ids + wave, r)
  {
    r := list;
    for i := 0 to |wave|
      invariant Each(planned, ids + wave[..i], r)
    {
      assert wave[i] in Elems(wave);
      r := r + [planned[wave[i]]];
    }
  }

  lemma NextWave(g: Graph, planned: map<Id, Planned>, uuid: Id -> nat, done: set<Id>, ready: set<Id>,
                 wave: seq<Id>, ids: seq<Id>, list: seq<Planned>)
    requires Injective(uuid) && planned.Keys == g.Keys && Progress(g, planned, uuid, done, ids, list)
    requires ready <= g.Keys && Elems(wave) == ready && Order(g, done, uuid) == wave + Order(g, done + ready, uuid)
    ensures Each(planned, ids, list)
    ensures forall r :: Each(planned, ids + wave, r) ==> Progress(g, planned, uuid, done + ready, ids + wave, r)
  {
    hide Each, Order, Injective;
    assert Elems(ids + wave) == Elems(ids) + Elems(wave);
    assert (ids + wave) + Order(g, done + ready, uuid) == ids + Order(g, done, uuid);
  }

  lemma OneWave(g: Graph, planned: map<Id, Planned>, uuid: Id -> nat, done: set<Id>, ids: seq<Id>, list: seq<Planned>)
    requires Injective(uuid) && planned.Keys == g.Keys && Progress(g, planned, uuid, done, ids, list)
    requires Ready(g, done) != {}
    ensures Each(planned, ids, list) && Elems(Sorted(Ready(g, done), uuid)) <= planned.Keys
    ensures forall r :: Each(planned, ids + Sorted(Ready(g, done), uuid), r) ==>
                          Progress(g, planned, uuid, done + Ready(g, done), ids + Sorted(Ready(g, done), uuid), r)
  {
    var wave, ready := Sorted(Ready(g, done), uuid), Ready(g, done);
    assert ready <= g.Keys && Elems(wave) == ready;
    OrderUnfolds(g, done, uuid);
    NextWave(g, planned, uuid, done, ready, wave, ids, list);
    hide *;
  }

  lemma AllDone(g: Graph, planned: map<Id, Planned>, uuid: Id -> nat, done: set<Id>, ids: seq<Id>, list: seq<Planned>)
    requires Injective(uuid) && Closed(g) && Progress(g, planned, uuid, done, ids, list) && g.Keys - done == {}
    ensures ids == Order(g, {}, uuid) && Each(planned, ids, list) && !Cyclic(g)
  {
    assert Ready(g, done) == {};
    assert done == g.Keys by { forall id | id in g ensures id in done { assert id !in done ==> id in g.Keys - done; } }
    OrderIsComplete(g, {}, uuid);
    GroundedIffAcyclic(g);
  }

  lemma StuckIsCyclic(g: Graph, emitted: set<Id>, id: Id)
    requires Closed(g) && Ready(g, emitted) == {} && id in g && id !in emitted
    ensures Cyclic(g)
  {
    StuckWhenUngrounded(g, {}, emitted, id);
    UngroundedIsCyclic(g, {}, id);
  }
}
