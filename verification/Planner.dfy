// Semantic validation of a schema-valid plan (planner.py:163-236).

module Planner {
  import opened Domain
  import opened Graph

  datatype RawItem = RawItem(
    id: string,
    title: string,
    instructions: string,
    task: string,
    phase: string,
    dependencies: seq<string>,
    access: AccessMode,
    affectedPaths: seq<string>,
    expectedResult: string,
    verification: seq<string>,
    confidence: Float,
    riskFlags: seq<string>)

  datatype PlanError =
    | DuplicateId(id: string)
    | UnknownTask(task: string)
    | NoVerification(id: string)
    | PathEscapes(path: string)
    | MissingDependency(id: string, dependency: string)
    | DependencyCycle(id: string)

  /** Depth-first search for a dependency cycle.  The identifier the search
      stands on and the order in which identifiers are visited are ghost: the
      code keeps only the two sets. */
  class CycleCheck {
    const dependencies: Dependencies
    var visiting: set<string>
    var visited: set<string>
    ghost var top: Option<string>
    ghost var order: seq<string>

    constructor (dependencies: Dependencies)
      ensures this.dependencies == dependencies && Valid() && top.None?
      ensures visiting == {} && visited == {} && order == []
    {
      this.dependencies := dependencies;
      visiting, visited := {}, {};
      top, order := None, [];
    }

    ghost predicate Valid()
      reads this
    {
      && Walking(dependencies, visiting, top)
      && Visited(dependencies, visited, order)
      && visiting !! visited
    }

    /** Visits itemId and all it depends on; an error names an identifier on a
        real cycle. */
    method Visit(itemId: string) returns (error: Option<string>)
      requires Valid() && Closed(dependencies) && Follows(dependencies, top, itemId)
      modifies this
      ensures error.None? ==> Valid() && top == old(top) && visiting == old(visiting)
      ensures error.None? ==> itemId in visited && old(order) <= order
      ensures error.Some? ==> OnCycle(dependencies, error.value)
      decreases |dependencies.Keys - visiting|, 0
    {
      if itemId in visiting {
        CycleFound(dependencies, visiting, top, itemId);
        return Some(itemId);
      }
      if itemId in visited {
        return None;
      }
      ghost var outer, before := visiting, top;
      Descend(dependencies, visiting, top, itemId);
      visiting := visiting + {itemId};
      top := Some(itemId);
      error := VisitEach(dependencies[itemId]);
      if error.Some? {
        return;
      }
      Finish(dependencies, visited, order, itemId);
      assert visiting - {itemId} == outer;
      visiting := visiting - {itemId};
      top := before;
      visited := visited + {itemId};
      order := order + [itemId];
    }

    /** The loops of the search: over the dependencies of the identifier being
        visited, and at the top over all items of the plan. */
    method VisitEach(ids: seq<string>) returns (error: Option<string>)
      requires Valid() && Closed(dependencies)
      requires forall i | 0 <= i < |ids| :: Follows(dependencies, top, ids[i])
      modifies this
      ensures error.None? ==> Valid() && top == old(top) && visiting == old(visiting)
      ensures error.None? ==> (forall i | 0 <= i < |ids| :: ids[i] in visited) && old(order) <= order
      ensures error.Some? ==> OnCycle(dependencies, error.value)
      decreases |dependencies.Keys - visiting|, 1
    {
      for k := 0 to |ids|
        invariant Valid() && top == old(top) && visiting == old(visiting)
        invariant old(order) <= order && forall j | 0 <= j < k :: ids[j] in order
      {
        error := Visit(ids[k]);
        if error.Some? {
          return;
        }
      }
      return None;
    }
  }

  ghost predicate OnCycle(g: Dependencies, id: string) {
    exists p :: IsCycle(g, p) && p[0] == id
  }

  /** The search may step from top, or from nowhere, to id. */
  ghost predicate Follows(g: Dependencies, top: Option<string>, id: string) {
    id in g && (top.Some? ==> Edge(g, top.value, id))
  }

  /** Every identifier being visited has a path to where the search stands. */
  ghost predicate Walking(g: Dependencies, visiting: set<string>, top: Option<string>) {
    && visiting <= g.Keys
    && forall v | v in visiting :: top.Some? && Reaches(g, v, top.value)
  }

  /** The visited identifiers, in an order that puts dependencies first. */
  ghost predicate Visited(g: Dependencies, visited: set<string>, order: seq<string>) {
    && visited <= g.Keys
    && (forall id :: id in order <==> id in visited)
    && Distinct(order) && DependenciesFirst(g, order)
  }

  lemma {:induction false} Descend(g: Dependencies, visiting: set<string>, top: Option<string>, id: string)
    requires Walking(g, visiting, top) && Follows(g, top, id) && id !in visiting
    ensures Walking(g, visiting + {id}, Some(id))
    ensures |g.Keys - (visiting + {id})| < |g.Keys - visiting|
    ensures forall i | 0 <= i < |g[id]| :: Edge(g, id, g[id][i])
  {
    forall v | v in visiting + {id} ensures Reaches(g, v, id) {
      if v == id {
        ReachesSelf(g, id);
      } else {
        ReachesNext(g, v, top.value, id);
      }
    }
    assert g.Keys - visiting == (g.Keys - (visiting + {id})) + {id};
  }

  lemma {:induction false} CycleFound(g: Dependencies, visiting: set<string>, top: Option<string>, id: string)
    requires Walking(g, visiting, top) && Follows(g, top, id) && id in visiting
    ensures OnCycle(g, id)
  {
    var p :| IsPath(g, p) && p[0] == id && p[|p| - 1] == top.value;
    ExtendPath(g, p, id);
    assert IsCycle(g, p + [id]);
  }

  lemma {:induction false} Finish(g: Dependencies, visited: set<string>, order: seq<string>, id: string)
    requires Visited(g, visited, order) && id in g && id !in visited
    requires forall i | 0 <= i < |g[id]| :: g[id][i] in visited
    ensures Visited(g, visited + {id}, order + [id])
  {
    var longer := order + [id];
    forall k, d | 0 <= k < |longer| && Edge(g, longer[k], d) ensures d in longer[..k] {
      if k < |order| {
        assert longer[..k] == order[..k];
      } else {
        assert longer[..k] == order;
      }
    }
  }

  /** One entry of the graph: an identifier and what it depends on. */
  datatype Declaration = Declaration(id: string, dependencies: seq<string>)

  ghost predicate DistinctIds(ds: seq<Declaration>) {
    forall i, j | 0 <= i < j < |ds| :: ds[i].id != ds[j].id
  }

  function DependencyMap(ds: seq<Declaration>): (g: Dependencies)
    ensures forall id :: id in g <==> exists i :: 0 <= i < |ds| && ds[i].id == id
    ensures DistinctIds(ds) ==> forall i | 0 <= i < |ds| :: g[ds[i].id] == ds[i].dependencies
  {
    if ds == [] then map[] else
      var last := ds[|ds| - 1];
      assert forall i | 0 <= i < |ds| - 1 :: ds[..|ds| - 1][i] == ds[i];
      DependencyMap(ds[..|ds| - 1])[last.id := last.dependencies]
  }

  function Declared(items: seq<WorkItem>): seq<Declaration> {
    seq(|items|, i requires 0 <= i < |items| => Declaration(items[i].id, items[i].dependencies))
  }

  /** Accepts exactly the acyclic graphs.  On acceptance the visiting order is
      topological; a rejection names an identifier that lies on a cycle. */
  method RejectCycles(items: seq<WorkItem>) returns (error: Option<string>, ghost order: seq<string>)
    requires Closed(DependencyMap(Declared(items)))
    ensures error.None? <==> Acyclic(DependencyMap(Declared(items)))
    ensures error.None? ==> Topological(DependencyMap(Declared(items)), order)
    ensures error.Some? ==> OnCycle(DependencyMap(Declared(items)), error.value)
  {
    var check := new CycleCheck(DependencyMap(Declared(items)));
    var ids := seq(|items|, i requires 0 <= i < |items| => items[i].id);
    assert forall i | 0 <= i < |items| :: Declared(items)[i].id == ids[i];
    error := check.VisitEach(ids);
    if error.Some? {
      return error, [];
    }
    order := check.order;
    assert forall id | id in check.dependencies :: id in ids;
    TopologicalIsAcyclic(check.dependencies, order);
    return None, order;
  }

  predicate ItemAcceptable(raw: RawItem, tasks: set<string>, contained: string -> Option<string>) {
    && raw.task in tasks
    && (raw.access.WorkspaceWrite? ==> raw.verification != [])
    && forall p | p in raw.affectedPaths :: contained(p).Some?
  }

  function ItemOf(raw: RawItem, contained: string -> Option<string>): WorkItem
    requires forall p | p in raw.affectedPaths :: contained(p).Some?
  {
    WorkItem(raw.id, raw.title, raw.instructions, raw.task, raw.phase, raw.dependencies, raw.access,
             seq(|raw.affectedPaths|, i requires 0 <= i < |raw.affectedPaths| => contained(raw.affectedPaths[i]).value),
             raw.expectedResult, raw.verification, raw.confidence,
             set f | f in raw.riskFlags)
  }

  ghost predicate Parsed(raw: seq<RawItem>, contained: string -> Option<string>, items: seq<WorkItem>) {
    && |items| == |raw|
    && forall i | 0 <= i < |raw| ::
      (forall p | p in raw[i].affectedPaths :: contained(p).Some?) && items[i] == ItemOf(raw[i], contained)
  }

  ghost predicate DependenciesKnown(raw: seq<RawItem>) {
    forall i, d | 0 <= i < |raw| && d in raw[i].dependencies :: exists j :: 0 <= j < |raw| && raw[j].id == d
  }

  function RawDeclared(raw: seq<RawItem>): seq<Declaration> {
    seq(|raw|, i requires 0 <= i < |raw| => Declaration(raw[i].id, raw[i].dependencies))
  }

  function RawGraph(raw: seq<RawItem>): Dependencies {
    DependencyMap(RawDeclared(raw))
  }

  ghost predicate DistinctRawIds(raw: seq<RawItem>) {
    forall i, j | 0 <= i < j < |raw| :: raw[i].id != raw[j].id
  }

  /** What the planner promises of every plan it lets through. */
  ghost predicate Acceptable(raw: seq<RawItem>, tasks: set<string>, contained: string -> Option<string>) {
    && DistinctRawIds(raw)
    && (forall i | 0 <= i < |raw| :: ItemAcceptable(raw[i], tasks, contained))
    && DependenciesKnown(raw)
    && Acyclic(RawGraph(raw))
  }

  /** The reported error really occurs in the plan. */
  ghost predicate Justified(raw: seq<RawItem>, tasks: set<string>, contained: string -> Option<string>, e: PlanError) {
    match e
    case DuplicateId(id) => exists i, j :: 0 <= i < j < |raw| && raw[i].id == id && raw[j].id == id
    case UnknownTask(task) => task !in tasks && exists i :: 0 <= i < |raw| && raw[i].task == task
    case NoVerification(id) =>
      exists i :: 0 <= i < |raw| && raw[i].id == id && raw[i].access.WorkspaceWrite? && raw[i].verification == []
    case PathEscapes(p) => contained(p).None? && exists i :: 0 <= i < |raw| && p in raw[i].affectedPaths
    case MissingDependency(id, d) =>
      && (exists i :: 0 <= i < |raw| && raw[i].id == id && d in raw[i].dependencies)
      && forall j | 0 <= j < |raw| :: raw[j].id != d
    case DependencyCycle(id) => OnCycle(RawGraph(raw), id)
  }

  /** The first affected path that leaves the project, if any. */
  method ContainedPaths(paths: seq<string>, contained: string -> Option<string>)
    returns (r: Result<seq<string>, PlanError>)
    ensures r.Ok? <==> forall p | p in paths :: contained(p).Some?
    ensures r.Ok? ==> |r.value| == |paths| && forall i | 0 <= i < |paths| :: contained(paths[i]) == Some(r.value[i])
    ensures r.Err? ==> r.error.PathEscapes? && r.error.path in paths && contained(r.error.path).None?
  {
    var out: seq<string> := [];
    for i := 0 to |paths|
      invariant |out| == i && forall j | 0 <= j < i :: contained(paths[j]) == Some(out[j])
    {
      var relative := contained(paths[i]);
      if relative.None? {
        return Err(PathEscapes(paths[i]));
      }
      out := out + [relative.value];
    }
    return Ok(out);
  }

  /** The per-item checks: duplicate identifiers, tasks, verification, paths. */
  method ParseItems(raw: seq<RawItem>, tasks: set<string>, contained: string -> Option<string>)
    returns (r: Result<seq<WorkItem>, PlanError>)
    ensures r.Ok? <==> DistinctRawIds(raw) && forall i | 0 <= i < |raw| :: ItemAcceptable(raw[i], tasks, contained)
    ensures r.Ok? ==> Parsed(raw, contained, r.value)
    ensures r.Err? ==> Justified(raw, tasks, contained, r.error)
  {
    var items: seq<WorkItem> := [];
    var seen: set<string> := {};
    for k := 0 to |raw|
      invariant Parsed(raw[..k], contained, items)
      invariant forall id :: id in seen <==> exists i :: 0 <= i < k && raw[i].id == id
      invariant forall i, j | 0 <= i < j < k :: raw[i].id != raw[j].id
      invariant forall i | 0 <= i < k :: ItemAcceptable(raw[i], tasks, contained)
    {
      var item := raw[k];
      if item.id in seen {
        return Err(DuplicateId(item.id));
      }
      seen := seen + {item.id};
      if item.task !in tasks {
        return Err(UnknownTask(item.task));
      }
      if item.access.WorkspaceWrite? && item.verification == [] {
        return Err(NoVerification(item.id));
      }
      var paths := ContainedPaths(item.affectedPaths, contained);
      if paths.Err? {
        return Err(paths.error);
      }
      var parsed := WorkItem(item.id, item.title, item.instructions, item.task, item.phase, item.dependencies,
                             item.access, paths.value, item.expectedResult, item.verification, item.confidence,
                             set f | f in item.riskFlags);
      assert paths.value == ItemOf(item, contained).affectedPaths;
      items := items + [parsed];
      assert raw[..k + 1] == raw[..k] + [item];
    }
    assert raw[..|raw|] == raw;
    return Ok(items);
  }

  method UnknownDependency(item: WorkItem, ids: set<string>) returns (unknown: Option<string>)
    ensures unknown.None? ==> forall d | d in item.dependencies :: d in ids
    ensures unknown.Some? ==> unknown.value in item.dependencies && unknown.value !in ids
  {
    for n := 0 to |item.dependencies|
      invariant forall m | 0 <= m < n :: item.dependencies[m] in ids
    {
      if item.dependencies[n] !in ids {
        return Some(item.dependencies[n]);
      }
    }
    return None;
  }

  /** The first dependency that names no item of the plan, if any. */
  method MissingDependencyOf(items: seq<WorkItem>) returns (error: Option<PlanError>)
    ensures error.None? <==> KnownDependencies(items)
    ensures error.Some? ==> error.value.MissingDependency? && error.value.dependency !in Ids(items)
    ensures error.Some? ==>
              exists i :: 0 <= i < |items| && items[i].id == error.value.id && error.value.dependency in items[i].dependencies
  {
    for k := 0 to |items|
      invariant forall i, d | 0 <= i < k && d in items[i].dependencies :: d in Ids(items)
    {
      var unknown := UnknownDependency(items[k], Ids(items));
      if unknown.Some? {
        return Some(MissingDependency(items[k].id, unknown.value));
      }
    }
    return None;
  }

  function Ids(items: seq<WorkItem>): set<string> {
    set i | 0 <= i < |items| :: items[i].id
  }

  ghost predicate KnownDependencies(items: seq<WorkItem>) {
    forall i, d | 0 <= i < |items| && d in items[i].dependencies :: d in Ids(items)
  }

  method ParseSemanticWorkItems(raw: seq<RawItem>, tasks: set<string>, contained: string -> Option<string>)
    returns (r: Result<seq<WorkItem>, PlanError>)
    ensures r.Ok? <==> Acceptable(raw, tasks, contained)
    ensures r.Ok? ==> Parsed(raw, contained, r.value)
    ensures r.Ok? ==> exists order :: Topological(DependencyMap(Declared(r.value)), order)
    ensures r.Err? ==> Justified(raw, tasks, contained, r.error)
  {
    r := ParseItems(raw, tasks, contained);
    if r.Err? {
      return;
    }
    var items := r.value;
    assert Declared(items) == RawDeclared(raw);
    var missing := MissingDependencyOf(items);
    KnownMeansKnown(raw, items);
    if missing.Some? {
      return Err(missing.value);
    }
    KnownIsClosed(items);
    var cycle, order := RejectCycles(items);
    if cycle.Some? {
      return Err(DependencyCycle(cycle.value));
    }
  }

  lemma {:induction false} KnownMeansKnown(raw: seq<RawItem>, items: seq<WorkItem>)
    requires |items| == |raw|
    requires forall i | 0 <= i < |raw| :: items[i].id == raw[i].id && items[i].dependencies == raw[i].dependencies
    ensures KnownDependencies(items) <==> DependenciesKnown(raw)
  {
    forall d ensures d in Ids(items) <==> exists j :: 0 <= j < |raw| && raw[j].id == d {
      assert (exists j :: 0 <= j < |raw| && raw[j].id == d) ==> exists j :: 0 <= j < |items| && items[j].id == d;
      assert (exists j :: 0 <= j < |items| && items[j].id == d) ==> exists j :: 0 <= j < |raw| && raw[j].id == d;
    }
    assert KnownDependencies(items) ==> DependenciesKnown(raw) by {
      if KnownDependencies(items) {
        forall i, d | 0 <= i < |raw| && d in raw[i].dependencies ensures exists j :: 0 <= j < |raw| && raw[j].id == d {
          assert d in items[i].dependencies && d in Ids(items);
        }
      }
    }
  }

  lemma {:induction false} KnownIsClosed(items: seq<WorkItem>)
    requires DistinctIds(Declared(items)) && KnownDependencies(items)
    ensures Closed(DependencyMap(Declared(items)))
  {
    var ds := Declared(items);
    var g := DependencyMap(ds);
    forall id, d | Edge(g, id, d) ensures d in g {
      var i :| 0 <= i < |ds| && ds[i].id == id;
      assert d in items[i].dependencies && d in Ids(items);
      var j :| 0 <= j < |items| && items[j].id == d;
      assert ds[j].id == d;
    }
  }
}
