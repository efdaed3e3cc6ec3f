// The first state of a run: the plan that was let through, with its routes
// (application.py:117-147).

module Plans {
  import opened Domain
  import opened Graph
  import opened Progress
  import opened Rules
  import opened Redaction
  import opened Process
  import opened Liveness
  import Planner

  type Router = WorkItem -> Option<RouteDecision>

  ghost predicate DistinctItems(items: seq<WorkItem>) {
    forall i, j | 0 <= i < j < |items| :: items[i].id != items[j].id
  }

  function ItemsById(items: seq<WorkItem>): (r: map<string, WorkItem>)
    ensures forall id | id in r :: r[id] in items && r[id].id == id
    ensures forall i | 0 <= i < |items| :: items[i].id in r
    ensures DistinctItems(items) ==> forall i | 0 <= i < |items| :: r[items[i].id] == items[i]
  {
    if items == [] then map[] else
      var last := items[|items| - 1];
      assert forall i | 0 <= i < |items| - 1 :: items[..|items| - 1][i] == items[i];
      ItemsById(items[..|items| - 1])[last.id := last]
  }

  /** The routes of all items, or nothing if one cannot be routed. */
  method RouteItems(router: Router, items: seq<WorkItem>) returns (routes: Option<map<string, RouteDecision>>)
    requires DistinctItems(items)
    ensures routes.None? <==> exists i :: 0 <= i < |items| && router(items[i]).None?
    ensures routes.Some? ==> RoutedAs(router, items, routes.value)
  {
    var found: map<string, RouteDecision> := map[];
    for k := 0 to |items|
      invariant forall id :: id in found <==> exists i :: 0 <= i < k && items[i].id == id
      invariant forall i | 0 <= i < k :: items[i].id in found && router(items[i]) == Some(found[items[i].id])
    {
      var route := router(items[k]);
      if route.None? {
        return None;
      }
      found := found[items[k].id := route.value];
    }
    return Some(found);
  }

  ghost predicate RoutedAs(router: Router, items: seq<WorkItem>, routes: map<string, RouteDecision>) {
    && (forall id :: id in routes <==> exists i :: 0 <= i < |items| && items[i].id == id)
    && forall i | 0 <= i < |items| :: items[i].id in routes && router(items[i]) == Some(routes[items[i].id])
  }

  function FirstState(digest: string, objective: Objective, repository: RepositoryContext,
                      workItems: map<string, WorkItem>, routes: map<string, RouteDecision>): Snapshot
  {
    Snapshot(1, digest, objective, repository, workItems, routes, map[], map[], RunStatus.Planned)
  }

  /** No identity of the run would be mistaken for a secret. */
  predicate CleanItem(pf: Platform, item: WorkItem) {
    !pf.secretText(item.id) && !pf.secretKey(item.id)
  }

  ghost predicate CleanPlan(pf: Platform, items: seq<WorkItem>) {
    forall i | 0 <= i < |items| :: CleanItem(pf, items[i])
  }

  ghost predicate DependenciesInside(items: seq<WorkItem>) {
    forall i | 0 <= i < |items| :: DependOnAny(items, items[i].dependencies)
  }

  ghost predicate DependOnAny(items: seq<WorkItem>, ds: seq<string>) {
    forall d | d in ds :: exists j :: 0 <= j < |items| && items[j].id == d
  }

  lemma {:induction false} PlanItemClean(pf: Platform, items: seq<WorkItem>, item: WorkItem)
    requires CleanPlan(pf, items) && DependenciesInside(items) && item in items
    ensures ItemClean(pf, item) && !pf.secretKey(item.id)
  {
    var i :| 0 <= i < |items| && items[i] == item;
    assert CleanItem(pf, items[i]) && DependOnAny(items, items[i].dependencies);
    forall n | 0 <= n < |item.dependencies| ensures !pf.secretText(item.dependencies[n]) {
      var d := item.dependencies[n];
      assert d in item.dependencies;
      var j :| 0 <= j < |items| && items[j].id == d;
      assert CleanItem(pf, items[j]);
    }
  }

  lemma {:induction false} RoutesCover(router: Router, items: seq<WorkItem>, routes: map<string, RouteDecision>)
    requires DistinctItems(items) && RoutedAs(router, items, routes)
    ensures routes.Keys == ItemsById(items).Keys
  {
    forall id ensures id in routes <==> id in ItemsById(items) {
      if id in ItemsById(items) {
        var i :| 0 <= i < |items| && items[i] == ItemsById(items)[id];
      }
    }
  }

  lemma {:induction false} PlanIsFresh(pf: Platform, router: Router, s: Snapshot, items: seq<WorkItem>)
    requires DistinctItems(items) && CleanPlan(pf, items) && DependenciesInside(items)
    requires s == FirstState(s.configurationDigest, s.objective, s.repository, ItemsById(items), s.routes)
    requires RoutedAs(router, items, s.routes) && Hex(s.configurationDigest) && !pf.secretText(s.objective.id)
    ensures Fresh(pf, s)
  {
    RoutesCover(router, items, s.routes);
    hide CleanPlan, DependenciesInside, DistinctItems, RoutedAs, ItemClean, Hex;
    forall id | id in s.workItems
      ensures ItemClean(pf, s.workItems[id]) && !pf.secretKey(id) && s.workItems[id].id == id
    {
      PlanItemClean(pf, items, s.workItems[id]);
    }
    hide ItemsById;
    assert KeySetClean(pf, s.workItems.Keys) && ItemIdsClean(pf, s.workItems) && ItemsKeyed(s.workItems);
  }

  lemma {:induction false} PlanGraph(s: Snapshot, items: seq<WorkItem>)
    requires DistinctItems(items) && s.workItems == ItemsById(items)
    ensures DependencyGraph(s) == Planner.DependencyMap(Planner.Declared(items))
  {
    var ds := Planner.Declared(items);
    var g, h := DependencyGraph(s), Planner.DependencyMap(ds);
    assert Planner.DistinctIds(ds);
    forall id ensures id in g <==> id in h {
      if id in g {
        var i :| 0 <= i < |items| && items[i] == s.workItems[id];
        assert ds[i].id == id;
      }
      if id in h {
        var i :| 0 <= i < |ds| && ds[i].id == id;
        assert items[i].id in s.workItems;
      }
    }
    forall id | id in g ensures g[id] == h[id] {
      var i :| 0 <= i < |items| && items[i] == s.workItems[id];
      assert ds[i].id == id && h[ds[i].id] == ds[i].dependencies;
    }
  }

  lemma {:induction false} TopologicalIsClosed(g: Dependencies, order: seq<string>)
    requires Topological(g, order)
    ensures Closed(g)
  {
    forall id, d | Edge(g, id, d) ensures d in g {
      assert id in order;
      var k :| 0 <= k < |order| && order[k] == id;
      assert d in order[..k] && d in order;
    }
  }

  /** No planned item needs an approval. */
  predicate AllAutomatic(s: Snapshot) {
    forall id | id in s.workItems :: id in s.routes && s.routes[id].approval.Automatic?
  }

  /** What planning promises of the first state: acyclic, and ready to run through
      if all its routes are automatic. */
  lemma {:induction false} PlanCanRun(pf: Platform, router: Router, s: Snapshot, items: seq<WorkItem>,
                                      order: seq<string>)
    requires DistinctItems(items) && s.workItems == ItemsById(items) && RoutedAs(router, items, s.routes)
    requires s.results == map[]
    requires Topological(Planner.DependencyMap(Planner.Declared(items)), order)
    ensures Closed(DependencyGraph(s)) && Acyclic(DependencyGraph(s)) && NoFailing(s)
    ensures AllAutomatic(s) ==> forall id | id in s.workItems :: Authorized(pf, s, id)
    ensures items != [] && (forall i | 0 <= i < |items| :: items[i].id != COMPLETION_ID) ==>
              HasBaseWork(s) && COMPLETION_ID !in s.workItems
  {
    PlanGraph(s, items);
    TopologicalIsClosed(DependencyGraph(s), order);
    TopologicalIsAcyclic(DependencyGraph(s), order);
    hide Closed, Acyclic;
    if items != [] {
      assert items[0].id in s.workItems;
    }
  }
}
