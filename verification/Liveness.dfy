// Why a run in which every turn succeeds is completed, and what COMPLETED means.

module Liveness {
  import opened Domain
  import opened Ordering
  import opened Graph
  import opened Progress
  import opened Rules
  import opened Process

  ghost predicate NoFailing(s: Snapshot) {
    forall id :: !IsFailing(s, id)
  }

  ghost predicate TurnsSucceeded(trace: seq<Action>) {
    forall a | a in trace && a.Return? :: a.result.status.Succeeded?
  }

  ghost predicate NothingFailed(v: View) {
    && v.session.Working? && NoFailing(v.session.work.mem)
    && forall id | id in v.session.work.returned :: v.session.work.returned[id].status.Succeeded?
  }

  lemma {:induction false} StepNeverFails(pf: Platform, a: Action, v: View)
    requires Enabled(pf, a, v) && InMemoryWellFormed(v) && NothingFailed(v)
    requires a.Return? ==> a.result.status.Succeeded?
    ensures NothingFailed(Apply(pf, a, v))
  {
    var s, s' := v.session.work.mem, Apply(pf, a, v).session.work.mem;
    forall id ensures !IsFailing(s', id) {
      assert !IsFailing(s, id);
    }
  }

  /** While every turn succeeds, no item fails and none is blocked. */
  lemma {:induction false} LegalNeverFails(pf: Platform, trace: seq<Action>, v: View, v': View)
    requires Legal(pf, trace, v, v') && NothingFailed(v) && TurnsSucceeded(trace)
    ensures NothingFailed(v')
    decreases |trace|
  {
    if trace != [] {
      LegalHead(pf, trace, v, v');
      assert trace[0] in trace && forall a | a in trace[1..] :: a in trace;
      StepNeverFails(pf, trace[0], v);
      hide Enabled, Apply, Legal, NothingFailed, InMemoryWellFormed;
      LegalNeverFails(pf, trace[1..], Apply(pf, trace[0], v), v');
    }
  }

  // ----- appending the completion review keeps the plan a DAG -----

  lemma {:induction false} NoEdgeToNew(g: Dependencies, id: string, ds: seq<string>, x: string, y: string)
    requires Closed(g) && id !in g && (forall d | d in ds :: d in g) && Edge(g[id := ds], x, y)
    ensures y in g
  {
    if x != id {
      assert Edge(g, x, y);
    }
  }

  lemma {:induction false} AppendKeepsAcyclic(g: Dependencies, id: string, ds: seq<string>)
    requires Closed(g) && Acyclic(g) && id !in g && forall d | d in ds :: d in g
    ensures Closed(g[id := ds]) && Acyclic(g[id := ds])
  {
    var g' := g[id := ds];
    forall x, y | Edge(g', x, y) ensures y in g' {
      NoEdgeToNew(g, id, ds, x, y);
    }
    forall p ensures !IsCycle(g', p) {
      if IsCycle(g', p) {
        CycleAvoidsNew(g, id, ds, p);
        assert false;
      }
    }
  }

  /** Nothing depends on the new item, so it lies on no cycle. */
  lemma {:induction false} CycleAvoidsNew(g: Dependencies, id: string, ds: seq<string>, p: seq<string>)
    requires Closed(g) && id !in g && (forall d | d in ds :: d in g) && IsCycle(g[id := ds], p)
    ensures IsCycle(g, p)
  {
    var g' := g[id := ds];
    forall i | 0 <= i < |p| ensures p[i] in g {
      var k := if i > 0 then i - 1 else |p| - 2;
      assert Hop(g', p, k);
      NoEdgeToNew(g, id, ds, p[k], p[k + 1]);
    }
    forall i ensures Hop(g, p, i) {
      assert Hop(g', p, i);
    }
  }

  lemma {:induction false} CompletionKeepsAcyclic(s: Snapshot, item: WorkItem, route: RouteDecision)
    requires Closed(DependencyGraph(s)) && Acyclic(DependencyGraph(s))
    requires item.id !in s.workItems && item.dependencies == Sorted(s.workItems.Keys)
    ensures var g := DependencyGraph(WithCompletion(s, item, route)); Closed(g) && Acyclic(g)
  {
    var g := DependencyGraph(s);
    AppendKeepsAcyclic(g, item.id, item.dependencies);
    hide Closed, Acyclic;
    assert DependencyGraph(WithCompletion(s, item, route)) == DependencyGraph(s)[item.id := item.dependencies];
  }

  // ----- one call of _continue (application.py:274-287) -----

  ghost predicate HasBaseWork(s: Snapshot) {
    exists id :: id in s.workItems && id != COMPLETION_ID
  }

  ghost predicate AppendsCompletion(task: string, m: Snapshot, m': Snapshot) {
    && COMPLETION_ID in m'.routes
    && m' == WithCompletion(m, CompletionItem(m, task), m'.routes[COMPLETION_ID])
  }

  /** From m the review is in m', appended if it was not there, and a call of
      run_ready leads to s' unless the review has a result. */
  ghost predicate Reviewing(pf: Platform, task: string, m: Snapshot, m': Snapshot, s': Snapshot, terminal: bool) {
    && (if COMPLETION_ID in m.workItems then m' == m else AppendsCompletion(task, m, m'))
    && (if COMPLETION_ID in m'.results then s' == m' else PassResult(pf, m', s', terminal))
  }

  ghost predicate BaseDone(m: Snapshot) {
    m.objective.explicitTask.None? && BaseWorkSucceeded(m)
  }

  /** From s a first call of run_ready leads to m; if the base work of an
      objective then succeeded, the completion review follows. */
  ghost predicate Continued(pf: Platform, task: string, s: Snapshot, m: Snapshot, m': Snapshot, s': Snapshot,
                            terminal: bool) {
    && PassResult(pf, s, m, terminal)
    && if BaseDone(m) then Reviewing(pf, task, m, m', s', terminal) else m' == m && s' == m
  }

  lemma {:induction false} PassWeaker(pf: Platform, s: Snapshot, s': Snapshot, terminal: bool, all: bool)
    requires PassResult(pf, s, s', terminal) && (all ==> terminal)
    ensures PassResult(pf, s, s', all)
  {
    hide Advanced, Pass, FinalStatus, NothingReady;
  }

  lemma {:induction false} ReviewingWeaker(pf: Platform, task: string, m: Snapshot, m': Snapshot, s': Snapshot,
                                           terminal: bool, all: bool)
    requires Reviewing(pf, task, m, m', s', terminal) && (all ==> terminal)
    ensures Reviewing(pf, task, m, m', s', all)
  {
    hide PassResult, AppendsCompletion;
    if COMPLETION_ID !in m'.results {
      PassWeaker(pf, m', s', terminal, all);
    }
  }

  lemma {:induction false} PassKeepsShape(pf: Platform, s: Snapshot, s': Snapshot, terminal: bool)
    requires PassResult(pf, s, s', terminal) && WellFormed(s) && WellFormed(s')
    ensures s'.workItems == s.workItems && s'.routes == s.routes && s'.objective == s.objective
    ensures s'.status.Completed? <==> AllSucceeded(s')
    ensures forall id | Authorized(pf, s, id) :: Authorized(pf, s', id)
  {
    CompletedExactly(s');
  }

  lemma {:induction false} AllMeansBase(s: Snapshot)
    requires AllSucceeded(s) && HasBaseWork(s)
    ensures BaseWorkSucceeded(s)
  {
  }

  lemma {:induction false} PassObjective(pf: Platform, s: Snapshot, s': Snapshot, terminal: bool)
    requires PassResult(pf, s, s', terminal)
    ensures s'.objective == s.objective
  {
  }

  lemma {:induction false} ContinuedCases(pf: Platform, task: string, s: Snapshot, m: Snapshot, m': Snapshot,
                                          s': Snapshot, terminal: bool)
    requires Continued(pf, task, s, m, m', s', terminal) && WellFormed(m) && s.objective.explicitTask.None?
    ensures PassResult(pf, s, m, terminal)
    ensures !BaseWorkSucceeded(m) ==> s' == m
    ensures BaseWorkSucceeded(m) ==> COMPLETION_ID in m'.workItems
    ensures BaseWorkSucceeded(m) ==>
              if COMPLETION_ID in m'.results then s' == m' == m else PassResult(pf, m', s', terminal)
    ensures BaseWorkSucceeded(m) && COMPLETION_ID !in m.workItems ==>
              AppendsCompletion(task, m, m') && COMPLETION_ID !in m'.results && COMPLETION_ID in m'.routes
  {
    hide PassResult, BaseWorkSucceeded, CompletionItem;
    CompletionItemShape(m, task);
    assert m.objective == s.objective by { PassObjective(pf, s, m, terminal); }
    assert AppendsCompletion(task, m, m') ==> m'.workItems == m.workItems[COMPLETION_ID := CompletionItem(m, task)];
  }

  lemma {:induction false} EachSucceeded(s: Snapshot, id: string)
    requires AllSucceeded(s) && id in s.workItems
    ensures HasSucceeded(s, id)
  {
  }

  /** An objective run is COMPLETED only when every item and the completion review
      succeeded. */
  lemma {:induction false} CompletedMeansReviewed(pf: Platform, task: string, s: Snapshot, m: Snapshot, m': Snapshot,
                                                  s': Snapshot, terminal: bool)
    requires Continued(pf, task, s, m, m', s', terminal)
    requires WellFormed(s) && WellFormed(m) && WellFormed(m') && WellFormed(s')
    requires s.objective.explicitTask.None? && HasBaseWork(s) && s'.status.Completed?
    ensures AllSucceeded(s') && COMPLETION_ID in s'.workItems && HasSucceeded(s', COMPLETION_ID)
  {
    hide *;
    ContinuedCases(pf, task, s, m, m', s', terminal);
    PassKeepsShape(pf, s, m, terminal);
    if !BaseWorkSucceeded(m) {
      SameBaseWork(s, m);
      AllMeansBase(m);
    }
    if COMPLETION_ID !in m'.results {
      PassKeepsShape(pf, m', s', terminal);
    }
    EachSucceeded(s', COMPLETION_ID);
  }

  lemma {:induction false} SameBaseWork(s: Snapshot, m: Snapshot)
    requires HasBaseWork(s) && m.workItems == s.workItems
    ensures HasBaseWork(m)
  {
  }

  lemma {:induction false} PassCompletes(pf: Platform, s: Snapshot, s': Snapshot)
    requires PassResult(pf, s, s', true) && WellFormed(s) && WellFormed(s') && NoFailing(s')
    requires Closed(DependencyGraph(s)) && Acyclic(DependencyGraph(s))
    requires forall id | id in s.workItems :: Authorized(pf, s, id)
    ensures AllSucceeded(s') && s'.status.Completed?
  {
    PassKeepsShape(pf, s, s', true);
    NothingReadyMeansDone(pf, s');
  }

  lemma {:induction false} NothingLeft(pf: Platform, s: Snapshot, s': Snapshot, terminal: bool)
    requires PassResult(pf, s, s', terminal) && WellFormed(s) && WellFormed(s') && AllSucceeded(s)
    ensures AllSucceeded(s') && s'.status.Completed?
  {
    assert forall id | id in s.workItems :: IsResolved(s, id);
    PassKeepsShape(pf, s, s', terminal);
  }

  /** Liveness of one call: an acyclic plan in which everything is authorized and
      nothing fails ends COMPLETED, whether its review is still to be appended,
      with an automatic route, or is in the plan already, automatic or approved. */
  lemma {:induction false} ContinueCompletes(pf: Platform, task: string, s: Snapshot, m: Snapshot, m': Snapshot,
                                             s': Snapshot)
    requires Continued(pf, task, s, m, m', s', true)
    requires WellFormed(s) && WellFormed(m) && WellFormed(m') && WellFormed(s')
    requires s.objective.explicitTask.None? && HasBaseWork(s)
    requires Closed(DependencyGraph(s)) && Acyclic(DependencyGraph(s))
    requires forall id | id in s.workItems :: Authorized(pf, s, id)
    requires COMPLETION_ID !in s.workItems && COMPLETION_ID in m'.routes ==>
              m'.routes[COMPLETION_ID].approval.Automatic?
    requires NoFailing(m) && NoFailing(s')
    ensures s'.status.Completed? && AllSucceeded(s') && s'.workItems.Keys == s.workItems.Keys + {COMPLETION_ID}
  {
    hide *;
    ContinuedCases(pf, task, s, m, m', s', true);
    PassCompletes(pf, s, m);
    PassKeepsShape(pf, s, m, true);
    SameBaseWork(s, m);
    AllMeansBase(m);
    if COMPLETION_ID in s.workItems {
      ReviewInPlan(pf, task, s, m, m', s');
      if COMPLETION_ID !in m'.results {
        NothingLeft(pf, m', s', true);
        PassKeepsShape(pf, m', s', true);
      }
      assert s'.workItems.Keys == s.workItems.Keys + {COMPLETION_ID};
    } else {
      CompletionReady(pf, task, s, m, m');
      PassCompletes(pf, m', s');
      PassKeepsShape(pf, m', s', true);
    }
  }

  /** A review that is in the plan is not appended again. */
  lemma {:induction false} ReviewInPlan(pf: Platform, task: string, s: Snapshot, m: Snapshot, m': Snapshot,
                                        s': Snapshot)
    requires Continued(pf, task, s, m, m', s', true) && m.workItems == s.workItems && COMPLETION_ID in s.workItems
    ensures m' == m
  {
    hide PassResult, AppendsCompletion, BaseDone;
  }

  lemma {:induction false} CompletionItemShape(s: Snapshot, task: string)
    ensures CompletionItem(s, task).id == COMPLETION_ID && CompletionItem(s, task).access.ReadOnly?
    ensures CompletionItem(s, task).dependencies == Sorted(s.workItems.Keys)
  {
    hide Sorted, Summaries;
  }

  lemma {:induction false} CompletionReady(pf: Platform, task: string, s: Snapshot, m: Snapshot, m': Snapshot)
    requires AppendsCompletion(task, m, m') && m.workItems == s.workItems && COMPLETION_ID !in s.workItems
    requires Closed(DependencyGraph(s)) && Acyclic(DependencyGraph(s))
    requires forall id | id in s.workItems :: Authorized(pf, m, id)
    requires m'.routes[COMPLETION_ID].approval.Automatic?
    ensures Closed(DependencyGraph(m')) && Acyclic(DependencyGraph(m'))
    ensures forall id | id in m'.workItems :: Authorized(pf, m', id)
    ensures m'.workItems.Keys == s.workItems.Keys + {COMPLETION_ID}
  {
    hide CompletionItem, Authorized, Closed, Acyclic, Sorted;
    CompletionItemShape(m, task);
    var item := CompletionItem(m, task);
    assert DependencyGraph(m) == DependencyGraph(s);
    CompletionKeepsAcyclic(m, item, m'.routes[COMPLETION_ID]);
    forall id | id in m'.workItems ensures Authorized(pf, m', id) {
      AuthorizedStays(pf, m, m', id, item);
    }
  }

  lemma {:induction false} AuthorizedStays(pf: Platform, m: Snapshot, m': Snapshot, id: string, item: WorkItem)
    requires item.id in m'.routes && m' == WithCompletion(m, item, m'.routes[item.id]) && id in m'.workItems
    requires id == item.id ==> m'.routes[item.id].approval.Automatic?
    requires id != item.id ==> id in m.workItems && Authorized(pf, m, id)
    ensures Authorized(pf, m', id)
  {
    if id != item.id {
      assert PayloadOf(m', id) == PayloadOf(m, id);
    }
  }
}
