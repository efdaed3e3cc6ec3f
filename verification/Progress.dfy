// How far a run has come: which items depend on which, and which items have a
// result of which status.

module Progress {
  import opened Domain
  import opened Graph

  function DependencyGraph(s: Snapshot): Dependencies {
    map id | id in s.workItems :: s.workItems[id].dependencies
  }

  predicate IsResolved(s: Snapshot, id: string) {
    id in s.results && Terminal(s.results[id].status)
  }

  predicate HasSucceeded(s: Snapshot, id: string) {
    id in s.results && s.results[id].status.Succeeded?
  }

  predicate IsFailing(s: Snapshot, id: string) {
    id in s.results && (s.results[id].status.Failed? || s.results[id].status.Blocked?)
  }

  predicate IsBlocked(s: Snapshot, id: string) {
    id in s.results && s.results[id].status.Blocked?
  }

  predicate IsPending(s: Snapshot, id: string) {
    id in s.workItems && !IsResolved(s, id)
  }

  predicate DependenciesSucceeded(s: Snapshot, id: string) {
    id in s.workItems && forall d | d in s.workItems[id].dependencies :: HasSucceeded(s, d)
  }

  predicate DependencyFailing(s: Snapshot, id: string) {
    id in s.workItems && exists d :: d in s.workItems[id].dependencies && IsFailing(s, d)
  }

  /** scheduler.py:108-117. */
  predicate NewlyBlocked(s: Snapshot, id: string) {
    IsPending(s, id) && DependencyFailing(s, id)
  }

  function WithResult(s: Snapshot, r: WorkResult): Snapshot {
    s.(results := s.results[r.workItemId := r])
  }

  // ----- every result has a reason that came before it -----

  /** A result is justified by what was resolved before it: BLOCKED by a failing
      dependency, SUCCEEDED or FAILED by dependencies that all succeeded. */
  ghost predicate Justified(s: Snapshot, before: seq<string>, id: string) {
    && id in s.workItems && id in s.results
    && if s.results[id].status.Blocked?
       then exists d :: d in s.workItems[id].dependencies && d in before && IsFailing(s, d)
       else forall d | d in s.workItems[id].dependencies :: d in before && HasSucceeded(s, d)
  }

  ghost predicate ExplainedBy(s: Snapshot, order: seq<string>) {
    && Distinct(order)
    && (forall id :: id in order <==> IsResolved(s, id))
    && forall k | 0 <= k < |order| :: Justified(s, order[..k], order[k])
  }

  /** The results can be ordered in time so that each is justified. */
  ghost predicate Explained(s: Snapshot) {
    exists order :: ExplainedBy(s, order)
  }

  /** s' has all items of s with the same dependencies, and all terminal results
      of s with the same status. */
  ghost predicate Extends(s: Snapshot, s': Snapshot) {
    && (forall id | id in s.workItems :: id in s'.workItems && s'.workItems[id].dependencies == s.workItems[id].dependencies)
    && (forall id | IsResolved(s, id) :: id in s'.results && s'.results[id].status == s.results[id].status)
  }

  lemma {:induction false} JustifiedStays(s: Snapshot, s': Snapshot, before: seq<string>, id: string)
    requires Justified(s, before, id) && IsResolved(s, id) && Extends(s, s')
    ensures Justified(s', before, id)
  {
    if s.results[id].status.Blocked? {
      var d :| d in s.workItems[id].dependencies && d in before && IsFailing(s, d);
      assert IsResolved(s, d) && IsFailing(s', d);
    } else {
      forall d | d in s'.workItems[id].dependencies ensures d in before && HasSucceeded(s', d) {
        assert IsResolved(s, d);
      }
    }
  }

  /** An explanation carries over when no new terminal result appears. */
  lemma {:induction false} ExplainedStays(s: Snapshot, s': Snapshot)
    requires Explained(s) && Extends(s, s') && forall id :: IsResolved(s', id) ==> IsResolved(s, id)
    ensures Explained(s')
  {
    var order :| ExplainedBy(s, order);
    forall k | 0 <= k < |order| ensures Justified(s', order[..k], order[k]) {
      assert order[k] in order;
      JustifiedStays(s, s', order[..k], order[k]);
    }
    forall id ensures id in order <==> IsResolved(s', id) {
      assert id in order <==> IsResolved(s, id);
      assert IsResolved(s, id) ==> IsResolved(s', id);
    }
    assert ExplainedBy(s', order);
  }

  /** Recording a result keeps every result explained, if the result is BLOCKED
      for a failing dependency or else all dependencies succeeded. */
  lemma {:induction false} ResultExplained(s: Snapshot, r: WorkResult)
    requires Explained(s) && IsPending(s, r.workItemId)
    requires r.status.Blocked? ==> DependencyFailing(s, r.workItemId)
    requires !r.status.Blocked? ==> DependenciesSucceeded(s, r.workItemId)
    ensures Explained(WithResult(s, r))
  {
    var id, s' := r.workItemId, WithResult(s, r);
    assert Extends(s, s');
    if !Terminal(r.status) {
      ExplainedStays(s, s');
      return;
    }
    var order :| ExplainedBy(s, order);
    var longer := order + [id];
    assert !IsResolved(s, id) && id !in order;
    assert Justified(s', order, id) by {
      if r.status.Blocked? {
        var d :| d in s.workItems[id].dependencies && IsFailing(s, d);
        assert IsResolved(s, d) && d in order && IsFailing(s', d);
      } else {
        forall d | d in s.workItems[id].dependencies ensures d in order && HasSucceeded(s', d) {
          assert HasSucceeded(s, d) && IsResolved(s, d);
        }
      }
    }
    forall k | 0 <= k < |longer| ensures Justified(s', longer[..k], longer[k]) {
      if k < |order| {
        assert order[k] in order;
        JustifiedStays(s, s', order[..k], order[k]);
        assert longer[..k] == order[..k];
      } else {
        assert longer[..k] == order;
      }
    }
    forall x ensures x in longer <==> IsResolved(s', x) {
      assert x in order <==> IsResolved(s, x);
    }
    assert ExplainedBy(s', longer);
  }

  lemma {:induction false} FreshExplained(s: Snapshot)
    requires s.results == map[]
    ensures Explained(s)
  {
    assert ExplainedBy(s, []);
  }

  /** What an explanation says of one item, whatever the order was. */
  lemma {:induction false} ExplainedItem(s: Snapshot, id: string)
    requires Explained(s) && IsResolved(s, id)
    ensures IsBlocked(s, id) ==> DependencyFailing(s, id)
    ensures !IsBlocked(s, id) ==> DependenciesSucceeded(s, id)
  {
    var order :| ExplainedBy(s, order);
    var k :| 0 <= k < |order| && order[k] == id;
    assert Justified(s, order[..k], id);
  }

  // ----- items on or downstream of a cycle -----

  ghost predicate OnOrBelowCycle(g: Dependencies, id: string) {
    exists c :: IsCycle(g, c) && Reaches(g, id, c[0])
  }

  lemma {:induction false} CycleContinues(g: Dependencies, id: string)
    requires OnOrBelowCycle(g, id)
    ensures exists d :: Edge(g, id, d) && OnOrBelowCycle(g, d)
  {
    var c :| IsCycle(g, c) && Reaches(g, id, c[0]);
    var p :| IsPath(g, p) && p[0] == id && p[|p| - 1] == c[0];
    var q := if |p| == 1 then c else p;
    assert Hop(g, q, 0);
    PathTail(g, q);
    assert Reaches(g, q[1], c[0]);
    assert Edge(g, id, q[1]) && OnOrBelowCycle(g, q[1]);
  }

  lemma {:induction false} PathTail(g: Dependencies, p: seq<string>)
    requires IsPath(g, p) && |p| > 1
    ensures IsPath(g, p[1..])
  {
    forall i ensures Hop(g, p[1..], i) {
      assert Hop(g, p, i + 1);
    }
  }

  /** An item on or downstream of a dependency cycle never succeeds or fails,
      and its dependencies never all succeed, so it is never dispatched. */
  lemma {:induction false} CyclicNeverRuns(s: Snapshot, id: string)
    requires Explained(s) && OnOrBelowCycle(DependencyGraph(s), id)
    ensures !DependenciesSucceeded(s, id)
    ensures IsResolved(s, id) ==> IsBlocked(s, id)
  {
    var order :| ExplainedBy(s, order);
    CycleContinues(DependencyGraph(s), id);
    var d :| Edge(DependencyGraph(s), id, d) && OnOrBelowCycle(DependencyGraph(s), d);
    CyclicNotSucceeded(s, order, d, |order|);
    assert order[..|order|] == order && (d in order <==> IsResolved(s, d));
    if IsResolved(s, id) {
      ExplainedItem(s, id);
    }
  }

  lemma {:induction false} CyclicNotSucceeded(s: Snapshot, order: seq<string>, id: string, k: nat)
    requires ExplainedBy(s, order) && OnOrBelowCycle(DependencyGraph(s), id) && k <= |order|
    ensures id in order[..k] ==> !HasSucceeded(s, id)
    decreases k
  {
    if id in order[..k] && HasSucceeded(s, id) {
      var j :| 0 <= j < k && order[j] == id;
      assert Justified(s, order[..j], id);
      CycleContinues(DependencyGraph(s), id);
      var d :| Edge(DependencyGraph(s), id, d) && OnOrBelowCycle(DependencyGraph(s), d);
      CyclicNotSucceeded(s, order, d, j);
      assert false;
    }
  }

  // ----- items downstream of a failure -----

  /** u depends on f, directly or through other items. */
  ghost predicate Below(g: Dependencies, u: string, f: string) {
    exists d :: Edge(g, u, d) && Reaches(g, d, f)
  }

  lemma {:induction false} PathNotSucceeded(s: Snapshot, path: seq<string>, i: nat)
    requires Explained(s) && IsPath(DependencyGraph(s), path) && i < |path| && IsFailing(s, path[|path| - 1])
    ensures !HasSucceeded(s, path[i])
    ensures i < |path| - 1 && IsResolved(s, path[i]) ==> IsBlocked(s, path[i])
    ensures i < |path| - 1 ==> !DependenciesSucceeded(s, path[i])
    decreases |path| - i
  {
    if i < |path| - 1 {
      PathNotSucceeded(s, path, i + 1);
      assert Hop(DependencyGraph(s), path, i);
      if IsResolved(s, path[i]) {
        ExplainedItem(s, path[i]);
      }
    }
  }

  /** Below a failed or blocked item nothing has run and nothing can run. */
  lemma {:induction false} BelowFailureNeverRuns(s: Snapshot, u: string, f: string)
    requires Explained(s) && IsFailing(s, f) && Below(DependencyGraph(s), u, f)
    ensures !DependenciesSucceeded(s, u)
    ensures IsResolved(s, u) ==> IsBlocked(s, u)
  {
    var d :| Edge(DependencyGraph(s), u, d) && Reaches(DependencyGraph(s), d, f);
    var path :| IsPath(DependencyGraph(s), path) && path[0] == d && path[|path| - 1] == f;
    PathNotSucceeded(s, path, 0);
    if IsResolved(s, u) {
      ExplainedItem(s, u);
    }
  }

  /** The items below f that have no terminal result yet. */
  ghost function Unresolved(s: Snapshot, f: string): set<string> {
    set u | u in s.workItems && Below(DependencyGraph(s), u, f) && !IsResolved(s, u)
  }

  /** Some unresolved item below a failure is next to be blocked. */
  lemma {:induction false} FrontierExists(s: Snapshot, f: string)
    requires Explained(s) && IsFailing(s, f) && Unresolved(s, f) != {}
    ensures exists u :: u in Unresolved(s, f) && NewlyBlocked(s, u)
  {
    var u :| u in Unresolved(s, f);
    var d :| Edge(DependencyGraph(s), u, d) && Reaches(DependencyGraph(s), d, f);
    var path :| IsPath(DependencyGraph(s), path) && path[0] == d && path[|path| - 1] == f;
    Frontier(s, f, u, path);
  }

  lemma {:induction false} Frontier(s: Snapshot, f: string, u: string, path: seq<string>)
    requires Explained(s) && IsFailing(s, f) && u in Unresolved(s, f)
    requires IsPath(DependencyGraph(s), path) && Edge(DependencyGraph(s), u, path[0]) && path[|path| - 1] == f
    ensures exists v :: v in Unresolved(s, f) && NewlyBlocked(s, v)
    decreases |path|
  {
    var d := path[0];
    if IsResolved(s, d) {
      PathNotSucceeded(s, path, 0);
      FailingBlocks(s, u, d);
      assert NewlyBlocked(s, u);
    } else {
      assert IsResolved(s, f) && |path| > 1;
      PathBelow(DependencyGraph(s), path);
      hide Explained, IsPath, Below, Edge;
      assert d in Unresolved(s, f);
      Frontier(s, f, d, path[1..]);
    }
  }

  lemma {:induction false} FailingBlocks(s: Snapshot, u: string, d: string)
    requires Edge(DependencyGraph(s), u, d) && !IsResolved(s, u) && IsResolved(s, d)
    requires (IsBlocked(s, d) || IsFailing(s, d))
    ensures NewlyBlocked(s, u)
  {
  }

  lemma {:induction false} PathBelow(g: Dependencies, path: seq<string>)
    requires IsPath(g, path) && |path| > 1
    ensures path[0] in g && Edge(g, path[0], path[1]) && Below(g, path[0], path[|path| - 1]) && IsPath(g, path[1..])
  {
    assert Hop(g, path, 0);
    PathTail(g, path);
    assert Reaches(g, path[1], path[|path| - 1]);
  }

  // ----- one call of run_ready, and many -----

  /** What one call of run_ready does to the progress of a run: terminal results
      keep their status, and whatever has a failing dependency at the start is
      blocked. */
  ghost predicate Pass(s: Snapshot, s': Snapshot) {
    && DependencyGraph(s') == DependencyGraph(s)
    && (forall id | IsResolved(s, id) :: id in s'.results && s'.results[id].status == s.results[id].status)
    && (forall id | NewlyBlocked(s, id) :: IsBlocked(s', id))
  }

  lemma {:induction false} PassShrinks(s: Snapshot, s': Snapshot, f: string)
    requires Explained(s) && IsFailing(s, f) && Pass(s, s')
    ensures IsFailing(s', f)
    ensures Unresolved(s', f) <= Unresolved(s, f)
    ensures Unresolved(s, f) != {} ==> Unresolved(s', f) < Unresolved(s, f)
  {
    assert IsResolved(s, f);
    assert s'.workItems.Keys == DependencyGraph(s').Keys == s.workItems.Keys;
    forall u | u in Unresolved(s', f) ensures u in Unresolved(s, f) {
      assert IsResolved(s, u) ==> IsResolved(s', u);
    }
    if Unresolved(s, f) != {} {
      FrontierExists(s, f);
      var u :| u in Unresolved(s, f) && NewlyBlocked(s, u);
      assert IsBlocked(s', u) && u !in Unresolved(s', f);
    }
  }

  /** Consecutive calls: each starts from the progress the previous one left. */
  ghost predicate Calls(ps: seq<Snapshot>) {
    && (forall i | 0 <= i < |ps| :: Explained(ps[i]))
    && forall i | 0 < i < |ps| :: Pass(ps[i - 1], ps[i])
  }

  lemma {:induction false} CallsShrink(ps: seq<Snapshot>, f: string, n: nat)
    requires Calls(ps) && n < |ps| && IsFailing(ps[0], f)
    ensures IsFailing(ps[n], f) && DependencyGraph(ps[n]) == DependencyGraph(ps[0])
    ensures |Unresolved(ps[n], f)| <= if n <= |Unresolved(ps[0], f)| then |Unresolved(ps[0], f)| - n else 0
    decreases n
  {
    if n > 0 {
      CallsShrink(ps, f, n - 1);
      PassShrinks(ps[n - 1], ps[n], f);
      SubsetSize(Unresolved(ps[n], f), Unresolved(ps[n - 1], f));
    }
  }

  lemma {:induction false} SubsetSize(a: set<string>, b: set<string>)
    requires a <= b
    ensures |a| <= |b|
    ensures a < b ==> |a| < |b|
    ensures |a| == |b| ==> a == b
  {
    assert b == a + (b - a);
  }

  /** After as many calls as the run has items, everything below a failed item
      is BLOCKED, whatever else the calls did. */
  lemma {:induction false} EventuallyBlocked(ps: seq<Snapshot>, f: string, u: string)
    requires Calls(ps) && ps != [] && |ps| == |ps[0].workItems| + 1
    requires IsFailing(ps[0], f) && u in ps[0].workItems && Below(DependencyGraph(ps[0]), u, f)
    ensures IsBlocked(ps[|ps| - 1], u)
  {
    var n := |ps| - 1;
    CallsShrink(ps, f, n);
    SubsetSize(Unresolved(ps[0], f), ps[0].workItems.Keys);
    assert Unresolved(ps[n], f) == {};
    assert u in DependencyGraph(ps[n]) && u !in Unresolved(ps[n], f);
    BelowFailureNeverRuns(ps[n], u, f);
  }

  // ----- nothing left to run -----

  /** In an acyclic run where nothing failed, a pending item means that some
      pending item has only succeeded dependencies. */
  lemma {:induction false} SomethingRunnable(s: Snapshot)
    requires Closed(DependencyGraph(s)) && Acyclic(DependencyGraph(s))
    requires forall id :: !IsFailing(s, id)
    requires exists id :: IsPending(s, id)
    ensures exists id :: IsPending(s, id) && DependenciesSucceeded(s, id)
  {
    var pending := set id | id in s.workItems && IsPending(s, id);
    var x :| IsPending(s, x);
    assert x in pending;
    SourceExists(DependencyGraph(s), pending);
    var id :| id in pending && forall d | Edge(DependencyGraph(s), id, d) :: d !in pending;
    forall d | d in s.workItems[id].dependencies ensures HasSucceeded(s, d) {
      assert Edge(DependencyGraph(s), id, d);
      assert !IsFailing(s, d);
    }
  }
}
