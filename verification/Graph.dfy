// Dependency graphs: every identifier maps to the identifiers it depends on.

module Graph {

  type Dependencies = map<string, seq<string>>

  ghost predicate Edge(g: Dependencies, from: string, to: string) {
    from in g && to in g[from]
  }

  ghost predicate Closed(g: Dependencies) {
    forall id, d | Edge(g, id, d) :: d in g
  }

  ghost predicate Hop(g: Dependencies, p: seq<string>, i: int) {
    0 <= i < |p| - 1 ==> Edge(g, p[i], p[i + 1])
  }

  /** p walks from p[0] along dependencies to its last element. */
  ghost predicate IsPath(g: Dependencies, p: seq<string>) {
    p != [] && forall i :: Hop(g, p, i)
  }

  ghost predicate IsCycle(g: Dependencies, p: seq<string>) {
    |p| >= 2 && IsPath(g, p) && p[0] == p[|p| - 1]
  }

  ghost predicate Acyclic(g: Dependencies) {
    forall p :: !IsCycle(g, p)
  }

  /** A path, possibly of one identifier, leads from a to b. */
  ghost predicate Reaches(g: Dependencies, a: string, b: string) {
    exists p :: IsPath(g, p) && p[0] == a && p[|p| - 1] == b
  }

  ghost predicate Distinct(s: seq<string>) {
    forall i, j | 0 <= i < j < |s| :: s[i] != s[j]
  }

  /** Every dependency of order[k] stands before position k. */
  ghost predicate DependenciesFirst(g: Dependencies, order: seq<string>) {
    forall k, d | 0 <= k < |order| && Edge(g, order[k], d) :: d in order[..k]
  }

  ghost predicate Topological(g: Dependencies, order: seq<string>) {
    && Distinct(order)
    && (forall id :: id in order <==> id in g)
    && DependenciesFirst(g, order)
  }

  lemma {:induction false} PathDescends(g: Dependencies, order: seq<string>, p: seq<string>, i: nat) returns (k: nat)
    requires Topological(g, order) && IsPath(g, p) && i < |p| && p[0] in g
    ensures k < |order| && order[k] == p[i]
    ensures forall j | 0 <= j < |order| && order[j] == p[0] :: k + i <= j
    decreases i
  {
    if i == 0 {
      k :| 0 <= k < |order| && order[k] == p[0];
    } else {
      var m := PathDescends(g, order, p, i - 1);
      assert Hop(g, p, i - 1);
      assert Edge(g, order[m], p[i]);
      assert p[i] in order[..m];
      k :| 0 <= k < m && order[..m][k] == p[i];
    }
  }

  lemma {:induction false} TopologicalIsAcyclic(g: Dependencies, order: seq<string>)
    requires Topological(g, order)
    ensures Acyclic(g)
  {
    forall p ensures !IsCycle(g, p) {
      if IsCycle(g, p) {
        assert Hop(g, p, 0);
        var k := PathDescends(g, order, p, |p| - 1);
        assert false;
      }
    }
  }

  /** No path of an acyclic graph visits the same identifier twice. */
  lemma {:induction false} PathDistinct(g: Dependencies, p: seq<string>)
    requires Acyclic(g) && IsPath(g, p)
    ensures Distinct(p)
  {
    forall i, j | 0 <= i < j < |p| ensures p[i] != p[j] {
      var q := p[i..j + 1];
      forall k ensures Hop(g, q, k) {
        assert Hop(g, p, i + k);
      }
      assert !IsCycle(g, q);
    }
  }

  lemma {:induction false} DistinctBounded(p: seq<string>, s: set<string>)
    requires Distinct(p) && forall x | x in p :: x in s
    ensures |p| <= |s|
    decreases |p|
  {
    if p != [] {
      var last := p[|p| - 1];
      assert last in p;
      forall x | x in p[..|p| - 1] ensures x in s - {last} {
        assert x in p;
      }
      DistinctBounded(p[..|p| - 1], s - {last});
    }
  }

  lemma {:induction false} ExtendPath(g: Dependencies, p: seq<string>, id: string)
    requires p == [] || (IsPath(g, p) && Edge(g, p[|p| - 1], id))
    ensures IsPath(g, p + [id])
  {
    forall i ensures Hop(g, p + [id], i) {
      assert p != [] ==> Hop(g, p, i);
    }
  }

  /** In an acyclic graph every nonempty set of identifiers has a member none
      of whose dependencies is in the set. */
  lemma {:induction false} SourceExists(g: Dependencies, s: set<string>)
    requires Acyclic(g) && s != {} && s <= g.Keys
    ensures exists id :: id in s && forall d | Edge(g, id, d) :: d !in s
  {
    var x :| x in s;
    var p := [x];
    while exists d :: d in s && Edge(g, p[|p| - 1], d)
      invariant IsPath(g, p) && (forall y | y in p :: y in s)
      invariant p[|p| - 1] in g
      decreases |s| + 1 - |p|
    {
      var d :| d in s && Edge(g, p[|p| - 1], d);
      PathDistinct(g, p);
      DistinctBounded(p, s);
      ExtendPath(g, p, d);
      p := p + [d];
    }
    assert p[|p| - 1] in p;
  }

  lemma {:induction false} ReachesSelf(g: Dependencies, a: string)
    ensures Reaches(g, a, a)
  {
    assert IsPath(g, [a]);
  }

  lemma {:induction false} ReachesNext(g: Dependencies, a: string, b: string, c: string)
    requires Reaches(g, a, b) && Edge(g, b, c)
    ensures Reaches(g, a, c)
  {
    var p :| IsPath(g, p) && p[0] == a && p[|p| - 1] == b;
    ExtendPath(g, p, c);
    assert (p + [c])[0] == a;
  }
}
