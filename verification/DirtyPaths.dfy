// The paths of a worktree with uncommitted work (repository.py:828-878).

module DirtyPaths {
  import opened Domain
  import opened Ordering
  import opened Descriptors
  import opened GitEvidence
  import opened Worktree

  datatype CollectError = MixedObjectFormats | ConflictingStageEntries | Inspection(error: InspectError)

  const BATCH_MAX := 64

  // ----- the definition, path by path -----

  /** Two index entries that cannot stand side by side. */
  predicate Clash(e: IndexEntry, f: IndexEntry) {
    e.path == f.path && (e.stage == f.stage || e.stage == 0)
  }

  ghost predicate Conflicts(index: multiset<IndexEntry>) {
    exists e, f :: Clash(e, f) && multiset{e, f} <= index
  }

  /** The worktree is looked at for this entry. */
  predicate Checked(e: IndexEntry) {
    e.mode != GITLINK && e.tag != "S"
  }

  predicate HeadDiffers(head: set<TreeEntry>, e: IndexEntry) {
    TreeEntry(e.mode, e.objectId, e.path) !in head
  }

  ghost predicate Tracked(index: multiset<IndexEntry>, head: set<TreeEntry>, p: string) {
    (exists e :: e in index && e.path == p) || (exists h :: h in head && h.path == p)
  }

  /** Untracked; or tracked without a merged index entry; or with one that differs
      from HEAD or, if the worktree counts, from the worktree. */
  ghost predicate Dirty(tree: Tree, hash: (string, string) -> string, algorithm: string,
                        index: multiset<IndexEntry>, head: set<TreeEntry>, untracked: set<string>, p: string)
  {
    || p in untracked
    || (Tracked(index, head, p)
        && forall e | e in index && e.path == p && e.stage == 0 ::
             HeadDiffers(head, e) || (Checked(e) && !Matches(tree, hash, algorithm, e)))
  }

  /** A file that has to be looked at is behind a link or is a device. */
  ghost predicate Unreachable(tree: Tree, index: multiset<IndexEntry>) {
    exists e :: e in index && e.stage == 0 && Checked(e) && Unsafe(tree, Parts(e.path))
  }

  function ObjectLengths(index: seq<IndexEntry>, head: seq<TreeEntry>): set<int> {
    IndexLengths(index) + TreeLengths(head)
  }

  function Algorithm(lengths: set<int>): string {
    if lengths == {64} then "sha256" else "sha1"
  }

  // ----- grouping by path -----

  function EntriesAt(index: seq<IndexEntry>, p: string): seq<IndexEntry> {
    if index == [] then [] else
      EntriesAt(index[..|index| - 1], p) + (if index[|index| - 1].path == p then [index[|index| - 1]] else [])
  }

  lemma {:induction false} EntriesCount(index: seq<IndexEntry>, p: string, e: IndexEntry)
    ensures multiset(EntriesAt(index, p))[e] == if e.path == p then multiset(index)[e] else 0
    decreases |index|
  {
    if index != [] {
      EntriesCount(index[..|index| - 1], p, e);
      assert index == index[..|index| - 1] + [index[|index| - 1]];
    }
  }

  predicate StageTwice(c: seq<IndexEntry>) {
    exists i, j :: 0 <= i < j < |c| && c[i].stage == c[j].stage
  }

  predicate HasStage(c: seq<IndexEntry>, stage: int) {
    exists i :: 0 <= i < |c| && c[i].stage == stage
  }

  predicate ConflictAt(c: seq<IndexEntry>) {
    StageTwice(c) || (HasStage(c, 0) && |c| != 1)
  }

  lemma {:induction false} PairIn(c: seq<IndexEntry>, i: nat, j: nat)
    requires i < j < |c|
    ensures multiset{c[i], c[j]} <= multiset(c)
  {
    assert c == c[..i] + [c[i]] + c[i + 1..j] + [c[j]] + c[j + 1..];
  }

  lemma {:induction false} PairFrom(c: seq<IndexEntry>, e: IndexEntry, f: IndexEntry)
    requires multiset{e, f} <= multiset(c)
    ensures exists i, j :: 0 <= i < |c| && 0 <= j < |c| && i != j && c[i] == e && c[j] == f
  {
    assert e in multiset(c);
    var i :| 0 <= i < |c| && c[i] == e;
    var rest := c[..i] + c[i + 1..];
    assert c == c[..i] + [c[i]] + c[i + 1..];
    assert multiset(c) == multiset(rest) + multiset{e};
    assert f in multiset(rest);
    var k :| 0 <= k < |rest| && rest[k] == f;
    var j := if k < i then k else k + 1;
    assert c[j] == f;
  }

  lemma {:induction false} EntriesPath(index: seq<IndexEntry>, p: string)
    ensures forall i | 0 <= i < |EntriesAt(index, p)| :: EntriesAt(index, p)[i].path == p
    decreases |index|
  {
    if index != [] {
      EntriesPath(index[..|index| - 1], p);
    }
  }

  /** The check of stages finds the pairs that clash. */
  lemma {:induction false} ClashingPair(c: seq<IndexEntry>, p: string)
    requires forall i | 0 <= i < |c| :: c[i].path == p
    ensures ConflictAt(c) <==> exists i, j :: 0 <= i < |c| && 0 <= j < |c| && i != j && Clash(c[i], c[j])
  {
    if StageTwice(c) {
      var i, j :| 0 <= i < j < |c| && c[i].stage == c[j].stage;
      assert Clash(c[i], c[j]);
    } else if HasStage(c, 0) && |c| != 1 {
      var i :| 0 <= i < |c| && c[i].stage == 0;
      assert Clash(c[i], c[if i == 0 then 1 else 0]);
    }
    if i, j :| 0 <= i < |c| && 0 <= j < |c| && i != j && Clash(c[i], c[j]) {
      if c[i].stage == c[j].stage {
        assert StageTwice(c) by {
          assert i < j ==> c[i].stage == c[j].stage;
          assert j < i ==> c[j].stage == c[i].stage;
        }
      } else {
        assert HasStage(c, 0);
      }
    }
  }

  lemma {:induction false} PairCounted(index: seq<IndexEntry>, p: string, e: IndexEntry, f: IndexEntry)
    requires multiset{e, f} <= multiset(EntriesAt(index, p))
    ensures multiset{e, f} <= multiset(index)
  {
    EntriesCount(index, p, e);
    EntriesCount(index, p, f);
    forall x | x in multiset{e, f} ensures multiset{e, f}[x] <= multiset(index)[x] {
      assert multiset{e, f}[x] <= multiset(EntriesAt(index, p))[x];
    }
  }

  /** The check of one path's stages finds exactly the clashes at that path. */
  lemma {:induction false} ConflictFound(index: seq<IndexEntry>, p: string)
    ensures ConflictAt(EntriesAt(index, p)) <==>
              exists e, f :: Clash(e, f) && e.path == p && multiset{e, f} <= multiset(index)
  {
    hide EntriesAt, ConflictAt;
    var c := EntriesAt(index, p);
    EntriesPath(index, p);
    ClashingPair(c, p);
    if i, j :| 0 <= i < |c| && 0 <= j < |c| && i != j && Clash(c[i], c[j]) {
      PairIn(c, if i < j then i else j, if i < j then j else i);
      assert multiset{c[i], c[j]} == multiset{c[j], c[i]};
      PairCounted(index, p, c[i], c[j]);
    }
    if e, f :| Clash(e, f) && e.path == p && multiset{e, f} <= multiset(index) {
      PairHere(index, p, e, f);
      PairFrom(c, e, f);
    }
  }

  lemma {:induction false} PairHere(index: seq<IndexEntry>, p: string, e: IndexEntry, f: IndexEntry)
    requires e.path == p && f.path == p && multiset{e, f} <= multiset(index)
    ensures multiset{e, f} <= multiset(EntriesAt(index, p))
  {
    EntriesCount(index, p, e);
    EntriesCount(index, p, f);
    forall x | x in multiset{e, f} ensures multiset{e, f}[x] <= multiset(EntriesAt(index, p))[x] {
      assert x == e || x == f;
      assert multiset{e, f}[x] <= multiset(index)[x];
    }
  }

  // ----- collecting -----

  function Extended(m: map<string, seq<IndexEntry>>, e: IndexEntry): map<string, seq<IndexEntry>> {
    m[e.path := (if e.path in m then m[e.path] else []) + [e]]
  }

  ghost predicate GroupedBy(m: map<string, seq<IndexEntry>>, index: seq<IndexEntry>) {
    && (forall p :: p in m <==> EntriesAt(index, p) != [])
    && (forall p | p in m :: m[p] == EntriesAt(index, p))
  }

  lemma {:induction false} GroupMore(m: map<string, seq<IndexEntry>>, index: seq<IndexEntry>, e: IndexEntry)
    requires GroupedBy(m, index)
    ensures GroupedBy(Extended(m, e), index + [e])
  {
    forall p ensures EntriesAt(index + [e], p) == EntriesAt(index, p) + (if e.path == p then [e] else []) {
      assert (index + [e])[..|index|] == index;
    }
  }

  method GroupIndex(index: seq<IndexEntry>) returns (m: map<string, seq<IndexEntry>>)
    ensures GroupedBy(m, index)
  {
    hide EntriesAt, GroupedBy;
    m := map[];
    NothingGrouped();
    assert index[..0] == [];
    for i := 0 to |index|
      invariant GroupedBy(m, index[..i])
    {
      GroupMore(m, index[..i], index[i]);
      assert index[..i] + [index[i]] == index[..i + 1];
      m := Extended(m, index[i]);
    }
    assert index[..|index|] == index;
  }

  lemma {:induction false} NothingGrouped()
    ensures GroupedBy(map[], [])
  {
  }

  ghost predicate HeadGrouped(m: map<string, TreeEntry>, head: seq<TreeEntry>) {
    && (forall i | 0 <= i < |head| :: head[i].path in m && m[head[i].path] == head[i])
    && (forall p | p in m :: m[p].path == p && m[p] in head)
  }

  method GroupHead(head: seq<TreeEntry>) returns (m: map<string, TreeEntry>)
    requires DistinctPaths(head)
    ensures HeadGrouped(m, head)
  {
    m := map[];
    for i := 0 to |head|
      invariant HeadGrouped(m, head[..i])
    {
      m := m[head[i].path := head[i]];
      assert head[..i + 1] == head[..i] + [head[i]];
    }
    assert head[..|head|] == head;
  }

  ghost function HeadSet(head: seq<TreeEntry>): set<TreeEntry> {
    set h | h in head
  }

  /** Dirty whatever the worktree holds. */
  ghost predicate DirtyInGit(index: multiset<IndexEntry>, head: set<TreeEntry>, p: string) {
    Tracked(index, head, p) && forall e | e in index && e.path == p && e.stage == 0 :: HeadDiffers(head, e)
  }

  ghost predicate ToCheck(index: multiset<IndexEntry>, e: IndexEntry) {
    e in index && e.stage == 0 && Checked(e)
  }

  /** The verdict of Git on one path, and the entry whose file must be looked at. */
  method Classify(candidates: seq<IndexEntry>, headEntry: Option<TreeEntry>)
    returns (dirty: bool, check: Option<IndexEntry>, conflict: bool)
    ensures conflict <==> ConflictAt(candidates)
    ensures !conflict ==>
              && (|candidates| == 1 && candidates[0].stage == 0 ==>
                    && (dirty <==> headEntry.None? || headEntry.value.mode != candidates[0].mode
                                   || headEntry.value.objectId != candidates[0].objectId)
                    && check == if Checked(candidates[0]) then Some(candidates[0]) else None)
              && (|candidates| != 1 || candidates[0].stage != 0 ==> dirty && check == None)
  {
    dirty, check := false, None;
    conflict := StageTwice(candidates) || (HasStage(candidates, 0) && |candidates| != 1);
    if conflict {
      return;
    }
    if |candidates| != 1 || candidates[0].stage != 0 {
      dirty := true;
      return;
    }
    var entry := candidates[0];
    dirty := headEntry.None? || headEntry.value.mode != entry.mode || headEntry.value.objectId != entry.objectId;
    if !(entry.mode == GITLINK || entry.tag == "S") {
      check := Some(entry);
    }
  }

  lemma {:induction false} InEntries(index: seq<IndexEntry>, p: string, e: IndexEntry)
    ensures e in EntriesAt(index, p) <==> e in multiset(index) && e.path == p
  {
    EntriesCount(index, p, e);
    assert e in EntriesAt(index, p) <==> multiset(EntriesAt(index, p))[e] > 0;
  }

  /** With no conflict at p, its merged entry is its only one. */
  lemma {:induction false} Merged(index: seq<IndexEntry>, p: string, e: IndexEntry)
    requires !ConflictAt(EntriesAt(index, p)) && e in multiset(index) && e.path == p && e.stage == 0
    ensures EntriesAt(index, p) == [e]
  {
    var c := EntriesAt(index, p);
    InEntries(index, p, e);
    var i :| 0 <= i < |c| && c[i] == e;
    assert HasStage(c, 0);
  }

  /** What Classify finds at p is what the definition says of p. */
  lemma {:induction false} ClassifiedRight(index: seq<IndexEntry>, head: seq<TreeEntry>, m: map<string, TreeEntry>,
                                           p: string)
    requires HeadGrouped(m, head) && !ConflictAt(EntriesAt(index, p))
    requires Tracked(multiset(index), HeadSet(head), p)
    ensures var c := EntriesAt(index, p);
            if |c| == 1 && c[0].stage == 0 then
              && (DirtyInGit(multiset(index), HeadSet(head), p) <==>
                    p !in m || m[p].mode != c[0].mode || m[p].objectId != c[0].objectId)
              && (forall e :: ToCheck(multiset(index), e) && e.path == p <==> e == c[0] && Checked(e))
            else
              && DirtyInGit(multiset(index), HeadSet(head), p)
              && (forall e | ToCheck(multiset(index), e) :: e.path != p)
  {
    var c := EntriesAt(index, p);
    forall e | e in multiset(index) && e.path == p && e.stage == 0 ensures c == [e] {
      Merged(index, p, e);
    }
    if |c| == 1 && c[0].stage == 0 {
      InEntries(index, p, c[0]);
      var e := c[0];
      assert HeadDiffers(HeadSet(head), e) <==> p !in m || m[p].mode != e.mode || m[p].objectId != e.objectId by {
        HeadLookup(head, m, e);
      }
    }
  }

  lemma {:induction false} HeadLookup(head: seq<TreeEntry>, m: map<string, TreeEntry>, e: IndexEntry)
    requires HeadGrouped(m, head)
    ensures HeadDiffers(HeadSet(head), e) <==>
              e.path !in m || m[e.path].mode != e.mode || m[e.path].objectId != e.objectId
  {
    var h := TreeEntry(e.mode, e.objectId, e.path);
    if h in head {
      var i :| 0 <= i < |head| && head[i] == h;
      assert head[i].path in m && m[head[i].path] == head[i];
    }
    if e.path in m && m[e.path].mode == e.mode && m[e.path].objectId == e.objectId {
      assert m[e.path] == h;
    }
  }

  ghost predicate SortedOut(index: seq<IndexEntry>, head: seq<TreeEntry>, untracked: seq<string>, paths: seq<string>,
                            dirty: set<string>, check: seq<IndexEntry>)
  {
    && (forall p | p in paths :: !ConflictAt(EntriesAt(index, p)))
    && (forall p :: p in dirty <==> p in untracked || (p in paths && DirtyInGit(multiset(index), HeadSet(head), p)))
    && (forall e :: e in check <==> ToCheck(multiset(index), e) && e.path in paths)
  }

  lemma {:induction false} SortedOutMore(index: seq<IndexEntry>, head: seq<TreeEntry>, untracked: seq<string>,
                                         paths: seq<string>, dirty: set<string>, check: seq<IndexEntry>,
                                         m: map<string, TreeEntry>, p: string)
    requires SortedOut(index, head, untracked, paths, dirty, check) && HeadGrouped(m, head) && p !in paths
    requires Tracked(multiset(index), HeadSet(head), p) && !ConflictAt(EntriesAt(index, p))
    ensures var c := EntriesAt(index, p);
            var plain := |c| == 1 && c[0].stage == 0;
            var more := if !plain || p !in m || m[p].mode != c[0].mode || m[p].objectId != c[0].objectId then {p} else {};
            var also := if plain && Checked(c[0]) then [c[0]] else [];
            SortedOut(index, head, untracked, paths + [p], dirty + more, check + also)
  {
    ClassifiedRight(index, head, m, p);
    hide EntriesAt, ConflictAt, HeadSet, DirtyInGit, ToCheck, Checked, HeadGrouped, Tracked;
    assert forall q :: q in paths + [p] <==> q in paths || q == p;
  }

  /** The paths that occur are exactly the tracked ones. */
  lemma {:induction false} TrackedPaths(index: seq<IndexEntry>, head: seq<TreeEntry>,
                                        byPath: map<string, seq<IndexEntry>>, m: map<string, TreeEntry>, p: string)
    requires GroupedBy(byPath, index) && HeadGrouped(m, head)
    ensures p in byPath.Keys + m.Keys <==> Tracked(multiset(index), HeadSet(head), p)
  {
    var c := EntriesAt(index, p);
    if c != [] {
      EntriesPath(index, p);
      InEntries(index, p, c[0]);
    }
    forall e | e in multiset(index) && e.path == p ensures c != [] {
      InEntries(index, p, e);
    }
    forall h | h in head && h.path == p ensures p in m {
      var i :| 0 <= i < |head| && head[i] == h;
      assert head[i].path in m;
    }
  }

  lemma {:induction false} ConflictsAre(index: seq<IndexEntry>)
    ensures (exists p :: ConflictAt(EntriesAt(index, p))) <==> Conflicts(multiset(index))
  {
    hide EntriesAt, ConflictAt;
    forall p ensures ConflictAt(EntriesAt(index, p)) <==>
                       exists e, f :: Clash(e, f) && e.path == p && multiset{e, f} <= multiset(index) {
      ConflictFound(index, p);
    }
    if e, f :| Clash(e, f) && multiset{e, f} <= multiset(index) {
      assert ConflictAt(EntriesAt(index, e.path));
    }
  }

  /** repository.py:839-866: all that Git alone decides. */
  method SortOut(index: seq<IndexEntry>, head: seq<TreeEntry>, untracked: seq<string>)
    returns (dirty: set<string>, check: seq<IndexEntry>, conflict: bool)
    requires DistinctPaths(head)
    ensures conflict <==> Conflicts(multiset(index))
    ensures !conflict ==>
              && (forall p :: p in dirty <==> p in untracked || DirtyInGit(multiset(index), HeadSet(head), p))
              && (forall e :: e in check <==> ToCheck(multiset(index), e))
  {
    hide EntriesAt, ConflictAt, HeadSet, DirtyInGit, Checked, HeadGrouped, GroupedBy, SortedOut, Conflicts;
    var byPath := GroupIndex(index);
    var headByPath := GroupHead(head);
    dirty, check := (set p | p in untracked), [];
    var paths := Sorted(byPath.Keys + headByPath.Keys);
    SortedOutNone(index, head, untracked);
    assert paths[..0] == [];
    for k := 0 to |paths|
      invariant SortedOut(index, head, untracked, paths[..k], dirty, check)
    {
      var p := paths[k];
      assert p in paths;
      TrackedPaths(index, head, byPath, headByPath, p);
      PathOnce(paths, k);
      var candidates := if p in byPath then byPath[p] else [];
      GroupGet(byPath, index, p);
      var found, entry;
      found, entry, conflict := Classify(candidates, if p in headByPath then Some(headByPath[p]) else None);
      ConflictsAre(index);
      if conflict {
        return;
      }
      SortedOutMore(index, head, untracked, paths[..k], dirty, check, headByPath, p);
      assert dirty + {} == dirty && check + [] == check;
      if found {
        dirty := dirty + {p};
      }
      if entry.Some? {
        check := check + [entry.value];
      }
      assert paths[..k] + [p] == paths[..k + 1];
    }
    assert paths[..|paths|] == paths;
    conflict := false;
    forall p ensures p in paths <==> Tracked(multiset(index), HeadSet(head), p) {
      TrackedPaths(index, head, byPath, headByPath, p);
    }
    SortedOutAll(index, head, untracked, paths, dirty, check);
  }

  lemma {:induction false} SortedOutNone(index: seq<IndexEntry>, head: seq<TreeEntry>, untracked: seq<string>)
    ensures SortedOut(index, head, untracked, [], (set p | p in untracked), [])
  {
  }

  lemma {:induction false} PathOnce(paths: seq<string>, k: nat)
    requires StrictlySorted(paths) && k < |paths|
    ensures paths[k] !in paths[..k]
  {
    assert forall i | 0 <= i < k :: paths[..k][i] == paths[i] && Less(paths[i], paths[k]);
  }

  lemma {:induction false} GroupGet(m: map<string, seq<IndexEntry>>, index: seq<IndexEntry>, p: string)
    requires GroupedBy(m, index)
    ensures EntriesAt(index, p) == if p in m then m[p] else []
  {
  }

  lemma {:induction false} SortedOutAll(index: seq<IndexEntry>, head: seq<TreeEntry>, untracked: seq<string>,
                                        paths: seq<string>, dirty: set<string>, check: seq<IndexEntry>)
    requires SortedOut(index, head, untracked, paths, dirty, check)
    requires forall p :: p in paths <==> Tracked(multiset(index), HeadSet(head), p)
    ensures !Conflicts(multiset(index))
    ensures forall p :: p in dirty <==> p in untracked || DirtyInGit(multiset(index), HeadSet(head), p)
    ensures forall e :: e in check <==> ToCheck(multiset(index), e)
  {
    hide EntriesAt, ConflictAt, HeadSet, Checked, Conflicts;
    ConflictsAre(index);
    forall p ensures !ConflictAt(EntriesAt(index, p)) {
      if p !in paths {
        NoEntries(index, HeadSet(head), p);
      }
    }
    forall e | ToCheck(multiset(index), e) ensures e.path in paths {
      assert Tracked(multiset(index), HeadSet(head), e.path);
    }
  }

  lemma {:induction false} NoEntries(index: seq<IndexEntry>, head: set<TreeEntry>, p: string)
    requires !Tracked(multiset(index), head, p)
    ensures !ConflictAt(EntriesAt(index, p))
  {
    var c := EntriesAt(index, p);
    if c != [] {
      InEntries(index, p, c[0]);
    }
  }

  // ----- the whole collection -----

  ghost predicate IsDirty(w: World, index: seq<IndexEntry>, head: seq<TreeEntry>, untracked: seq<string>, p: string) {
    Dirty(w.tree, w.hash, Algorithm(ObjectLengths(index, head)), multiset(index), HeadSet(head), (set q | q in untracked), p)
  }

  /** The files of check that differ, in batches. */
  method CompareBatches(w: World, root: nat, check: seq<IndexEntry>, algorithm: string)
    returns (r: Result<set<string>, InspectError>)
    requires w.Valid() && root in w.kernel.live && w.at[root] == []
    modifies w, w.kernel
    ensures w.Valid() && Keeps(w) && w.kernel.live == old(w.kernel.live)
    ensures ClosesOwn(old(w.kernel.closed), w.kernel.closed, old(w.kernel.next))
    ensures w.frozen && r.Ok? ==> r.value == Differing(w.tree, w.hash, algorithm, check) && !SomeUnsafe(w.tree, check)
    ensures w.frozen && r.Err? && w.kernel.faults == old(w.kernel.faults) ==> SomeUnsafe(w.tree, check)
  {
    hide Differing, SomeUnsafe;
    var dirty: set<string> := {};
    var offset := 0;
    ghost var first := w.kernel.closed;
    assert check[..0] == [];
    NoneDiffer(w.tree, w.hash, algorithm);
    while offset < |check|
      invariant 0 <= offset <= |check|
      invariant w.Valid() && Keeps(w) && w.kernel.live == old(w.kernel.live)
      invariant ClosesOwn(first, w.kernel.closed, old(w.kernel.next))
      invariant w.frozen ==>
                dirty == Differing(w.tree, w.hash, algorithm, check[..offset]) && !SomeUnsafe(w.tree, check[..offset])
    {
      var next := if offset + BATCH_MAX < |check| then offset + BATCH_MAX else |check|;
      var batch := check[offset..next];
      ghost var closed, number := w.kernel.closed, w.kernel.next;
      var compared := CompareWorktreeBatch(w, root, batch, algorithm);
      ClosesJoin(first, closed, w.kernel.closed, old(w.kernel.next), number);
      PartsDiffer(w.tree, w.hash, algorithm, check, offset, next);
      if compared.Err? {
        return Err(compared.error);
      }
      dirty := dirty + compared.value;
      offset := next;
    }
    assert check[..offset] == check;
    return Ok(dirty);
  }

  lemma {:induction false} NoneDiffer(tree: Tree, hash: (string, string) -> string, algorithm: string)
    ensures Differing(tree, hash, algorithm, []) == {} && !SomeUnsafe(tree, [])
  {
  }

  lemma {:induction false} PartsDiffer(tree: Tree, hash: (string, string) -> string, algorithm: string,
                                       check: seq<IndexEntry>, i: nat, j: nat)
    requires i <= j <= |check|
    ensures Differing(tree, hash, algorithm, check[..j]) ==
              Differing(tree, hash, algorithm, check[..i]) + Differing(tree, hash, algorithm, check[i..j])
    ensures SomeUnsafe(tree, check[..j]) <==> SomeUnsafe(tree, check[..i]) || SomeUnsafe(tree, check[i..j])
    ensures SomeUnsafe(tree, check[..j]) ==> SomeUnsafe(tree, check)
  {
    hide Matches, Unsafe, Parts;
    assert forall k | i <= k < j :: check[i..j][k - i] == check[k];
    forall p | p in Differing(tree, hash, algorithm, check[i..j])
      ensures p in Differing(tree, hash, algorithm, check[..j])
    {
      var k :| 0 <= k < j - i && !Matches(tree, hash, algorithm, check[i..j][k]) && check[i..j][k].path == p;
      assert check[..j][i + k] == check[i..j][k];
    }
    forall p | p in Differing(tree, hash, algorithm, check[..i])
      ensures p in Differing(tree, hash, algorithm, check[..j])
    {
      var k :| 0 <= k < i && !Matches(tree, hash, algorithm, check[..i][k]) && check[..i][k].path == p;
      assert check[..j][k] == check[..i][k];
    }
    forall p | p in Differing(tree, hash, algorithm, check[..j])
      ensures p in Differing(tree, hash, algorithm, check[..i]) + Differing(tree, hash, algorithm, check[i..j])
    {
      var k :| 0 <= k < j && !Matches(tree, hash, algorithm, check[..j][k]) && check[..j][k].path == p;
      if k < i {
        assert check[..i][k] == check[..j][k];
      } else {
        assert check[i..j][k - i] == check[..j][k];
      }
    }
    if SomeUnsafe(tree, check[i..j]) {
      var k :| 0 <= k < j - i && Unsafe(tree, Parts(check[i..j][k].path));
      assert check[..j][i + k] == check[i..j][k];
    }
    if SomeUnsafe(tree, check[..j]) {
      var k :| 0 <= k < j && Unsafe(tree, Parts(check[..j][k].path));
      if k >= i {
        assert check[i..j][k - i] == check[..j][k];
      } else {
        assert check[..i][k] == check[..j][k];
      }
      assert check[k] == check[..j][k];
    }
    if SomeUnsafe(tree, check[..i]) {
      var k :| 0 <= k < i && Unsafe(tree, Parts(check[..i][k].path));
      assert check[..j][k] == check[..i][k];
    }
  }

  /** The two verdicts together are the definition. */
  lemma {:induction false} VerdictsJoin(w: World, index: seq<IndexEntry>, head: seq<TreeEntry>, untracked: seq<string>,
                                        git: set<string>, check: seq<IndexEntry>)
    requires !Conflicts(multiset(index))
    requires forall p :: p in git <==> p in untracked || DirtyInGit(multiset(index), HeadSet(head), p)
    requires forall e :: e in check <==> ToCheck(multiset(index), e)
    ensures forall p :: p in git + Differing(w.tree, w.hash, Algorithm(ObjectLengths(index, head)), check)
                        <==> IsDirty(w, index, head, untracked, p)
    ensures SomeUnsafe(w.tree, check) <==> Unreachable(w.tree, multiset(index))
  {
    hide Matches, Unsafe, Parts, Algorithm, ObjectLengths, HeadSet, HeadDiffers, Checked;
    var algorithm := Algorithm(ObjectLengths(index, head));
    var found := Differing(w.tree, w.hash, algorithm, check);
    forall p ensures p in git + found <==> IsDirty(w, index, head, untracked, p) {
      VerdictAt(w, index, head, untracked, git, check, p);
    }
    if SomeUnsafe(w.tree, check) {
      var i :| 0 <= i < |check| && Unsafe(w.tree, Parts(check[i].path));
      assert check[i] in check;
    }
    if Unreachable(w.tree, multiset(index)) {
      var e :| e in multiset(index) && e.stage == 0 && Checked(e) && Unsafe(w.tree, Parts(e.path));
      assert ToCheck(multiset(index), e) && e in check;
      var i :| 0 <= i < |check| && check[i] == e;
    }
  }

  lemma {:induction false} VerdictAt(w: World, index: seq<IndexEntry>, head: seq<TreeEntry>, untracked: seq<string>,
                                     git: set<string>, check: seq<IndexEntry>, p: string)
    requires !Conflicts(multiset(index))
    requires forall p :: p in git <==> p in untracked || DirtyInGit(multiset(index), HeadSet(head), p)
    requires forall e :: e in check <==> ToCheck(multiset(index), e)
    ensures p in git + Differing(w.tree, w.hash, Algorithm(ObjectLengths(index, head)), check)
            <==> IsDirty(w, index, head, untracked, p)
  {
    hide Matches, Unsafe, Parts, Algorithm, ObjectLengths, HeadSet, HeadDiffers, Checked;
    var algorithm := Algorithm(ObjectLengths(index, head));
    var found := Differing(w.tree, w.hash, algorithm, check);
    if p in found {
      var i :| 0 <= i < |check| && !Matches(w.tree, w.hash, algorithm, check[i]) && check[i].path == p;
      var e := check[i];
      assert e in check && ToCheck(multiset(index), e);
      forall f | f in multiset(index) && f.path == p && f.stage == 0 ensures f == e {
        if f != e {
          TwoClash(index, e, f);
        }
      }
      assert Tracked(multiset(index), HeadSet(head), p);
    }
    if IsDirty(w, index, head, untracked, p) && p !in git {
      var e :| e in multiset(index) && e.path == p && e.stage == 0 && !HeadDiffers(HeadSet(head), e);
      assert ToCheck(multiset(index), e) && e in check;
      var i :| 0 <= i < |check| && check[i] == e;
      assert check[i].path in found;
    }
  }

  lemma {:induction false} TwoClash(index: seq<IndexEntry>, e: IndexEntry, f: IndexEntry)
    requires e in multiset(index) && f in multiset(index) && e != f && e.path == f.path && e.stage == f.stage
    ensures Conflicts(multiset(index))
  {
    assert Clash(e, f) && multiset{e, f} <= multiset(index);
  }

  /** repository.py:828-878.  Every descriptor is closed again whatever fails.  The
      errors of the evidence are reported exactly when they are there.  On a frozen
      worktree the answer is the sorted list of the dirty paths, and without a
      failing call there is one unless a file cannot safely be looked at. */
  method CollectDirtyPaths(w: World, root: nat, index: seq<IndexEntry>, head: seq<TreeEntry>, untracked: seq<string>)
    returns (r: Result<seq<string>, CollectError>)
    requires w.Valid() && root in w.kernel.live && w.at[root] == [] && DistinctPaths(head)
    modifies w, w.kernel
    ensures w.Valid() && w.kernel.live == old(w.kernel.live)
    ensures ClosesOwn(old(w.kernel.closed), w.kernel.closed, old(w.kernel.next))
    ensures r == Err(MixedObjectFormats) <==> |ObjectLengths(index, head)| > 1
    ensures r == Err(ConflictingStageEntries) <==> |ObjectLengths(index, head)| <= 1 && Conflicts(multiset(index))
    ensures r.Ok? ==> StrictlySorted(r.value)
    ensures w.frozen && r.Ok? ==> forall p :: p in r.value <==> IsDirty(w, index, head, untracked, p)
    ensures w.frozen && r.Ok? ==> !Unreachable(w.tree, multiset(index))
    ensures w.frozen && r.Err? && r.error.Inspection? && w.kernel.faults == old(w.kernel.faults) ==>
              Unreachable(w.tree, multiset(index))
  {
    hide IsDirty, Unreachable, Conflicts, Differing, SomeUnsafe, ObjectLengths, DirtyInGit, HeadSet;
    var lengths := ObjectLengths(index, head);
    if |lengths| > 1 {
      return Err(MixedObjectFormats);
    }
    var algorithm := Algorithm(lengths);
    var dirty, check, conflict := SortOut(index, head, untracked);
    if conflict {
      return Err(ConflictingStageEntries);
    }
    VerdictsJoin(w, index, head, untracked, dirty, check);
    var compared := CompareBatches(w, root, check, algorithm);
    if compared.Err? {
      return Err(Inspection(compared.error));
    }
    return Ok(Sorted(dirty + compared.value));
  }

  /** The answer does not depend on the order of the evidence. */
  lemma {:induction false} OrderIrrelevant(w: World, index: seq<IndexEntry>, index': seq<IndexEntry>,
                                           head: seq<TreeEntry>, head': seq<TreeEntry>, untracked: seq<string>,
                                           untracked': seq<string>, r: seq<string>, r': seq<string>)
    requires multiset(index) == multiset(index') && multiset(head) == multiset(head')
    requires multiset(untracked) == multiset(untracked')
    requires StrictlySorted(r) && forall p :: p in r <==> IsDirty(w, index, head, untracked, p)
    requires StrictlySorted(r') && forall p :: p in r' <==> IsDirty(w, index', head', untracked', p)
    ensures r == r' && ObjectLengths(index, head) == ObjectLengths(index', head')
  {
    SameMembers(head, head');
    SameMembers(untracked, untracked');
    SameMembers(index, index');
    assert HeadSet(head) == HeadSet(head');
    LengthsBy(index, index', head, head');
    LengthsBy(index', index, head', head);
    assert (set q | q in untracked) == (set q | q in untracked');
    hide Dirty, Less;
    SortedUnique(r, r');
  }

  lemma {:induction false} SameMembers<T>(a: seq<T>, b: seq<T>)
    requires multiset(a) == multiset(b)
    ensures forall x :: x in a <==> x in b
  {
    forall x ensures x in a <==> x in b {
      assert x in a <==> x in multiset(a);
      assert x in b <==> x in multiset(b);
    }
  }

  lemma {:induction false} LengthsBy(index: seq<IndexEntry>, index': seq<IndexEntry>, head: seq<TreeEntry>,
                                     head': seq<TreeEntry>)
    requires (forall e | e in index :: e in index') && (forall h | h in head :: h in head')
    ensures ObjectLengths(index, head) <= ObjectLengths(index', head')
  {
    forall n | n in IndexLengths(index) ensures n in IndexLengths(index') {
      var i :| 0 <= i < |index| && |index[i].objectId| == n;
      assert index[i] in index && index[i] in index';
      var j :| 0 <= j < |index'| && index'[j] == index[i];
    }
    forall n | n in TreeLengths(head) ensures n in TreeLengths(head') {
      var i :| 0 <= i < |head| && |head[i].objectId| == n;
      assert head[i] in head && head[i] in head';
      var j :| 0 <= j < |head'| && head'[j] == head[i];
    }
  }
}
