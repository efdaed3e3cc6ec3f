// What every step of a process keeps true of the run it holds, in memory and
// on disk.

module Safety {
  import opened Domain
  import opened Ordering
  import opened Progress
  import opened Rules
  import opened Redaction
  import opened Process

  ghost predicate GoodSnapshot(pf: Platform, s: Snapshot) {
    && WellFormed(s) && IdentitiesClean(pf, s) && KeysClean(pf, s)
    && Explained(s)
  }

  /** No terminal result of a is missing from b or different in it. */
  ghost predicate Preserves(a: Snapshot, b: Snapshot) {
    forall id | IsResolved(a, id) :: id in b.results && b.results[id] == a.results[id]
  }

  ghost predicate SavedMonotone(saved: seq<Snapshot>) {
    forall i, j | 0 <= i <= j < |saved| :: Preserves(saved[i], saved[j])
  }

  /** Every item of a is still in b, unchanged. */
  ghost predicate PlanKept(a: Snapshot, b: Snapshot) {
    forall id | id in a.workItems :: id in b.workItems && b.workItems[id] == a.workItems[id]
  }

  ghost predicate PlanMonotone(saved: seq<Snapshot>) {
    forall i, j | 0 <= i <= j < |saved| :: PlanKept(saved[i], saved[j])
  }

  predicate TerminalEvent(e: Event) {
    e.Finished? && Terminal(e.status)
  }

  ghost predicate Announced(disk: Snapshot, id: string, status: WorkStatus) {
    id in disk.results && disk.results[id].status == status
  }

  /** Terminal events are about results that are on disk. */
  ghost predicate EventsOnDisk(events: seq<Event>, disk: Snapshot) {
    forall e | e in events && TerminalEvent(e) :: Announced(disk, e.id, e.status)
  }

  /** Every item has at most one terminal event. */
  ghost predicate EventsOnce(events: seq<Event>) {
    forall i, j | 0 <= i < j < |events| && TerminalEvent(events[i]) && TerminalEvent(events[j]) ::
      events[i].id != events[j].id
  }

  ghost predicate NoTerminalEvent(events: seq<Event>, id: string) {
    forall e | e in events && TerminalEvent(e) :: e.id != id
  }

  ghost predicate SavedAs(pf: Platform, r: WorkResult, saved: WorkResult) {
    RedactResult(pf, r) == saved
  }

  /** Saving the snapshot again would not change it. */
  ghost predicate Stable(pf: Platform, s: Snapshot) {
    Persisted(pf, s) == s
  }

  ghost predicate DiskOk(pf: Platform, f: RunFiles, d: Snapshot) {
    && f.directory
    && GoodSnapshot(pf, d) && Stable(pf, d)
    && f.saved != [] && f.saved[|f.saved| - 1] == d
    && SavedMonotone(f.saved) && PlanMonotone(f.saved)
    && EventsOnDisk(f.events, d) && EventsOnce(f.events)
  }

  ghost predicate FilesOk(pf: Platform, f: RunFiles) {
    && (f.disk.None? ==> f.saved == [] && f.events == [] && f.audit == [])
    && (f.disk.Some? ==> DiskOk(pf, f, f.disk.value))
  }

  /** Memory holds every terminal result that is on disk. */
  ghost predicate MemoryAhead(pf: Platform, mem: Snapshot, disk: Snapshot) {
    forall id | IsResolved(disk, id) :: id in mem.results && SavedAs(pf, mem.results[id], disk.results[id])
  }

  ghost predicate ItemSavedAs(pf: Platform, item: WorkItem, saved: WorkItem) {
    RedactItem(pf, item) == saved
  }

  /** Memory holds every item that is on disk. */
  ghost predicate PlanAhead(pf: Platform, mem: Snapshot, disk: Snapshot) {
    forall id | id in disk.workItems :: id in mem.workItems && ItemSavedAs(pf, mem.workItems[id], disk.workItems[id])
  }

  ghost predicate TodoOk(todo: Todo, mem: Snapshot, disk: Snapshot, events: seq<Event>) {
    && (todo.SaveResult? ==> todo.id in mem.results && NoTerminalEvent(events, todo.id))
    && (todo.Announce? ==>
          && todo.id in mem.results && NoTerminalEvent(events, todo.id)
          && (Terminal(mem.results[todo.id].status) ==> Announced(disk, todo.id, mem.results[todo.id].status)))
  }

  /** A turn may be in flight for id: it has no terminal result and all its
      dependencies succeeded. */
  ghost predicate Runnable(s: Snapshot, id: string) {
    IsPending(s, id) && DependenciesSucceeded(s, id)
  }

  ghost predicate BatchRunnable(s: Snapshot, ids: set<string>, writing: bool) {
    forall id | id in ids :: Runnable(s, id) && id in s.workItems && s.workItems[id].access.WorkspaceWrite? == writing
  }

  ghost predicate ReturnedOk(returned: map<string, WorkResult>) {
    forall id | id in returned :: returned[id].workItemId == id && !returned[id].status.Blocked?
  }

  /** A writer is alone and holds the project lease; readers stay within the
      limit and do not. */
  ghost predicate TurnsOk(w: Work) {
    && BatchRunnable(w.mem, w.flight + w.returned.Keys, w.lease)
    && ReturnedOk(w.returned)
    && w.flight !! w.returned.Keys
    && |w.flight + w.returned.Keys| <= (if w.lease then 1 else w.limit)
  }

  ghost predicate WorkOk(pf: Platform, w: Work, f: RunFiles) {
    && f.disk.Some?
    && GoodSnapshot(pf, w.mem)
    && MemoryAhead(pf, w.mem, f.disk.value) && PlanAhead(pf, w.mem, f.disk.value)
    && TodoOk(w.todo, w.mem, f.disk.value, f.events)
    && TurnsOk(w)
    && (w.adopting ==> w.mem.approvals == map[] && Quiet(w))
  }

  ghost predicate SessionOk(pf: Platform, v: View) {
    && FilesOk(pf, v.files)
    && (v.session.Creating? ==> v.files.disk.None? && v.files.directory && Fresh(pf, v.session.first))
    && (v.session.Working? ==> WorkOk(pf, v.session.work, v.files))
  }

  /** What the invariant says of a working process, part by part. */
  lemma {:induction false} WorkFacts(pf: Platform, v: View)
    requires SessionOk(pf, v) && v.session.Working?
    ensures v.files.disk.Some? && GoodSnapshot(pf, v.session.work.mem)
    ensures WellFormed(v.session.work.mem) && Explained(v.session.work.mem)
    ensures MemoryAhead(pf, v.session.work.mem, v.files.disk.value)
    ensures PlanAhead(pf, v.session.work.mem, v.files.disk.value)
    ensures TurnsOk(v.session.work)
    ensures TodoOk(v.session.work.todo, v.session.work.mem, v.files.disk.value, v.files.events)
  {
    hide FilesOk, WellFormed, Explained, IdentitiesClean, KeysClean, MemoryAhead, PlanAhead, TurnsOk, TodoOk, Quiet;
  }

  // ----- saving -----

  lemma {:induction false} StableResult(pf: Platform, s: Snapshot, id: string)
    requires Stable(pf, s) && id in s.results
    ensures SavedAs(pf, s.results[id], s.results[id])
  {
    assert s.results == RedactResults(pf, s.results);
    assert RedactResults(pf, s.results)[id] == RedactResult(pf, s.results[id]);
  }

  lemma {:induction false} StableItem(pf: Platform, s: Snapshot, id: string)
    requires Stable(pf, s) && id in s.workItems
    ensures ItemSavedAs(pf, s.workItems[id], s.workItems[id])
  {
    assert s.workItems == RedactItems(pf, s.workItems);
    assert RedactItems(pf, s.workItems)[id] == RedactItem(pf, s.workItems[id]);
  }

  lemma {:induction false} PersistedGood(pf: Platform, s: Snapshot)
    requires ValidPlatform(pf) && GoodSnapshot(pf, s)
    ensures GoodSnapshot(pf, Persisted(pf, s)) && Stable(pf, Persisted(pf, s))
  {
    PersistedKeepsProgress(pf, s);
    PersistedIdempotent(pf, s);
    ExplainedStays(s, Persisted(pf, s));
  }

  lemma {:induction false} SavePreserves(pf: Platform, mem: Snapshot, disk: Snapshot)
    requires MemoryAhead(pf, mem, disk)
    ensures Preserves(disk, Persisted(pf, mem))
  {
  }

  lemma {:induction false} PreservesTransitive(a: Snapshot, b: Snapshot, c: Snapshot)
    requires Preserves(a, b) && Preserves(b, c)
    ensures Preserves(a, c)
  {
    forall id | IsResolved(a, id) ensures id in c.results && c.results[id] == a.results[id] {
      assert IsResolved(b, id);
    }
  }

  lemma {:induction false} SavedGrows(saved: seq<Snapshot>, s: Snapshot)
    requires saved != [] && SavedMonotone(saved) && Preserves(saved[|saved| - 1], s)
    ensures SavedMonotone(saved + [s])
  {
    var longer := saved + [s];
    forall i, j | 0 <= i <= j < |longer| ensures Preserves(longer[i], longer[j]) {
      if i < |saved| && j == |saved| {
        PreservesTransitive(saved[i], saved[|saved| - 1], s);
      }
    }
  }

  lemma {:induction false} PlanGrows(saved: seq<Snapshot>, s: Snapshot)
    requires saved != [] && PlanMonotone(saved) && PlanKept(saved[|saved| - 1], s)
    ensures PlanMonotone(saved + [s])
  {
    var longer := saved + [s];
    forall i, j | 0 <= i <= j < |longer| ensures PlanKept(longer[i], longer[j]) {
      if i < |saved| && j == |saved| {
        assert PlanKept(saved[i], saved[|saved| - 1]);
      }
    }
  }

  lemma {:induction false} SaveKeepsPlan(pf: Platform, mem: Snapshot, disk: Snapshot)
    requires PlanAhead(pf, mem, disk)
    ensures PlanKept(disk, Persisted(pf, mem)) && PlanAhead(pf, mem, Persisted(pf, mem))
  {
  }

  lemma {:induction false} EventsStay(events: seq<Event>, disk: Snapshot, disk': Snapshot)
    requires EventsOnDisk(events, disk) && Preserves(disk, disk')
    ensures EventsOnDisk(events, disk')
  {
    forall e | e in events && TerminalEvent(e) ensures Announced(disk', e.id, e.status) {
      assert Announced(disk, e.id, e.status) && IsResolved(disk, e.id);
    }
  }

  lemma {:induction false} UnresolvedNotAnnounced(events: seq<Event>, disk: Snapshot, id: string)
    requires EventsOnDisk(events, disk) && !IsResolved(disk, id)
    ensures NoTerminalEvent(events, id)
  {
    forall e | e in events && TerminalEvent(e) ensures e.id != id {
      assert Announced(disk, e.id, e.status) && IsResolved(disk, e.id);
    }
  }

  lemma {:induction false} PersistedAhead(pf: Platform, mem: Snapshot)
    ensures MemoryAhead(pf, mem, Persisted(pf, mem))
  {
  }

  lemma {:induction false} SaveKeepsFiles(pf: Platform, f: RunFiles, d: Snapshot, mem: Snapshot)
    requires ValidPlatform(pf) && DiskOk(pf, f, d)
    requires GoodSnapshot(pf, mem) && MemoryAhead(pf, mem, d) && PlanAhead(pf, mem, d)
    ensures DiskOk(pf, Write(pf, f, mem), Persisted(pf, mem))
  {
    PersistedGood(pf, mem);
    SaveKeepsPlan(pf, mem, d);
    PlanGrows(f.saved, Persisted(pf, mem));
    SavePreserves(pf, mem, d);
    SavedGrows(f.saved, Persisted(pf, mem));
    EventsStay(f.events, d, Persisted(pf, mem));
  }

  lemma {:induction false} SaveKeeps(pf: Platform, w: Work, f: RunFiles)
    requires ValidPlatform(pf) && FilesOk(pf, f) && WorkOk(pf, w, f)
    ensures FilesOk(pf, FilesAfterSave(pf, w, f)) && WorkOk(pf, AfterSave(w), FilesAfterSave(pf, w, f))
  {
    SaveKeepsFiles(pf, f, f.disk.value, w.mem);
    PersistedAhead(pf, w.mem);
    SaveKeepsPlan(pf, w.mem, f.disk.value);
    assert TodoOk(AfterSave(w).todo, w.mem, Persisted(pf, w.mem), f.events);
  }

  // ----- changes of the state in memory -----

  lemma {:induction false} ResultGood(pf: Platform, s: Snapshot, r: WorkResult)
    requires GoodSnapshot(pf, s) && IsPending(s, r.workItemId)
    requires r.status.Blocked? ==> DependencyFailing(s, r.workItemId)
    requires !r.status.Blocked? ==> DependenciesSucceeded(s, r.workItemId)
    ensures GoodSnapshot(pf, WithResult(s, r))
  {
    ResultExplained(s, r);
  }

  /** Disk has no terminal result for an item that is pending in memory. */
  lemma {:induction false} ResultAhead(pf: Platform, s: Snapshot, r: WorkResult, disk: Snapshot)
    requires MemoryAhead(pf, s, disk) && IsPending(s, r.workItemId)
    ensures MemoryAhead(pf, WithResult(s, r), disk)
    ensures !IsResolved(disk, r.workItemId)
  {
    assert !IsResolved(disk, r.workItemId);
  }

  lemma {:induction false} BlockKeeps(pf: Platform, w: Work, f: RunFiles, id: string)
    requires FilesOk(pf, f) && WorkOk(pf, w, f) && EnabledWork(pf, Block(id), w)
    ensures WorkOk(pf, AfterBlock(w, id), f)
  {
    ResultGood(pf, w.mem, BlockedResult(id));
    ResultAhead(pf, w.mem, BlockedResult(id), f.disk.value);
    UnresolvedNotAnnounced(f.events, f.disk.value, id);
  }

  lemma {:induction false} RunnableStays(s: Snapshot, r: WorkResult, id: string)
    requires Runnable(s, id) && Runnable(s, r.workItemId) && id != r.workItemId
    ensures Runnable(WithResult(s, r), id)
  {
    forall d | d in s.workItems[id].dependencies ensures HasSucceeded(WithResult(s, r), d) {
      assert HasSucceeded(s, d);
      assert !HasSucceeded(s, r.workItemId);
    }
  }

  lemma {:induction false} RecordKeepsTurns(w: Work, id: string)
    requires TurnsOk(w) && id in w.returned && w.flight == {}
    ensures TurnsOk(AfterRecord(w, id))
  {
    var w' := AfterRecord(w, id);
    var before, after := w.flight + w.returned.Keys, w'.flight + w'.returned.Keys;
    assert after == before - {id};
    SubsetSize(after, before);
    assert Runnable(w.mem, id) by { assert id in before; }
    forall x | x in after ensures Runnable(w'.mem, x) {
      RunnableStays(w.mem, w.returned[id], x);
    }
  }

  lemma {:induction false} RecordKeeps(pf: Platform, w: Work, f: RunFiles, id: string)
    requires FilesOk(pf, f) && WorkOk(pf, w, f) && EnabledWork(pf, Record(id), w)
    ensures WorkOk(pf, AfterRecord(w, id), f)
  {
    var r := w.returned[id];
    assert EventsOnDisk(f.events, f.disk.value);
    assert Runnable(w.mem, id) by { assert id in w.flight + w.returned.Keys; }
    assert r.workItemId == id && AfterRecord(w, id).mem == WithResult(w.mem, r);
    ResultGood(pf, w.mem, r);
    ResultAhead(pf, w.mem, r, f.disk.value);
    UnresolvedNotAnnounced(f.events, f.disk.value, id);
    RecordKeepsTurns(w, id);
  }

  lemma {:induction false} BatchSize(ids: seq<string>)
    requires StrictlySorted(ids)
    ensures |set id | id in ids| == |ids|
    decreases |ids|
  {
    var all := set id | id in ids;
    if ids != [] {
      var n := |ids| - 1;
      var rest := set id | id in ids[..n];
      BatchSize(ids[..n]);
      assert ids[n] !in rest;
      assert all == rest + {ids[n]};
    }
  }

  /** The next batch is one ready writer, or ready readers within the limit. */
  lemma {:induction false} BatchReady(pf: Platform, s: Snapshot, limit: nat)
    requires WellFormed(s)
    ensures var ids := NextBatch(pf, s, limit);
            && (forall id | id in ids :: Ready(pf, s, id) && id in s.workItems)
            && (WritersReady(pf, s) ==> |ids| == 1 && s.workItems[ids[0]].access.WorkspaceWrite?)
            && (!WritersReady(pf, s) ==> |ids| <= limit && forall id | id in ids :: s.workItems[id].access.ReadOnly?)
            && |set id | id in ids| == |ids|
  {
    var ready := ReadyItems(pf, s);
    var ids := NextBatch(pf, s, limit);
    assert forall id | id in ready :: Ready(pf, s, id);
    var writers := Writers(s, ready);
    if writers != [] {
      assert writers[0] in writers;
      assert (set id | id in ids) == {writers[0]};
    } else {
      assert ids == ready || (|ready| > limit && ids == ready[..limit]);
      BatchSize(ids);
    }
    if WritersReady(pf, s) {
      var id :| id in s.workItems && Ready(pf, s, id) && s.workItems[id].access.WorkspaceWrite?;
      assert id in ready && id in writers;
    }
  }

  lemma {:induction false} StartKeeps(pf: Platform, w: Work, f: RunFiles, ids: seq<string>)
    requires WorkOk(pf, w, f) && EnabledWork(pf, Start(ids), w)
    ensures WorkOk(pf, AfterStart(w, ids), f)
  {
    BatchReady(pf, w.mem, w.limit);
    var batch := set id | id in ids;
    assert batch + w.returned.Keys == batch;
    assert BatchRunnable(w.mem, batch, w.lease);
  }

  lemma {:induction false} ReturnKeepsTurns(w: Work, id: string, r: WorkResult)
    requires TurnsOk(w) && id in w.flight && r.workItemId == id && !r.status.Blocked?
    ensures TurnsOk(AfterReturn(w, id, r))
  {
    var w' := AfterReturn(w, id, r);
    assert w'.flight + w'.returned.Keys == w.flight + w.returned.Keys;
  }

  lemma {:induction false} ReturnKeeps(pf: Platform, w: Work, f: RunFiles, id: string, r: WorkResult)
    requires WorkOk(pf, w, f) && id in w.flight && r.workItemId == id && !r.status.Blocked?
    ensures WorkOk(pf, AfterReturn(w, id, r), f)
  {
    ReturnKeepsTurns(w, id, r);
    assert !Quiet(w);
  }

  lemma {:induction false} AnnounceOnce(events: seq<Event>, id: string, status: WorkStatus)
    requires EventsOnce(events) && NoTerminalEvent(events, id)
    ensures EventsOnce(events + [Finished(id, status)])
  {
    var longer := events + [Finished(id, status)];
    forall i, j | 0 <= i < j < |longer| && TerminalEvent(longer[i]) && TerminalEvent(longer[j])
      ensures longer[i].id != longer[j].id
    {
      if j == |events| {
        assert events[i] in events;
      }
    }
  }

  lemma {:induction false} AppendOnDisk(events: seq<Event>, e: Event, disk: Snapshot)
    requires EventsOnDisk(events, disk) && (TerminalEvent(e) ==> Announced(disk, e.id, e.status))
    ensures EventsOnDisk(events + [e], disk)
  {
  }

  lemma {:induction false} AnnounceKeeps(pf: Platform, w: Work, f: RunFiles)
    requires FilesOk(pf, f) && WorkOk(pf, w, f) && w.todo.Announce?
    ensures FilesOk(pf, FilesAfterAnnounce(w, f))
  {
    var e := Finished(w.todo.id, w.mem.results[w.todo.id].status);
    AnnounceOnce(f.events, e.id, e.status);
    AppendOnDisk(f.events, e, f.disk.value);
  }

  lemma {:induction false} NoteKeeps(pf: Platform, f: RunFiles, e: Event)
    requires FilesOk(pf, f) && f.disk.Some? && e.Noted?
    ensures FilesOk(pf, f.(events := f.events + [e]))
  {
    AppendOnDisk(f.events, e, f.disk.value);
    assert EventsOnce(f.events + [e]);
  }

  lemma {:induction false} NewItemClean(pf: Platform, items: map<string, WorkItem>, item: WorkItem)
    requires ItemIdsClean(pf, items) && ItemsKeyed(items) && !pf.secretText(item.id)
    requires forall d | d in item.dependencies :: d in items
    ensures ItemIdsClean(pf, items[item.id := item])
  {
    forall i | 0 <= i < |item.dependencies| ensures !pf.secretText(item.dependencies[i]) {
      assert item.dependencies[i] in items;
    }
  }

  lemma {:induction false} CompletionExplained(s: Snapshot, item: WorkItem, route: RouteDecision)
    requires Explained(s) && item.id !in s.workItems
    ensures Explained(WithCompletion(s, item, route))
  {
    ExplainedStays(s, WithCompletion(s, item, route));
  }

  lemma {:induction false} CompletionShape(pf: Platform, s: Snapshot, item: WorkItem, route: RouteDecision)
    requires WellFormed(s) && KeysClean(pf, s) && !pf.secretKey(item.id)
    ensures WellFormed(WithCompletion(s, item, route)) && KeysClean(pf, WithCompletion(s, item, route))
  {
    var s' := WithCompletion(s, item, route);
    assert s'.workItems.Keys == s.workItems.Keys + {item.id};
    assert s'.routes.Keys == s.routes.Keys + {item.id};
  }

  lemma {:induction false} CompletionGood(pf: Platform, s: Snapshot, item: WorkItem, route: RouteDecision)
    requires ValidPlatform(pf) && GoodSnapshot(pf, s)
    requires COMPLETION_ID !in s.workItems && item.id == COMPLETION_ID && item.dependencies == Sorted(s.workItems.Keys)
    ensures GoodSnapshot(pf, WithCompletion(s, item, route))
  {
    NewItemClean(pf, s.workItems, item);
    CompletionExplained(s, item, route);
    CompletionShape(pf, s, item, route);
  }

  lemma {:induction false} CompletionKeeps(pf: Platform, w: Work, f: RunFiles, item: WorkItem, route: RouteDecision)
    requires ValidPlatform(pf) && WorkOk(pf, w, f) && Quiet(w) && !w.adopting
    requires COMPLETION_ID !in w.mem.workItems && item.id == COMPLETION_ID
    requires item.dependencies == Sorted(w.mem.workItems.Keys)
    ensures WorkOk(pf, w.(mem := WithCompletion(w.mem, item, route)), f)
  {
    CompletionGood(pf, w.mem, item, route);
  }

  /** A change of memory that leaves items and results alone. */
  lemma {:induction false} OtherKeeps(pf: Platform, w: Work, w': Work, f: RunFiles)
    requires WorkOk(pf, w, f) && Quiet(w)
    requires w'.mem.workItems == w.mem.workItems && w'.mem.results == w.mem.results
    requires w'.mem.objective == w.mem.objective && Hex(w'.mem.configurationDigest)
    requires w'.mem.routes.Keys == w.mem.routes.Keys && w'.mem.approvals.Keys <= w.mem.workItems.Keys
    requires w'.flight == {} && w'.returned == map[] && w'.todo.Nothing? && w'.limit == w.limit
    requires w'.adopting ==> w'.mem.approvals == map[]
    ensures WorkOk(pf, w', f)
  {
    ExplainedStays(w.mem, w'.mem);
    assert w'.flight + w'.returned.Keys == {};
  }

  lemma {:induction false} StatusKeeps(pf: Platform, w: Work, f: RunFiles, status: RunStatus)
    requires WorkOk(pf, w, f) && Quiet(w)
    ensures WorkOk(pf, w.(mem := w.mem.(status := status)), f)
  {
    OtherKeeps(pf, w, w.(mem := w.mem.(status := status)), f);
  }

  lemma {:induction false} LeaseKeeps(pf: Platform, w: Work, f: RunFiles, lease: bool)
    requires WorkOk(pf, w, f) && Quiet(w)
    ensures WorkOk(pf, w.(lease := lease), f)
  {
    OtherKeeps(pf, w, w.(lease := lease), f);
  }

  lemma {:induction false} ReleaseKeeps(pf: Platform, w: Work, f: RunFiles)
    requires WorkOk(pf, w, f) && w.flight == {} && w.returned == map[]
    ensures WorkOk(pf, w.(lease := false), f)
  {
    hide GoodSnapshot, MemoryAhead, PlanAhead, TodoOk, Runnable;
  }

  lemma {:induction false} ApproveKeeps(pf: Platform, w: Work, f: RunFiles, id: string, approver: string, time: string)
    requires WorkOk(pf, w, f) && Quiet(w) && !w.adopting && id in w.mem.workItems && id in w.mem.routes
    ensures WorkOk(pf, w.(mem := WithApproval(pf, w.mem, id, approver, time)), f)
  {
    OtherKeeps(pf, w, w.(mem := WithApproval(pf, w.mem, id, approver, time)), f);
  }

  lemma {:induction false} AdoptKeeps(pf: Platform, w: Work, f: RunFiles, digest: string,
                                      rerouted: map<string, RouteDecision>)
    requires WorkOk(pf, w, f) && Quiet(w) && rerouted.Keys == Unfinished(w.mem) && Hex(digest)
    ensures WorkOk(pf, w.(mem := Adopted(w.mem, digest, rerouted), adopting := true), f)
  {
    assert (w.mem.routes + rerouted).Keys == w.mem.routes.Keys;
    OtherKeeps(pf, w, w.(mem := Adopted(w.mem, digest, rerouted), adopting := true), f);
  }

  lemma {:induction false} AuditIrrelevant(pf: Platform, w: Work, f: RunFiles, audit: seq<Audit>)
    requires FilesOk(pf, f) && WorkOk(pf, w, f)
    ensures FilesOk(pf, f.(audit := audit)) && WorkOk(pf, w, f.(audit := audit))
  {
  }

  /** Memory stays in order when an event about no pending announcement is added. */
  lemma {:induction false} EventKeeps(pf: Platform, w: Work, f: RunFiles, e: Event)
    requires WorkOk(pf, w, f) && (TerminalEvent(e) && !w.todo.Nothing? ==> w.todo.id != e.id)
    ensures WorkOk(pf, w, f.(events := f.events + [e]))
  {
  }

  lemma {:induction false} AnnouncedDone(pf: Platform, w: Work, f: RunFiles)
    requires WorkOk(pf, w, f) && w.todo.Announce?
    ensures WorkOk(pf, w.(todo := Nothing), f)
  {
  }

  lemma {:induction false} FirstSnapshotKeeps(pf: Platform, f: RunFiles, s: Snapshot, limit: nat)
    requires ValidPlatform(pf) && FilesOk(pf, f) && f.disk.None? && f.directory && Fresh(pf, s)
    ensures FilesOk(pf, Write(pf, f, s)) && WorkOk(pf, Begin(s, limit), Write(pf, f, s))
  {
    FreshExplained(s);
    PersistedGood(pf, s);
    PersistedAhead(pf, s);
    SaveKeepsPlan(pf, s, s.(workItems := map[]));
    assert Write(pf, f, s).saved == [Persisted(pf, s)];
  }

  lemma {:induction false} LoadKeeps(pf: Platform, f: RunFiles, limit: nat)
    requires ValidPlatform(pf) && FilesOk(pf, f) && f.disk.Some?
    ensures WorkOk(pf, Begin(f.disk.value, limit), f)
  {
    var d := f.disk.value;
    forall id | id in d.results ensures SavedAs(pf, d.results[id], d.results[id]) {
      StableResult(pf, d, id);
    }
    forall id | id in d.workItems ensures ItemSavedAs(pf, d.workItems[id], d.workItems[id]) {
      StableItem(pf, d, id);
    }
  }

  lemma {:induction false} StepMakeDirectory(pf: Platform, v: View, first: Snapshot)
    requires ValidPlatform(pf) && SessionOk(pf, v) && Enabled(pf, MakeDirectory(first), v)
    ensures SessionOk(pf, Apply(pf, MakeDirectory(first), v))
  {
  }

  lemma {:induction false} StepWriteFirst(pf: Platform, v: View)
    requires ValidPlatform(pf) && SessionOk(pf, v) && Enabled(pf, WriteFirst, v)
    ensures SessionOk(pf, Apply(pf, WriteFirst, v))
  {
    hide FilesOk, WorkOk;
    FirstSnapshotKeeps(pf, v.files, v.session.first, v.session.limit);
  }

  lemma {:induction false} StepLoad(pf: Platform, v: View)
    requires ValidPlatform(pf) && SessionOk(pf, v) && Enabled(pf, Load, v)
    ensures SessionOk(pf, Apply(pf, Load, v))
  {
    hide FilesOk, WorkOk;
    LoadKeeps(pf, v.files, v.session.limit);
  }

  lemma {:induction false} StepSave(pf: Platform, v: View)
    requires ValidPlatform(pf) && SessionOk(pf, v) && Enabled(pf, SaveState, v)
    ensures SessionOk(pf, Apply(pf, SaveState, v))
  {
    hide FilesOk, WorkOk;
    SaveKeeps(pf, v.session.work, v.files);
  }

  lemma {:induction false} StepAnnounce(pf: Platform, v: View)
    requires ValidPlatform(pf) && SessionOk(pf, v) && Enabled(pf, AnnounceResult, v)
    ensures SessionOk(pf, Apply(pf, AnnounceResult, v))
  {
    hide FilesOk, WorkOk;
    AnnounceKeeps(pf, v.session.work, v.files);
    AnnouncedDone(pf, v.session.work, v.files);
    var e := FilesAfterAnnounce(v.session.work, v.files).events[|v.files.events|];
    EventKeeps(pf, v.session.work.(todo := Nothing), v.files, e);
  }

  lemma {:induction false} StepNote(pf: Platform, v: View, name: string, itemId: Option<string>)
    requires ValidPlatform(pf) && SessionOk(pf, v) && Enabled(pf, Note(name, itemId), v)
    ensures SessionOk(pf, Apply(pf, Note(name, itemId), v))
  {
    hide FilesOk, WorkOk;
    NoteKeeps(pf, v.files, Noted(name, itemId));
    EventKeeps(pf, v.session.work, v.files, Noted(name, itemId));
  }

  lemma {:induction false} StepStart(pf: Platform, v: View, ids: seq<string>)
    requires ValidPlatform(pf) && SessionOk(pf, v) && Enabled(pf, Start(ids), v)
    ensures SessionOk(pf, Apply(pf, Start(ids), v))
  {
    var audit := Apply(pf, Start(ids), v).files.audit;
    hide FilesOk, WorkOk;
    StartKeeps(pf, v.session.work, v.files, ids);
    AuditIrrelevant(pf, AfterStart(v.session.work, ids), v.files, audit);
  }

  lemma {:induction false} StepReturn(pf: Platform, v: View, id: string, r: WorkResult)
    requires ValidPlatform(pf) && SessionOk(pf, v) && Enabled(pf, Return(id, r), v)
    ensures SessionOk(pf, Apply(pf, Return(id, r), v))
  {
    hide FilesOk, WorkOk;
    ReturnKeeps(pf, v.session.work, v.files, id, r);
  }

  lemma {:induction false} StepRecord(pf: Platform, v: View, id: string)
    requires ValidPlatform(pf) && SessionOk(pf, v) && Enabled(pf, Record(id), v)
    ensures SessionOk(pf, Apply(pf, Record(id), v))
  {
    hide FilesOk, WorkOk;
    RecordKeeps(pf, v.session.work, v.files, id);
  }

  lemma {:induction false} StepBlock(pf: Platform, v: View, id: string)
    requires ValidPlatform(pf) && SessionOk(pf, v) && Enabled(pf, Block(id), v)
    ensures SessionOk(pf, Apply(pf, Block(id), v))
  {
    hide FilesOk, WorkOk;
    BlockKeeps(pf, v.session.work, v.files, id);
  }

  lemma {:induction false} StepCompletion(pf: Platform, v: View, item: WorkItem, route: RouteDecision)
    requires ValidPlatform(pf) && SessionOk(pf, v) && Enabled(pf, AppendCompletion(item, route), v)
    ensures SessionOk(pf, Apply(pf, AppendCompletion(item, route), v))
  {
    hide FilesOk, WorkOk;
    CompletionKeeps(pf, v.session.work, v.files, item, route);
  }

  lemma {:induction false} StepStatus(pf: Platform, v: View, status: RunStatus)
    requires ValidPlatform(pf) && SessionOk(pf, v) && Enabled(pf, SetStatus(status), v)
    ensures SessionOk(pf, Apply(pf, SetStatus(status), v))
  {
    hide FilesOk, WorkOk;
    StatusKeeps(pf, v.session.work, v.files, status);
  }

  lemma {:induction false} StepLease(pf: Platform, v: View)
    requires ValidPlatform(pf) && SessionOk(pf, v) && Enabled(pf, LeaseProject, v)
    ensures SessionOk(pf, Apply(pf, LeaseProject, v))
  {
    hide FilesOk, WorkOk;
    LeaseKeeps(pf, v.session.work, v.files, true);
  }

  lemma {:induction false} StepRelease(pf: Platform, v: View)
    requires ValidPlatform(pf) && SessionOk(pf, v) && Enabled(pf, ReleaseProject, v)
    ensures SessionOk(pf, Apply(pf, ReleaseProject, v))
  {
    hide FilesOk, WorkOk;
    ReleaseKeeps(pf, v.session.work, v.files);
  }

  lemma {:induction false} StepApprove(pf: Platform, v: View, id: string, approver: string, time: string)
    requires ValidPlatform(pf) && SessionOk(pf, v) && Enabled(pf, Approve(id, approver, time), v)
    ensures SessionOk(pf, Apply(pf, Approve(id, approver, time), v))
  {
    var audit := Apply(pf, Approve(id, approver, time), v).files.audit;
    var after := Apply(pf, Approve(id, approver, time), v).session.work;
    hide FilesOk, WorkOk;
    ApproveKeeps(pf, v.session.work, v.files, id, approver, time);
    AuditIrrelevant(pf, after, v.files, audit);
  }

  lemma {:induction false} StepAdopt(pf: Platform, v: View, digest: string, rerouted: map<string, RouteDecision>)
    requires ValidPlatform(pf) && SessionOk(pf, v) && Enabled(pf, Adopt(digest, rerouted), v)
    ensures SessionOk(pf, Apply(pf, Adopt(digest, rerouted), v))
  {
    hide FilesOk, WorkOk;
    AdoptKeeps(pf, v.session.work, v.files, digest, rerouted);
  }

  /** Every step of a process keeps the run in order. */
  lemma {:induction false} StepKeeps(pf: Platform, a: Action, v: View)
    requires ValidPlatform(pf) && SessionOk(pf, v) && Enabled(pf, a, v)
    ensures SessionOk(pf, Apply(pf, a, v))
  {
    hide *;
    match a
    case MakeDirectory(first) => StepMakeDirectory(pf, v, first);
    case WriteFirst => StepWriteFirst(pf, v);
    case Load => StepLoad(pf, v);
    case SaveState => StepSave(pf, v);
    case AnnounceResult => StepAnnounce(pf, v);
    case Note(name, itemId) => StepNote(pf, v, name, itemId);
    case Start(ids) => StepStart(pf, v, ids);
    case Return(id, r) => StepReturn(pf, v, id, r);
    case Record(id) => StepRecord(pf, v, id);
    case Block(id) => StepBlock(pf, v, id);
    case AppendCompletion(item, route) => StepCompletion(pf, v, item, route);
    case SetStatus(status) => StepStatus(pf, v, status);
    case LeaseProject => StepLease(pf, v);
    case ReleaseProject => StepRelease(pf, v);
    case Approve(id, approver, time) => StepApprove(pf, v, id, approver, time);
    case Adopt(digest, rerouted) => StepAdopt(pf, v, digest, rerouted);
  }
}
