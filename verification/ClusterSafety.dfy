// What holds in every state that any number of processes can reach, under any
// interleaving and with a crash at any step.

module ClusterSafety {
  import opened Domain
  import opened Traces
  import opened Progress
  import opened Rules
  import opened Redaction
  import opened Process
  import opened Safety
  import opened Approvals
  import opened Cluster

  ghost predicate Leads(pf: Platform, c: Cluster, moves: seq<Move>, c': Cluster) {
    Exec(Mover(pf), moves, c) == Some(c')
  }

  ghost predicate Reachable(pf: Platform, c: Cluster) {
    exists moves :: Leads(pf, START, moves, c)
  }

  lemma {:induction false} ReachableInOrder(pf: Platform, c: Cluster)
    requires ValidPlatform(pf) && Injective(pf) && Reachable(pf, c)
    ensures ClusterOk(pf, c)
  {
    hide ClusterOk, Mover;
    var moves :| Leads(pf, START, moves, c);
    StartOk(pf);
    ReachableOk(pf, START, moves);
  }

  // ----- turns in flight -----

  predicate InFlight(c: Cluster, p: nat, id: string) {
    && p in c.seats && c.seats[p].session.Working?
    && id in c.seats[p].session.work.flight && id in c.seats[p].session.work.mem.workItems
  }

  predicate WriterInFlight(c: Cluster, p: nat, id: string) {
    InFlight(c, p, id) && c.seats[p].session.work.mem.workItems[id].access.WorkspaceWrite?
  }

  lemma {:induction false} WriterHolds(pf: Platform, c: Cluster, p: nat, id: string)
    requires ClusterOk(pf, c) && WriterInFlight(c, p, id)
    ensures HoldsProject(pf, c, p, ProjectOf(pf, c.seats[p].session))
    ensures c.seats[p].session.work.flight == {id}
    ensures ProjectOf(pf, c.seats[p].session) in c.projectOwner
    ensures c.projectOwner[ProjectOf(pf, c.seats[p].session)] == p
  {
    var w := c.seats[p].session.work;
    assert TurnsOk(w) by {
      hide SessionOk, AuditOk, TurnsOk;
      assert SessionOk(pf, ViewOf(c, p));
      WorkFacts(pf, ViewOf(c, p));
    }
    hide SessionsOk, RunsOk;
    var turns := w.flight + w.returned.Keys;
    assert id in turns && w.lease;
    SubsetSize({id}, turns);
    assert turns == {id} && w.flight == {id};
  }

  /** All processes together have at most one writing turn in flight on one
      physical project. */
  lemma {:induction false} OneWriterPerProject(pf: Platform, c: Cluster, p: nat, i: string, q: nat, j: string)
    requires ValidPlatform(pf) && Injective(pf) && Reachable(pf, c)
    requires WriterInFlight(c, p, i) && WriterInFlight(c, q, j)
    requires ProjectOf(pf, c.seats[p].session) == ProjectOf(pf, c.seats[q].session)
    ensures p == q && i == j
  {
    ReachableInOrder(pf, c);
    hide ClusterOk;
    WriterHolds(pf, c, p, i);
    WriterHolds(pf, c, q, j);
    assert i in {j};
  }

  /** Within one run a writer is in flight alone, and readers stay within the
      concurrency limit; whatever is in flight may run. */
  lemma {:induction false} TurnsWithinLimits(pf: Platform, c: Cluster, p: nat)
    requires ValidPlatform(pf) && Injective(pf) && Reachable(pf, c)
    requires p in c.seats && c.seats[p].session.Working?
    ensures var w := c.seats[p].session.work;
            && (forall id | WriterInFlight(c, p, id) :: w.flight == {id})
            && ((exists id :: WriterInFlight(c, p, id)) || |w.flight| <= w.limit)
            && (forall id | id in w.flight :: Runnable(w.mem, id))
  {
    ReachableInOrder(pf, c);
    var w := c.seats[p].session.work;
    assert TurnsOk(w) by {
      hide SessionOk, AuditOk, TurnsOk;
      assert SessionOk(pf, ViewOf(c, p));
      WorkFacts(pf, ViewOf(c, p));
    }
    forall id | WriterInFlight(c, p, id) ensures w.flight == {id} {
      hide ClusterOk;
      WriterHolds(pf, c, p, id);
    }
    hide ClusterOk;
    SubsetSize(w.flight, w.flight + w.returned.Keys);
    forall id | id in w.flight
      ensures Runnable(w.mem, id) && id in w.mem.workItems && w.mem.workItems[id].access.WorkspaceWrite? == w.lease
    {
      assert id in w.flight + w.returned.Keys;
    }
    if w.lease && w.flight != {} {
      var id :| id in w.flight;
      assert WriterInFlight(c, p, id);
    }
  }

  // ----- what was saved, announced and read -----

  /** Moves only add to what a run saved, announced and audited. */
  lemma {:induction false} HistoryGrows(pf: Platform, c: Cluster, moves: seq<Move>, c': Cluster, run: string)
    requires Leads(pf, c, moves, c')
    ensures FilesOf(c, run).saved <= FilesOf(c', run).saved
    ensures FilesOf(c, run).events <= FilesOf(c', run).events
    ensures FilesOf(c, run).audit <= FilesOf(c', run).audit
    decreases |moves|
  {
    if moves != [] {
      MoveGrows(pf, c, moves[0], run);
      hide Possible, Moved, FilesOf;
      HistoryGrows(pf, Moved(pf, c, moves[0]), moves[1..], c', run);
    }
  }

  lemma {:induction false} MoveGrows(pf: Platform, c: Cluster, m: Move, run: string)
    requires Possible(pf, c, m)
    ensures FilesOf(c, run).saved <= FilesOf(Moved(pf, c, m), run).saved
    ensures FilesOf(c, run).events <= FilesOf(Moved(pf, c, m), run).events
    ensures FilesOf(c, run).audit <= FilesOf(Moved(pf, c, m), run).audit
  {
    if m.Act? {
      ActionFrame(pf, m.action, ViewOf(c, m.p));
      hide Enabled, EnabledWork, Apply, ApplyWork;
      assert Moved(pf, c, m).runs == c.runs[c.seats[m.p].run := Apply(pf, m.action, ViewOf(c, m.p)).files];
    }
  }

  lemma {:induction false} RunInOrder(pf: Platform, c: Cluster, run: string)
    requires ValidPlatform(pf) && Injective(pf) && Reachable(pf, c)
    ensures FilesOk(pf, FilesOf(c, run)) && AuditSound(FilesOf(c, run).audit)
  {
    ReachableInOrder(pf, c);
    hide FilesOk, AuditSound, AllBacked, SessionsOk, ProjectsOwned, SeatsOwned, SeenSaved;
    if run !in c.runs {
      NoRunOk(pf);
    } else {
      assert SessionOk(pf, View(Away, c.runs[run])) && AuditOk(pf, View(Away, c.runs[run]));
    }
  }

  lemma {:induction false} NoRunOk(pf: Platform)
    ensures FilesOk(pf, NO_RUN) && AuditSound(NO_RUN.audit)
  {
  }

  /** Whatever else happens after a snapshot was saved, every later snapshot has
      each of its items and terminal results unchanged; and state.json is the last one. */
  lemma {:induction false} SnapshotsKeepResults(pf: Platform, c: Cluster, moves: seq<Move>, c': Cluster, run: string,
                                                s: Snapshot)
    requires ValidPlatform(pf) && Injective(pf) && Reachable(pf, c) && Leads(pf, c, moves, c')
    requires s in FilesOf(c, run).saved
    ensures FilesOf(c', run).disk.Some?
    ensures Preserves(s, FilesOf(c', run).disk.value) && PlanKept(s, FilesOf(c', run).disk.value)
    ensures forall j | |FilesOf(c, run).saved| <= j < |FilesOf(c', run).saved| ::
              Preserves(s, FilesOf(c', run).saved[j]) && PlanKept(s, FilesOf(c', run).saved[j])
  {
    ReachableOnward(pf, c, moves, c');
    HistoryGrows(pf, c, moves, c', run);
    RunInOrder(pf, c', run);
    hide Leads, FilesOf, GoodSnapshot, Stable, EventsOnDisk, EventsOnce, Preserves, PlanKept;
    var before, after := FilesOf(c, run).saved, FilesOf(c', run).saved;
    var k :| 0 <= k < |before| && before[k] == s;
    assert after[k] == s && SavedMonotone(after) && PlanMonotone(after);
    assert after[|after| - 1] == FilesOf(c', run).disk.value;
  }

  lemma {:induction false} ReachableOnward(pf: Platform, c: Cluster, moves: seq<Move>, c': Cluster)
    requires Reachable(pf, c) && Leads(pf, c, moves, c')
    ensures Reachable(pf, c')
  {
    hide Mover;
    var first :| Leads(pf, START, first, c);
    ExecAppend(Mover(pf), first, moves, START);
    assert Leads(pf, START, first + moves, c');
  }

  /** Every terminal event in events.jsonl tells the status that state.json
      already holds, and no item has two of them. */
  lemma {:induction false} EventsFollowSnapshots(pf: Platform, c: Cluster, run: string)
    requires ValidPlatform(pf) && Injective(pf) && Reachable(pf, c)
    ensures var f := FilesOf(c, run);
            && EventsOnce(f.events)
            && (forall e | e in f.events && TerminalEvent(e) :: f.disk.Some? && Announced(f.disk.value, e.id, e.status))
  {
    RunInOrder(pf, c, run);
    hide FilesOf;
  }

  /** What an unleased status read returns is a whole saved snapshot; a later
      read of the same run never misses a terminal result of an earlier one. */
  lemma {:induction false} StatusReadsAreSnapshots(pf: Platform, c: Cluster, moves: seq<Move>, c': Cluster, run: string)
    requires ValidPlatform(pf) && Injective(pf) && Reachable(pf, c) && Leads(pf, c, moves, c')
    requires Possible(pf, c, ReadStatus(run))
    ensures Possible(pf, c', ReadStatus(run))
    ensures Moved(pf, c, ReadStatus(run)).seen == c.seen + [(run, FilesOf(c, run).disk.value)]
    ensures FilesOf(c, run).disk.value in FilesOf(c, run).saved
    ensures Preserves(FilesOf(c, run).disk.value, FilesOf(c', run).disk.value)
    ensures forall i | 0 <= i < |c'.seen| :: c'.seen[i].1 in FilesOf(c', c'.seen[i].0).saved
  {
    RunInOrder(pf, c, run);
    var s := FilesOf(c, run).disk.value;
    assert s in FilesOf(c, run).saved by {
      var f := FilesOf(c, run);
      assert f.saved[|f.saved| - 1] == s;
    }
    hide FilesOk;
    SnapshotsKeepResults(pf, c, moves, c', run, s);
    ReachableOnward(pf, c, moves, c');
    ReachableInOrder(pf, c');
  }

  // ----- what was run, over whole runs -----

  /** On disk, in every reachable state: a SUCCEEDED or FAILED item has only
      SUCCEEDED dependencies, a BLOCKED one has a FAILED or BLOCKED dependency. */
  lemma {:induction false} ResultsHaveReasons(pf: Platform, c: Cluster, run: string, id: string)
    requires ValidPlatform(pf) && Injective(pf) && Reachable(pf, c) && FilesOf(c, run).disk.Some?
    requires IsResolved(FilesOf(c, run).disk.value, id)
    ensures var s := FilesOf(c, run).disk.value;
            if IsBlocked(s, id) then DependencyFailing(s, id) else DependenciesSucceeded(s, id)
    ensures var s := FilesOf(c, run).disk.value; OnOrBelowCycle(DependencyGraph(s), id) ==> IsBlocked(s, id)
    ensures var s := FilesOf(c, run).disk.value;
            forall f | IsFailing(s, f) && Below(DependencyGraph(s), id, f) :: IsBlocked(s, id)
  {
    RunInOrder(pf, c, run);
    var s := FilesOf(c, run).disk.value;
    assert Explained(s);
    hide FilesOf, FilesOk, Explained;
    ExplainedItem(s, id);
    if OnOrBelowCycle(DependencyGraph(s), id) {
      CyclicNeverRuns(s, id);
    }
    forall f | IsFailing(s, f) && Below(DependencyGraph(s), id, f) ensures IsBlocked(s, id) {
      BelowFailureNeverRuns(s, id, f);
    }
  }

  lemma {:induction false} StartFacts(pf: Platform, v: View, ids: seq<string>, id: string)
    requires SessionOk(pf, v) && Enabled(pf, Start(ids), v) && id in ids
    ensures Explained(v.session.work.mem) && Ready(pf, v.session.work.mem, id)
    ensures !IsResolved(v.files.disk.value, id)
  {
    StartIsBatch(pf, v, ids);
    hide *;
    WorkFacts(pf, v);
    BatchReady(pf, v.session.work.mem, v.session.work.limit);
    PendingOnDisk(pf, v.session.work.mem, v.files.disk.value, id);
  }

  lemma {:induction false} StartIsBatch(pf: Platform, v: View, ids: seq<string>)
    requires Enabled(pf, Start(ids), v)
    ensures v.session.Working? && ids == NextBatch(pf, v.session.work.mem, v.session.work.limit)
  {
    hide NextBatch, WritersReady;
  }

  lemma {:induction false} PendingOnDisk(pf: Platform, mem: Snapshot, disk: Snapshot, id: string)
    requires MemoryAhead(pf, mem, disk) && Ready(pf, mem, id)
    ensures !IsResolved(disk, id)
  {
    hide DependenciesSucceeded, Authorized;
    assert !IsResolved(mem, id);
  }

  /** A process may start turns only for items whose dependencies all succeeded,
      that have no terminal result anywhere, that are authorized as they stand,
      and that are neither on or below a cycle nor below a failed item. */
  lemma {:induction false} StartsAreSafe(pf: Platform, c: Cluster, p: nat, ids: seq<string>, id: string)
    requires ValidPlatform(pf) && Injective(pf) && Reachable(pf, c) && Possible(pf, c, Act(p, Start(ids))) && id in ids
    ensures var s := c.seats[p].session.work.mem;
            && IsPending(s, id) && DependenciesSucceeded(s, id) && Authorized(pf, s, id)
            && !OnOrBelowCycle(DependencyGraph(s), id)
            && (forall f | IsFailing(s, f) :: !Below(DependencyGraph(s), id, f))
    ensures !IsResolved(FilesOf(c, c.seats[p].run).disk.value, id)
  {
    ReachableInOrder(pf, c);
    var s := c.seats[p].session.work.mem;
    StartFacts(pf, ViewOf(c, p), ids, id) by {
      hide SessionOk, AuditOk, NextBatch, ProjectsOwned, RunsOk, SeenSaved;
      assert SessionOk(pf, ViewOf(c, p));
    }
    hide ClusterOk, Possible, Explained, Enabled, NextBatch;
    if OnOrBelowCycle(DependencyGraph(s), id) {
      CyclicNeverRuns(s, id);
    }
    forall f | IsFailing(s, f) ensures !Below(DependencyGraph(s), id, f) {
      if Below(DependencyGraph(s), id, f) {
        BelowFailureNeverRuns(s, id, f);
      }
    }
  }

  /** In every history, each dispatch of an item that requires approval follows an
      approval of exactly that item, route and configuration digest, with no
      adopted configuration in between. */
  lemma {:induction false} DispatchesAreApproved(pf: Platform, c: Cluster, run: string, k: nat)
    requires ValidPlatform(pf) && Injective(pf) && Reachable(pf, c)
    requires k < |FilesOf(c, run).audit| && FilesOf(c, run).audit[k].Dispatch?
    requires FilesOf(c, run).audit[k].payload.route.approval.Required?
    ensures var audit := FilesOf(c, run).audit;
            exists j :: 0 <= j < k && audit[j] == Approval(audit[k].id, audit[k].payload) && NoAdoption(audit, j, k)
  {
    RunInOrder(pf, c, run);
    var audit := FilesOf(c, run).audit;
    assert ApprovedBefore(audit, audit[k].id, audit[k].payload, k);
  }

  /** Once a saved plan has the completion item, no process can append it again. */
  lemma {:induction false} CompletionAppendedOnce(pf: Platform, c: Cluster, p: nat, item: WorkItem,
                                                  route: RouteDecision)
    requires ValidPlatform(pf) && Injective(pf) && Reachable(pf, c)
    requires Possible(pf, c, Act(p, AppendCompletion(item, route)))
    ensures forall s | s in FilesOf(c, c.seats[p].run).saved :: COMPLETION_ID !in s.workItems
  {
    ReachableInOrder(pf, c);
    assert SessionOk(pf, ViewOf(c, p)) by {
      hide SessionOk, AuditOk;
    }
    hide ClusterOk, Enabled, SessionOk;
    AppendIsFirst(pf, ViewOf(c, p), item, route);
  }

  lemma {:induction false} AppendIsFirst(pf: Platform, v: View, item: WorkItem, route: RouteDecision)
    requires SessionOk(pf, v) && Enabled(pf, AppendCompletion(item, route), v)
    ensures forall s | s in v.files.saved :: COMPLETION_ID !in s.workItems
  {
    PlanFacts(pf, v);
    NotInMemory(pf, v, item, route);
    hide SessionOk, Enabled;
    var saved, mem := v.files.saved, v.session.work.mem;
    forall s | s in saved ensures COMPLETION_ID !in s.workItems {
      var k :| 0 <= k < |saved| && saved[k] == s;
      assert PlanKept(saved[k], saved[|saved| - 1]);
    }
  }

  lemma {:induction false} PlanFacts(pf: Platform, v: View)
    requires SessionOk(pf, v) && v.session.Working?
    ensures v.files.disk.Some? && PlanAhead(pf, v.session.work.mem, v.files.disk.value) && PlanMonotone(v.files.saved)
    ensures v.files.saved != [] && v.files.saved[|v.files.saved| - 1] == v.files.disk.value
  {
    WorkFacts(pf, v);
    hide WorkOk, GoodSnapshot, Stable, SavedMonotone, PlanMonotone, EventsOnDisk, EventsOnce, PlanAhead;
  }

  lemma {:induction false} NotInMemory(pf: Platform, v: View, item: WorkItem, route: RouteDecision)
    requires Enabled(pf, AppendCompletion(item, route), v)
    ensures v.session.Working? && COMPLETION_ID !in v.session.work.mem.workItems
  {
    hide BaseWorkSucceeded;
  }

  // ----- processes do not disturb each other -----

  /** A run belongs to at most one process, and the kernel's project leases are
      exactly those that living processes hold. */
  lemma {:induction false} LeasesAreExclusive(pf: Platform, c: Cluster, p: nat, q: nat)
    requires ValidPlatform(pf) && Injective(pf) && Reachable(pf, c)
    requires p in c.seats && q in c.seats && c.seats[p].run == c.seats[q].run
    ensures p == q
    ensures forall k | k in c.projectOwner :: HoldsProject(pf, c, c.projectOwner[k], k)
  {
    ReachableInOrder(pf, c);
  }

  /** A move of another process changes nothing that p sees of its own run. */
  lemma {:induction false} OthersDoNotInterfere(pf: Platform, c: Cluster, m: Move, p: nat)
    requires SeatsOwned(c) && Possible(pf, c, m) && p in c.seats
    requires !(m.Act? && m.p == p) && !(m.Vanish? && m.p == p)
    ensures p in Moved(pf, c, m).seats && Moved(pf, c, m).seats[p].run == c.seats[p].run
    ensures ViewOf(Moved(pf, c, m), p) == ViewOf(c, p)
  {
    hide Enabled, EnabledWork, Apply, ApplyWork;
    if m.Act? {
      assert c.seats[m.p].run != c.seats[p].run;
    }
  }

  function ActionsOf(p: nat, moves: seq<Move>): seq<Action> {
    if moves == [] then []
    else (if moves[0].Act? && moves[0].p == p then [moves[0].action] else []) + ActionsOf(p, moves[1..])
  }

  /** Whatever the others do in between, what a process does is a legal trace of
      the one-process machine. */
  lemma {:induction false} OwnActionsAreLegal(pf: Platform, c: Cluster, moves: seq<Move>, c': Cluster, p: nat)
    requires ValidPlatform(pf) && Injective(pf) && ClusterOk(pf, c) && Leads(pf, c, moves, c') && p in c.seats
    requires forall m | m in moves :: m != Vanish(p)
    ensures p in c'.seats && Legal(pf, ActionsOf(p, moves), ViewOf(c, p), ViewOf(c', p))
    decreases |moves|
  {
    if moves != [] {
      var m := moves[0];
      assert m in moves && forall x | x in moves[1..] :: x in moves;
      var next := Moved(pf, c, m);
      MoveKeeps(pf, c, m);
      var mine := m.Act? && m.p == p;
      if mine {
        OwnAction(pf, c, p, m.action);
      } else {
        OthersDoNotInterfere(pf, c, m, p);
      }
      hide Possible, Moved, ClusterOk, Legal;
      OwnActionsAreLegal(pf, next, moves[1..], c', p);
      if mine {
        LegalJoin(pf, [m.action], ViewOf(c, p), ViewOf(next, p), ActionsOf(p, moves[1..]), ViewOf(c', p));
      } else {
        assert ActionsOf(p, moves) == ActionsOf(p, moves[1..]);
      }
    }
  }

  lemma {:induction false} OwnAction(pf: Platform, c: Cluster, p: nat, a: Action)
    requires Possible(pf, c, Act(p, a))
    ensures var next := Moved(pf, c, Act(p, a)); p in next.seats && Legal(pf, [a], ViewOf(c, p), ViewOf(next, p))
  {
    hide Enabled, EnabledWork, Apply, ApplyWork;
    ExecOne(Stepper(pf), a, ViewOf(c, p));
    assert ViewOf(Moved(pf, c, Act(p, a)), p) == Apply(pf, a, ViewOf(c, p));
  }

  function ActsOf(p: nat, trace: seq<Action>): seq<Move> {
    if trace == [] then [] else [Act(p, trace[0])] + ActsOf(p, trace[1..])
  }

  /** Nobody else holds the lease of the directory that p leases on the way to v, if
      it leases one, and a created run has the identifier its lease is for. */
  ghost predicate Undisturbed(pf: Platform, c: Cluster, p: nat, trace: seq<Action>, v: View) {
    && p in c.seats
    && (v.session.Working? && LeaseProject in trace && ProjectOf(pf, v.session) in c.projectOwner ==>
          c.projectOwner[ProjectOf(pf, v.session)] == p)
    && forall a | a in trace && a.MakeDirectory? :: a.first.objective.id == c.seats[p].run
  }

  /** A working process stays on its run, and so on its project. */
  lemma {:induction false} LegalKeepsProject(pf: Platform, trace: seq<Action>, v: View, v': View)
    requires Legal(pf, trace, v, v') && v.session.Working?
    ensures v'.session.Working? && ProjectOf(pf, v'.session) == ProjectOf(pf, v.session)
    decreases |trace|
  {
    if trace != [] {
      LegalHead(pf, trace, v, v');
      ActionFrame(pf, trace[0], v);
      hide Legal, Enabled, Apply, InMemoryWellFormed;
      LegalKeepsProject(pf, trace[1..], Apply(pf, trace[0], v), v');
    }
  }

  /** Every legal trace of one process can happen in the cluster, as long as nobody
      else holds the project lease that it takes. */
  lemma {:induction false} LegalTracesHappen(pf: Platform, c: Cluster, p: nat, trace: seq<Action>, v: View)
    requires ValidPlatform(pf) && Injective(pf) && ClusterOk(pf, c)
    requires Undisturbed(pf, c, p, trace, v) && Legal(pf, trace, ViewOf(c, p), v)
    ensures Exec(Mover(pf), ActsOf(p, trace), c).Some?
    ensures var c' := Exec(Mover(pf), ActsOf(p, trace), c).value; p in c'.seats && ViewOf(c', p) == v
    decreases |trace|
  {
    if trace != [] {
      assert p in c.seats;
      hide ClusterOk, Possible, Moved, Legal, Apply, Enabled, ViewOf, Undisturbed, InMemoryWellFormed;
      LegalHead(pf, trace, ViewOf(c, p), v);
      NextHappens(pf, c, p, trace, v);
      MoveKeeps(pf, c, Act(p, trace[0]));
      LegalTracesHappen(pf, Moved(pf, c, Act(p, trace[0])), p, trace[1..], v);
      assert ActsOf(p, trace)[0] == Act(p, trace[0]) && ActsOf(p, trace)[1..] == ActsOf(p, trace[1..]);
    }
  }

  lemma {:induction false} NextHappens(pf: Platform, c: Cluster, p: nat, trace: seq<Action>, v: View)
    requires ClusterOk(pf, c) && Undisturbed(pf, c, p, trace, v) && trace != []
    requires Enabled(pf, trace[0], ViewOf(c, p)) && InMemoryWellFormed(ViewOf(c, p))
    requires Legal(pf, trace, ViewOf(c, p), v)
    ensures Possible(pf, c, Act(p, trace[0]))
    ensures var next := Moved(pf, c, Act(p, trace[0]));
            Undisturbed(pf, next, p, trace[1..], v) && ViewOf(next, p) == Apply(pf, trace[0], ViewOf(c, p))
  {
    hide ClusterOk, Enabled, EnabledWork, Apply, ApplyWork, InMemoryWellFormed, Legal;
    LeasesWork(pf, trace[0], ViewOf(c, p));
    if ViewOf(c, p).session.Working? {
      LegalKeepsProject(pf, trace, ViewOf(c, p), v);
    }
    if trace[0].LeaseProject? {
      LeaseFree(pf, c, p, trace, v);
    }
    assert trace[0] in trace;
    assert Possible(pf, c, Act(p, trace[0]));
    hide Undisturbed, Possible;
    StillUndisturbed(pf, c, Moved(pf, c, Act(p, trace[0])), p, trace, v);
  }

  lemma {:induction false} StillUndisturbed(pf: Platform, c: Cluster, c': Cluster, p: nat, trace: seq<Action>, v: View)
    requires Undisturbed(pf, c, p, trace, v) && trace != [] && p in c'.seats && c'.seats[p].run == c.seats[p].run
    requires c'.projectOwner == ProjectsAfter(pf, c, p, trace[0])
    requires trace[0].LeaseProject? ==> v.session.Working? && c.seats[p].session.Working? &&
                                        ProjectOf(pf, v.session) == ProjectOf(pf, c.seats[p].session)
    ensures Undisturbed(pf, c', p, trace[1..], v)
  {
    hide ProjectOf;
    assert forall a | a in trace[1..] :: a in trace;
  }

  lemma {:induction false} LeasesWork(pf: Platform, a: Action, v: View)
    requires Enabled(pf, a, v)
    ensures a.LeaseProject? || a.ReleaseProject? ==> v.session.Working?
  {
  }

  lemma {:induction false} LeaseFree(pf: Platform, c: Cluster, p: nat, trace: seq<Action>, v: View)
    requires ClusterOk(pf, c) && Undisturbed(pf, c, p, trace, v) && trace != [] && trace[0].LeaseProject?
    requires Enabled(pf, LeaseProject, ViewOf(c, p))
    requires v.session.Working? && ProjectOf(pf, v.session) == ProjectOf(pf, c.seats[p].session)
    ensures ProjectOf(pf, c.seats[p].session) !in c.projectOwner
  {
    hide SessionsOk, RunsOk, SeenSaved;
    var k := ProjectOf(pf, c.seats[p].session);
    assert LeaseProject in trace;
    assert !HoldsProject(pf, c, p, k);
  }
}
