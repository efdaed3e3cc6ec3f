// How a result is lost to a save that lands late, and one run to which that happens.

module LateExample {
  import opened Domain
  import opened Traces
  import opened Ordering
  import opened Progress
  import opened Rules
  import opened Redaction
  import opened Process
  import opened Safety
  import opened Approvals
  import opened Cluster
  import opened ClusterSafety
  import opened LateWrites

  // ----- how a result is lost -----

  /** The steps with which a process takes up a run and records one result. */
  function TakesUp(id: string, r: WorkResult): seq<Action> {
    [Load, SetStatus(RunStatus.Running), Start([id]), Return(id, r), Record(id), SaveState]
  }

  /** The run d has one reader to run next, and r is how its turn ends. */
  ghost predicate RunsNext(pf: Platform, d: Snapshot, limit: nat, id: string, r: WorkResult) {
    var s := d.(status := RunStatus.Running);
    && WellFormed(d) && id in d.workItems && NextBatch(pf, s, limit) == [id] && !WritersReady(pf, s)
    && r.workItemId == id && r.status.Succeeded?
  }

  lemma {:induction false} OneStep(pf: Platform, v0: View, before: seq<Action>, v: View, a: Action, v': View)
    requires Legal(pf, before, v0, v) && Enabled(pf, a, v) && InMemoryWellFormed(v) && v' == Apply(pf, a, v)
    ensures Legal(pf, before + [a], v0, v')
  {
    hide Enabled, Apply, InMemoryWellFormed;
    LegalStep(pf, before, v0, v, a);
  }

  /** A process in whose session the reader's turn is in flight. */
  ghost function Running(pf: Platform, f: RunFiles, limit: nat, id: string): View
    requires f.disk.Some? && WellFormed(f.disk.value) && id in f.disk.value.workItems
  {
    var s := f.disk.value.(status := RunStatus.Running);
    View(Working(AfterStart(Begin(s, limit), [id])), f.(audit := f.audit + Dispatches(s, [id])))
  }

  lemma {:induction false} LoadsAndStarts(pf: Platform, f: RunFiles, limit: nat, id: string, r: WorkResult)
    requires f.disk.Some? && RunsNext(pf, f.disk.value, limit, id, r)
    ensures Legal(pf, [Load, SetStatus(RunStatus.Running), Start([id])], View(Entered(limit), f), Running(pf, f, limit, id))
  {
    var s := f.disk.value.(status := RunStatus.Running);
    var v0, v1, v2 := View(Entered(limit), f), View(Working(Begin(f.disk.value, limit)), f), View(Working(Begin(s, limit)), f);
    hide NextBatch, WritersReady, Legal;
    NoAction(pf, v0);
    OneStep(pf, v0, [], v0, Load, v1);
    OneStep(pf, v0, [] + [Load], v1, SetStatus(RunStatus.Running), v2);
    OneStep(pf, v0, [] + [Load] + [SetStatus(RunStatus.Running)], v2, Start([id]), Running(pf, f, limit, id));
    assert [] + [Load] + [SetStatus(RunStatus.Running)] + [Start([id])] == [Load, SetStatus(RunStatus.Running), Start([id])];
  }

  lemma {:induction false} TurnReturns(pf: Platform, w: Work, f: RunFiles, id: string, r: WorkResult)
    requires f.disk.Some? && WellFormed(w.mem) && id in w.flight && r.workItemId == id && r.status.Succeeded?
    ensures Legal(pf, [Return(id, r)], View(Working(w), f), View(Working(AfterReturn(w, id, r)), f))
    ensures var w' := AfterReturn(w, id, r);
            w' == w.(flight := w.flight - {id}, returned := w.returned[id := r])
  {
    var v := View(Working(w), f);
    hide WellFormed;
    ExecOne(Stepper(pf), Return(id, r), v);
  }

  lemma {:induction false} ResultRecorded(pf: Platform, w: Work, f: RunFiles, id: string)
    requires f.disk.Some? && WellFormed(w.mem) && w.flight == {} && w.todo.Nothing? && id in w.returned
    requires w.returned[id].workItemId == id && id in w.mem.workItems
    ensures Legal(pf, [Record(id)], View(Working(w), f), View(Working(AfterRecord(w, id)), f))
    ensures WellFormed(AfterRecord(w, id).mem)
    ensures var w' := AfterRecord(w, id);
            w'.flight == {} && !w'.todo.Announce? && (w.returned[id].status.Succeeded? ==> HasSucceeded(w'.mem, id))
  {
    var v := View(Working(w), f);
    ExecOne(Stepper(pf), Record(id), v);
  }

  lemma {:induction false} MemorySaved(pf: Platform, w: Work, f: RunFiles)
    requires f.disk.Some? && WellFormed(w.mem) && w.flight == {} && !w.todo.Announce?
    ensures Legal(pf, [SaveState], View(Working(w), f), View(Working(AfterSave(w)), FilesAfterSave(pf, w, f)))
    ensures FilesAfterSave(pf, w, f).disk == Some(Persisted(pf, w.mem))
  {
    var v := View(Working(w), f);
    hide WellFormed, Persisted;
    ExecOne(Stepper(pf), SaveState, v);
  }

  lemma {:induction false} ReturnsAndSaves(pf: Platform, f: RunFiles, w: Work, id: string, r: WorkResult)
    returns (v: View)
    requires f.disk.Some? && WellFormed(w.mem) && id in w.mem.workItems && r.workItemId == id && r.status.Succeeded?
    requires w.flight == {id} && w.returned == map[] && w.todo.Nothing?
    ensures Legal(pf, [Return(id, r), Record(id), SaveState], View(Working(w), f), v)
    ensures v.files.disk.Some? && HasSucceeded(v.files.disk.value, id)
  {
    hide *;
    TurnReturns(pf, w, f, id, r);
    var w4 := AfterReturn(w, id, r);
    ResultRecorded(pf, w4, f, id);
    var w5 := AfterRecord(w4, id);
    MemorySaved(pf, w5, f);
    v := View(Working(AfterSave(w5)), FilesAfterSave(pf, w5, f));
    LegalJoin(pf, [Return(id, r)], View(Working(w), f), View(Working(w4), f), [Record(id)], View(Working(w5), f));
    LegalJoin(pf, [Return(id, r)] + [Record(id)], View(Working(w), f), View(Working(w5), f), [SaveState], v);
    assert [Return(id, r)] + [Record(id)] + [SaveState] == [Return(id, r), Record(id), SaveState];
    SavedSucceeded(pf, w5.mem, id);
  }

  lemma {:induction false} TakesUpLegally(pf: Platform, f: RunFiles, limit: nat, id: string, r: WorkResult)
    returns (v: View)
    requires f.disk.Some? && RunsNext(pf, f.disk.value, limit, id, r)
    ensures Legal(pf, TakesUp(id, r), View(Entered(limit), f), v)
    ensures v.files.disk.Some? && HasSucceeded(v.files.disk.value, id)
  {
    LoadsAndStarts(pf, f, limit, id, r);
    hide NextBatch, WritersReady, Legal, Dispatches;
    assert WellFormed(Running(pf, f, limit, id).session.work.mem);
    v := ReturnsAndSaves(pf, Running(pf, f, limit, id).files, Running(pf, f, limit, id).session.work, id, r);
    var first, second := [Load, SetStatus(RunStatus.Running), Start([id])], [Return(id, r), Record(id), SaveState];
    LegalJoin(pf, first, View(Entered(limit), f), Running(pf, f, limit, id), second, v);
    assert first + second == TakesUp(id, r);
  }

  lemma {:induction false} NoAction(pf: Platform, v: View)
    ensures Legal(pf, [], v, v)
  {
  }

  lemma {:induction false} SavedSucceeded(pf: Platform, s: Snapshot, id: string)
    requires HasSucceeded(s, id)
    ensures HasSucceeded(Persisted(pf, s), id)
  {
  }

  lemma {:induction false} ActsHappen(pf: Platform, c: Cluster, p: nat, trace: seq<Action>, v: View)
    returns (c': Cluster)
    requires p in c.seats && Legal(pf, trace, ViewOf(c, p), v)
    requires forall a | a in trace :: !a.LeaseProject? && !a.MakeDirectory?
    ensures Leads(pf, c, ActsOf(p, trace), c')
    ensures p in c'.seats && c'.seats[p].run == c.seats[p].run && ViewOf(c', p) == v
    decreases |trace|
  {
    if trace == [] {
      c' := c;
    } else {
      LegalHead(pf, trace, ViewOf(c, p), v);
      var m := Act(p, trace[0]);
      assert trace[0] in trace && forall a | a in trace[1..] :: a in trace;
      var next := Moved(pf, c, m);
      assert ViewOf(next, p) == Apply(pf, trace[0], ViewOf(c, p));
      hide Legal, Enabled, Apply, InMemoryWellFormed, ProjectsAfter;
      c' := ActsHappen(pf, next, p, trace[1..], v);
      hide Possible, Moved;
      OneMove(pf, c, m, ActsOf(p, trace[1..]), c');
    }
  }

  lemma {:induction false} EntersRun(pf: Platform, c: Cluster, q: nat, run: string, limit: nat)
    requires q !in c.seats && run !in c.runOwner
    ensures Possible(pf, c, Enter(q, run, limit))
    ensures var c' := Moved(pf, c, Enter(q, run, limit));
            q in c'.seats && c'.seats[q].run == run && ViewOf(c', q) == View(Entered(limit), FilesOf(c, run))
  {
  }

  lemma {:induction false} NoLeaseTaken(id: string, r: WorkResult)
    ensures forall a | a in TakesUp(id, r) :: !a.LeaseProject? && !a.MakeDirectory?
  {
  }

  /** If the save that a cancelled command left behind lands only after another
      process took up the run and recorded a result, that result is gone. */
  lemma {:induction false} Overtaken(pf: Platform, c: Cluster, l: Late, q: nat, limit: nat, id: string, r: WorkResult)
    returns (c': Cluster)
    requires LateSave(pf, c, l) && Prompt(c, l) && q !in c.seats
    requires RunsNext(pf, FilesOf(c, l.run).disk.value, limit, id, r) && !HasSucceeded(Content(pf, l), id)
    ensures Leads(pf, c, [Enter(q, l.run, limit)] + ActsOf(q, TakesUp(id, r)), c') && LateSave(pf, c', l)
    ensures FilesOf(c', l.run).disk.Some? && HasSucceeded(FilesOf(c', l.run).disk.value, id)
    ensures CanLand(pf, FilesOf(c', l.run), l) && !HasSucceeded(FilesOf(Landed(pf, c', l), l.run).disk.value, id)
    ensures !Current(pf, c', l)
  {
    var f := FilesOf(c, l.run);
    EntersRun(pf, c, q, l.run, limit);
    var c1 := Moved(pf, c, Enter(q, l.run, limit));
    hide RunsNext, LateOk, Legal, Possible, Moved, Leads, CanLand, Landed, Content, TakesUp, ActsOf;
    var v := TakesUpLegally(pf, f, limit, id, r);
    NoLeaseTaken(id, r);
    c' := ActsHappen(pf, c1, q, TakesUp(id, r), v);
    OneMove(pf, c, Enter(q, l.run, limit), ActsOf(q, TakesUp(id, r)), c');
    assert FilesOf(c', l.run) == v.files;
    SaveLands(pf, c', l);
    assert IsResolved(FilesOf(c', l.run).disk.value, id);
  }

  // ----- one such history -----

  /** Nothing is secret, and every text is a time stamp. */
  const PLAIN := Platform((k: string) => false, (t: string) => false, (p: Payload) => "", (t: string) => true,
                          (t: string) => false, (t: string) => t)

  const ITEM := "a"

  const READER := WorkItem(ITEM, "", "", "", "", [], AccessMode.ReadOnly, [], "", [], ONE, {})

  const ROUTE := RouteDecision("", "", "", "", SandboxMode.ReadOnly, ApprovalMode.Automatic, 1, 1, false, false, None,
                               RouteSource.Default, "")

  const NOWHERE := RepositoryContext("", false, None, [], [], [], [], [])

  const FIRST := Snapshot(1, "", Objective("r", "", "", None, "", ""), NOWHERE, map[ITEM := READER], map[ITEM := ROUTE],
                          map[], map[], RunStatus.Planned)

  const DONE := WorkResult(ITEM, None, None, WorkStatus.Succeeded, None, [], 0, 0, 0, ZERO, [], [], ONE, false, None)

  const FILES := RunFiles(true, Some(FIRST), [], [FIRST], [])

  const IDLE := Cluster(map[], map[], map[], map["r" := FILES], [])

  /** A process has loaded FIRST, and its command was cancelled as it saved it with
      another status. */
  const LEFT := Late("r", SaveState, Working(Begin(FIRST.(status := RunStatus.AwaitingApproval), 1)), FILES)

  lemma {:induction false} PlainRedactsNothing()
    ensures ValidPlatform(PLAIN)
    ensures RedactItem(PLAIN, READER) == READER && RedactRoute(PLAIN, ROUTE) == ROUTE
    ensures Persisted(PLAIN, FIRST) == FIRST
  {
    assert RedactTexts(PLAIN, []) == [];
    assert RedactInstructions(PLAIN, []) == [] && RedactCounts(PLAIN, []) == [];
    assert RedactRepository(PLAIN, NOWHERE) == NOWHERE;
    assert RedactItem(PLAIN, READER) == READER;
    assert RedactItems(PLAIN, FIRST.workItems) == FIRST.workItems && RedactRoutes(PLAIN, FIRST.routes) == FIRST.routes;
    assert RedactResults(PLAIN, map[]) == map[] && RedactApprovals(PLAIN, map[]) == map[];
  }

  lemma {:induction false} FirstGood(s: Snapshot)
    requires s == FIRST.(status := s.status)
    ensures GoodSnapshot(PLAIN, s)
  {
    FreshExplained(s);
  }

  lemma {:induction false} FilesGood()
    ensures FilesOk(PLAIN, FILES)
  {
    PlainRedactsNothing();
    FirstGood(FIRST);
    hide GoodSnapshot, Persisted;
  }

  lemma {:induction false} LeftGood()
    ensures LateSave(PLAIN, IDLE, LEFT) && Prompt(IDLE, LEFT) && InOrder(PLAIN, IDLE)
  {
    PlainRedactsNothing();
    FilesGood();
    FirstGood(LEFT.session.work.mem);
    NothingBacked(PLAIN, []);
    hide FilesOk, GoodSnapshot, Persisted, ValidPlatform;
    assert LEFT.session.work.mem.workItems == FIRST.workItems;
    assert WorkOk(PLAIN, LEFT.session.work, FILES);
  }

  lemma {:induction false} ReaderNext()
    ensures RunsNext(PLAIN, FIRST, 1, ITEM, DONE)
  {
    var s := FIRST.(status := RunStatus.Running);
    assert Ready(PLAIN, s, ITEM);
    assert forall id | Ready(PLAIN, s, id) :: id == ITEM;
    var ready := ReadyItems(PLAIN, s);
    SortedUnique(ready, [ITEM]);
    assert Writers(s, ready) == [];
  }

  lemma {:induction false} Setting()
    ensures 7 !in IDLE.seats && LEFT.run == "r" && FilesOf(IDLE, "r").disk == Some(FIRST)
    ensures LEFT.session.Working? && !HasSucceeded(Content(PLAIN, LEFT), ITEM)
  {
  }

  /** The result that process 7 records and saves is not in the snapshot that the
      late save leaves. */
  lemma {:induction false} ResultLost() returns (c: Cluster)
    ensures Leads(PLAIN, IDLE, [Enter(7, "r", 1)] + ActsOf(7, TakesUp(ITEM, DONE)), c)
    ensures FilesOf(c, "r").disk.Some? && HasSucceeded(FilesOf(c, "r").disk.value, ITEM)
    ensures CanLand(PLAIN, FilesOf(c, "r"), LEFT)
    ensures !HasSucceeded(FilesOf(Landed(PLAIN, c, LEFT), "r").disk.value, ITEM)
    ensures !Harmless(PLAIN, c, LEFT)
  {
    PlainRedactsNothing();
    LeftGood();
    ReaderNext();
    Setting();
    hide *;
    c := Overtaken(PLAIN, IDLE, LEFT, 7, 1, ITEM, DONE);
    OrderedMoves(PLAIN, IDLE, [Enter(7, "r", 1)] + ActsOf(7, TakesUp(ITEM, DONE)), c);
    HarmlessExactly(PLAIN, c, LEFT);
  }
}
