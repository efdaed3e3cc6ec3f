// One process working on one run, as a machine of small steps.  A step is one
// externally visible effect or one change of the state in memory; between two
// steps any other process may act and this one may crash.

module Process {
  import opened Domain
  import opened Ordering
  import opened Rules
  import opened Redaction
  import opened Traces
  import opened Progress

  /** A line of events.jsonl. */
  datatype Event =
    | Finished(id: string, status: WorkStatus)
    | Noted(name: string, itemId: Option<string>)

  /** History of what bears on approvals, in the order it took effect.  An
      adopted configuration takes effect when it is saved. */
  datatype Audit =
    | Approval(id: string, payload: Payload)
    | Adoption(digest: string)
    | Dispatch(id: string, payload: Payload)

  /** The directory of one run.  saved and audit are history: every snapshot
      state.json ever held, and the audit trail. */
  datatype RunFiles = RunFiles(
    directory: bool,
    disk: Option<Snapshot>,
    events: seq<Event>,
    saved: seq<Snapshot>,
    audit: seq<Audit>)

  const NO_RUN := RunFiles(false, None, [], [], [])

  /** What must happen next to a result that was put into memory. */
  datatype Todo = Nothing | SaveResult(id: string) | Announce(id: string)

  /** A process holding the run lease with the state in memory.  flight are the
      turns in flight, returned the results of the batch not recorded yet. */
  datatype Work = Work(
    mem: Snapshot,
    limit: nat,
    lease: bool,
    flight: set<string>,
    returned: map<string, WorkResult>,
    todo: Todo,
    adopting: bool)

  datatype Session =
    | Away
    | Entered(limit: nat)
    | Creating(limit: nat, first: Snapshot)
    | Working(work: Work)

  datatype View = View(session: Session, files: RunFiles)

  datatype Action =
    | MakeDirectory(first: Snapshot)
    | WriteFirst
    | Load
    | SaveState
    | SetStatus(status: RunStatus)
    | Block(id: string)
    | LeaseProject
    | ReleaseProject
    | Start(ids: seq<string>)
    | Return(id: string, result: WorkResult)
    | Record(id: string)
    | AnnounceResult
    | Note(name: string, itemId: Option<string>)
    | Approve(id: string, approver: string, time: string)
    | Adopt(digest: string, rerouted: map<string, RouteDecision>)
    | AppendCompletion(item: WorkItem, route: RouteDecision)

  function Begin(mem: Snapshot, limit: nat): Work {
    Work(mem, limit, false, {}, map[], Nothing, false)
  }

  predicate Quiet(w: Work) {
    w.flight == {} && w.returned == map[] && w.todo.Nothing?
  }

  /** A state as the coordinator first builds it (application.py:135-145). */
  ghost predicate Fresh(pf: Platform, s: Snapshot) {
    && WellFormed(s) && IdentitiesClean(pf, s) && KeysClean(pf, s)
    && s.results == map[] && s.approvals == map[] && s.status == RunStatus.Planned
    && s.schemaVersion == 1
  }

  // ----- which items are dispatched together -----

  /** The dispatchable items in identifier order (scheduler.py:119-133). */
  function ReadyItems(pf: Platform, s: Snapshot): (r: seq<string>)
    ensures StrictlySorted(r)
    ensures forall id :: id in r <==> Ready(pf, s, id)
  {
    assert forall id | Ready(pf, s, id) :: id in s.workItems;
    Sorted(set id | id in s.workItems && Ready(pf, s, id))
  }

  function Writers(s: Snapshot, ids: seq<string>): (r: seq<string>)
    requires forall id | id in ids :: id in s.workItems
    ensures forall id :: id in r <==> id in ids && s.workItems[id].access.WorkspaceWrite?
  {
    if ids == [] then []
    else
      assert forall id :: id in ids <==> id == ids[0] || id in ids[1..];
      var rest := Writers(s, ids[1..]);
      if s.workItems[ids[0]].access.WorkspaceWrite? then [ids[0]] + rest else rest
  }

  /** The next turns: the first writer alone, or else the first readers up to
      the concurrency limit (scheduler.py:82-98). */
  function NextBatch(pf: Platform, s: Snapshot, limit: nat): seq<string> {
    var ready := ReadyItems(pf, s);
    assert forall id | id in ready :: Ready(pf, s, id);
    var writers := Writers(s, ready);
    if writers != [] then [writers[0]]
    else if |ready| <= limit then ready else ready[..limit]
  }

  predicate WritersReady(pf: Platform, s: Snapshot) {
    exists id :: id in s.workItems && Ready(pf, s, id) && s.workItems[id].access.WorkspaceWrite?
  }

  // ----- the steps -----

  ghost predicate EnabledWork(pf: Platform, a: Action, w: Work) {
    match a
    case SaveState => w.flight == {} && !w.todo.Announce?
    case SetStatus(_) => Quiet(w)
    case Block(id) => Quiet(w) && !w.lease && !w.adopting && NewlyBlocked(w.mem, id)
    case LeaseProject => Quiet(w) && !w.lease && !w.adopting
    case ReleaseProject => w.lease && w.flight == {} && w.returned == map[]
    case Start(ids) =>
      && Quiet(w) && !w.adopting && w.mem.status.Running?
      && ids == NextBatch(pf, w.mem, w.limit) && ids != []
      && w.lease == WritersReady(pf, w.mem)
    case Return(id, r) => id in w.flight && r.workItemId == id && !r.status.Blocked?
    case Record(id) => w.flight == {} && w.todo.Nothing? && id in w.returned
    case AnnounceResult => w.todo.Announce? && w.todo.id in w.mem.results
    case Note(_, _) => Quiet(w)
    case Approve(id, _, time) => Quiet(w) && !w.adopting && id in w.mem.workItems && id in w.mem.routes && pf.timestamp(time)
    case Adopt(digest, rerouted) => Quiet(w) && rerouted.Keys == Unfinished(w.mem) && Hex(digest)
    case AppendCompletion(item, _) =>
      && Quiet(w) && !w.lease && !w.adopting && BaseWorkSucceeded(w.mem) && COMPLETION_ID !in w.mem.workItems
      && w.mem.objective.explicitTask.None?
      && item.id == COMPLETION_ID && item.dependencies == Sorted(w.mem.workItems.Keys) && item.access.ReadOnly?
    case _ => false
  }

  ghost predicate Enabled(pf: Platform, a: Action, v: View) {
    match a
    case MakeDirectory(first) => v.session.Entered? && !v.files.directory && Fresh(pf, first)
    case WriteFirst => v.session.Creating?
    case Load => v.session.Entered? && v.files.disk.Some?
    case _ => v.session.Working? && v.files.disk.Some? && EnabledWork(pf, a, v.session.work)
  }

  ghost function Write(pf: Platform, f: RunFiles, s: Snapshot): RunFiles {
    f.(disk := Some(Persisted(pf, s)), saved := f.saved + [Persisted(pf, s)])
  }

  ghost function Dispatches(s: Snapshot, ids: seq<string>): seq<Audit>
    requires WellFormed(s) && forall id | id in ids :: id in s.workItems
  {
    seq(|ids|, i requires 0 <= i < |ids| => Dispatch(ids[i], PayloadOf(s, ids[i])))
  }

  /** state.json now holds what is in memory; a pending adoption takes effect. */
  ghost function FilesAfterSave(pf: Platform, w: Work, f: RunFiles): RunFiles {
    var f' := Write(pf, f, w.mem);
    if w.adopting then f'.(audit := f.audit + [Adoption(w.mem.configurationDigest)]) else f'
  }

  ghost function AfterSave(w: Work): Work {
    w.(todo := if w.todo.SaveResult? then Announce(w.todo.id) else w.todo, adopting := false)
  }

  ghost function AfterBlock(w: Work, id: string): Work {
    w.(mem := WithResult(w.mem, BlockedResult(id)), todo := SaveResult(id))
  }

  ghost function AfterStart(w: Work, ids: seq<string>): Work {
    w.(flight := set id | id in ids)
  }

  ghost function AfterReturn(w: Work, id: string, r: WorkResult): Work {
    w.(flight := w.flight - {id}, returned := w.returned[id := r])
  }

  ghost function AfterRecord(w: Work, id: string): Work
    requires id in w.returned
  {
    w.(mem := w.mem.(results := w.mem.results[id := w.returned[id]]), returned := w.returned - {id},
       todo := SaveResult(id))
  }

  ghost function FilesAfterAnnounce(w: Work, f: RunFiles): RunFiles
    requires w.todo.Announce? && w.todo.id in w.mem.results
  {
    f.(events := f.events + [Finished(w.todo.id, w.mem.results[w.todo.id].status)])
  }

  ghost function WithApproval(pf: Platform, s: Snapshot, id: string, approver: string, time: string): Snapshot
    requires id in s.workItems && id in s.routes
  {
    s.(approvals := s.approvals[id := RecordFor(pf, s, id, approver, time)])
  }

  ghost function ApplyWork(pf: Platform, a: Action, w: Work, f: RunFiles): (Work, RunFiles)
    requires EnabledWork(pf, a, w) && WellFormed(w.mem)
  {
    match a
    case SaveState => (AfterSave(w), FilesAfterSave(pf, w, f))
    case SetStatus(status) => (w.(mem := w.mem.(status := status)), f)
    case Block(id) => (AfterBlock(w, id), f)
    case LeaseProject => (w.(lease := true), f)
    case ReleaseProject => (w.(lease := false), f)
    case Start(ids) =>
      assert forall id | id in ids :: id in ReadyItems(pf, w.mem) && Ready(pf, w.mem, id);
      (AfterStart(w, ids), f.(audit := f.audit + Dispatches(w.mem, ids)))
    case Return(id, r) => (AfterReturn(w, id, r), f)
    case Record(id) => (AfterRecord(w, id), f)
    case AnnounceResult => (w.(todo := Nothing), FilesAfterAnnounce(w, f))
    case Note(name, itemId) => (w, f.(events := f.events + [Noted(name, itemId)]))
    case Approve(id, approver, time) =>
      (w.(mem := WithApproval(pf, w.mem, id, approver, time)), f.(audit := f.audit + [Approval(id, PayloadOf(w.mem, id))]))
    case Adopt(digest, rerouted) => (w.(mem := Adopted(w.mem, digest, rerouted), adopting := true), f)
    case AppendCompletion(item, route) => (w.(mem := WithCompletion(w.mem, item, route)), f)
  }

  ghost predicate InMemoryWellFormed(v: View) {
    v.session.Working? ==> WellFormed(v.session.work.mem)
  }

  ghost function Apply(pf: Platform, a: Action, v: View): View
    requires Enabled(pf, a, v) && InMemoryWellFormed(v)
  {
    match a
    case MakeDirectory(first) => View(Creating(v.session.limit, first), v.files.(directory := true))
    case WriteFirst =>
      View(Working(Begin(v.session.first, v.session.limit)), Write(pf, v.files, v.session.first))
    case Load => View(Working(Begin(v.files.disk.value, v.session.limit)), v.files)
    case _ =>
      var (w, f) := ApplyWork(pf, a, v.session.work, v.files);
      View(Working(w), f)
  }

  ghost function Step(pf: Platform, a: Action, v: View): Option<View> {
    if Enabled(pf, a, v) && InMemoryWellFormed(v) then Some(Apply(pf, a, v)) else None
  }

  ghost function Stepper(pf: Platform): (Action, View) -> Option<View> {
    (a: Action, v: View) => Step(pf, a, v)
  }

  /** The actions of trace, each enabled in its turn, lead from v to v'. */
  ghost predicate Legal(pf: Platform, trace: seq<Action>, v: View, v': View) {
    Exec(Stepper(pf), trace, v) == Some(v')
  }

  lemma {:induction false} LegalStep(pf: Platform, trace: seq<Action>, v: View, mid: View, a: Action)
    requires Legal(pf, trace, v, mid) && Enabled(pf, a, mid) && InMemoryWellFormed(mid)
    ensures Legal(pf, trace + [a], v, Apply(pf, a, mid))
  {
    ExecAppend(Stepper(pf), trace, [a], v);
    assert Exec(Stepper(pf), [a], mid) == Stepper(pf)(a, mid) by { ExecOne(Stepper(pf), a, mid); }
  }

  lemma {:induction false} LegalJoin(pf: Platform, first: seq<Action>, v: View, mid: View, second: seq<Action>,
                                     v': View)
    requires Legal(pf, first, v, mid) && Legal(pf, second, mid, v')
    ensures Legal(pf, first + second, v, v')
  {
    ExecAppend(Stepper(pf), first, second, v);
  }

  lemma {:induction false} LegalHead(pf: Platform, trace: seq<Action>, v: View, v': View)
    requires Legal(pf, trace, v, v') && trace != []
    ensures Enabled(pf, trace[0], v) && InMemoryWellFormed(v)
    ensures Legal(pf, trace[1..], Apply(pf, trace[0], v), v')
  {
    hide Enabled, Apply;
  }
}
