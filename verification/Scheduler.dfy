// The work scheduler (scheduler.py).  Every method returns, as ghosts, the steps
// of the one-process machine that it took and the view they lead to, so what is
// proved of those steps under any interleaving and crash holds of this code.

module Scheduler {
  import opened Domain
  import opened Ordering
  import opened Graph
  import opened Progress
  import opened Rules
  import opened Redaction
  import opened Process
  import opened Safety
  import opened Storage
  import opened Liveness

  /** What one turn of the client does: it returns a result, raises an error, or
      is cancelled because another turn of its batch raised one. */
  datatype Turn = Returned(result: WorkResult) | Raised(message: string) | Cancelled

  datatype Request =
    | ResumeThread(threadId: string, projectPath: string, route: RouteDecision, prompt: string)
    | NewThread(projectPath: string, route: RouteDecision, prompt: string, instructions: seq<InstructionFile>)

  /** scheduler.py:178-193. */
  function RequestFor(s: Snapshot, id: string): Request
    requires id in s.workItems && id in s.routes
  {
    if id in s.results && s.results[id].threadId.Some? then
      ResumeThread(s.results[id].threadId.value, s.objective.projectPath, s.routes[id], s.workItems[id].instructions)
    else
      NewThread(s.objective.projectPath, s.routes[id], s.workItems[id].instructions, s.repository.instructionFiles)
  }

  /** The result of a turn for the item; the client's own name for the work is
      replaced (scheduler.py:136-170 and 194). */
  function TurnResult(id: string, turn: Turn): (r: WorkResult)
    ensures r.workItemId == id
    ensures r.status.Blocked? ==> turn.Returned? && turn.result.status.Blocked?
  {
    match turn
    case Returned(result) => result.(workItemId := id)
    case Raised(message) => FailureResult(id, WorkStatus.Failed, message)
    case Cancelled => FailureResult(id, WorkStatus.Failed, "Cancelled because a sibling task failed")
  }

  /** The client: any answer but BLOCKED, which no adapter gives
      (sdk/codex.py:261-273). */
  class Client {
    var requests: seq<Request>

    method Send(request: Request)
      modifies this
      ensures requests == old(requests) + [request]
    {
      requests := requests + [request];
    }

    method Await(siblingFailed: bool) returns (turn: Turn)
      ensures turn.Returned? ==> !turn.result.status.Blocked?
      ensures turn.Cancelled? ==> siblingFailed
    {
      turn := *;
      if (turn.Returned? && turn.result.status.Blocked?) || (turn.Cancelled? && !siblingFailed) {
        turn := Raised("");
      }
    }
  }

  /** The view shows the state in memory and the files of the store. */
  ghost predicate At(v: View, state: RunState, store: RunStore)
    reads state, store`directory, store`disk, store`events, store`saved, store`audit
  {
    v.session.Working? && v.session.work.mem == state.Value() && v.files == store.Files()
  }

  /** Nothing but the state, the limit and the project lease is in play. */
  ghost predicate Idle(v: View, limit: nat, lease: bool) {
    v.session.Working? && v.session.work == Begin(v.session.work.mem, limit).(lease := lease)
  }

  ghost predicate Synced(pf: Platform, v: View) {
    v.session.Working? && v.files.disk == Some(Persisted(pf, v.session.work.mem))
  }

  /** trace leads from v to v', which keeps every invariant. */
  ghost predicate Reached(pf: Platform, trace: seq<Action>, v: View, v': View) {
    Legal(pf, trace, v, v') && SessionOk(pf, v')
  }

  lemma {:induction false} TakeStep(pf: Platform, trace: seq<Action>, v: View, mid: View, a: Action)
    returns (trace': seq<Action>, v': View)
    requires ValidPlatform(pf) && Reached(pf, trace, v, mid) && Enabled(pf, a, mid)
    ensures trace' == trace + [a] && v' == Apply(pf, a, mid) && Reached(pf, trace', v, v') && SessionOk(pf, v')
  {
    trace', v' := trace + [a], Apply(pf, a, mid);
    assert InMemoryWellFormed(mid) by {
      hide SessionOk;
      if mid.session.Working? {
        WorkFacts(pf, mid);
      }
    }
    hide SessionOk, Enabled, Apply, InMemoryWellFormed;
    LegalStep(pf, trace, v, mid, a);
    StepKeeps(pf, a, mid);
  }

  lemma {:induction false} NoSteps(pf: Platform, v: View)
    requires SessionOk(pf, v)
    ensures Reached(pf, [], v, v)
  {
    hide SessionOk;
  }

  lemma {:induction false} JoinSteps(pf: Platform, first: seq<Action>, v: View, mid: View, second: seq<Action>,
                                     v': View)
    requires Reached(pf, first, v, mid) && Reached(pf, second, mid, v')
    ensures Reached(pf, first + second, v, v') && SessionOk(pf, v')
  {
    hide SessionOk;
    LegalJoin(pf, first, v, mid, second, v');
  }

  // ----- which items are pending, blocked, ready -----

  lemma {:induction false} FilterSorted(all: seq<string>, k: nat, ids: seq<string>)
    requires StrictlySorted(all) && k < |all| && StrictlySorted(ids) && forall x | x in ids :: x in all[..k]
    ensures StrictlySorted(ids + [all[k]])
  {
    forall i | 0 <= i < |ids| ensures Less(ids[i], all[k]) {
      assert ids[i] in all[..k];
    }
  }

  /** scheduler.py:228-234. */
  method PendingItems(state: RunState) returns (pending: seq<string>)
    ensures StrictlySorted(pending) && forall id :: id in pending <==> IsPending(state.Value(), id)
  {
    var all := Sorted(state.workItems.Keys);
    pending := [];
    for k := 0 to |all|
      invariant StrictlySorted(pending) && forall id | id in pending :: id in all[..k]
      invariant forall id :: id in pending <==> id in all[..k] && IsPending(state.Value(), id)
    {
      assert all[..k + 1] == all[..k] + [all[k]];
      if all[k] !in state.results || !Terminal(state.results[all[k]].status) {
        assert all[k] in all;
        FilterSorted(all, k, pending);
        pending := pending + [all[k]];
      }
    }
    assert all[..|all|] == all;
  }

  /** scheduler.py:108-117. */
  method NewlyBlockedItems(state: RunState) returns (blocked: seq<string>)
    ensures StrictlySorted(blocked) && forall id :: id in blocked <==> NewlyBlocked(state.Value(), id)
  {
    var all := PendingItems(state);
    blocked := [];
    for k := 0 to |all|
      invariant StrictlySorted(blocked) && forall id | id in blocked :: id in all[..k]
      invariant forall id :: id in blocked <==> id in all[..k] && NewlyBlocked(state.Value(), id)
    {
      assert all[..k + 1] == all[..k] + [all[k]];
      assert all[k] in all;
      if DependencyFailing(state.Value(), all[k]) {
        FilterSorted(all, k, blocked);
        blocked := blocked + [all[k]];
      }
    }
    assert all[..|all|] == all;
  }

  /** scheduler.py:119-133. */
  method Dispatchable(pf: Platform, state: RunState) returns (ready: seq<string>)
    ensures ready == ReadyItems(pf, state.Value())
  {
    var all := PendingItems(state);
    ready := [];
    for k := 0 to |all|
      invariant StrictlySorted(ready) && forall id | id in ready :: id in all[..k]
      invariant forall id :: id in ready <==> id in all[..k] && Ready(pf, state.Value(), id)
    {
      assert all[..k + 1] == all[..k] + [all[k]];
      assert all[k] in all;
      if !DependenciesSucceeded(state.Value(), all[k]) {
        continue;
      }
      var dispatchable := state.RequireDispatchable(pf, all[k]);
      if dispatchable.Err? {
        continue;
      }
      FilterSorted(all, k, ready);
      ready := ready + [all[k]];
    }
    assert all[..|all|] == all;
    SortedUnique(ready, ReadyItems(pf, state.Value()));
  }

  // ----- one result: into memory, onto disk, announced -----

  ghost predicate RecordedBy(first: Action, result: WorkResult, v: View) {
    && v.session.Working?
    && ((first == Block(result.workItemId) && result == BlockedResult(result.workItemId))
        || (first == Record(result.workItemId) && result.workItemId in v.session.work.returned
            && v.session.work.returned[result.workItemId] == result))
  }

  ghost function AfterRecording(w: Work, first: Action, result: WorkResult): Work {
    w.(mem := WithResult(w.mem, result), returned := if first.Record? then w.returned - {result.workItemId} else w.returned)
  }

  lemma {:induction false} FirstStep(pf: Platform, first: Action, result: WorkResult, v: View)
    requires RecordedBy(first, result, v) && Enabled(pf, first, v) && InMemoryWellFormed(v)
    ensures v.session.work.todo.Nothing? && v.session.work.flight == {}
    ensures Apply(pf, first, v) ==
            View(Working(AfterRecording(v.session.work, first, result).(todo := SaveResult(result.workItemId))), v.files)
  {
  }

  lemma {:induction false} SaveStep(pf: Platform, v: View)
    requires v.session.Working? && v.files.disk.Some? && InMemoryWellFormed(v)
    requires v.session.work.flight == {} && !v.session.work.todo.Announce?
    ensures Enabled(pf, SaveState, v)
    ensures Apply(pf, SaveState, v) == View(Working(AfterSave(v.session.work)), FilesAfterSave(pf, v.session.work, v.files))
  {
  }

  lemma {:induction false} AnnounceStep(pf: Platform, v: View)
    requires v.session.Working? && v.files.disk.Some? && InMemoryWellFormed(v)
    requires v.session.work.todo.Announce? && v.session.work.todo.id in v.session.work.mem.results
    ensures Enabled(pf, AnnounceResult, v)
    ensures Apply(pf, AnnounceResult, v) ==
            View(Working(v.session.work.(todo := Nothing)), FilesAfterAnnounce(v.session.work, v.files))
  {
  }

  /** A step that stays in the session of a working process. */
  lemma {:induction false} WorkingView(pf: Platform, v: View)
    requires SessionOk(pf, v) && v.session.Working?
    ensures v.files.disk.Some? && v.files.directory && InMemoryWellFormed(v)
  {
    WorkFacts(pf, v);
    hide WorkOk, WellFormed, DiskOk;
    assert v.files.directory by {
      hide *;
      OnDisk(pf, v.files);
    }
  }

  lemma {:induction false} OnDisk(pf: Platform, f: RunFiles)
    requires FilesOk(pf, f) && f.disk.Some?
    ensures f.directory
  {
    hide GoodSnapshot, Stable, SavedMonotone, PlanMonotone, EventsOnDisk, EventsOnce;
  }

  lemma {:induction false} StartStep(pf: Platform, v: View, ids: seq<string>)
    requires Enabled(pf, Start(ids), v) && InMemoryWellFormed(v)
    ensures forall id | id in ids :: id in v.session.work.mem.workItems && id in v.session.work.mem.routes
    ensures forall id | id in ids :: Ready(pf, v.session.work.mem, id)
    ensures |set id | id in ids| == |ids|
    ensures Apply(pf, Start(ids), v) ==
            View(Working(AfterStart(v.session.work, ids)),
                 v.files.(audit := v.files.audit + Dispatches(v.session.work.mem, ids)))
  {
    BatchReady(pf, v.session.work.mem, v.session.work.limit);
  }

  lemma {:induction false} ReturnStep(pf: Platform, v: View, id: string, r: WorkResult)
    requires v.session.Working? && v.files.disk.Some? && InMemoryWellFormed(v)
    requires id in v.session.work.flight && r.workItemId == id && !r.status.Blocked?
    ensures Enabled(pf, Return(id, r), v)
    ensures Apply(pf, Return(id, r), v) == View(Working(AfterReturn(v.session.work, id, r)), v.files)
  {
  }

  /** The results, recorded one after the other. */
  ghost function WithResults(s: Snapshot, rs: seq<WorkResult>): Snapshot {
    if rs == [] then s else WithResult(WithResults(s, rs[..|rs| - 1]), rs[|rs| - 1])
  }

  function Elements(ids: seq<string>): set<string> {
    set id | id in ids
  }

  function Ids(rs: seq<WorkResult>): seq<string> {
    seq(|rs|, i requires 0 <= i < |rs| => rs[i].workItemId)
  }

  lemma {:induction false} WithResultsAt(s: Snapshot, rs: seq<WorkResult>)
    requires Distinct(Ids(rs))
    ensures WithResults(s, rs) == s.(results := WithResults(s, rs).results)
    ensures forall i | 0 <= i < |rs| ::
              rs[i].workItemId in WithResults(s, rs).results && WithResults(s, rs).results[rs[i].workItemId] == rs[i]
    ensures forall id | id !in Ids(rs) ::
              (id in WithResults(s, rs).results <==> id in s.results)
              && (id in s.results ==> WithResults(s, rs).results[id] == s.results[id])
    decreases |rs|
  {
    if rs != [] {
      var n := |rs| - 1;
      assert Ids(rs[..n]) == Ids(rs)[..n];
      WithResultsAt(s, rs[..n]);
      assert Ids(rs)[n] == rs[n].workItemId;
      forall i | 0 <= i < n ensures rs[i].workItemId != rs[n].workItemId && rs[..n][i] == rs[i] {
        assert Ids(rs)[i] == rs[i].workItemId;
      }
    }
  }

  lemma {:induction false} RecordEnabled(pf: Platform, v: View, id: string)
    requires SessionOk(pf, v) && v.session.Working? && v.session.work.flight == {} && v.session.work.todo.Nothing?
    requires id in v.session.work.returned
    ensures Enabled(pf, Record(id), v)
  {
    WorkingView(pf, v);
  }

  ghost predicate SomeRaised(turns: map<string, Turn>) {
    exists id :: id in turns && turns[id].Raised?
  }

  ghost predicate SomeCancelled(turns: map<string, Turn>) {
    exists id :: id in turns && turns[id].Cancelled?
  }

  ghost predicate FinishedBy(finished: map<string, WorkResult>, turns: map<string, Turn>, trace: seq<Action>) {
    && turns.Keys == finished.Keys
    && forall id | id in finished :: finished[id] == TurnResult(id, turns[id]) && Return(id, finished[id]) in trace
  }

  /** A batch part of whose turns have ended; a turn was cancelled only if one raised. */
  ghost predicate Turning(all: set<string>, waiting: set<string>, finished: map<string, WorkResult>,
                          turns: map<string, Turn>, failed: bool, trace: seq<Action>)
  {
    && waiting + finished.Keys == all && waiting !! finished.Keys
    && FinishedBy(finished, turns, trace)
    && failed == SomeRaised(turns) && (SomeCancelled(turns) ==> failed)
  }

  lemma {:induction false} TurnEnds(all: set<string>, waiting: set<string>, finished: map<string, WorkResult>,
                                    turns: map<string, Turn>, failed: bool, trace: seq<Action>, id: string, turn: Turn)
    requires Turning(all, waiting, finished, turns, failed, trace) && id in waiting && (turn.Cancelled? ==> failed)
    ensures var r := TurnResult(id, turn);
            Turning(all, waiting - {id}, finished[id := r], turns[id := turn], failed || turn.Raised?, trace + [Return(id, r)])
  {
    var turns' := turns[id := turn];
    if turn.Raised? {
      assert turns'[id].Raised?;
    } else if failed {
      var x :| x in turns && turns[x].Raised?;
      assert turns'[x].Raised?;
    }
    if x :| x in turns' && turns'[x].Raised? {
      assert x == id || turns[x].Raised?;
    }
    if x :| x in turns' && turns'[x].Cancelled? {
      assert x == id || turns[x].Cancelled?;
    }
  }

  lemma {:induction false} TurningLonger(all: set<string>, waiting: set<string>, finished: map<string, WorkResult>,
                                         turns: map<string, Turn>, failed: bool, trace: seq<Action>,
                                         before: seq<Action>)
    requires Turning(all, waiting, finished, turns, failed, trace)
    ensures Turning(all, waiting, finished, turns, failed, before + trace)
  {
  }

  lemma {:induction false} AllEnded(all: set<string>, finished: map<string, WorkResult>, turns: map<string, Turn>,
                                    failed: bool, trace: seq<Action>)
    requires Turning(all, {}, finished, turns, failed, trace)
    ensures failed == SomeRaised(turns)
  {
  }

  /** What is left of a batch of results when the first i are recorded. */
  ghost predicate Remaining(results: seq<WorkResult>, i: nat, returned: map<string, WorkResult>) {
    && i <= |results| && returned.Keys == Elements(Ids(results)[i..])
    && forall j | i <= j < |results| :: returned[Ids(results)[j]] == results[j]
  }

  lemma {:induction false} RemainingNext(results: seq<WorkResult>, i: nat, returned: map<string, WorkResult>)
    requires Distinct(Ids(results)) && Remaining(results, i, returned) && i < |results|
    ensures results[i].workItemId in returned && returned[results[i].workItemId] == results[i]
    ensures Remaining(results, i + 1, returned - {results[i].workItemId})
  {
    var ids := Ids(results);
    assert ids[i] == results[i].workItemId && ids[i] in ids[i..];
    assert ids[i..] == [ids[i]] + ids[i + 1..];
    assert ids[i] !in ids[i + 1..];
  }

  /** w is w0 with these turns in flight and these results returned. */
  ghost predicate Flying(w0: Work, w: Work, waiting: set<string>, finished: map<string, WorkResult>) {
    w == w0.(flight := waiting, returned := finished)
  }

  lemma {:induction false} FlyingNext(w0: Work, w: Work, waiting: set<string>, finished: map<string, WorkResult>,
                                      id: string, r: WorkResult)
    requires Flying(w0, w, waiting, finished)
    ensures w.flight == waiting
    ensures Flying(w0, AfterReturn(w, id, r), waiting - {id}, finished[id := r])
  {
  }

  lemma {:induction false} Landed(w0: Work, w: Work, finished: map<string, WorkResult>)
    requires Flying(w0, w, {}, finished)
    ensures w == w0.(flight := {}, returned := finished)
  {
  }

  /** w is w0 after recording the first i results. */
  ghost predicate Recording(w0: Work, w: Work, results: seq<WorkResult>, i: nat) {
    && i <= |results| && Remaining(results, i, w.returned)
    && w == w0.(mem := WithResults(w0.mem, results[..i]), returned := w.returned)
  }

  lemma {:induction false} RecordingNext(w0: Work, w: Work, results: seq<WorkResult>, i: nat)
    requires Recording(w0, w, results, i) && i < |results| && Distinct(Ids(results))
    ensures results[i].workItemId in w.returned && w.returned[results[i].workItemId] == results[i]
    ensures w.flight == w0.flight && w.todo == w0.todo && w.adopting == w0.adopting
    ensures Recording(w0, AfterRecording(w, Record(results[i].workItemId), results[i]), results, i + 1)
  {
    RemainingNext(results, i, w.returned);
    assert results[..i + 1][..i] == results[..i];
  }

  lemma {:induction false} RecordingBegins(w0: Work, results: seq<WorkResult>)
    requires Remaining(results, 0, w0.returned)
    ensures Recording(w0, w0, results, 0)
  {
    assert results[..0] == [];
  }

  lemma {:induction false} RecordingEnds(w0: Work, w: Work, results: seq<WorkResult>)
    requires Recording(w0, w, results, |results|)
    ensures w == w0.(mem := WithResults(w0.mem, results), returned := map[])
  {
    assert results[..|results|] == results;
    assert w.returned == map[];
  }

  ghost predicate NoReturns(trace: seq<Action>) {
    forall a | a in trace :: !a.Return?
  }

  lemma {:induction false} NoReturnsJoin(first: seq<Action>, second: seq<Action>)
    requires NoReturns(first) && NoReturns(second)
    ensures NoReturns(first + second)
  {
  }

  /** scheduler.py:176: the results in the order of the items. */
  function BatchResults(ids: seq<string>, finished: map<string, WorkResult>, ghost turns: map<string, Turn>,
                        ghost failed: bool, ghost trace: seq<Action>): (results: seq<WorkResult>)
    requires Turning(Elements(ids), {}, finished, turns, failed, trace)
    ensures Ids(results) == ids && Remaining(results, 0, finished)
    ensures failed == SomeRaised(turns)
  {
    assert forall i | 0 <= i < |ids| :: ids[i] in Elements(ids);
    var results := seq(|ids|, i requires 0 <= i < |ids| => finished[ids[i]]);
    assert Ids(results) == ids && Ids(results)[0..] == ids;
    results
  }

  // ----- what a call of run_ready does to the snapshot -----

  ghost predicate TurnsTerminal(trace: seq<Action>) {
    forall a | a in trace && a.Return? :: Terminal(a.result.status)
  }

  lemma {:induction false} TerminalJoin(first: seq<Action>, second: seq<Action>)
    ensures TurnsTerminal(first + second) <==> TurnsTerminal(first) && TurnsTerminal(second)
    ensures NoReturns(second) ==> TurnsTerminal(second)
  {
    if TurnsTerminal(first + second) {
      assert forall a | a in first :: a in first + second;
      assert forall a | a in second :: a in first + second;
    }
  }

  lemma {:induction false} AdvancedTransitive(s: Snapshot, mid: Snapshot, s': Snapshot)
    requires Advanced(s, mid) && Advanced(mid, s')
    ensures Advanced(s, s')
  {
    assert forall id | IsResolved(s, id) :: IsResolved(mid, id);
  }

  /** Progress is monotone: blocked stays blocked, and no item becomes pending. */
  lemma {:induction false} AdvancedKeeps(s: Snapshot, s': Snapshot)
    requires Advanced(s, s')
    ensures Unfinished(s') <= Unfinished(s) && |Unfinished(s')| <= |Unfinished(s)|
    ensures forall id | IsBlocked(s, id) :: IsBlocked(s', id)
  {
    assert forall id | IsBlocked(s, id) :: IsResolved(s, id);
    SubsetSize(Unfinished(s'), Unfinished(s));
  }

  lemma {:induction false} OneLessPending(s: Snapshot, s': Snapshot, id: string)
    requires Advanced(s, s') && IsPending(s, id) && !IsPending(s', id)
    ensures |Unfinished(s')| < |Unfinished(s)|
  {
    AdvancedKeeps(s, s');
    assert id in Unfinished(s) && id !in Unfinished(s');
    SubsetSize(Unfinished(s'), Unfinished(s));
  }

  lemma {:induction false} RecordedAdvanced(s: Snapshot, rs: seq<WorkResult>)
    requires Distinct(Ids(rs)) && forall id | id in Ids(rs) :: IsPending(s, id)
    ensures Advanced(s, WithResults(s, rs))
    ensures forall i | 0 <= i < |rs| && Terminal(rs[i].status) :: !IsPending(WithResults(s, rs), Ids(rs)[i])
  {
    WithResultsAt(s, rs);
  }

  lemma {:induction false} ReadyStatus(pf: Platform, s: Snapshot, s': Snapshot, id: string)
    requires s' == s.(status := s'.status)
    ensures Ready(pf, s, id) <==> Ready(pf, s', id)
  {
  }

  lemma {:induction false} WritersStatus(s: Snapshot, s': Snapshot, ids: seq<string>)
    requires s' == s.(status := s'.status) && forall id | id in ids :: id in s.workItems
    ensures Writers(s, ids) == Writers(s', ids)
    decreases |ids|
  {
    if ids != [] {
      assert forall id | id in ids[1..] :: id in ids;
      WritersStatus(s, s', ids[1..]);
    }
  }

  /** The next batch does not depend on the status of the run. */
  lemma {:induction false} BatchStatus(pf: Platform, s: Snapshot, s': Snapshot, limit: nat)
    requires s' == s.(status := s'.status)
    ensures ReadyItems(pf, s) == ReadyItems(pf, s') && NextBatch(pf, s, limit) == NextBatch(pf, s', limit)
    ensures WritersReady(pf, s) <==> WritersReady(pf, s')
  {
    forall id ensures Ready(pf, s, id) <==> Ready(pf, s', id) {
      ReadyStatus(pf, s, s', id);
    }
    hide Ready;
    SortedUnique(ReadyItems(pf, s), ReadyItems(pf, s'));
    assert forall id | id in ReadyItems(pf, s) :: Ready(pf, s, id);
    ReadyAreItems(pf, s);
    WritersStatus(s, s', ReadyItems(pf, s));
  }

  lemma {:induction false} ReadyAreItems(pf: Platform, s: Snapshot)
    ensures forall id | id in ReadyItems(pf, s) :: id in s.workItems
  {
    assert forall id | id in ReadyItems(pf, s) :: Ready(pf, s, id);
  }

  /** What the scheduler computes from the ready items is the next batch. */
  lemma {:induction false} BatchChosen(pf: Platform, s: Snapshot, limit: nat)
    requires 1 <= limit
    ensures forall id | id in ReadyItems(pf, s) :: id in s.workItems
    ensures var ready := ReadyItems(pf, s);
            var writers := Writers(s, ready);
            && (writers != [] <==> WritersReady(pf, s))
            && (writers != [] ==> NextBatch(pf, s, limit) == [writers[0]])
            && (writers == [] ==> NextBatch(pf, s, limit) == if |ready| <= limit then ready else ready[..limit])
            && (ready != [] ==> NextBatch(pf, s, limit) != [] && NextBatch(pf, s, limit)[0] in ready)
  {
    ReadyAreItems(pf, s);
    var ready := ReadyItems(pf, s);
    var writers := Writers(s, ready);
    if writers != [] {
      assert writers[0] in writers;
      assert Ready(pf, s, writers[0]);
    }
    if WritersReady(pf, s) {
      var id :| id in s.workItems && Ready(pf, s, id) && s.workItems[id].access.WorkspaceWrite?;
      assert id in ready && id in writers;
    }
  }

  // ----- the passes of run_ready, on snapshots -----

  /** The first i of the items to block are blocked. */
  ghost predicate Blocking(s0: Snapshot, s: Snapshot, blocked: seq<string>, i: nat) {
    && i <= |blocked| && Advanced(s0, s) && s.status == s0.status
    && (forall j | 0 <= j < i :: IsBlocked(s, blocked[j]))
    && (forall j | i <= j < |blocked| :: NewlyBlocked(s, blocked[j]))
  }

  lemma {:induction false} BlockingNext(s0: Snapshot, s: Snapshot, blocked: seq<string>, i: nat)
    requires Blocking(s0, s, blocked, i) && i < |blocked| && StrictlySorted(blocked)
    ensures Blocking(s0, WithResult(s, BlockedResult(blocked[i])), blocked, i + 1)
  {
    var s' := WithResult(s, BlockedResult(blocked[i]));
    AdvancedTransitive(s0, s, s');
    forall j | i + 1 <= j < |blocked| ensures NewlyBlocked(s', blocked[j]) {
      assert Less(blocked[i], blocked[j]) && NewlyBlocked(s, blocked[j]);
      var d :| d in s.workItems[blocked[j]].dependencies && IsFailing(s, d);
      assert IsFailing(s', d);
    }
  }

  ghost predicate AllBlocked(s: Snapshot, s': Snapshot) {
    forall id | NewlyBlocked(s, id) :: IsBlocked(s', id)
  }

  lemma {:induction false} BlockingEnds(s0: Snapshot, s: Snapshot, blocked: seq<string>)
    requires Blocking(s0, s, blocked, |blocked|) && forall id :: id in blocked <==> NewlyBlocked(s0, id)
    ensures Advanced(s0, s) && AllBlocked(s0, s)
  {
  }

  lemma {:induction false} BlockingHere(s0: Snapshot, s: Snapshot, blocked: seq<string>, i: nat)
    requires Blocking(s0, s, blocked, i) && i < |blocked|
    ensures NewlyBlocked(s, blocked[i])
  {
  }

  lemma {:induction false} BlockingBegins(s: Snapshot, blocked: seq<string>)
    requires forall id :: id in blocked <==> NewlyBlocked(s, id)
    ensures Blocking(s, s, blocked, 0)
  {
  }

  lemma {:induction false} BlockRecorded(v: View, v': View, limit: nat, id: string)
    requires Idle(v, limit, false) && v'.session.Working?
    requires v'.session.work == AfterRecording(v.session.work, Block(id), BlockedResult(id))
    ensures Idle(v', limit, false) && v'.session.work.mem == WithResult(v.session.work.mem, BlockedResult(id))
  {
  }

  lemma {:induction false} BlockEnabled(pf: Platform, v: View, limit: nat, id: string)
    requires SessionOk(pf, v) && Idle(v, limit, false) && NewlyBlocked(v.session.work.mem, id)
    ensures Enabled(pf, Block(id), v) && !v.session.work.adopting
  {
    WorkingView(pf, v);
  }

  lemma {:induction false} StatusStep(pf: Platform, v: View, limit: nat, lease: bool, status: RunStatus)
    requires SessionOk(pf, v) && Idle(v, limit, lease)
    ensures Enabled(pf, SetStatus(status), v)
    ensures Apply(pf, SetStatus(status), v) ==
            View(Working(v.session.work.(mem := v.session.work.mem.(status := status))), v.files)
    ensures Idle(Apply(pf, SetStatus(status), v), limit, lease)
  {
    WorkingView(pf, v);
  }

  lemma {:induction false} IdleSave(pf: Platform, v: View, limit: nat, lease: bool)
    requires SessionOk(pf, v) && Idle(v, limit, lease)
    ensures Enabled(pf, SaveState, v)
    ensures Apply(pf, SaveState, v) == View(v.session, Write(pf, v.files, v.session.work.mem))
  {
    WorkingView(pf, v);
    SaveStep(pf, v);
  }

  lemma {:induction false} LeaseStep(pf: Platform, v: View, limit: nat)
    requires SessionOk(pf, v) && Idle(v, limit, false)
    ensures Enabled(pf, LeaseProject, v)
    ensures Apply(pf, LeaseProject, v) == View(Working(v.session.work.(lease := true)), v.files)
    ensures Idle(Apply(pf, LeaseProject, v), limit, true)
  {
    WorkingView(pf, v);
  }

  /** No turn is in flight and no result waits to be recorded. */
  ghost predicate TurnsOver(v: View) {
    v.session.Working? && v.session.work.lease && v.session.work.flight == {} && v.session.work.returned == map[]
  }

  lemma {:induction false} ReleaseStep(pf: Platform, v: View)
    requires SessionOk(pf, v) && TurnsOver(v)
    ensures Enabled(pf, ReleaseProject, v)
    ensures Apply(pf, ReleaseProject, v) == View(Working(v.session.work.(lease := false)), v.files)
  {
    WorkingView(pf, v);
  }

  lemma {:induction false} StartEnabled(pf: Platform, v: View, limit: nat, lease: bool)
    requires SessionOk(pf, v) && Idle(v, limit, lease) && v.session.work.mem.status.Running?
    requires lease == WritersReady(pf, v.session.work.mem) && NextBatch(pf, v.session.work.mem, limit) != []
    ensures Enabled(pf, Start(NextBatch(pf, v.session.work.mem, limit)), v)
  {
    WorkingView(pf, v);
  }

  lemma {:induction false} TurnsRecorded(s: Snapshot, s': Snapshot, rs: seq<WorkResult>)
    requires s' == s.(status := s'.status)
    requires Distinct(Ids(rs)) && forall id | id in Ids(rs) :: IsPending(s, id)
    ensures Advanced(s, WithResults(s', rs))
    ensures rs != [] && Terminal(rs[0].status) ==> |Unfinished(WithResults(s', rs))| < |Unfinished(s)|
  {
    assert Advanced(s, s');
    forall id | id in Ids(rs) ensures IsPending(s', id) {
      assert IsPending(s, id);
    }
    RecordedAdvanced(s', rs);
    AdvancedTransitive(s, s', WithResults(s', rs));
    if rs != [] && Terminal(rs[0].status) {
      assert Ids(rs)[0] in Ids(rs);
      OneLessPending(s, WithResults(s', rs), Ids(rs)[0]);
    }
  }

  lemma {:induction false} WriterRecorded(s: Snapshot, s': Snapshot, r: WorkResult)
    requires s' == s.(status := s'.status) && IsPending(s, r.workItemId)
    ensures Advanced(s, WithResult(s', r))
    ensures Terminal(r.status) ==> |Unfinished(WithResult(s', r))| < |Unfinished(s)|
  {
    assert Ids([r]) == [r.workItemId];
    TurnsRecorded(s, s', [r]);
    assert WithResults(s', [r]) == WithResult(s', r) by {
      assert [r][..0] == [];
    }
  }

  /** The ready items are items of the run. */
  ghost predicate AllItems(s: Snapshot, ready: seq<string>) {
    forall id | id in ready :: id in s.workItems
  }

  ghost predicate NextWriter(pf: Platform, s: Snapshot, id: string) {
    var ready := ReadyItems(pf, s);
    AllItems(s, ready) && Writers(s, ready) != [] && id == Writers(s, ready)[0]
  }

  lemma {:induction false} WriterChosen(pf: Platform, s: Snapshot, s': Snapshot, limit: nat, id: string)
    requires 1 <= limit && s' == s.(status := s'.status)
    requires NextWriter(pf, s, id)
    ensures NextBatch(pf, s', limit) == [id] && WritersReady(pf, s') && Authorized(pf, s, id) && IsPending(s, id)
  {
    BatchChosen(pf, s, limit);
    BatchStatus(pf, s, s', limit);
    assert id in Writers(s, ReadyItems(pf, s)) && id in ReadyItems(pf, s);
    assert Ready(pf, s, id);
  }

  lemma {:induction false} AuthorizedStatus(pf: Platform, s: Snapshot, s': Snapshot, id: string)
    requires s' == s.(status := s'.status) && Authorized(pf, s, id)
    ensures Authorized(pf, s', id)
  {
  }

  lemma {:induction false} ReturnTerminal(trace: seq<Action>, id: string, r: WorkResult)
    requires Return(id, r) in trace
    ensures TurnsTerminal(trace) ==> Terminal(r.status)
  {
  }

  lemma {:induction false} ReadersChosen(pf: Platform, s: Snapshot, s': Snapshot, limit: nat)
    requires 1 <= limit && s' == s.(status := s'.status) && ReadyItems(pf, s) != []
    requires AllItems(s, ReadyItems(pf, s)) && Writers(s, ReadyItems(pf, s)) == []
    ensures var ready := ReadyItems(pf, s);
            var batch := if |ready| <= limit then ready else ready[..limit];
            && NextBatch(pf, s', limit) == batch && batch != [] && !WritersReady(pf, s') && Distinct(batch)
            && forall id | id in batch :: IsPending(s, id)
  {
    BatchChosen(pf, s, limit);
    BatchStatus(pf, s, s', limit);
    var ready := ReadyItems(pf, s);
    assert forall id | id in ready :: Ready(pf, s, id);
    forall i, j | 0 <= i < j < |ready| ensures ready[i] != ready[j] {
      assert Less(ready[i], ready[j]);
    }
    var batch := if |ready| <= limit then ready else ready[..limit];
    assert Distinct(batch);
    assert forall id | id in batch :: id in ready;
  }

  lemma {:induction false} BatchTerminal(ids: seq<string>, finished: map<string, WorkResult>, turns: map<string, Turn>,
                                         failed: bool, trace: seq<Action>, results: seq<WorkResult>)
    requires Turning(Elements(ids), {}, finished, turns, failed, trace)
    requires Ids(results) == ids && Remaining(results, 0, finished) && results != []
    ensures TurnsTerminal(trace) ==> Terminal(results[0].status)
  {
    assert ids[0] == results[0].workItemId && ids[0] in Elements(ids) && ids[0] in finished;
    assert finished[Ids(results)[0]] == results[0];
    assert Return(ids[0], results[0]) in trace;
  }

  lemma {:induction false} NextWriterIs(pf: Platform, s: Snapshot, ready: seq<string>)
    requires ready == ReadyItems(pf, s) && AllItems(s, ready) && Writers(s, ready) != []
    ensures NextWriter(pf, s, Writers(s, ready)[0])
  {
  }

  // ----- the loop of run_ready -----

  /** After k of n rounds.  If every turn was terminal, each round left one item
      less without a terminal result. */
  ghost predicate Looping(s0: Snapshot, s: Snapshot, k: nat, n: nat, trace: seq<Action>) {
    && Advanced(s0, s) && (k == 0 ==> s == s0) && (k > 0 ==> AllBlocked(s0, s))
    && (TurnsTerminal(trace) ==> |Unfinished(s)| + k <= n)
  }

  /** What one round does: it blocks what must be blocked, and then either nothing
      is ready or turns are run. */
  ghost predicate RoundResult(pf: Platform, s: Snapshot, s': Snapshot, idle: bool, trace: seq<Action>) {
    && Advanced(s, s') && AllBlocked(s, s')
    && (idle ==> NothingReady(pf, s'))
    && (!idle && TurnsTerminal(trace) ==> |Unfinished(s')| < |Unfinished(s)|)
  }

  ghost predicate Settled(pf: Platform, s0: Snapshot, s: Snapshot, trace: seq<Action>) {
    Advanced(s0, s) && AllBlocked(s0, s) && (TurnsTerminal(trace) ==> NothingReady(pf, s))
  }

  lemma {:induction false} LoopBegins(s: Snapshot)
    ensures Looping(s, s, 0, |s.workItems|, [])
  {
    assert |s.workItems.Keys| == |s.workItems|;
    SubsetSize(Unfinished(s), s.workItems.Keys);
  }

  lemma {:induction false} RoundIdle(pf: Platform, s: Snapshot, s': Snapshot, trace: seq<Action>)
    requires Advanced(s, s') && AllBlocked(s, s') && ReadyItems(pf, s') == []
    ensures RoundResult(pf, s, s', true, trace)
  {
    forall id ensures !Ready(pf, s', id) {
      assert id in ReadyItems(pf, s') <==> Ready(pf, s', id);
    }
  }

  lemma {:induction false} RoundTurns(pf: Platform, s: Snapshot, mid: Snapshot, s': Snapshot, first: seq<Action>,
                                      second: seq<Action>)
    requires Advanced(s, mid) && AllBlocked(s, mid) && Advanced(mid, s')
    requires TurnsTerminal(second) ==> |Unfinished(s')| < |Unfinished(mid)|
    ensures RoundResult(pf, s, s', false, first + second)
  {
    AdvancedTransitive(s, mid, s');
    AdvancedKeeps(s, mid);
    AdvancedKeeps(mid, s');
    TerminalJoin(first, second);
  }

  lemma {:induction false} LoopRound(pf: Platform, s0: Snapshot, s: Snapshot, s': Snapshot, k: nat, n: nat,
                                     trace: seq<Action>, more: seq<Action>)
    requires Looping(s0, s, k, n, trace)
    requires RoundResult(pf, s, s', true, more) || RoundResult(pf, s, s', false, more)
    ensures RoundResult(pf, s, s', true, more) ==> Settled(pf, s0, s', trace + more)
    ensures RoundResult(pf, s, s', false, more) ==> Looping(s0, s', k + 1, n, trace + more)
  {
    AdvancedTransitive(s0, s, s');
    AdvancedKeeps(s, s');
    TerminalJoin(trace, more);
    forall id | NewlyBlocked(s0, id) ensures IsBlocked(s', id) {
      if k > 0 {
        assert IsBlocked(s, id);
      }
    }
  }

  /** As many rounds as there are items are always enough. */
  lemma {:induction false} LoopEnds(pf: Platform, s0: Snapshot, s: Snapshot, trace: seq<Action>)
    requires Looping(s0, s, |s0.workItems|, |s0.workItems|, trace)
    ensures Settled(pf, s0, s, trace)
  {
    if TurnsTerminal(trace) {
      assert Unfinished(s) == {};
      forall id ensures !Ready(pf, s, id) {
        assert id !in Unfinished(s);
      }
    }
    if |s0.workItems| == 0 {
      assert |s0.workItems.Keys| == 0 && s0.workItems.Keys == {};
      assert forall id :: id in s0.workItems <==> id in s0.workItems.Keys;
    }
  }

  lemma {:induction false} StatusSettles(pf: Platform, s0: Snapshot, s: Snapshot, trace: seq<Action>)
    requires Settled(pf, s0, s, trace)
    ensures PassResult(pf, s0, s.(status := FinalStatus(s)), TurnsTerminal(trace))
  {
    var s' := s.(status := FinalStatus(s));
    assert FinalStatus(s') == FinalStatus(s);
    if TurnsTerminal(trace) {
      forall id ensures !Ready(pf, s', id) {
        ReadyStatus(pf, s, s', id);
      }
    }
    hide Ready, FinalStatus;
    AllBlockedStatus(s0, s, s');
    assert DependencyGraph(s0) == DependencyGraph(s');
  }

  lemma {:induction false} AllBlockedStatus(s0: Snapshot, s: Snapshot, s': Snapshot)
    requires AllBlocked(s0, s) && s' == s.(status := s'.status)
    ensures AllBlocked(s0, s')
  {
    forall id | NewlyBlocked(s0, id) ensures IsBlocked(s', id) {
      assert IsBlocked(s, id);
    }
  }

  lemma {:induction false} NothingFails(pf: Platform, trace: seq<Action>, v: View, v': View, limit: nat)
    requires Reached(pf, trace, v, v') && Idle(v, limit, false) && v'.session.Working?
    ensures TurnsSucceeded(trace) && NoFailing(v.session.work.mem) ==> NoFailing(v'.session.work.mem)
  {
    hide SessionOk, Legal;
    if TurnsSucceeded(trace) && NoFailing(v.session.work.mem) {
      assert NothingFailed(v);
      LegalNeverFails(pf, trace, v, v');
    }
  }

  class WorkScheduler {
    const pf: Platform
    const store: RunStore
    const client: Client
    const limit: nat

    constructor (pf: Platform, store: RunStore, client: Client, limit: nat)
      requires store.pf == pf && 1 <= limit
      ensures this.pf == pf && this.store == store && this.client == client && this.limit == limit
      ensures Ready()
    {
      this.pf, this.store, this.client, this.limit := pf, store, client, limit;
    }

    ghost predicate Ready() {
      store.pf == pf && 1 <= limit
    }

    /** scheduler.py:196-207. */
    method PersistResult(state: RunState, result: WorkResult, ghost first: Action, ghost v: View)
      returns (outcome: Outcome, ghost trace: seq<Action>, ghost v': View)
      requires Ready() && ValidPlatform(pf)
      requires SessionOk(pf, v) && At(v, state, store) && !v.session.work.adopting
      requires RecordedBy(first, result, v) && Enabled(pf, first, v)
      modifies state`results, store`disk, store`events, store`saved, store`audit, store`troubles
      ensures Accounted(outcome, old(store.troubles), store.troubles)
      ensures outcome.Ok? ==> store.troubles == old(store.troubles)
      ensures Reached(pf, trace, v, v') && At(v', state, store)
      ensures state.Value() == WithResult(old(state.Value()), result)
      ensures v'.session.work == AfterRecording(v.session.work, first, result).(todo := v'.session.work.todo)
      ensures outcome.Ok? ==> v'.session.work == AfterRecording(v.session.work, first, result) && Synced(pf, v')
      ensures outcome.Ok? ==> trace == [first, SaveState, AnnounceResult]
      ensures NoReturns(trace)
      ensures outcome.Err? ==> outcome.error.StateFailure?
    {
      hide SessionOk, Enabled, Apply, InMemoryWellFormed, Reached, ValidPlatform, Persisted, FilesOk;
      state.results := state.results[result.workItemId := result];
      WorkingView(pf, v);
      FirstStep(pf, first, result, v);
      NoSteps(pf, v);
      trace, v' := TakeStep(pf, [], v, v, first);
      outcome := store.Save(state, false);
      if outcome.Err? {
        return;
      }
      WorkingView(pf, v');
      SaveStep(pf, v');
      trace, v' := TakeStep(pf, trace, v, v', SaveState);
      WorkingView(pf, v');
      AnnounceStep(pf, v');
      outcome := store.AppendEvent(Finished(result.workItemId, result.status));
      if store.events != v'.files.events {
        trace, v' := TakeStep(pf, trace, v, v', AnnounceResult);
      }
    }

    /** scheduler.py:135-143, for the one writer. */
    method RunOne(state: RunState, id: string, ghost v: View)
      returns (result: WorkResult, ghost trace: seq<Action>, ghost v': View)
      requires Ready() && ValidPlatform(pf)
      requires SessionOk(pf, v) && At(v, state, store) && Enabled(pf, Start([id]), v)
      modifies client, store`audit
      ensures Reached(pf, trace, v, v') && SessionOk(pf, v') && At(v', state, store)
      ensures v'.session.work == v.session.work.(returned := map[id := result])
      ensures result.workItemId == id && trace == [Start([id]), Return(id, result)]
      ensures id in state.workItems && id in state.routes
      ensures client.requests == old(client.requests) + [RequestFor(state.Value(), id)]
    {
      hide SessionOk, Apply, InMemoryWellFormed, Reached, ValidPlatform, FilesOk, NextBatch;
      assert Quiet(v.session.work) && id in [id];
      hide Enabled;
      WorkingView(pf, v);
      StartStep(pf, v, [id]);
      NoSteps(pf, v);
      trace, v' := TakeStep(pf, [], v, v, Start([id]));
      store.audit := v'.files.audit;
      client.Send(RequestFor(state.Value(), id));
      var turn := client.Await(false);
      result := TurnResult(id, turn);
      WorkingView(pf, v');
      ReturnStep(pf, v', id, result);
      trace, v' := TakeStep(pf, trace, v, v', Return(id, result));
      assert v'.session.work.flight == {};
    }

    lemma {:induction false} TakeReturn(trace: seq<Action>, v: View, mid: View, id: string, r: WorkResult,
                                        state: RunState)
      returns (trace': seq<Action>, v': View)
      requires ValidPlatform(pf) && Reached(pf, trace, v, mid) && SessionOk(pf, mid) && At(mid, state, store)
      requires id in mid.session.work.flight && r.workItemId == id && !r.status.Blocked?
      ensures v'.session.Working?
      ensures trace' == trace + [Return(id, r)] && Reached(pf, trace', v, v') && SessionOk(pf, v')
      ensures At(v', state, store)
      ensures v'.session.work == AfterReturn(mid.session.work, id, r)
    {
      hide SessionOk, Enabled, Apply, InMemoryWellFormed, Reached, ValidPlatform;
      WorkingView(pf, mid);
      ReturnStep(pf, mid, id, r);
      trace', v' := TakeStep(pf, trace, v, mid, Return(id, r));
    }

    /** scheduler.py:145-176: the turns of the batch end in any order; once one has
        raised an error the client may cancel the others. */
    method RunReadBatch(state: RunState, ids: seq<string>, ghost v: View)
      returns (results: seq<WorkResult>, ghost turns: map<string, Turn>, ghost trace: seq<Action>, ghost v': View)
      requires Ready() && ValidPlatform(pf)
      requires SessionOk(pf, v) && At(v, state, store) && Enabled(pf, Start(ids), v)
      modifies client, store`audit
      ensures Reached(pf, trace, v, v') && SessionOk(pf, v') && At(v', state, store)
      ensures Ids(results) == ids && Remaining(results, 0, v'.session.work.returned)
      ensures v'.session.work == v.session.work.(returned := v'.session.work.returned)
      ensures Turning(Elements(ids), {}, v'.session.work.returned, turns, SomeRaised(turns), trace)
    {
      hide SessionOk, Apply, InMemoryWellFormed, Reached, ValidPlatform, FilesOk, NextBatch;
      assert Quiet(v.session.work);
      hide Enabled;
      WorkingView(pf, v);
      StartStep(pf, v, ids);
      NoSteps(pf, v);
      trace, v' := TakeStep(pf, [], v, v, Start(ids));
      store.audit := v'.files.audit;
      for i := 0 to |ids|
        modifies client
      {
        assert ids[i] in ids;
        client.Send(RequestFor(state.Value(), ids[i]));
      }
      ghost var more, mid := [], v';
      var finished;
      finished, turns, more, v' := AwaitTurns(state, ids, v');
      JoinSteps(pf, trace, v, mid, more, v');
      TurningLonger(Elements(ids), {}, finished, turns, SomeRaised(turns), more, trace);
      trace := trace + more;
      results := BatchResults(ids, finished, turns, SomeRaised(turns), trace);
    }

    method AwaitTurns(state: RunState, ids: seq<string>, ghost v: View)
      returns (finished: map<string, WorkResult>, ghost turns: map<string, Turn>, ghost trace: seq<Action>, ghost v': View)
      requires Ready() && ValidPlatform(pf)
      requires SessionOk(pf, v) && At(v, state, store)
      requires v.session.work.flight == Elements(ids) && v.session.work.returned == map[]
      ensures Reached(pf, trace, v, v') && SessionOk(pf, v') && At(v', state, store)
      ensures v'.session.work == v.session.work.(flight := {}, returned := finished)
      ensures Turning(Elements(ids), {}, finished, turns, SomeRaised(turns), trace)
    {
      hide SessionOk, Enabled, Apply, InMemoryWellFormed, Reached, ValidPlatform;
      NoSteps(pf, v);
      trace, v' := [], v;
      var waiting := Elements(ids);
      var failed := false;
      finished, turns := map[], map[];
      assert Turning(Elements(ids), waiting, finished, turns, failed, trace);
      assert Flying(v.session.work, v'.session.work, waiting, finished);
      hide Turning, At, SomeRaised, Flying, AfterReturn;
      while waiting != {}
        invariant Reached(pf, trace, v, v') && SessionOk(pf, v') && At(v', state, store)
        invariant v'.session.Working? && Flying(v.session.work, v'.session.work, waiting, finished)
        invariant Turning(Elements(ids), waiting, finished, turns, failed, trace)
      {
        var id :| id in waiting;
        var turn := client.Await(failed);
        var result := TurnResult(id, turn);
        FlyingNext(v.session.work, v'.session.work, waiting, finished, id, result);
        TurnEnds(Elements(ids), waiting, finished, turns, failed, trace, id, turn);
        trace, v' := TakeReturn(trace, v, v', id, result, state);
        waiting, finished := waiting - {id}, finished[id := result];
        failed := failed || turn.Raised?;
        turns := turns[id := turn];
      }
      Landed(v.session.work, v'.session.work, finished);
      AllEnded(Elements(ids), finished, turns, failed, trace);
    }

    /** The loops over results that persist each one (scheduler.py:99-100). */
    method PersistBatch(state: RunState, results: seq<WorkResult>, ghost v: View)
      returns (outcome: Outcome, ghost trace: seq<Action>, ghost v': View)
      requires Ready() && ValidPlatform(pf)
      requires SessionOk(pf, v) && At(v, state, store) && !v.session.work.adopting
      requires v.session.work.flight == {} && v.session.work.todo.Nothing?
      requires Distinct(Ids(results)) && Remaining(results, 0, v.session.work.returned)
      modifies state`results, store`disk, store`events, store`saved, store`audit, store`troubles
      ensures Accounted(outcome, old(store.troubles), store.troubles)
      ensures outcome.Ok? ==> store.troubles == old(store.troubles)
      ensures Reached(pf, trace, v, v') && SessionOk(pf, v') && At(v', state, store)
      ensures outcome.Ok? ==>
                v'.session.work == v.session.work.(mem := WithResults(v.session.work.mem, results), returned := map[])
      ensures outcome.Ok? && results != [] ==> Synced(pf, v')
      ensures NoReturns(trace)
      ensures outcome.Err? ==> outcome.error.StateFailure?
    {
      assert v.session.Working? && NoReturns([]);
      hide SessionOk, Enabled, Apply, InMemoryWellFormed, Reached, ValidPlatform, At, Synced, Recording,
        AfterRecording, NoReturns, Accounted;
      NoSteps(pf, v);
      Untroubled(Ok(Unit), store.troubles);
      RecordingBegins(v.session.work, results);
      trace, v', outcome := [], v, Ok(Unit);
      for i := 0 to |results|
        invariant Reached(pf, trace, v, v') && SessionOk(pf, v') && At(v', state, store) && v'.session.Working?
        invariant Recording(v.session.work, v'.session.work, results, i)
        invariant outcome.Ok? && (i > 0 ==> Synced(pf, v')) && NoReturns(trace) && store.troubles == old(store.troubles)
        invariant Accounted(outcome, old(store.troubles), store.troubles)
      {
        ghost var more, mid := [], v';
        RecordingNext(v.session.work, v'.session.work, results, i);
        RecordEnabled(pf, v', results[i].workItemId);
        outcome, more, v' := PersistResult(state, results[i], Record(results[i].workItemId), v');
        JoinSteps(pf, trace, v, mid, more, v');
        NoReturnsJoin(trace, more);
        trace := trace + more;
        if outcome.Err? {
          return;
        }
      }
      RecordingEnds(v.session.work, v'.session.work, results);
    }

    /** scheduler.py:67-76. */
    method PersistBlocked(state: RunState, ghost v: View)
      returns (outcome: Outcome, ghost trace: seq<Action>, ghost v': View)
      requires Ready() && ValidPlatform(pf)
      requires SessionOk(pf, v) && At(v, state, store) && Idle(v, limit, false)
      modifies state`results, store`disk, store`events, store`saved, store`audit, store`troubles
      ensures Accounted(outcome, old(store.troubles), store.troubles)
      ensures outcome.Ok? ==> store.troubles == old(store.troubles)
      ensures Reached(pf, trace, v, v') && SessionOk(pf, v') && At(v', state, store) && NoReturns(trace)
      ensures outcome.Ok? ==> v'.session.Working? && Idle(v', limit, false) && (Synced(pf, v) ==> Synced(pf, v'))
      ensures outcome.Ok? ==> Advanced(v.session.work.mem, v'.session.work.mem)
      ensures outcome.Ok? ==> AllBlocked(v.session.work.mem, v'.session.work.mem)
      ensures outcome.Err? ==> outcome.error.StateFailure?
    {
      hide SessionOk, Enabled, Apply, InMemoryWellFormed, Reached, ValidPlatform, Synced, AfterRecording, Blocking,
        NewlyBlocked, Advanced, AllBlocked, Accounted;
      Untroubled(Ok(Unit), store.troubles);
      var blocked := NewlyBlockedItems(state);
      assert v.session.Working? && v.session.work.mem == state.Value() && NoReturns([]);
      hide At, Idle, NoReturns;
      NoSteps(pf, v);
      BlockingBegins(v.session.work.mem, blocked);
      trace, v', outcome := [], v, Ok(Unit);
      for i := 0 to |blocked|
        invariant Reached(pf, trace, v, v') && SessionOk(pf, v') && At(v', state, store)
        invariant v'.session.Working? && Idle(v', limit, false)
        invariant Blocking(v.session.work.mem, v'.session.work.mem, blocked, i)
        invariant outcome.Ok? && (Synced(pf, v) ==> Synced(pf, v')) && NoReturns(trace)
        invariant store.troubles == old(store.troubles)
        invariant Accounted(outcome, old(store.troubles), store.troubles)
      {
        ghost var more, mid := [], v';
        BlockingHere(v.session.work.mem, v'.session.work.mem, blocked, i);
        BlockingNext(v.session.work.mem, v'.session.work.mem, blocked, i);
        BlockEnabled(pf, v', limit, blocked[i]);
        outcome, more, v' := PersistResult(state, BlockedResult(blocked[i]), Block(blocked[i]), v');
        JoinSteps(pf, trace, v, mid, more, v');
        NoReturnsJoin(trace, more);
        trace := trace + more;
        if outcome.Err? {
          return;
        }
        BlockRecorded(mid, v', limit, blocked[i]);
      }
      BlockingEnds(v.session.work.mem, v'.session.work.mem, blocked);
    }

    /** An assignment to the status of the run. */
    method SetStatus(state: RunState, status: RunStatus, ghost lease: bool, ghost before: seq<Action>, ghost v0: View,
                     ghost v: View)
      returns (ghost trace: seq<Action>, ghost v': View)
      requires Ready() && ValidPlatform(pf)
      requires Reached(pf, before, v0, v) && SessionOk(pf, v) && At(v, state, store) && Idle(v, limit, lease)
      modifies state`status
      ensures Reached(pf, trace, v0, v') && SessionOk(pf, v') && At(v', state, store) && Idle(v', limit, lease)
      ensures v'.session.work.mem == v.session.work.mem.(status := status)
      ensures trace == before + [Action.SetStatus(status)]
    {
      hide SessionOk, Enabled, Apply, InMemoryWellFormed, Reached, ValidPlatform;
      state.status := status;
      StatusStep(pf, v, limit, lease, status);
      trace, v' := TakeStep(pf, before, v0, v, Action.SetStatus(status));
    }

    /** A save outside the recording of a result. */
    method Checkpoint(state: RunState, ghost lease: bool, ghost before: seq<Action>, ghost v0: View, ghost v: View)
      returns (outcome: Outcome, ghost trace: seq<Action>, ghost v': View)
      requires Ready() && ValidPlatform(pf)
      requires Reached(pf, before, v0, v) && SessionOk(pf, v) && At(v, state, store) && Idle(v, limit, lease)
      modifies store`disk, store`saved, store`audit, store`troubles
      ensures Accounted(outcome, old(store.troubles), store.troubles)
      ensures outcome.Ok? ==> store.troubles == old(store.troubles)
      ensures Reached(pf, trace, v0, v') && SessionOk(pf, v') && At(v', state, store) && v'.session == v.session
      ensures outcome.Ok? ==> Synced(pf, v') && trace == before + [SaveState]
      ensures outcome.Err? ==> outcome.error.StateFailure? && trace == before
    {
      hide SessionOk, Enabled, Apply, InMemoryWellFormed, Reached, ValidPlatform, Persisted;
      trace, v' := before, v;
      WorkingView(pf, v);
      outcome := store.Save(state, false);
      if outcome.Ok? {
        IdleSave(pf, v, limit, lease);
        trace, v' := TakeStep(pf, before, v0, v, SaveState);
      }
    }

    /** locking.py:56-63: the lease on the project directory, or an error. */
    method AcquireProject(state: RunState) returns (outcome: Outcome)
      modifies store`troubles
      ensures Accounted(outcome, old(store.troubles), store.troubles)
      ensures outcome.Ok? ==> store.troubles == old(store.troubles)
      ensures outcome.Err? ==> outcome.error.ProjectBusy? || outcome.error.StateFailure?
    {
      var busy := store.Call(true);
      if busy {
        return Err(ProjectBusy);
      }
      var fails := store.Call(false);
      return if fails then Err(StateFailure) else Ok(Unit);
    }

    /** locking.py:155-172: the lease is given up even when this reports an error. */
    method ReleaseProject() returns (outcome: Outcome)
      modifies store`troubles
      ensures Accounted(outcome, old(store.troubles), store.troubles)
      ensures outcome.Ok? ==> store.troubles == old(store.troubles)
      ensures outcome.Err? ==> outcome.error.StateFailure?
    {
      var fails := store.Call(false);
      return if fails then Err(StateFailure) else Ok(Unit);
    }

    /** scheduler.py:85-96: one writer, under the lease on its project, which is
        given up however the turn and its recording end. */
    method RunWriter(state: RunState, id: string, ghost v: View)
      returns (outcome: Outcome, ghost trace: seq<Action>, ghost v': View)
      requires Ready() && ValidPlatform(pf)
      requires SessionOk(pf, v) && At(v, state, store) && Idle(v, limit, false)
      requires NextWriter(pf, v.session.work.mem, id)
      modifies state`status, state`results, store`disk, store`events, store`saved, store`audit, client, store`troubles
      ensures Accounted(outcome, old(store.troubles), store.troubles)
      ensures outcome.Ok? ==> store.troubles == old(store.troubles)
      ensures Reached(pf, trace, v, v') && SessionOk(pf, v') && At(v', state, store)
      ensures v'.session.Working? && !v'.session.work.lease
      ensures outcome.Ok? ==> Idle(v', limit, false) && Synced(pf, v')
      ensures outcome.Ok? ==> Advanced(v.session.work.mem, v'.session.work.mem)
      ensures outcome.Ok? && TurnsTerminal(trace) ==>
                |Unfinished(v'.session.work.mem)| < |Unfinished(v.session.work.mem)|
      ensures outcome.Err? ==> outcome.error.ProjectBusy? || outcome.error.StateFailure?
    {
      assert v.session.Working?;
      hide *;
      outcome, trace, v' := LeaseForWriter(state, v);
      if outcome.Err? {
        return;
      }
      WriterChosen(pf, v.session.work.mem, v.session.work.mem.(status := RunStatus.Running), limit, id);
      AuthorizedStatus(pf, v.session.work.mem, v'.session.work.mem, id);
      ghost var before, more, mid, result := trace, [], v', BlockedResult(id);
      outcome, result, more, v' := RunLeased(state, id, v');
      JoinSteps(pf, before, v, mid, more, v');
      trace := before + more;
      if outcome.Ok? {
        WriterRecorded(v.session.work.mem, mid.session.work.mem.(status := RunStatus.Running), result);
        TerminalJoin(before, more);
        ReturnTerminal(more, id, result);
      }
    }

    lemma {:induction false} FirstFails(first: Outcome, second: Outcome, t0: Troubles, t1: Troubles, t2: Troubles)
      requires Accounted(first, t0, t1) && Accounted(second, t1, t2)
      ensures Accounted(if first.Err? then first else second, t0, t2)
      ensures first.Ok? && second.Ok? ==> t2 == t0
    {
    }

    lemma {:induction false} Released(pf: Platform, v: View, v': View, state: RunState, limit: nat)
      requires At(v, state, store) && v' == View(Working(v.session.work.(lease := false)), v.files)
      ensures At(v', state, store) && !v'.session.work.lease && (Idle(v, limit, true) ==> Idle(v', limit, false))
      ensures v'.session.work.mem == v.session.work.mem && (Synced(pf, v) ==> Synced(pf, v'))
    {
    }

    /** scheduler.py:86-91. */
    method LeaseForWriter(state: RunState, ghost v: View)
      returns (outcome: Outcome, ghost trace: seq<Action>, ghost v': View)
      requires Ready() && ValidPlatform(pf)
      requires SessionOk(pf, v) && At(v, state, store) && Idle(v, limit, false)
      modifies state`status, store`disk, store`saved, store`audit, store`troubles
      ensures Accounted(outcome, old(store.troubles), store.troubles)
      ensures outcome.Ok? ==> store.troubles == old(store.troubles)
      ensures Reached(pf, trace, v, v') && SessionOk(pf, v') && At(v', state, store)
      ensures v'.session.Working? && (outcome.Err? ==> !v'.session.work.lease)
      ensures outcome.Ok? ==> Idle(v', limit, true)
      ensures outcome.Ok? ==> v'.session.work.mem == v.session.work.mem.(status := state.status)
      ensures outcome.Err? ==> outcome.error.ProjectBusy? || outcome.error.StateFailure?
    {
      hide SessionOk, Enabled, Apply, InMemoryWellFormed, Reached, ValidPlatform, Synced, Accounted;
      NoSteps(pf, v);
      trace, v' := [], v;
      if state.status.AwaitingApproval? || state.status.Running? {
        trace, v' := SetStatus(state, RunStatus.Planned, false, trace, v, v');
        outcome, trace, v' := Checkpoint(state, false, trace, v, v');
        if outcome.Err? {
          return;
        }
      }
      outcome := AcquireProject(state);
      if outcome.Ok? {
        LeaseStep(pf, v', limit);
        trace, v' := TakeStep(pf, trace, v, v', LeaseProject);
      }
    }

    /** scheduler.py:90-96: the body of the project lease and its release, which no
        failure prevents. */
    method RunLeased(state: RunState, id: string, ghost v: View)
      returns (outcome: Outcome, ghost result: WorkResult, ghost trace: seq<Action>, ghost v': View)
      requires Ready() && ValidPlatform(pf)
      requires SessionOk(pf, v) && At(v, state, store) && Idle(v, limit, true)
      requires NextBatch(pf, v.session.work.mem.(status := RunStatus.Running), limit) == [id]
      requires WritersReady(pf, v.session.work.mem.(status := RunStatus.Running))
      requires Authorized(pf, v.session.work.mem, id)
      modifies state`status, state`results, store`disk, store`events, store`saved, store`audit, client, store`troubles
      ensures Accounted(outcome, old(store.troubles), store.troubles)
      ensures outcome.Ok? ==> store.troubles == old(store.troubles)
      ensures Reached(pf, trace, v, v') && SessionOk(pf, v') && At(v', state, store)
      ensures v'.session.Working? && !v'.session.work.lease
      ensures outcome.Ok? ==> Idle(v', limit, false) && Synced(pf, v')
      ensures outcome.Ok? ==> result.workItemId == id && Return(id, result) in trace
      ensures outcome.Ok? ==>
                v'.session.work.mem == WithResult(v.session.work.mem.(status := RunStatus.Running), result)
      ensures outcome.Err? ==> outcome.error.StateFailure?
    {
      hide *;
      var ended;
      ended, result, trace, v' := RunTurn(state, id, v);
      ghost var midway, last := store.troubles, v';
      var released := ReleaseProject();
      outcome := if ended.Err? then ended else released;
      FirstFails(ended, released, old(store.troubles), midway, store.troubles);
      ReleaseStep(pf, v');
      trace, v' := TakeStep(pf, trace, v, v', Action.ReleaseProject);
      Released(pf, last, v', state, limit);
    }

    /** The body of the project lease (scheduler.py:91-95). */
    method RunTurn(state: RunState, id: string, ghost v: View)
      returns (outcome: Outcome, ghost result: WorkResult, ghost trace: seq<Action>, ghost v': View)
      requires Ready() && ValidPlatform(pf)
      requires SessionOk(pf, v) && At(v, state, store) && Idle(v, limit, true)
      requires NextBatch(pf, v.session.work.mem.(status := RunStatus.Running), limit) == [id]
      requires WritersReady(pf, v.session.work.mem.(status := RunStatus.Running))
      requires Authorized(pf, v.session.work.mem, id)
      modifies state`status, state`results, store`disk, store`events, store`saved, store`audit, client, store`troubles
      ensures Accounted(outcome, old(store.troubles), store.troubles)
      ensures outcome.Ok? ==> store.troubles == old(store.troubles)
      ensures Reached(pf, trace, v, v') && SessionOk(pf, v') && At(v', state, store)
      ensures TurnsOver(v')
      ensures outcome.Ok? ==> Idle(v', limit, true) && Synced(pf, v')
      ensures outcome.Ok? ==> result.workItemId == id && Return(id, result) in trace
      ensures outcome.Ok? ==>
                v'.session.work.mem == WithResult(v.session.work.mem.(status := RunStatus.Running), result)
      ensures outcome.Err? ==> outcome.error.StateFailure?
    {
      hide SessionOk, Enabled, Apply, InMemoryWellFormed, Reached, ValidPlatform, Synced, NextBatch, WritersReady,
        Authorized, Accounted;
      var dispatchable := state.RequireDispatchable(pf, id);
      assert dispatchable.Ok?;
      NoSteps(pf, v);
      trace, v' := SetStatus(state, RunStatus.Running, true, [], v, v);
      StartEnabled(pf, v', limit, true);
      ghost var more, mid := [], v';
      var r;
      r, more, v' := RunOne(state, id, v');
      result := r;
      JoinSteps(pf, trace, v, mid, more, v');
      trace := trace + more;
      assert Return(id, r) in more && Return(id, r) in trace;
      mid := v';
      RecordEnabled(pf, v', id);
      outcome, more, v' := PersistResult(state, r, Record(id), v');
      JoinSteps(pf, trace, v, mid, more, v');
      trace := trace + more;
    }

    /** scheduler.py:98-100: the first readers up to the limit. */
    method RunReaders(state: RunState, ready: seq<string>, ghost v: View)
      returns (outcome: Outcome, ghost trace: seq<Action>, ghost v': View)
      requires Ready() && ValidPlatform(pf)
      requires SessionOk(pf, v) && At(v, state, store) && Idle(v, limit, false)
      requires ready == ReadyItems(pf, state.Value()) && ready != []
      requires AllItems(state.Value(), ready) && Writers(state.Value(), ready) == []
      modifies state`status, state`results, store`disk, store`events, store`saved, store`audit, client, store`troubles
      ensures Accounted(outcome, old(store.troubles), store.troubles)
      ensures outcome.Ok? ==> store.troubles == old(store.troubles)
      ensures Reached(pf, trace, v, v') && SessionOk(pf, v') && At(v', state, store)
      ensures outcome.Ok? ==> v'.session.Working? && Idle(v', limit, false) && Synced(pf, v')
      ensures outcome.Ok? ==> Advanced(v.session.work.mem, v'.session.work.mem)
      ensures outcome.Ok? && TurnsTerminal(trace) ==>
                |Unfinished(v'.session.work.mem)| < |Unfinished(v.session.work.mem)|
      ensures outcome.Err? ==> outcome.error.StateFailure?
    {
      hide *;
      Limited();
      MemoryIs(v, state);
      ghost var s := v.session.work.mem;
      NoSteps(pf, v);
      trace, v' := SetStatus(state, RunStatus.Running, false, [], v, v);
      MemoryIs(v', state);
      var batch := if |ready| <= limit then ready else ready[..limit];
      ReadersChosen(pf, s, v'.session.work.mem, limit);
      StartEnabled(pf, v', limit, false);
      ghost var turns, more, mid, running := map[], [], v', v';
      var results;
      results, turns, more, v' := RunReadBatch(state, batch, v');
      JoinSteps(pf, trace, v, mid, more, v');
      ghost var first := trace;
      trace := trace + more;
      TerminalJoin(first, more);
      MemoryIs(v', state);
      BatchOver(running, v', limit, batch, results);
      BatchTerminal(batch, v'.session.work.returned, turns, SomeRaised(turns), more, results);
      ghost var done := trace;
      mid := v';
      outcome, more, v' := PersistBatch(state, results, v');
      JoinSteps(pf, trace, v, mid, more, v');
      trace := trace + more;
      TerminalJoin(done, more);
      if outcome.Ok? {
        TurnsRecorded(s, s.(status := RunStatus.Running), results);
        MemoryIs(v', state);
        AllRecorded(running, mid, v', limit, results);
      }
    }

    lemma {:induction false} Limited()
      requires Ready()
      ensures 1 <= limit
    {
    }

    lemma {:induction false} BatchOver(v: View, v': View, limit: nat, batch: seq<string>, results: seq<WorkResult>)
      requires Idle(v, limit, false) && v'.session.Working? && Ids(results) == batch && batch != []
      requires v'.session.work == v.session.work.(returned := v'.session.work.returned)
      ensures !v'.session.work.adopting && v'.session.work.flight == {} && v'.session.work.todo.Nothing?
      ensures results != []
    {
    }

    lemma {:induction false} AllRecorded(v: View, mid: View, v': View, limit: nat, results: seq<WorkResult>)
      requires Idle(v, limit, false) && mid.session.Working? && v'.session.Working?
      requires mid.session.work == v.session.work.(returned := mid.session.work.returned)
      requires v'.session.work == mid.session.work.(mem := WithResults(mid.session.work.mem, results), returned := map[])
      ensures Idle(v', limit, false) && v'.session.work.mem == WithResults(v.session.work.mem, results)
    {
      hide WithResults;
    }

    /** scheduler.py:63-106: run all batches that can be reached now. */
    method RunReady(state: RunState, ghost v: View)
      returns (outcome: Outcome, ghost trace: seq<Action>, ghost v': View)
      requires Ready() && ValidPlatform(pf)
      requires SessionOk(pf, v) && At(v, state, store) && Idle(v, limit, false)
      modifies state`status, state`results, store`disk, store`events, store`saved, store`audit, client, store`troubles
      ensures Accounted(outcome, old(store.troubles), store.troubles)
      ensures outcome.Ok? ==> store.troubles == old(store.troubles)
      ensures Reached(pf, trace, v, v') && SessionOk(pf, v') && At(v', state, store)
      ensures outcome.Ok? ==> v'.session.Working? && Idle(v', limit, false) && (Synced(pf, v) ==> Synced(pf, v'))
      ensures outcome.Ok? ==> PassResult(pf, v.session.work.mem, v'.session.work.mem, TurnsTerminal(trace))
      ensures outcome.Ok? && TurnsSucceeded(trace) && NoFailing(v.session.work.mem) ==> NoFailing(v'.session.work.mem)
      ensures outcome.Err? ==> outcome.error.ProjectBusy? || outcome.error.StateFailure?
    {
      hide *;
      MemoryIs(v, state);
      outcome, trace, v' := RunRounds(state, v);
      if outcome.Ok? {
        ghost var before, more, mid := trace, [], v';
        outcome, more, v' := FinishPass(state, v');
        JoinSteps(pf, trace, v, mid, more, v');
        trace := trace + more;
        if outcome.Ok? {
          TerminalJoin(before, more);
          StatusSettles(pf, v.session.work.mem, mid.session.work.mem, before);
          NothingFails(pf, trace, v, v', limit);
        }
      }
    }

    /** scheduler.py:66-100: the loop, at most one round for each item. */
    method RunRounds(state: RunState, ghost v: View)
      returns (outcome: Outcome, ghost trace: seq<Action>, ghost v': View)
      requires Ready() && ValidPlatform(pf)
      requires SessionOk(pf, v) && At(v, state, store) && Idle(v, limit, false)
      modifies state`status, state`results, store`disk, store`events, store`saved, store`audit, client, store`troubles
      ensures Accounted(outcome, old(store.troubles), store.troubles)
      ensures outcome.Ok? ==> store.troubles == old(store.troubles)
      ensures Reached(pf, trace, v, v') && SessionOk(pf, v') && At(v', state, store)
      ensures outcome.Ok? ==> v'.session.Working? && Idle(v', limit, false) && (Synced(pf, v) ==> Synced(pf, v'))
      ensures outcome.Ok? ==> Settled(pf, v.session.work.mem, v'.session.work.mem, trace)
      ensures outcome.Err? ==> outcome.error.ProjectBusy? || outcome.error.StateFailure?
    {
      hide *;
      MemoryIs(v, state);
      ghost var s0 := v.session.work.mem;
      var n := |state.workItems|;
      NoSteps(pf, v);
      Untroubled(Ok(Unit), store.troubles);
      LoopBegins(s0);
      trace, v', outcome := [], v, Ok(Unit);
      for k := 0 to n
        invariant Reached(pf, trace, v, v') && SessionOk(pf, v') && At(v', state, store)
        invariant v'.session.Working? && Idle(v', limit, false)
        invariant outcome.Ok? && (Synced(pf, v) ==> Synced(pf, v')) && store.troubles == old(store.troubles)
        invariant Accounted(outcome, old(store.troubles), store.troubles)
        invariant Looping(s0, v'.session.work.mem, k, n, trace)
      {
        ghost var more, mid := [], v';
        var idle;
        outcome, idle, more, v' := RunRound(state, v');
        JoinSteps(pf, trace, v, mid, more, v');
        if outcome.Ok? {
          LoopRound(pf, s0, mid.session.work.mem, v'.session.work.mem, k, n, trace, more);
        }
        trace := trace + more;
        if outcome.Err? || idle {
          return;
        }
      }
      LoopEnds(pf, s0, v'.session.work.mem, trace);
    }

    /** One iteration (scheduler.py:67-100); idle tells that nothing was ready. */
    method RunRound(state: RunState, ghost v: View)
      returns (outcome: Outcome, idle: bool, ghost trace: seq<Action>, ghost v': View)
      requires Ready() && ValidPlatform(pf)
      requires SessionOk(pf, v) && At(v, state, store) && Idle(v, limit, false)
      modifies state`status, state`results, store`disk, store`events, store`saved, store`audit, client, store`troubles
      ensures Accounted(outcome, old(store.troubles), store.troubles)
      ensures outcome.Ok? ==> store.troubles == old(store.troubles)
      ensures Reached(pf, trace, v, v') && SessionOk(pf, v') && At(v', state, store)
      ensures outcome.Ok? ==> v'.session.Working? && Idle(v', limit, false) && (Synced(pf, v) ==> Synced(pf, v'))
      ensures outcome.Ok? ==> RoundResult(pf, v.session.work.mem, v'.session.work.mem, idle, trace)
      ensures outcome.Err? ==> outcome.error.ProjectBusy? || outcome.error.StateFailure?
    {
      hide SessionOk, Enabled, Apply, InMemoryWellFormed, Reached, ValidPlatform, Idle, Synced, Advanced, AllBlocked,
        RoundResult, TurnsTerminal, NoReturns, Accounted;
      outcome, trace, v' := PersistBlocked(state, v);
      idle := false;
      if outcome.Err? {
        return;
      }
      ghost var more, mid := [], v';
      var ready := Dispatchable(pf, state);
      MemoryIs(v', state);
      idle := ready == [];
      if idle {
        RoundIdle(pf, v.session.work.mem, v'.session.work.mem, trace);
      } else {
        outcome, more, v' := RunTurns(state, ready, v');
        JoinSteps(pf, trace, v, mid, more, v');
        if outcome.Ok? {
          RoundTurns(pf, v.session.work.mem, mid.session.work.mem, v'.session.work.mem, trace, more);
        }
        trace := trace + more;
      }
    }

    lemma {:induction false} MemoryIs(v: View, state: RunState)
      requires At(v, state, store)
      ensures v.session.Working? && v.session.work.mem == state.Value()
      ensures v.session.work.mem.workItems == state.workItems
    {
    }

    /** scheduler.py:82-100: the first writer alone, or else the first readers. */
    method RunTurns(state: RunState, ready: seq<string>, ghost v: View)
      returns (outcome: Outcome, ghost trace: seq<Action>, ghost v': View)
      requires Ready() && ValidPlatform(pf)
      requires SessionOk(pf, v) && At(v, state, store) && Idle(v, limit, false)
      requires ready == ReadyItems(pf, v.session.work.mem) && ready != []
      modifies state`status, state`results, store`disk, store`events, store`saved, store`audit, client, store`troubles
      ensures Accounted(outcome, old(store.troubles), store.troubles)
      ensures outcome.Ok? ==> store.troubles == old(store.troubles)
      ensures Reached(pf, trace, v, v') && SessionOk(pf, v') && At(v', state, store)
      ensures outcome.Ok? ==> v'.session.Working? && Idle(v', limit, false) && Synced(pf, v')
      ensures outcome.Ok? ==> Advanced(v.session.work.mem, v'.session.work.mem)
      ensures outcome.Ok? && TurnsTerminal(trace) ==>
                |Unfinished(v'.session.work.mem)| < |Unfinished(v.session.work.mem)|
      ensures outcome.Err? ==> outcome.error.ProjectBusy? || outcome.error.StateFailure?
    {
      MemoryIs(v, state);
      hide SessionOk, Reached, ValidPlatform, At, Idle, Synced, Advanced, TurnsTerminal, NextWriter, Writers, Accounted;
      ReadyAreItems(pf, state.Value());
      var writers := Writers(state.Value(), ready);
      if writers != [] {
        NextWriterIs(pf, state.Value(), ready);
        outcome, trace, v' := RunWriter(state, writers[0], v);
      } else {
        outcome, trace, v' := RunReaders(state, ready, v);
      }
    }

    /** scheduler.py:102-105. */
    method FinishPass(state: RunState, ghost v: View)
      returns (outcome: Outcome, ghost trace: seq<Action>, ghost v': View)
      requires Ready() && ValidPlatform(pf)
      requires SessionOk(pf, v) && At(v, state, store) && Idle(v, limit, false)
      modifies state`status, store`disk, store`saved, store`audit, store`troubles
      ensures Accounted(outcome, old(store.troubles), store.troubles)
      ensures outcome.Ok? ==> store.troubles == old(store.troubles)
      ensures Reached(pf, trace, v, v') && SessionOk(pf, v') && At(v', state, store)
      ensures outcome.Ok? ==>
                v'.session.Working? && Idle(v', limit, false) && (Synced(pf, v) ==> Synced(pf, v')) && NoReturns(trace)
      ensures outcome.Ok? ==>
                v'.session.work.mem == v.session.work.mem.(status := FinalStatus(v.session.work.mem))
      ensures outcome.Err? ==> outcome.error.StateFailure?
    {
      hide SessionOk, Enabled, Apply, InMemoryWellFormed, Reached, ValidPlatform, Synced, FinalStatus;
      NoSteps(pf, v);
      trace, v', outcome := [], v, Ok(Unit);
      var status := FinalStatus(state.Value());
      if state.status != status {
        trace, v' := SetStatus(state, status, false, trace, v, v');
        outcome, trace, v' := Checkpoint(state, false, trace, v, v');
      }
    }
  }
}
