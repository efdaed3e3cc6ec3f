// What the scheduler, the approval service and the coordinator decide about a
// snapshot, without changing it.

module Rules {
  import opened Domain
  import opened Graph
  import opened Ordering
  import opened Progress

  /** What every snapshot the program builds satisfies: maps are keyed by the
      identifiers inside their values, every item is routed, and results and
      approvals are about items of the run. */
  ghost predicate WellFormed(s: Snapshot) {
    && s.routes.Keys == s.workItems.Keys
    && s.results.Keys <= s.workItems.Keys
    && s.approvals.Keys <= s.workItems.Keys
    && ItemsKeyed(s.workItems)
    && ResultsKeyed(s.results)
  }

  ghost predicate ItemsKeyed(items: map<string, WorkItem>) {
    forall id | id in items :: items[id].id == id
  }

  ghost predicate ResultsKeyed(results: map<string, WorkResult>) {
    forall id | id in results :: results[id].workItemId == id
  }

  // ----- approvals (approvals.py) -----

  function PayloadOf(s: Snapshot, id: string): Payload
    requires id in s.workItems && id in s.routes
  {
    Payload(s.configurationDigest, s.routes[id], s.workItems[id])
  }

  /** approvals.py:44-67: the item may be dispatched as it stands. */
  predicate Authorized(pf: Platform, s: Snapshot, id: string) {
    && id in s.workItems && id in s.routes
    && (s.routes[id].approval.Required? ==>
          && id in s.approvals
          && s.approvals[id].runId == s.objective.id
          && s.approvals[id].configurationDigest == s.configurationDigest
          && s.approvals[id].fingerprint == pf.fingerprint(PayloadOf(s, id)))
  }

  function RecordFor(pf: Platform, s: Snapshot, id: string, approver: string, time: string): ApprovalRecord
    requires id in s.workItems && id in s.routes
  {
    ApprovalRecord(s.objective.id, id, approver, time, s.configurationDigest, pf.fingerprint(PayloadOf(s, id)))
  }

  // ----- scheduling (scheduler.py) -----

  /** scheduler.py:119-133. */
  predicate Ready(pf: Platform, s: Snapshot, id: string) {
    && IsPending(s, id)
    && DependenciesSucceeded(s, id)
    && Authorized(pf, s, id)
  }

  function FailureResult(id: string, status: WorkStatus, message: string): WorkResult {
    WorkResult(id, None, None, status, None, [], 0, 0, 0, ZERO, [], [], ZERO, false, Some(message))
  }

  function BlockedResult(id: string): WorkResult {
    FailureResult(id, WorkStatus.Blocked, "A dependency did not succeed")
  }

  /** scheduler.py:209-225. */
  function FinalStatus(s: Snapshot): RunStatus {
    if exists id :: id in s.results && s.results[id].status.Failed? then RunStatus.Failed
    else if exists id :: id in s.results && s.results[id].status.Blocked? then RunStatus.Blocked
    else if |s.results| == |s.workItems| && forall id | id in s.results :: s.results[id].status.Succeeded? then
      RunStatus.Completed
    else if exists id :: id in s.workItems && id !in s.results && id in s.routes && s.routes[id].approval.Required? then
      RunStatus.AwaitingApproval
    else RunStatus.Planned
  }

  ghost predicate AllSucceeded(s: Snapshot) {
    forall id | id in s.workItems :: HasSucceeded(s, id)
  }

  /** Comparing lengths is enough: COMPLETED means every item SUCCEEDED. */
  lemma {:induction false} CompletedExactly(s: Snapshot)
    requires WellFormed(s)
    ensures FinalStatus(s).Completed? <==> AllSucceeded(s)
  {
    if FinalStatus(s).Completed? {
      assert |s.results.Keys| == |s.results| && |s.workItems.Keys| == |s.workItems|;
      SubsetSize(s.results.Keys, s.workItems.Keys);
    }
    if AllSucceeded(s) {
      forall id | id in s.workItems ensures id in s.results && s.results[id].status.Succeeded? {
        assert HasSucceeded(s, id);
      }
      assert s.results.Keys == s.workItems.Keys;
      assert |s.results.Keys| == |s.results| && |s.workItems.Keys| == |s.workItems|;
    }
  }

  // ----- the completion review (application.py:338-404) -----

  predicate BaseWorkSucceeded(s: Snapshot) {
    && (exists id :: id in s.workItems && id != COMPLETION_ID)
    && forall id | id in s.workItems && id != COMPLETION_ID :: HasSucceeded(s, id)
  }

  function Summaries(s: Snapshot, ids: seq<string>): string
    requires forall id | id in ids :: id in s.results
  {
    if ids == [] then ""
    else
      var r := s.results[ids[0]].finalResponse;
      var line := "- " + ids[0] + ": " + (if r.Some? && r.value != "" then r.value else "(no response)");
      if |ids| == 1 then line else line + "\n" + Summaries(s, ids[1..])
  }

  function CompletionItem(s: Snapshot, task: string): WorkItem {
    WorkItem(COMPLETION_ID, "Independent completion review",
             "Independently verify that the objective scope and required evidence are complete. "
             + "Do not modify files. Report any missing verification explicitly.\n\n"
             + "Objective: " + s.objective.prompt + "\n\nCompleted work:\n" + Summaries(s, Sorted(s.results.Keys)),
             task, "completion", Sorted(s.workItems.Keys), AccessMode.ReadOnly, [],
             "An independent completion decision with evidence.", [], ONE, {})
  }

  function WithCompletion(s: Snapshot, item: WorkItem, route: RouteDecision): Snapshot {
    s.(workItems := s.workItems[item.id := item],
       routes := s.routes[item.id := route],
       status := RunStatus.Planned)
  }

  /** The items a configuration change re-routes (application.py:346-354). */
  function Unfinished(s: Snapshot): set<string> {
    set id | id in s.workItems && IsPending(s, id)
  }

  /** application.py:346-356. */
  function Adopted(s: Snapshot, digest: string, rerouted: map<string, RouteDecision>): Snapshot {
    s.(routes := s.routes + rerouted, configurationDigest := digest, approvals := map[])
  }

  // ----- one call of run_ready -----

  /** Only results and status change, and terminal results stay. */
  ghost predicate Advanced(s: Snapshot, s': Snapshot) {
    && s' == s.(results := s'.results, status := s'.status)
    && forall id | IsResolved(s, id) :: id in s'.results && s'.results[id] == s.results[id]
  }

  ghost predicate NothingReady(pf: Platform, s: Snapshot) {
    forall id :: !Ready(pf, s, id)
  }

  /** What one completed call of run_ready promises: only results and status
      change, terminal results stay, items with a failing dependency end BLOCKED,
      the status is the final status, and if every turn ended in a terminal
      status nothing is left to dispatch. */
  ghost predicate PassResult(pf: Platform, s: Snapshot, s': Snapshot, turnsTerminal: bool) {
    && Advanced(s, s') && Pass(s, s')
    && s'.status == FinalStatus(s')
    && (turnsTerminal ==> NothingReady(pf, s'))
  }

  /** An acyclic run in which everything is authorized, nothing failed and
      nothing is left to dispatch has succeeded altogether. */
  lemma {:induction false} NothingReadyMeansDone(pf: Platform, s: Snapshot)
    requires WellFormed(s)
    requires Closed(DependencyGraph(s)) && Acyclic(DependencyGraph(s))
    requires forall id | id in s.workItems :: Authorized(pf, s, id)
    requires forall id :: !IsFailing(s, id)
    requires NothingReady(pf, s)
    ensures AllSucceeded(s) && FinalStatus(s).Completed?
  {
    if exists id :: IsPending(s, id) {
      SomethingRunnable(s);
      var id :| IsPending(s, id) && DependenciesSucceeded(s, id);
      assert Authorized(pf, s, id) && Ready(pf, s, id);
      assert false;
    }
    forall id | id in s.workItems ensures HasSucceeded(s, id) {
      assert !IsPending(s, id) && !IsFailing(s, id);
    }
    CompletedExactly(s);
  }
}
