// The mutable state of a run (domain.py:457-472), the store that keeps it under
// one run directory (json_store.py), and the approval service that changes it.

module Storage {
  import opened Domain
  import opened Rules
  import opened Redaction
  import opened Process

  datatype Error =
    | RunBusy
    | ProjectBusy
    | StateFailure
    | ApprovalRequired(reason: ApprovalProblem)
    | ConfigurationChanged
    | RoutingFailure
    | RepositoryFailure
    | ModelUnavailable
    | PlannerFailure
    | ConfigurationInvalid

  datatype ApprovalProblem =
    | NaiveTime
    | BlankIdentity
    | UnknownItem
    | NoApproval
    | OtherRun
    | StaleDigest
    | StaleFingerprint

  datatype Unit = Unit

  type Outcome = Result<Unit, Error>

  /** How often something around the run failed, and how often a lease was held
      elsewhere. */
  datatype Troubles = Troubles(faults: nat, contended: nat)

  /** A call reports a failure of its surroundings exactly if there was one. */
  ghost predicate Accounted<T>(outcome: Result<T, Error>, before: Troubles, after: Troubles) {
    && before.faults <= after.faults && before.contended <= after.contended
    && (outcome.Ok? ==> after == before)
    && (outcome.Err? && (outcome.error.StateFailure? || outcome.error.ModelUnavailable?) ==> before.faults < after.faults)
    && (outcome.Err? && (outcome.error.ProjectBusy? || outcome.error.RunBusy?) ==> before.contended < after.contended)
  }

  class RunState {
    var schemaVersion: int
    var configurationDigest: string
    var objective: Objective
    var repository: RepositoryContext
    var workItems: map<string, WorkItem>
    var routes: map<string, RouteDecision>
    var results: map<string, WorkResult>
    var approvals: map<string, ApprovalRecord>
    var status: RunStatus

    constructor (s: Snapshot)
      ensures Value() == s
    {
      schemaVersion, configurationDigest, objective, repository :=
        s.schemaVersion, s.configurationDigest, s.objective, s.repository;
      workItems, routes, results, approvals, status := s.workItems, s.routes, s.results, s.approvals, s.status;
    }

    function Value(): Snapshot
      reads this
    {
      Snapshot(schemaVersion, configurationDigest, objective, repository, workItems, routes, results, approvals, status)
    }

    /** approvals.py:21-42. */
    method Approve(pf: Platform, id: string, approver: string, time: string) returns (outcome: Outcome)
      modifies this`approvals
      ensures outcome.Ok? <==> pf.timestamp(time) && !pf.blank(approver) && id in workItems && id in routes
      ensures outcome.Ok? ==> Value() == WithApproval(pf, old(Value()), id, approver, time)
      ensures outcome.Ok? ==> Authorized(pf, Value(), id)
      ensures outcome.Err? ==> outcome.error.ApprovalRequired? && Value() == old(Value())
    {
      if !pf.timestamp(time) {
        return Err(ApprovalRequired(NaiveTime));
      }
      if pf.blank(approver) {
        return Err(ApprovalRequired(BlankIdentity));
      }
      if id !in workItems || id !in routes {
        return Err(ApprovalRequired(UnknownItem));
      }
      approvals := approvals[id := RecordFor(pf, Value(), id, approver, time)];
      return Ok(Unit);
    }

    /** approvals.py:44-67. */
    method RequireDispatchable(pf: Platform, id: string) returns (outcome: Outcome)
      ensures outcome.Ok? <==> Authorized(pf, Value(), id)
      ensures outcome.Err? ==> outcome.error.ApprovalRequired?
    {
      if id !in workItems || id !in routes {
        return Err(ApprovalRequired(UnknownItem));
      }
      if routes[id].approval.Automatic? {
        return Ok(Unit);
      }
      if id !in approvals {
        return Err(ApprovalRequired(NoApproval));
      }
      var record := approvals[id];
      if record.runId != objective.id {
        return Err(ApprovalRequired(OtherRun));
      }
      if record.configurationDigest != configurationDigest {
        return Err(ApprovalRequired(StaleDigest));
      }
      if record.fingerprint != pf.fingerprint(PayloadOf(Value(), id)) {
        return Err(ApprovalRequired(StaleFingerprint));
      }
      return Ok(Unit);
    }
  }

  lemma {:induction false} Untroubled<T>(outcome: Result<T, Error>, t: Troubles)
    requires outcome.Ok? || outcome.error.RoutingFailure? || outcome.error.ApprovalRequired? || outcome.error.PlannerFailure?
    ensures Accounted(outcome, t, t)
  {
  }

  lemma {:induction false} SameError<T, U>(first: Result<T, Error>, second: Result<U, Error>, before: Troubles,
                                           after: Troubles)
    requires Accounted(first, before, after) && first.Err? && second == Err(first.error)
    ensures Accounted(second, before, after)
  {
  }

  /** There is a snapshot of the only schema version that is read. */
  predicate Loadable(disk: Option<Snapshot>) {
    disk.Some? && disk.value.schemaVersion == 1
  }

  /** The directory of one run.  Any operation may fail; a failed save leaves the
      previous snapshot, a failed append may or may not have added its line. */
  class RunStore {
    const pf: Platform
    var directory: bool
    var disk: Option<Snapshot>
    var events: seq<Event>
    var report: Option<Snapshot>
    ghost var saved: seq<Snapshot>
    ghost var audit: seq<Audit>
    ghost var troubles: Troubles

    constructor (pf: Platform)
      ensures this.pf == pf && Files() == NO_RUN
    {
      this.pf := pf;
      directory, disk, events, report, saved, audit := false, None, [], None, [], [];
      troubles := Troubles(0, 0);
    }

    ghost function Files(): RunFiles
      reads `directory, `disk, `events, `saved, `audit
    {
      RunFiles(directory, disk, events, saved, audit)
    }

    /** A call of the file system, of a lease or of the model service. */
    method Call(ghost contending: bool) returns (fails: bool)
      modifies this`troubles
      ensures troubles == if !fails then old(troubles)
                          else if contending then Troubles(old(troubles).faults, old(troubles).contended + 1)
                          else Troubles(old(troubles).faults + 1, old(troubles).contended)
    {
      fails := *;
      if fails {
        troubles := if contending then Troubles(troubles.faults, troubles.contended + 1)
                    else Troubles(troubles.faults + 1, troubles.contended);
      }
    }

    /** json_store.py:100-105.  An interrupted creation leaves a directory
        without a snapshot. */
    method Create(state: RunState) returns (outcome: Outcome)
      modifies `directory, `disk, `events, `saved, `troubles
      ensures old(directory) ==> outcome.Err? && troubles == old(troubles)
      ensures !old(directory) ==> Accounted(outcome, old(troubles), troubles)
      ensures outcome.Ok? ==>
                !old(directory)
                && Files() == Write(pf, old(Files()).(directory := true), state.Value()).(events := [])
      ensures outcome.Err? ==>
                && outcome.error.StateFailure? && Files() == old(Files()).(directory := directory, events := events)
                && (old(directory) ==> directory && events == old(events)) && (events == old(events) || events == [])
    {
      if directory {
        return Err(StateFailure);
      }
      var fails := Call(false);
      if fails {
        return Err(StateFailure);
      }
      directory := true;
      fails := Call(false);
      if fails {
        return Err(StateFailure);
      }
      events := [];
      outcome := Replace(state);
    }

    /** The atomic replacement of state.json, whose steps AtomicWrite models. */
    method Replace(state: RunState) returns (outcome: Outcome)
      modifies this`disk, this`saved, this`troubles
      ensures Accounted(outcome, old(troubles), troubles)
      ensures outcome.Ok? ==>
                disk == Some(Persisted(pf, state.Value())) && saved == old(saved) + [Persisted(pf, state.Value())]
      ensures outcome.Err? ==> outcome.error.StateFailure? && disk == old(disk) && saved == old(saved)
    {
      var fails := Call(false);
      if fails {
        return Err(StateFailure);
      }
      disk := Some(Persisted(pf, state.Value()));
      saved := saved + [Persisted(pf, state.Value())];
      return Ok(Unit);
    }

    /** json_store.py:126-130.  adopting tells that the snapshot puts a changed
        configuration into effect. */
    method Save(state: RunState, ghost adopting: bool) returns (outcome: Outcome)
      modifies this`disk, this`saved, this`audit, this`troubles
      ensures directory ==> Accounted(outcome, old(troubles), troubles)
      ensures outcome.Ok? ==>
                && disk == Some(Persisted(pf, state.Value())) && saved == old(saved) + [Persisted(pf, state.Value())]
                && audit == old(audit) + (if adopting then [Adoption(state.configurationDigest)] else [])
      ensures outcome.Err? ==> outcome.error.StateFailure? && Files() == old(Files())
    {
      if !directory {
        return Err(StateFailure);
      }
      outcome := Replace(state);
      if outcome.Ok? && adopting {
        audit := audit + [Adoption(state.configurationDigest)];
      }
    }

    /** json_store.py:132-140. */
    method AppendEvent(event: Event) returns (outcome: Outcome)
      modifies this`events, this`troubles
      ensures directory ==> Accounted(outcome, old(troubles), troubles)
      ensures outcome.Ok? ==> events == old(events) + [event]
      ensures outcome.Err? ==> outcome.error.StateFailure? && (events == old(events) || events == old(events) + [event])
    {
      if !directory {
        return Err(StateFailure);
      }
      var fails := Call(false);
      if fails {
        var written: bool := *;
        if written {
          events := events + [event];
        }
        return Err(StateFailure);
      }
      events := events + [event];
      return Ok(Unit);
    }

    /** json_store.py:142-147: the report is rendered from the snapshot alone. */
    method WriteReport(state: RunState) returns (outcome: Outcome)
      modifies this`report, this`troubles
      ensures directory ==> Accounted(outcome, old(troubles), troubles)
      ensures outcome.Ok? ==> report == Some(state.Value())
      ensures outcome.Err? ==> outcome.error.StateFailure? && report == old(report)
    {
      if !directory {
        return Err(StateFailure);
      }
      var fails := Call(false);
      if fails {
        return Err(StateFailure);
      }
      report := Some(state.Value());
      return Ok(Unit);
    }

    /** json_store.py:51-70 and 107-124: what is on disk, unless it cannot be
        read or was saved under a configuration that nobody acknowledged. */
    method Load(expected: Option<string>, acknowledged: bool) returns (loaded: Result<RunState, Error>)
      modifies this`troubles
      ensures Loadable(disk) ==> Accounted(loaded, old(troubles), troubles)
      ensures loaded.Ok? ==>
                && fresh(loaded.value) && disk == Some(loaded.value.Value())
                && (expected.Some? && !acknowledged ==> loaded.value.configurationDigest == expected.value)
      ensures loaded.Ok? ==> Loadable(disk) && troubles == old(troubles)
      ensures loaded.Err? && loaded.error.ConfigurationChanged? ==>
                disk.Some? && expected.Some? && !acknowledged && disk.value.configurationDigest != expected.value
      ensures loaded.Err? ==> loaded.error.StateFailure? || loaded.error.ConfigurationChanged?
    {
      var fails := Call(false);
      if disk.None? || fails || disk.value.schemaVersion != 1 {
        return Err(StateFailure);
      }
      var state := new RunState(disk.value);
      if expected.Some? && state.configurationDigest != expected.value && !acknowledged {
        return Err(ConfigurationChanged);
      }
      return Ok(state);
    }
  }
}
