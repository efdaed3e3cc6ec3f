// Explicit approvals: a dispatch that needs one has one, for exactly the item,
// route and configuration it runs with (approvals.py).

module Approvals {
  import opened Domain
  import opened Progress
  import opened Rules
  import opened Redaction
  import opened Process
  import opened Safety

  /** The hash of canonical payloads has no collisions. */
  ghost predicate Injective(pf: Platform) {
    forall p, q: Payload | pf.fingerprint(p) == pf.fingerprint(q) :: p == q
  }

  ghost predicate NoAdoption(audit: seq<Audit>, from: int, to: int) {
    forall i | from < i < to && 0 <= i < |audit| :: !audit[i].Adoption?
  }

  /** payload was approved for id, and no configuration adopted since. */
  ghost predicate ApprovedBefore(audit: seq<Audit>, id: string, payload: Payload, k: int) {
    exists j :: 0 <= j < k && j < |audit| && audit[j] == Approval(id, payload) && NoAdoption(audit, j, k)
  }

  /** Every dispatch that requires approval was approved as it runs. */
  ghost predicate AuditSound(audit: seq<Audit>) {
    forall k | 0 <= k < |audit| && audit[k].Dispatch? && audit[k].payload.route.approval.Required? ::
      ApprovedBefore(audit, audit[k].id, audit[k].payload, k)
  }

  /** The record stems from an approval in the audit trail, still in force. */
  ghost predicate Backed(pf: Platform, id: string, record: ApprovalRecord, audit: seq<Audit>) {
    exists payload :: record.fingerprint == pf.fingerprint(payload) && ApprovedBefore(audit, id, payload, |audit|)
  }

  ghost predicate AllBacked(pf: Platform, approvals: map<string, ApprovalRecord>, audit: seq<Audit>) {
    forall id | id in approvals :: Backed(pf, id, approvals[id], audit)
  }

  ghost predicate AuditOk(pf: Platform, v: View) {
    && AuditSound(v.files.audit)
    && (v.files.disk.Some? ==> AllBacked(pf, v.files.disk.value.approvals, v.files.audit))
    && (v.session.Working? ==> AllBacked(pf, v.session.work.mem.approvals, v.files.audit))
  }

  lemma {:induction false} StillApproved(audit: seq<Audit>, more: seq<Audit>, id: string, payload: Payload)
    requires ApprovedBefore(audit, id, payload, |audit|) && forall i | 0 <= i < |more| :: !more[i].Adoption?
    ensures forall k | |audit| <= k <= |audit + more| :: ApprovedBefore(audit + more, id, payload, k)
  {
    var j :| 0 <= j < |audit| && audit[j] == Approval(id, payload) && NoAdoption(audit, j, |audit|);
    var longer := audit + more;
    forall k | |audit| <= k <= |longer| ensures ApprovedBefore(longer, id, payload, k) {
      forall i | j < i < k && 0 <= i < |longer| ensures !longer[i].Adoption? {
        assert longer[i] == if i < |audit| then audit[i] else more[i - |audit|];
      }
      assert longer[j] == Approval(id, payload) && NoAdoption(longer, j, k);
    }
  }

  lemma {:induction false} StillBacked(pf: Platform, approvals: map<string, ApprovalRecord>, audit: seq<Audit>,
                                       more: seq<Audit>)
    requires AllBacked(pf, approvals, audit) && forall i | 0 <= i < |more| :: !more[i].Adoption?
    ensures AllBacked(pf, approvals, audit + more)
  {
    forall id | id in approvals ensures Backed(pf, id, approvals[id], audit + more) {
      assert Backed(pf, id, approvals[id], audit);
      var payload :| approvals[id].fingerprint == pf.fingerprint(payload) && ApprovedBefore(audit, id, payload, |audit|);
      StillApproved(audit, more, id, payload);
    }
  }

  /** Later entries do not change what came before an earlier one. */
  lemma {:induction false} PastStays(audit: seq<Audit>, more: seq<Audit>, id: string, payload: Payload, k: int)
    requires ApprovedBefore(audit, id, payload, k) && k <= |audit|
    ensures ApprovedBefore(audit + more, id, payload, k)
  {
    var j :| 0 <= j < k && j < |audit| && audit[j] == Approval(id, payload) && NoAdoption(audit, j, k);
    var longer := audit + more;
    assert longer[j] == audit[j];
    forall i | j < i < k && 0 <= i < |longer| ensures !longer[i].Adoption? {
      assert longer[i] == audit[i];
    }
  }

  lemma {:induction false} SoundGrows(audit: seq<Audit>, more: seq<Audit>)
    requires AuditSound(audit)
    requires forall i | 0 <= i < |more| && more[i].Dispatch? && more[i].payload.route.approval.Required? ::
               ApprovedBefore(audit + more, more[i].id, more[i].payload, |audit| + i)
    ensures AuditSound(audit + more)
  {
    var longer := audit + more;
    forall k | 0 <= k < |longer| && longer[k].Dispatch? && longer[k].payload.route.approval.Required?
      ensures ApprovedBefore(longer, longer[k].id, longer[k].payload, k)
    {
      if k < |audit| {
        assert longer[k] == audit[k];
        PastStays(audit, more, audit[k].id, audit[k].payload, k);
      } else {
        assert longer[k] == more[k - |audit|];
      }
    }
  }

  /** A dispatch of an authorized item is backed by its approval: the hash has no
      collisions, so what was approved is what is dispatched. */
  lemma {:induction false} DispatchesSound(pf: Platform, s: Snapshot, audit: seq<Audit>, ids: seq<string>)
    requires Injective(pf) && WellFormed(s) && AuditSound(audit) && AllBacked(pf, s.approvals, audit)
    requires forall i | 0 <= i < |ids| :: ids[i] in s.workItems && Authorized(pf, s, ids[i])
    ensures AuditSound(audit + Dispatches(s, ids))
  {
    var more := Dispatches(s, ids);
    forall i | 0 <= i < |more| && more[i].payload.route.approval.Required?
      ensures ApprovedBefore(audit + more, more[i].id, more[i].payload, |audit| + i)
    {
      var id := ids[i];
      assert Authorized(pf, s, id) && Backed(pf, id, s.approvals[id], audit);
      var payload :| s.approvals[id].fingerprint == pf.fingerprint(payload) && ApprovedBefore(audit, id, payload, |audit|);
      assert payload == PayloadOf(s, id);
      StillApproved(audit, more, id, payload);
    }
    SoundGrows(audit, more);
  }

  lemma {:induction false} SavedBacked(pf: Platform, approvals: map<string, ApprovalRecord>, audit: seq<Audit>)
    requires ValidPlatform(pf) && AllBacked(pf, approvals, audit)
    ensures AllBacked(pf, RedactApprovals(pf, approvals), audit)
  {
    forall id | id in approvals ensures Backed(pf, id, RedactApproval(pf, approvals[id]), audit) {
      assert Backed(pf, id, approvals[id], audit);
      var payload :| approvals[id].fingerprint == pf.fingerprint(payload) && ApprovedBefore(audit, id, payload, |audit|);
      assert Hex(pf.fingerprint(payload));
    }
  }

  lemma {:induction false} ApproveBacked(pf: Platform, s: Snapshot, audit: seq<Audit>, id: string, approver: string,
                                         time: string)
    requires id in s.workItems && id in s.routes && AllBacked(pf, s.approvals, audit)
    ensures AllBacked(pf, WithApproval(pf, s, id, approver, time).approvals, audit + [Approval(id, PayloadOf(s, id))])
  {
    var entry := Approval(id, PayloadOf(s, id));
    StillBacked(pf, s.approvals, audit, [entry]);
    var longer := audit + [entry];
    assert ApprovedBefore(longer, id, PayloadOf(s, id), |longer|) by {
      assert longer[|audit|] == entry && NoAdoption(longer, |audit|, |longer|);
    }
  }

  lemma {:induction false} SaveAudit(pf: Platform, w: Work, f: RunFiles)
    requires ValidPlatform(pf) && AuditSound(f.audit) && AllBacked(pf, w.mem.approvals, f.audit)
    requires w.adopting ==> w.mem.approvals == map[]
    ensures AuditSound(FilesAfterSave(pf, w, f).audit)
    ensures AllBacked(pf, w.mem.approvals, FilesAfterSave(pf, w, f).audit)
    ensures AllBacked(pf, FilesAfterSave(pf, w, f).disk.value.approvals, FilesAfterSave(pf, w, f).audit)
  {
    SavedBacked(pf, w.mem.approvals, f.audit);
    if w.adopting {
      SoundGrows(f.audit, [Adoption(w.mem.configurationDigest)]);
    }
  }

  lemma {:induction false} StartAudit(pf: Platform, w: Work, f: RunFiles, ids: seq<string>)
    requires Injective(pf) && WellFormed(w.mem) && ids == NextBatch(pf, w.mem, w.limit)
    requires AuditSound(f.audit) && AllBacked(pf, w.mem.approvals, f.audit)
    requires f.disk.Some? && AllBacked(pf, f.disk.value.approvals, f.audit)
    ensures (forall id | id in ids :: id in w.mem.workItems)
    ensures var audit := f.audit + Dispatches(w.mem, ids);
            AuditSound(audit) && AllBacked(pf, w.mem.approvals, audit) && AllBacked(pf, f.disk.value.approvals, audit)
  {
    BatchReady(pf, w.mem, w.limit);
    assert forall i | 0 <= i < |ids| :: ids[i] in ids && Ready(pf, w.mem, ids[i]);
    DispatchesSound(pf, w.mem, f.audit, ids);
    StillBacked(pf, w.mem.approvals, f.audit, Dispatches(w.mem, ids));
    StillBacked(pf, f.disk.value.approvals, f.audit, Dispatches(w.mem, ids));
  }

  lemma {:induction false} ApproveWorks(pf: Platform, v: View, id: string, approver: string, time: string)
    requires Enabled(pf, Approve(id, approver, time), v)
    ensures v.session.Working?
  {
  }

  lemma {:induction false} ApproveApplied(pf: Platform, v: View, id: string, approver: string, time: string)
    requires InMemoryWellFormed(v) && v.session.Working? && Enabled(pf, Approve(id, approver, time), v)
    ensures id in v.session.work.mem.workItems && id in v.session.work.mem.routes
    ensures var s, v' := v.session.work.mem, Apply(pf, Approve(id, approver, time), v);
            && v'.session.Working? && v'.session.work.mem == WithApproval(pf, s, id, approver, time)
            && v'.files == v.files.(audit := v.files.audit + [Approval(id, PayloadOf(s, id))])
  {
    hide WithApproval, PayloadOf, WellFormed;
  }

  lemma {:induction false} ApproveAudit(pf: Platform, v: View, id: string, approver: string, time: string)
    requires SessionOk(pf, v) && AuditOk(pf, v) && Enabled(pf, Approve(id, approver, time), v)
    ensures AuditOk(pf, Apply(pf, Approve(id, approver, time), v))
  {
    hide AllBacked, AuditSound, SessionOk, Enabled, Apply, WithApproval, PayloadOf, WellFormed, Explained, MemoryAhead,
      PlanAhead, TurnsOk, TodoOk;
    ApproveWorks(pf, v, id, approver, time);
    WorkFacts(pf, v);
    ApproveApplied(pf, v, id, approver, time);
    var s, audit := v.session.work.mem, v.files.audit;
    var more := [Approval(id, PayloadOf(s, id))];
    ApproveBacked(pf, s, audit, id, approver, time);
    StillBacked(pf, v.files.disk.value.approvals, audit, more);
    SoundGrows(audit, more);
  }

  lemma {:induction false} SavedAudit(pf: Platform, v: View)
    requires ValidPlatform(pf) && AuditOk(pf, v) && Enabled(pf, SaveState, v) && InMemoryWellFormed(v)
    requires v.session.Working? && (v.session.work.adopting ==> v.session.work.mem.approvals == map[])
    ensures AuditOk(pf, Apply(pf, SaveState, v))
  {
    hide AllBacked, AuditSound, ValidPlatform, WellFormed, FilesAfterSave;
    SaveAudit(pf, v.session.work, v.files);
    DiskAfterSave(pf, v.session.work, v.files);
  }

  lemma {:induction false} DiskAfterSave(pf: Platform, w: Work, f: RunFiles)
    ensures FilesAfterSave(pf, w, f).disk.Some?
  {
  }

  lemma {:induction false} StartedAudit(pf: Platform, v: View, ids: seq<string>)
    requires Injective(pf) && AuditOk(pf, v) && Enabled(pf, Start(ids), v) && InMemoryWellFormed(v)
    requires v.files.disk.Some?
    ensures AuditOk(pf, Apply(pf, Start(ids), v))
  {
    hide AllBacked, AuditSound, Injective, WellFormed, NextBatch, Dispatches;
    StartAudit(pf, v.session.work, v.files, ids);
  }

  predicate TouchesAudit(a: Action) {
    a.SaveState? || a.Start? || a.Approve? || a.WriteFirst? || a.Adopt?
  }

  lemma {:induction false} UntouchedAudit(pf: Platform, a: Action, v: View)
    requires AuditOk(pf, v) && Enabled(pf, a, v) && InMemoryWellFormed(v) && !TouchesAudit(a)
    ensures AuditOk(pf, Apply(pf, a, v))
  {
    hide AllBacked, AuditSound, WellFormed;
  }

  lemma {:induction false} EmptyAudit(pf: Platform, a: Action, v: View)
    requires AuditOk(pf, v) && Enabled(pf, a, v) && InMemoryWellFormed(v) && (a.WriteFirst? || a.Adopt?)
    requires a.WriteFirst? ==> v.session.first.approvals == map[]
    ensures AuditOk(pf, Apply(pf, a, v))
  {
    hide AllBacked, AuditSound, WellFormed;
    NothingBacked(pf, v.files.audit);
    if a.WriteFirst? {
      assert RedactApprovals(pf, v.session.first.approvals) == map[];
    }
  }

  lemma {:induction false} SessionFacts(pf: Platform, v: View)
    requires SessionOk(pf, v)
    ensures InMemoryWellFormed(v)
    ensures v.session.Working? ==>
              v.files.disk.Some? && (v.session.work.adopting ==> v.session.work.mem.approvals == map[])
    ensures v.session.Creating? ==> v.session.first.approvals == map[]
  {
    if v.session.Working? {
      WorkFacts(pf, v);
    }
  }

  lemma {:induction false} ActsOn(pf: Platform, a: Action, v: View)
    requires Enabled(pf, a, v)
    ensures a.SaveState? || a.Start? ==> v.session.Working?
    ensures a.WriteFirst? ==> v.session.Creating?
  {
  }

  /** Every step keeps the audit trail sound. */
  lemma {:induction false} AuditKeeps(pf: Platform, a: Action, v: View)
    requires ValidPlatform(pf) && Injective(pf)
    requires SessionOk(pf, v) && AuditOk(pf, v) && Enabled(pf, a, v)
    ensures AuditOk(pf, Apply(pf, a, v))
  {
    hide *;
    SessionFacts(pf, v);
    ActsOn(pf, a, v);
    match a
    case SaveState => SavedAudit(pf, v);
    case Start(ids) => StartedAudit(pf, v, ids);
    case Approve(id, approver, time) => ApproveAudit(pf, v, id, approver, time);
    case WriteFirst => EmptyAudit(pf, a, v);
    case Adopt(_, _) => EmptyAudit(pf, a, v);
    case _ => NotTouched(a); UntouchedAudit(pf, a, v);
  }

  lemma {:induction false} NotTouched(a: Action)
    requires !a.SaveState? && !a.Start? && !a.Approve? && !a.WriteFirst? && !a.Adopt?
    ensures !TouchesAudit(a)
  {
  }

  lemma {:induction false} NothingBacked(pf: Platform, audit: seq<Audit>)
    ensures AllBacked(pf, map[], audit)
  {
  }

  // ----- approvals survive saving and loading -----

  lemma {:induction false} StablePayload(pf: Platform, s: Snapshot, s': Snapshot, id: string)
    requires Stable(pf, s) && id in s.workItems && id in s.routes
    requires s'.workItems == s.workItems && s'.routes == s.routes && s'.configurationDigest == s.configurationDigest
    ensures id in Persisted(pf, s').workItems && id in Persisted(pf, s').routes
    ensures PayloadOf(Persisted(pf, s'), id) == PayloadOf(s, id)
  {
    assert Persisted(pf, s).workItems == s.workItems && Persisted(pf, s).routes == s.routes;
  }

  /** An approval recorded on a loaded state still authorizes the item after the
      state is saved: only loaded states have the text that is hashed. */
  lemma {:induction false} ApprovalSurvives(pf: Platform, s: Snapshot, id: string, approver: string, time: string)
    requires ValidPlatform(pf) && Stable(pf, s) && id in s.workItems && id in s.routes
    ensures Authorized(pf, Persisted(pf, WithApproval(pf, s, id, approver, time)), id)
  {
    var s' := WithApproval(pf, s, id, approver, time);
    var record := s'.approvals[id];
    StablePayload(pf, s, s', id);
    assert Persisted(pf, s).objective == s.objective && Persisted(pf, s).configurationDigest == s.configurationDigest;
    assert Hex(record.fingerprint);
    assert Persisted(pf, s').approvals[id] == RedactApproval(pf, record);
  }

  /** The state after n times saving and loading. */
  function SavedTimes(pf: Platform, s: Snapshot, n: nat): Snapshot {
    if n == 0 then s else Persisted(pf, SavedTimes(pf, s, n - 1))
  }

  lemma {:induction false} SavedOnceOrOften(pf: Platform, s: Snapshot, n: nat)
    requires ValidPlatform(pf) && n >= 1
    ensures SavedTimes(pf, s, n) == Persisted(pf, s)
    decreases n
  {
    if n == 1 {
      assert SavedTimes(pf, s, 0) == s;
    } else {
      SavedOnceOrOften(pf, s, n - 1);
      PersistedIdempotent(pf, s);
    }
  }

  /** Redaction leaves what an approval of the item is bound to as it is. */
  predicate PayloadClean(pf: Platform, s: Snapshot, id: string)
    requires id in s.workItems && id in s.routes
  {
    && RedactText(pf, s.configurationDigest) == s.configurationDigest
    && RedactRoute(pf, s.routes[id]) == s.routes[id]
    && RedactItem(pf, s.workItems[id]) == s.workItems[id]
  }

  lemma {:induction false} SavedPayload(pf: Platform, s: Snapshot, s': Snapshot, id: string)
    requires id in s.workItems && id in s.routes
    requires s'.workItems == s.workItems && s'.routes == s.routes && s'.configurationDigest == s.configurationDigest
    ensures id in Persisted(pf, s').workItems && id in Persisted(pf, s').routes
    ensures PayloadOf(Persisted(pf, s'), id) == PayloadOf(s, id) <==> PayloadClean(pf, s, id)
    ensures Persisted(pf, s').routes[id].approval == s.routes[id].approval
  {
    hide RedactItem;
  }

  /** What an approval is worth once the state has been saved and loaded, however
      often: it authorizes the item if its route needs none, or if nothing that it
      is bound to was redacted, and otherwise not. */
  lemma {:induction false} ApprovalLasts(pf: Platform, s: Snapshot, id: string, approver: string, time: string, n: nat)
    requires ValidPlatform(pf) && Injective(pf) && id in s.workItems && id in s.routes && n >= 1
    ensures Authorized(pf, SavedTimes(pf, WithApproval(pf, s, id, approver, time), n), id) <==>
              s.routes[id].approval.Automatic? || PayloadClean(pf, s, id)
  {
    var s' := WithApproval(pf, s, id, approver, time);
    SavedOnceOrOften(pf, s', n);
    SavedPayload(pf, s, s', id);
    var record := s'.approvals[id];
    assert Hex(record.fingerprint);
    hide RedactItem, RedactRoute, RedactObjective, RedactRepository;
    assert Persisted(pf, s').approvals[id] == RedactApproval(pf, record);
  }
}
