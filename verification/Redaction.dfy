// Removal of secrets on the way to disk (json_store.py:19-31 and 150-166), on
// JSON values and on the snapshots they encode.

module Redaction {
  import opened Domain
  import opened Rules

  const REDACTED := "[REDACTED]"

  function RedactText(pf: Platform, t: string): string {
    if pf.secretText(t) then REDACTED else t
  }

  function RedactJson(pf: Platform, v: Json): Json
    decreases v
  {
    match v
    case JObject(fields) =>
      JObject(map k | k in fields :: if pf.secretKey(k) then JString(REDACTED) else RedactJson(pf, fields[k]))
    case JList(items) => JList(seq(|items|, i requires 0 <= i < |items| => RedactJson(pf, items[i])))
    case JString(t) => JString(RedactText(pf, t))
    case _ => v
  }

  // ----- the laws the engine relies on -----

  predicate Hex(t: string) {
    forall i | 0 <= i < |t| :: '0' <= t[i] <= '9' || 'a' <= t[i] <= 'f'
  }

  /** The placeholder, hexadecimal hashes, time stamps and the reserved
      identifiers are never taken for secrets; SecretPolicy proves this of the
      redaction rules of the store. */
  ghost predicate ValidPlatform(pf: Platform) {
    && !pf.secretText(REDACTED)
    && (forall t: string | Hex(t) :: !pf.secretText(t))
    && (forall t: string | pf.timestamp(t) :: !pf.secretText(t))
    && (forall p: Payload :: Hex(pf.fingerprint(p)))
    && !pf.secretText(COMPLETION_ID) && !pf.secretKey(COMPLETION_ID)
    && !pf.secretText(TASK_ID) && !pf.secretKey(TASK_ID)
  }

  lemma {:induction false} RedactTextIdempotent(pf: Platform, t: string)
    requires ValidPlatform(pf)
    ensures RedactText(pf, RedactText(pf, t)) == RedactText(pf, t)
  {
  }

  /** Redacting twice is redacting once. */
  lemma {:induction false} RedactJsonIdempotent(pf: Platform, v: Json)
    requires ValidPlatform(pf)
    ensures RedactJson(pf, RedactJson(pf, v)) == RedactJson(pf, v)
    decreases v
  {
    match v
    case JObject(fields) =>
      RedactTextIdempotent(pf, REDACTED);
      forall k | k in fields ensures RedactJson(pf, RedactJson(pf, fields[k])) == RedactJson(pf, fields[k]) {
        RedactJsonIdempotent(pf, fields[k]);
      }
    case JList(items) =>
      forall i | 0 <= i < |items| ensures RedactJson(pf, RedactJson(pf, items[i])) == RedactJson(pf, items[i]) {
        RedactJsonIdempotent(pf, items[i]);
      }
    case JString(t) => RedactTextIdempotent(pf, t);
    case _ =>
  }

  // ----- the snapshot that is on disk after saving s -----

  function RedactOption(pf: Platform, t: Option<string>): Option<string> {
    match t case None => None case Some(v) => Some(RedactText(pf, v))
  }

  function RedactTexts(pf: Platform, ts: seq<string>): seq<string> {
    seq(|ts|, i requires 0 <= i < |ts| => RedactText(pf, ts[i]))
  }

  function RedactJsons(pf: Platform, vs: seq<Json>): seq<Json> {
    seq(|vs|, i requires 0 <= i < |vs| => RedactJson(pf, vs[i]))
  }

  function RedactItem(pf: Platform, w: WorkItem): WorkItem {
    WorkItem(RedactText(pf, w.id), RedactText(pf, w.title), RedactText(pf, w.instructions), RedactText(pf, w.task),
             RedactText(pf, w.phase), RedactTexts(pf, w.dependencies), w.access, RedactTexts(pf, w.affectedPaths),
             RedactText(pf, w.expectedResult), RedactTexts(pf, w.verification), w.confidence,
             set f | f in w.riskFlags :: RedactText(pf, f))
  }

  function RedactRoute(pf: Platform, r: RouteDecision): RouteDecision {
    RouteDecision(RedactText(pf, r.task), RedactText(pf, r.modelAlias), RedactText(pf, r.model),
                  RedactText(pf, r.reasoningEffort), r.sandbox, r.approval, r.timeoutSeconds, r.maxAttempts,
                  r.destructive, r.externalWrite, RedactOption(pf, r.escalationTask), r.source,
                  RedactText(pf, r.reason))
  }

  function RedactResult(pf: Platform, r: WorkResult): WorkResult {
    WorkResult(RedactText(pf, r.workItemId), RedactOption(pf, r.threadId), RedactOption(pf, r.turnId), r.status,
               RedactOption(pf, r.finalResponse),
               RedactJsons(pf, r.sdkItems),
               r.inputTokens, r.cachedInputTokens, r.outputTokens, r.durationSeconds,
               RedactTexts(pf, r.changedPaths), RedactTexts(pf, r.verification), r.confidence,
               r.escalationRequested, RedactOption(pf, r.error))
  }

  function RedactApproval(pf: Platform, a: ApprovalRecord): ApprovalRecord {
    ApprovalRecord(RedactText(pf, a.runId), RedactText(pf, a.workItemId), RedactText(pf, a.approvedBy),
                   RedactText(pf, a.approvedAt), RedactText(pf, a.configurationDigest),
                   RedactText(pf, a.fingerprint))
  }

  function RedactObjective(pf: Platform, o: Objective): Objective {
    Objective(RedactText(pf, o.id), RedactText(pf, o.prompt), RedactText(pf, o.projectPath),
              RedactOption(pf, o.explicitTask), RedactText(pf, o.configPath), RedactText(pf, o.createdAt))
  }

  function RedactInstructions(pf: Platform, fs: seq<InstructionFile>): seq<InstructionFile> {
    seq(|fs|, i requires 0 <= i < |fs| => InstructionFile(RedactText(pf, fs[i].path), RedactText(pf, fs[i].content)))
  }

  function RedactCounts(pf: Platform, cs: seq<LanguageCount>): seq<LanguageCount> {
    seq(|cs|, i requires 0 <= i < |cs| => LanguageCount(RedactText(pf, cs[i].language), cs[i].count))
  }

  function RedactRepository(pf: Platform, r: RepositoryContext): RepositoryContext {
    RepositoryContext(RedactText(pf, r.projectPath), r.isGitWorktree, RedactOption(pf, r.branch),
                      RedactTexts(pf, r.dirtyPaths), RedactInstructions(pf, r.instructionFiles),
                      RedactCounts(pf, r.languageCounts), RedactTexts(pf, r.dockerFiles),
                      RedactTexts(pf, r.commandErrors))
  }

  function RedactItems(pf: Platform, m: map<string, WorkItem>): (r: map<string, WorkItem>)
    ensures r.Keys == m.Keys
  {
    map id | id in m :: RedactItem(pf, m[id])
  }

  function RedactRoutes(pf: Platform, m: map<string, RouteDecision>): (r: map<string, RouteDecision>)
    ensures r.Keys == m.Keys
  {
    map id | id in m :: RedactRoute(pf, m[id])
  }

  function RedactResults(pf: Platform, m: map<string, WorkResult>): (r: map<string, WorkResult>)
    ensures r.Keys == m.Keys
  {
    map id | id in m :: RedactResult(pf, m[id])
  }

  function RedactApprovals(pf: Platform, m: map<string, ApprovalRecord>): (r: map<string, ApprovalRecord>)
    ensures r.Keys == m.Keys
  {
    map id | id in m :: RedactApproval(pf, m[id])
  }

  function Persisted(pf: Platform, s: Snapshot): Snapshot {
    Snapshot(s.schemaVersion, RedactText(pf, s.configurationDigest), RedactObjective(pf, s.objective),
             RedactRepository(pf, s.repository),
             RedactItems(pf, s.workItems),
             RedactRoutes(pf, s.routes),
             RedactResults(pf, s.results),
             RedactApprovals(pf, s.approvals),
             s.status)
  }

  /** No map key of the snapshot names a secret. */
  predicate KeysClean(pf: Platform, s: Snapshot) {
    && KeySetClean(pf, s.workItems.Keys) && KeySetClean(pf, s.routes.Keys)
    && KeySetClean(pf, s.results.Keys) && KeySetClean(pf, s.approvals.Keys)
  }

  predicate KeySetClean(pf: Platform, keys: set<string>) {
    forall k | k in keys :: !pf.secretKey(k)
  }

  /** No field that identifies a run, an item or a dependency looks like a
      secret, and the configuration digest is hexadecimal. */
  predicate IdentitiesClean(pf: Platform, s: Snapshot) {
    && !pf.secretText(s.objective.id)
    && Hex(s.configurationDigest)
    && ItemIdsClean(pf, s.workItems)
  }

  lemma {:induction false} RedactTextsIdempotent(pf: Platform, ts: seq<string>)
    requires ValidPlatform(pf)
    ensures RedactTexts(pf, RedactTexts(pf, ts)) == RedactTexts(pf, ts)
  {
    forall i | 0 <= i < |ts| ensures RedactText(pf, RedactText(pf, ts[i])) == RedactText(pf, ts[i]) {
      RedactTextIdempotent(pf, ts[i]);
    }
  }

  lemma {:induction false} RedactOptionIdempotent(pf: Platform, t: Option<string>)
    requires ValidPlatform(pf)
    ensures RedactOption(pf, RedactOption(pf, t)) == RedactOption(pf, t)
  {
    if t.Some? {
      RedactTextIdempotent(pf, t.value);
    }
  }

  lemma {:induction false} RedactItemIdempotent(pf: Platform, w: WorkItem)
    requires ValidPlatform(pf)
    ensures RedactItem(pf, RedactItem(pf, w)) == RedactItem(pf, w)
  {
    RedactTextIdempotent(pf, w.id);
    RedactTextIdempotent(pf, w.title);
    RedactTextIdempotent(pf, w.instructions);
    RedactTextIdempotent(pf, w.task);
    RedactTextIdempotent(pf, w.phase);
    RedactTextIdempotent(pf, w.expectedResult);
    RedactTextsIdempotent(pf, w.dependencies);
    RedactTextsIdempotent(pf, w.affectedPaths);
    RedactTextsIdempotent(pf, w.verification);
    var once := set f | f in w.riskFlags :: RedactText(pf, f);
    var twice := set f | f in once :: RedactText(pf, f);
    assert twice == once by {
      forall f | f in w.riskFlags ensures RedactText(pf, RedactText(pf, f)) == RedactText(pf, f) {
        RedactTextIdempotent(pf, f);
      }
    }
  }

  lemma {:induction false} RedactRouteIdempotent(pf: Platform, r: RouteDecision)
    requires ValidPlatform(pf)
    ensures RedactRoute(pf, RedactRoute(pf, r)) == RedactRoute(pf, r)
  {
    RedactTextIdempotent(pf, r.task);
    RedactTextIdempotent(pf, r.modelAlias);
    RedactTextIdempotent(pf, r.model);
    RedactTextIdempotent(pf, r.reasoningEffort);
    RedactTextIdempotent(pf, r.reason);
    RedactOptionIdempotent(pf, r.escalationTask);
  }

  lemma {:induction false} RedactResultIdempotent(pf: Platform, r: WorkResult)
    requires ValidPlatform(pf)
    ensures RedactResult(pf, RedactResult(pf, r)) == RedactResult(pf, r)
  {
    RedactTextIdempotent(pf, r.workItemId);
    RedactOptionIdempotent(pf, r.threadId);
    RedactOptionIdempotent(pf, r.turnId);
    RedactOptionIdempotent(pf, r.finalResponse);
    RedactOptionIdempotent(pf, r.error);
    RedactTextsIdempotent(pf, r.changedPaths);
    RedactTextsIdempotent(pf, r.verification);
    forall i | 0 <= i < |r.sdkItems|
      ensures RedactJson(pf, RedactJson(pf, r.sdkItems[i])) == RedactJson(pf, r.sdkItems[i])
    {
      RedactJsonIdempotent(pf, r.sdkItems[i]);
    }
  }

  lemma {:induction false} RedactApprovalIdempotent(pf: Platform, a: ApprovalRecord)
    requires ValidPlatform(pf)
    ensures RedactApproval(pf, RedactApproval(pf, a)) == RedactApproval(pf, a)
  {
    RedactTextIdempotent(pf, a.runId);
    RedactTextIdempotent(pf, a.workItemId);
    RedactTextIdempotent(pf, a.approvedBy);
    RedactTextIdempotent(pf, a.approvedAt);
    RedactTextIdempotent(pf, a.configurationDigest);
    RedactTextIdempotent(pf, a.fingerprint);
  }

  lemma {:induction false} RedactObjectiveIdempotent(pf: Platform, o: Objective)
    requires ValidPlatform(pf)
    ensures RedactObjective(pf, RedactObjective(pf, o)) == RedactObjective(pf, o)
  {
    RedactTextIdempotent(pf, o.id);
    RedactTextIdempotent(pf, o.prompt);
    RedactTextIdempotent(pf, o.projectPath);
    RedactTextIdempotent(pf, o.configPath);
    RedactTextIdempotent(pf, o.createdAt);
    RedactOptionIdempotent(pf, o.explicitTask);
  }

  lemma {:induction false} RedactRepositoryIdempotent(pf: Platform, r: RepositoryContext)
    requires ValidPlatform(pf)
    ensures RedactRepository(pf, RedactRepository(pf, r)) == RedactRepository(pf, r)
  {
    RedactTextIdempotent(pf, r.projectPath);
    RedactOptionIdempotent(pf, r.branch);
    RedactTextsIdempotent(pf, r.dirtyPaths);
    RedactTextsIdempotent(pf, r.dockerFiles);
    RedactTextsIdempotent(pf, r.commandErrors);
    forall i | 0 <= i < |r.instructionFiles|
      ensures RedactText(pf, RedactText(pf, r.instructionFiles[i].path)) == RedactText(pf, r.instructionFiles[i].path)
      ensures RedactText(pf, RedactText(pf, r.instructionFiles[i].content)) == RedactText(pf, r.instructionFiles[i].content)
    {
      RedactTextIdempotent(pf, r.instructionFiles[i].path);
      RedactTextIdempotent(pf, r.instructionFiles[i].content);
    }
    forall i | 0 <= i < |r.languageCounts|
      ensures RedactText(pf, RedactText(pf, r.languageCounts[i].language)) == RedactText(pf, r.languageCounts[i].language)
    {
      RedactTextIdempotent(pf, r.languageCounts[i].language);
    }
  }

  lemma {:induction false} RedactItemsIdempotent(pf: Platform, m: map<string, WorkItem>)
    requires ValidPlatform(pf)
    ensures RedactItems(pf, RedactItems(pf, m)) == RedactItems(pf, m)
  {
    forall id | id in m ensures RedactItem(pf, RedactItem(pf, m[id])) == RedactItem(pf, m[id]) {
      RedactItemIdempotent(pf, m[id]);
    }
  }

  lemma {:induction false} RedactRoutesIdempotent(pf: Platform, m: map<string, RouteDecision>)
    requires ValidPlatform(pf)
    ensures RedactRoutes(pf, RedactRoutes(pf, m)) == RedactRoutes(pf, m)
  {
    forall id | id in m ensures RedactRoute(pf, RedactRoute(pf, m[id])) == RedactRoute(pf, m[id]) {
      RedactRouteIdempotent(pf, m[id]);
    }
  }

  lemma {:induction false} RedactResultsIdempotent(pf: Platform, m: map<string, WorkResult>)
    requires ValidPlatform(pf)
    ensures RedactResults(pf, RedactResults(pf, m)) == RedactResults(pf, m)
  {
    forall id | id in m ensures RedactResult(pf, RedactResult(pf, m[id])) == RedactResult(pf, m[id]) {
      RedactResultIdempotent(pf, m[id]);
    }
  }

  lemma {:induction false} RedactApprovalsIdempotent(pf: Platform, m: map<string, ApprovalRecord>)
    requires ValidPlatform(pf)
    ensures RedactApprovals(pf, RedactApprovals(pf, m)) == RedactApprovals(pf, m)
  {
    forall id | id in m ensures RedactApproval(pf, RedactApproval(pf, m[id])) == RedactApproval(pf, m[id]) {
      RedactApprovalIdempotent(pf, m[id]);
    }
  }

  /** Every save after the first writes exactly what was loaded. */
  lemma {:induction false} PersistedIdempotent(pf: Platform, s: Snapshot)
    requires ValidPlatform(pf)
    ensures Persisted(pf, Persisted(pf, s)) == Persisted(pf, s)
  {
    RedactTextIdempotent(pf, s.configurationDigest);
    RedactObjectiveIdempotent(pf, s.objective);
    RedactRepositoryIdempotent(pf, s.repository);
    RedactItemsIdempotent(pf, s.workItems);
    RedactRoutesIdempotent(pf, s.routes);
    RedactResultsIdempotent(pf, s.results);
    RedactApprovalsIdempotent(pf, s.approvals);
  }

  lemma {:induction false} CleanTexts(pf: Platform, ts: seq<string>)
    requires TextsClean(pf, ts)
    ensures RedactTexts(pf, ts) == ts
  {
  }

  predicate TextsClean(pf: Platform, ts: seq<string>) {
    forall i | 0 <= i < |ts| :: !pf.secretText(ts[i])
  }

  predicate ItemClean(pf: Platform, w: WorkItem) {
    !pf.secretText(w.id) && TextsClean(pf, w.dependencies)
  }

  /** No identifier or dependency of the items looks like a secret. */
  predicate ItemIdsClean(pf: Platform, items: map<string, WorkItem>) {
    forall id | id in items :: ItemClean(pf, items[id])
  }

  lemma {:induction false} RedactItemsKeeps(pf: Platform, items: map<string, WorkItem>)
    requires ItemIdsClean(pf, items) && ItemsKeyed(items)
    ensures forall id | id in items :: RedactItem(pf, items[id]).dependencies == items[id].dependencies
    ensures ItemsKeyed(RedactItems(pf, items)) && ItemIdsClean(pf, RedactItems(pf, items))
  {
    forall id | id in items ensures RedactItem(pf, items[id]).dependencies == items[id].dependencies {
      assert ItemClean(pf, items[id]);
      CleanTexts(pf, items[id].dependencies);
    }
  }

  lemma {:induction false} RedactResultsKeeps(pf: Platform, results: map<string, WorkResult>)
    requires ResultsKeyed(results) && forall id | id in results :: !pf.secretText(id)
    ensures ResultsKeyed(RedactResults(pf, results))
  {
  }

  /** The same items with the same dependencies, the same statuses of results. */
  ghost predicate SameProgress(s: Snapshot, s': Snapshot) {
    && s'.workItems.Keys == s.workItems.Keys && s'.results.Keys == s.results.Keys
    && (forall id | id in s.workItems :: s'.workItems[id].dependencies == s.workItems[id].dependencies)
    && (forall id | id in s.results :: s'.results[id].status == s.results[id].status)
  }

  /** With clean identities, saving keeps identifiers, dependencies, statuses and
      the shape of the run. */
  lemma {:induction false} PersistedKeepsProgress(pf: Platform, s: Snapshot)
    requires ValidPlatform(pf) && WellFormed(s) && IdentitiesClean(pf, s)
    ensures SameProgress(s, Persisted(pf, s))
    ensures WellFormed(Persisted(pf, s)) && IdentitiesClean(pf, Persisted(pf, s))
    ensures Persisted(pf, s).configurationDigest == s.configurationDigest
    ensures Persisted(pf, s).objective.id == s.objective.id
    ensures KeysClean(pf, s) ==> KeysClean(pf, Persisted(pf, s))
  {
    RedactItemsKeeps(pf, s.workItems);
    assert forall id | id in s.results :: id in s.workItems && ItemClean(pf, s.workItems[id]);
    RedactResultsKeeps(pf, s.results);
  }
}
