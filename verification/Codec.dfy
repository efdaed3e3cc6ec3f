// The JSON form of a run (domain.py): what saving writes, what redaction leaves
// of it, and what loading reads back.

module Codec {
  import opened Domain
  import opened Ordering
  import opened Redaction
  import opened FieldNames

  datatype Problem = Missing(field: string) | Mistyped(field: string) | Unknown(field: string, text: string)

  type Fields = map<string, Json>

  // ----- encoding -----

  function Word(t: Tag): Json {
    JString(TagText(t))
  }

  function Optional(t: Option<string>): Json {
    if t.Some? then JString(t.value) else JNull
  }

  function TextList(ts: seq<string>): Json {
    JList(seq(|ts|, i requires 0 <= i < |ts| => JString(ts[i])))
  }

  function AccessTag(a: AccessMode): Tag {
    match a case ReadOnly => Tag.ReadOnly case WorkspaceWrite => Tag.WorkspaceWrite
  }

  function SandboxTag(s: SandboxMode): Tag {
    match s case ReadOnly => Tag.ReadOnly case WorkspaceWrite => Tag.WorkspaceWrite
  }

  function ApprovalTag(a: ApprovalMode): Tag {
    match a case Automatic => Tag.Automatic case Required => Tag.Required
  }

  function SourceTag(s: RouteSource): Tag {
    match s
    case Explicit => Tag.Explicit
    case Planned => Tag.Planner
    case Match => Tag.Match
    case Default => Tag.Default
  }

  function WorkTag(s: WorkStatus): Tag {
    match s
    case Pending => Tag.Pending
    case AwaitingApproval => Tag.AwaitingApproval
    case Running => Tag.Running
    case Succeeded => Tag.Succeeded
    case Failed => Tag.Failed
    case Blocked => Tag.Blocked
  }

  function RunTag(s: RunStatus): Tag {
    match s
    case Planned => Tag.Planned
    case AwaitingApproval => Tag.AwaitingApproval
    case Running => Tag.Running
    case Completed => Tag.Completed
    case Failed => Tag.Failed
    case Blocked => Tag.Blocked
  }

  type Record = map<Field, Json>

  /** A record under the names of its fields. */
  function Named(m: Record): (o: Fields)
    ensures forall f | f in m :: Name(f) in o && o[Name(f)] == m[f]
  {
    NamesDiffer();
    map f | f in m :: Name(f) := m[f]
  }

  function ItemFields(w: WorkItem): Record {
    map[Id := JString(w.id), Title := JString(w.title), Instructions := JString(w.instructions),
        Task := JString(w.task), Phase := JString(w.phase), Dependencies := TextList(w.dependencies),
        Access := Word(AccessTag(w.access)), AffectedPaths := TextList(w.affectedPaths),
        ExpectedResult := JString(w.expectedResult), Verification := TextList(w.verification),
        Confidence := JFloat(w.confidence), RiskFlags := TextList(Sorted(w.riskFlags))]
  }

  function RouteFields(r: RouteDecision): Record {
    map[Task := JString(r.task), ModelAlias := JString(r.modelAlias), Model := JString(r.model),
        ReasoningEffort := JString(r.reasoningEffort), Sandbox := Word(SandboxTag(r.sandbox)),
        Approval := Word(ApprovalTag(r.approval)),
        TimeoutSeconds := JInt(r.timeoutSeconds), MaxAttempts := JInt(r.maxAttempts),
        Destructive := JBool(r.destructive), ExternalWrite := JBool(r.externalWrite),
        EscalationTask := Optional(r.escalationTask), Source := Word(SourceTag(r.source)),
        Reason := JString(r.reason)]
  }

  function ResultFields(r: WorkResult): Record {
    map[WorkItemId := JString(r.workItemId), ThreadId := Optional(r.threadId), TurnId := Optional(r.turnId),
        Status := Word(WorkTag(r.status)), FinalResponse := Optional(r.finalResponse),
        SdkItems := JList(r.sdkItems), InputTokens := JInt(r.inputTokens),
        CachedInputTokens := JInt(r.cachedInputTokens), OutputTokens := JInt(r.outputTokens),
        DurationSeconds := JFloat(r.durationSeconds), ChangedPaths := TextList(r.changedPaths),
        Verification := TextList(r.verification), Confidence := JFloat(r.confidence),
        EscalationRequested := JBool(r.escalationRequested), Field.Error := Optional(r.error)]
  }

  function ApprovalFields(a: ApprovalRecord): Record {
    map[RunId := JString(a.runId), WorkItemId := JString(a.workItemId), ApprovedBy := JString(a.approvedBy),
        ApprovedAt := JString(a.approvedAt), ConfigurationDigest := JString(a.configurationDigest),
        Fingerprint := JString(a.fingerprint)]
  }

  function ObjectiveFields(o: Domain.Objective): Record {
    map[Id := JString(o.id), Prompt := JString(o.prompt), ProjectPath := JString(o.projectPath),
        ExplicitTask := Optional(o.explicitTask), ConfigPath := JString(o.configPath),
        CreatedAt := JString(o.createdAt)]
  }

  function InstructionFields(f: InstructionFile): Record {
    map[Path := JString(f.path), Content := JString(f.content)]
  }

  function CountFields(c: LanguageCount): Record {
    map[Language := JString(c.language), Count := JInt(c.count)]
  }

  function InstructionList(fs: seq<InstructionFile>): seq<Json> {
    seq(|fs|, i requires 0 <= i < |fs| => JObject(Named(InstructionFields(fs[i]))))
  }

  function CountList(cs: seq<LanguageCount>): seq<Json> {
    seq(|cs|, i requires 0 <= i < |cs| => JObject(Named(CountFields(cs[i]))))
  }

  function RepositoryFields(r: RepositoryContext): Record {
    map[ProjectPath := JString(r.projectPath), IsGitWorktree := JBool(r.isGitWorktree),
        Branch := Optional(r.branch), DirtyPaths := TextList(r.dirtyPaths),
        InstructionFiles := JList(InstructionList(r.instructionFiles)),
        LanguageCounts := JList(CountList(r.languageCounts)),
        DockerFiles := TextList(r.dockerFiles), CommandErrors := TextList(r.commandErrors)]
  }

  function ItemsJson(m: map<string, WorkItem>): (o: Fields)
    ensures o.Keys == m.Keys
  {
    map id | id in m :: JObject(Named(ItemFields(m[id])))
  }

  function RoutesJson(m: map<string, RouteDecision>): (o: Fields)
    ensures o.Keys == m.Keys
  {
    map id | id in m :: JObject(Named(RouteFields(m[id])))
  }

  function ResultsJson(m: map<string, WorkResult>): (o: Fields)
    ensures o.Keys == m.Keys
  {
    map id | id in m :: JObject(Named(ResultFields(m[id])))
  }

  function ApprovalsJson(m: map<string, ApprovalRecord>): (o: Fields)
    ensures o.Keys == m.Keys
  {
    map id | id in m :: JObject(Named(ApprovalFields(m[id])))
  }

  function StateFields(s: Snapshot): Record {
    map[SchemaVersion := JInt(s.schemaVersion), ConfigurationDigest := JString(s.configurationDigest),
        Field.Objective := JObject(Named(ObjectiveFields(s.objective))), Repository := JObject(Named(RepositoryFields(s.repository))),
        WorkItems := JObject(ItemsJson(s.workItems)), Routes := JObject(RoutesJson(s.routes)),
        Results := JObject(ResultsJson(s.results)), Approvals := JObject(ApprovalsJson(s.approvals)),
        Status := Word(RunTag(s.status))]
  }

  function ToJson(s: Snapshot): Json {
    JObject(Named(StateFields(s)))
  }

  // ----- decoding one field -----

  function Text(o: Fields, f: Field): Result<string, Problem> {
    if Name(f) !in o then Err(Missing(Name(f)))
    else if o[Name(f)].JString? then Ok(o[Name(f)].text)
    else Err(Mistyped(Name(f)))
  }

  function MaybeText(o: Fields, f: Field): Result<Option<string>, Problem> {
    if Name(f) !in o then Err(Missing(Name(f)))
    else if o[Name(f)].JNull? then Ok(None)
    else if o[Name(f)].JString? then Ok(Some(o[Name(f)].text))
    else Err(Mistyped(Name(f)))
  }

  function Truth(o: Fields, f: Field): Result<bool, Problem> {
    if Name(f) !in o then Err(Missing(Name(f)))
    else if o[Name(f)].JBool? then Ok(o[Name(f)].truth)
    else Err(Mistyped(Name(f)))
  }

  function Integer(o: Fields, f: Field): Result<int, Problem> {
    if Name(f) !in o then Err(Missing(Name(f)))
    else if o[Name(f)].JInt? then Ok(o[Name(f)].integer)
    else Err(Mistyped(Name(f)))
  }

  function Number(o: Fields, f: Field): Result<Float, Problem> {
    if Name(f) !in o then Err(Missing(Name(f)))
    else if o[Name(f)].JInt? then Ok(Float(o[Name(f)].integer, 0))
    else if o[Name(f)].JFloat? then Ok(o[Name(f)].number)
    else Err(Mistyped(Name(f)))
  }

  function Items(o: Fields, f: Field): Result<seq<Json>, Problem> {
    if Name(f) !in o then Err(Missing(Name(f)))
    else if o[Name(f)].JList? then Ok(o[Name(f)].items)
    else Err(Mistyped(Name(f)))
  }

  function Members(o: Fields, f: Field): Result<Fields, Problem> {
    if Name(f) !in o then Err(Missing(Name(f)))
    else if o[Name(f)].JObject? then Ok(o[Name(f)].fields)
    else Err(Mistyped(Name(f)))
  }

  function PlainTexts(vs: seq<Json>): Result<seq<string>, Problem> {
    if vs == [] then Ok([])
    else if !vs[0].JString? then Err(Mistyped("item"))
    else
      var rest :- PlainTexts(vs[1..]);
      Ok([vs[0].text] + rest)
  }

  function Texts(o: Fields, f: Field): Result<seq<string>, Problem> {
    var vs :- Items(o, f);
    PlainTexts(vs)
  }

  function AccessOf(o: Fields, f: Field): Result<AccessMode, Problem> {
    var t :- Text(o, f);
    if t == TagText(Tag.ReadOnly) then Ok(AccessMode.ReadOnly)
    else if t == TagText(Tag.WorkspaceWrite) then Ok(AccessMode.WorkspaceWrite)
    else Err(Unknown(Name(f), t))
  }

  function SandboxOf(o: Fields, f: Field): Result<SandboxMode, Problem> {
    var t :- Text(o, f);
    if t == TagText(Tag.ReadOnly) then Ok(SandboxMode.ReadOnly)
    else if t == TagText(Tag.WorkspaceWrite) then Ok(SandboxMode.WorkspaceWrite)
    else Err(Unknown(Name(f), t))
  }

  function ApprovalOf(o: Fields, f: Field): Result<ApprovalMode, Problem> {
    var t :- Text(o, f);
    if t == TagText(Tag.Automatic) then Ok(ApprovalMode.Automatic)
    else if t == TagText(Tag.Required) then Ok(ApprovalMode.Required)
    else Err(Unknown(Name(f), t))
  }

  function SourceOf(o: Fields, f: Field): Result<RouteSource, Problem> {
    var t :- Text(o, f);
    if t == TagText(Tag.Explicit) then Ok(RouteSource.Explicit)
    else if t == TagText(Tag.Planner) then Ok(RouteSource.Planned)
    else if t == TagText(Tag.Match) then Ok(RouteSource.Match)
    else if t == TagText(Tag.Default) then Ok(RouteSource.Default)
    else Err(Unknown(Name(f), t))
  }

  function WorkStatusOf(o: Fields, f: Field): Result<WorkStatus, Problem> {
    var t :- Text(o, f);
    if t == TagText(Tag.Pending) then Ok(WorkStatus.Pending)
    else if t == TagText(Tag.AwaitingApproval) then Ok(WorkStatus.AwaitingApproval)
    else if t == TagText(Tag.Running) then Ok(WorkStatus.Running)
    else if t == TagText(Tag.Succeeded) then Ok(WorkStatus.Succeeded)
    else if t == TagText(Tag.Failed) then Ok(WorkStatus.Failed)
    else if t == TagText(Tag.Blocked) then Ok(WorkStatus.Blocked)
    else Err(Unknown(Name(f), t))
  }

  function RunStatusOf(o: Fields, f: Field): Result<RunStatus, Problem> {
    var t :- Text(o, f);
    if t == TagText(Tag.Planned) then Ok(RunStatus.Planned)
    else if t == TagText(Tag.AwaitingApproval) then Ok(RunStatus.AwaitingApproval)
    else if t == TagText(Tag.Running) then Ok(RunStatus.Running)
    else if t == TagText(Tag.Completed) then Ok(RunStatus.Completed)
    else if t == TagText(Tag.Failed) then Ok(RunStatus.Failed)
    else if t == TagText(Tag.Blocked) then Ok(RunStatus.Blocked)
    else Err(Unknown(Name(f), t))
  }

  function Time(pf: Platform, o: Fields, f: Field): Result<string, Problem> {
    var t :- Text(o, f);
    if pf.timestamp(t) then Ok(t) else Err(Mistyped(Name(f)))
  }

  // ----- decoding records -----

  function ItemFrom(o: Fields): Result<WorkItem, Problem> {
    var id :- Text(o, Id);
    var title :- Text(o, Title);
    var instructions :- Text(o, Instructions);
    var task :- Text(o, Task);
    var phase :- Text(o, Phase);
    var dependencies :- Texts(o, Dependencies);
    var access :- AccessOf(o, Access);
    var affectedPaths :- Texts(o, AffectedPaths);
    var expectedResult :- Text(o, ExpectedResult);
    var verification :- Texts(o, Verification);
    var confidence :- Number(o, Confidence);
    var riskFlags :- Texts(o, RiskFlags);
    Ok(WorkItem(id, title, instructions, task, phase, dependencies, access, affectedPaths, expectedResult, verification,
                confidence, set f | f in riskFlags))
  }

  function RouteFrom(o: Fields): Result<RouteDecision, Problem> {
    var task :- Text(o, Task);
    var modelAlias :- Text(o, ModelAlias);
    var model :- Text(o, Model);
    var reasoningEffort :- Text(o, ReasoningEffort);
    var sandbox :- SandboxOf(o, Sandbox);
    var approval :- ApprovalOf(o, Approval);
    var timeoutSeconds :- Integer(o, TimeoutSeconds);
    var maxAttempts :- Integer(o, MaxAttempts);
    var destructive :- Truth(o, Destructive);
    var externalWrite :- Truth(o, ExternalWrite);
    var escalationTask :- MaybeText(o, EscalationTask);
    var source :- SourceOf(o, Source);
    var reason :- Text(o, Reason);
    Ok(RouteDecision(task, modelAlias, model, reasoningEffort, sandbox, approval, timeoutSeconds, maxAttempts, destructive,
                     externalWrite, escalationTask, source, reason))
  }

  function ResultFrom(o: Fields): Result<WorkResult, Problem> {
    var workItemId :- Text(o, WorkItemId);
    var threadId :- MaybeText(o, ThreadId);
    var turnId :- MaybeText(o, TurnId);
    var status :- WorkStatusOf(o, Status);
    var finalResponse :- MaybeText(o, FinalResponse);
    var sdkItems :- Items(o, SdkItems);
    var inputTokens :- Integer(o, InputTokens);
    var cachedInputTokens :- Integer(o, CachedInputTokens);
    var outputTokens :- Integer(o, OutputTokens);
    var durationSeconds :- Number(o, DurationSeconds);
    var changedPaths :- Texts(o, ChangedPaths);
    var verification :- Texts(o, Verification);
    var confidence :- Number(o, Confidence);
    var escalationRequested :- Truth(o, EscalationRequested);
    var error :- MaybeText(o, Field.Error);
    Ok(WorkResult(workItemId, threadId, turnId, status, finalResponse, sdkItems, inputTokens, cachedInputTokens, outputTokens,
                  durationSeconds, changedPaths, verification, confidence, escalationRequested, error))
  }

  function ApprovalFrom(pf: Platform, o: Fields): Result<ApprovalRecord, Problem> {
    var runId :- Text(o, RunId);
    var workItemId :- Text(o, WorkItemId);
    var approvedBy :- Text(o, ApprovedBy);
    var approvedAt :- Time(pf, o, ApprovedAt);
    var configurationDigest :- Text(o, ConfigurationDigest);
    var fingerprint :- Text(o, Fingerprint);
    Ok(ApprovalRecord(runId, workItemId, approvedBy, approvedAt, configurationDigest, fingerprint))
  }

  function ObjectiveFrom(pf: Platform, o: Fields): Result<Domain.Objective, Problem> {
    var id :- Text(o, Id);
    var prompt :- Text(o, Prompt);
    var projectPath :- Text(o, ProjectPath);
    var explicitTask :- MaybeText(o, ExplicitTask);
    var configPath :- Text(o, ConfigPath);
    var createdAt :- Time(pf, o, CreatedAt);
    Ok(Domain.Objective(id, prompt, projectPath, explicitTask, configPath, createdAt))
  }

  function InstructionFrom(o: Fields): Result<InstructionFile, Problem> {
    var path :- Text(o, Path);
    var content :- Text(o, Content);
    Ok(InstructionFile(path, content))
  }

  function CountFrom(o: Fields): Result<LanguageCount, Problem> {
    var language :- Text(o, Language);
    var count :- Integer(o, Count);
    Ok(LanguageCount(language, count))
  }

  function InstructionsFrom(vs: seq<Json>): Result<seq<InstructionFile>, Problem> {
    if vs == [] then Ok([])
    else if !vs[0].JObject? then Err(Mistyped("instruction_files item"))
    else
      var first :- InstructionFrom(vs[0].fields);
      var rest :- InstructionsFrom(vs[1..]);
      Ok([first] + rest)
  }

  function CountsFrom(vs: seq<Json>): Result<seq<LanguageCount>, Problem> {
    if vs == [] then Ok([])
    else if !vs[0].JObject? then Err(Mistyped("language_counts item"))
    else
      var first :- CountFrom(vs[0].fields);
      var rest :- CountsFrom(vs[1..]);
      Ok([first] + rest)
  }

  function RepositoryFrom(o: Fields): Result<RepositoryContext, Problem> {
    var instructionItems :- Items(o, InstructionFiles);
    var instructionFiles :- InstructionsFrom(instructionItems);
    var countItems :- Items(o, LanguageCounts);
    var languageCounts :- CountsFrom(countItems);
    var projectPath :- Text(o, ProjectPath);
    var isGitWorktree :- Truth(o, IsGitWorktree);
    var branch :- MaybeText(o, Branch);
    var dirtyPaths :- Texts(o, DirtyPaths);
    var dockerFiles :- Texts(o, DockerFiles);
    var commandErrors :- Texts(o, CommandErrors);
    Ok(RepositoryContext(projectPath, isGitWorktree, branch, dirtyPaths, instructionFiles, languageCounts, dockerFiles,
                         commandErrors))
  }

  function ItemsFrom(o: Fields): Result<map<string, WorkItem>, Problem> {
    if forall id | id in o :: o[id].JObject? && ItemFrom(o[id].fields).Ok?
    then Ok(map id | id in o :: ItemFrom(o[id].fields).value)
    else Err(Mistyped(Name(WorkItems)))
  }

  function RoutesFrom(o: Fields): Result<map<string, RouteDecision>, Problem> {
    if forall id | id in o :: o[id].JObject? && RouteFrom(o[id].fields).Ok?
    then Ok(map id | id in o :: RouteFrom(o[id].fields).value)
    else Err(Mistyped(Name(Routes)))
  }

  function ResultsFrom(o: Fields): Result<map<string, WorkResult>, Problem> {
    if forall id | id in o :: o[id].JObject? && ResultFrom(o[id].fields).Ok?
    then Ok(map id | id in o :: ResultFrom(o[id].fields).value)
    else Err(Mistyped(Name(Results)))
  }

  function ApprovalsFrom(pf: Platform, o: Fields): Result<map<string, ApprovalRecord>, Problem> {
    if forall id | id in o :: o[id].JObject? && ApprovalFrom(pf, o[id].fields).Ok?
    then Ok(map id | id in o :: ApprovalFrom(pf, o[id].fields).value)
    else Err(Mistyped(Name(Approvals)))
  }

  function StateFrom(pf: Platform, o: Fields): Result<Snapshot, Problem> {
    var itemFields :- Members(o, WorkItems);
    var workItems :- ItemsFrom(itemFields);
    var routeFields :- Members(o, Routes);
    var routes :- RoutesFrom(routeFields);
    var resultFields :- Members(o, Results);
    var results :- ResultsFrom(resultFields);
    var approvalFields :- Members(o, Approvals);
    var approvals :- ApprovalsFrom(pf, approvalFields);
    var schemaVersion :- Integer(o, SchemaVersion);
    var configurationDigest :- Text(o, ConfigurationDigest);
    var objectiveFields :- Members(o, Field.Objective);
    var objective :- ObjectiveFrom(pf, objectiveFields);
    var repositoryFields :- Members(o, Repository);
    var repository :- RepositoryFrom(repositoryFields);
    var status :- RunStatusOf(o, Status);
    Ok(Snapshot(schemaVersion, configurationDigest, objective, repository, workItems, routes, results, approvals, status))
  }

  /** json_store.py:107-124: only schema version 1 is read. */
  function FromJson(pf: Platform, v: Json): Result<Snapshot, Problem> {
    if !v.JObject? then Err(Mistyped("state"))
    else if Name(SchemaVersion) !in v.fields || v.fields[Name(SchemaVersion)] != JInt(1) then Err(Mistyped(Name(SchemaVersion)))
    else StateFrom(pf, v.fields)
  }

  // ----- what redaction leaves of a record -----

  /** The policy takes no field name for a secret key and no enumeration value for
      a secret. */
  ghost predicate CleanNames(pf: Platform) {
    && (forall f :: !pf.secretKey(Name(f)))
    && (forall t :: !pf.secretText(TagText(t)))
  }

  function RedactFields(pf: Platform, m: Fields): (r: Fields)
    ensures r.Keys == m.Keys
  {
    map k | k in m :: if pf.secretKey(k) then JString(REDACTED) else RedactJson(pf, m[k])
  }

  lemma {:induction false} RedactObject(pf: Platform, m: Fields)
    ensures RedactJson(pf, JObject(m)) == JObject(RedactFields(pf, m))
  {
  }

  /** The redacted object o holds, under the name of f, what redaction leaves of v. */
  ghost predicate Stored(pf: Platform, o: Fields, f: Field, v: Json) {
    Name(f) in o && o[Name(f)] == RedactJson(pf, v)
  }

  predicate Has(m: Record, f: Field, v: Json) {
    f in m && m[f] == v
  }

  lemma {:induction false} FieldStored(pf: Platform, m: Record, f: Field, v: Json)
    requires CleanNames(pf) && Has(m, f, v)
    ensures Stored(pf, RedactFields(pf, Named(m)), f, v)
  {
  }

  lemma {:induction false} TextLoads(pf: Platform, o: Fields, f: Field, t: string)
    requires Stored(pf, o, f, JString(t))
    ensures Text(o, f) == Ok(RedactText(pf, t))
  {
  }

  lemma {:induction false} OptionalLoads(pf: Platform, o: Fields, f: Field, t: Option<string>)
    requires Stored(pf, o, f, Optional(t))
    ensures MaybeText(o, f) == Ok(RedactOption(pf, t))
  {
  }

  lemma {:induction false} PlainLoads(pf: Platform, o: Fields, f: Field, v: Json)
    requires Stored(pf, o, f, v)
    ensures v.JInt? ==> Integer(o, f) == Ok(v.integer)
    ensures v.JBool? ==> Truth(o, f) == Ok(v.truth)
    ensures v.JFloat? ==> Number(o, f) == Ok(v.number)
  {
  }

  lemma {:induction false} PlainTextsLoad(ts: seq<string>, vs: seq<Json>)
    requires |vs| == |ts| && forall i | 0 <= i < |ts| :: vs[i] == JString(ts[i])
    ensures PlainTexts(vs) == Ok(ts)
    decreases |ts|
  {
    if ts != [] {
      PlainTextsLoad(ts[1..], vs[1..]);
      assert ts == [ts[0]] + ts[1..];
    }
  }

  lemma {:induction false} RedactTextList(pf: Platform, ts: seq<string>)
    ensures RedactJson(pf, TextList(ts)) == TextList(RedactTexts(pf, ts))
  {
    var items := TextList(ts).items;
    forall i | 0 <= i < |items| ensures RedactJson(pf, items[i]) == JString(RedactTexts(pf, ts)[i]) {
      assert items[i] == JString(ts[i]);
    }
    assert RedactJson(pf, TextList(ts)).items == TextList(RedactTexts(pf, ts)).items;
  }

  lemma {:induction false} TextsLoad(pf: Platform, o: Fields, f: Field, ts: seq<string>)
    requires Stored(pf, o, f, TextList(ts))
    ensures Texts(o, f) == Ok(RedactTexts(pf, ts))
  {
    RedactTextList(pf, ts);
    PlainTextsLoad(RedactTexts(pf, ts), o[Name(f)].items);
  }

  lemma {:induction false} TagLoads(pf: Platform, o: Fields, f: Field, t: Tag)
    requires CleanNames(pf) && Stored(pf, o, f, Word(t))
    ensures Text(o, f) == Ok(TagText(t))
  {
  }

  lemma {:induction false} ItemStored(pf: Platform, w: WorkItem, o: Fields)
    requires CleanNames(pf) && o == RedactFields(pf, Named(ItemFields(w)))
    ensures Stored(pf, o, Id, JString(w.id)) && Stored(pf, o, Title, JString(w.title))
    ensures Stored(pf, o, Instructions, JString(w.instructions)) && Stored(pf, o, Task, JString(w.task))
    ensures Stored(pf, o, Phase, JString(w.phase)) && Stored(pf, o, Dependencies, TextList(w.dependencies))
    ensures Stored(pf, o, Access, Word(AccessTag(w.access))) && Stored(pf, o, AffectedPaths, TextList(w.affectedPaths))
    ensures Stored(pf, o, ExpectedResult, JString(w.expectedResult))
    ensures Stored(pf, o, Verification, TextList(w.verification))
    ensures Stored(pf, o, Confidence, JFloat(w.confidence)) && Stored(pf, o, RiskFlags, TextList(Sorted(w.riskFlags)))
  {
    hide Name, Named, CleanNames, RedactFields, Stored, TextList, Word, Sorted;
    var m := ItemFields(w);
    FieldStored(pf, m, Id, JString(w.id));
    FieldStored(pf, m, Title, JString(w.title));
    FieldStored(pf, m, Instructions, JString(w.instructions));
    FieldStored(pf, m, Task, JString(w.task));
    FieldStored(pf, m, Phase, JString(w.phase));
    FieldStored(pf, m, Dependencies, TextList(w.dependencies));
    FieldStored(pf, m, Access, Word(AccessTag(w.access)));
    FieldStored(pf, m, AffectedPaths, TextList(w.affectedPaths));
    FieldStored(pf, m, ExpectedResult, JString(w.expectedResult));
    FieldStored(pf, m, Verification, TextList(w.verification));
    FieldStored(pf, m, Confidence, JFloat(w.confidence));
    FieldStored(pf, m, RiskFlags, TextList(Sorted(w.riskFlags)));
  }

  lemma {:induction false} AccessLoads(pf: Platform, o: Fields, f: Field, a: AccessMode)
    requires CleanNames(pf) && Stored(pf, o, f, Word(AccessTag(a)))
    ensures AccessOf(o, f) == Ok(a)
  {
    TagsDiffer();
    hide TagText, TagOf, CleanNames, Stored;
    TagLoads(pf, o, f, AccessTag(a));
  }

  /** The flags come back as a set, in whatever order redaction left them. */
  lemma {:induction false} FlagsLoad(pf: Platform, flags: set<string>)
    ensures (set f | f in RedactTexts(pf, Sorted(flags))) == set f | f in flags :: RedactText(pf, f)
  {
    var ts := Sorted(flags);
    forall f | f in flags ensures RedactText(pf, f) in RedactTexts(pf, ts) {
      assert f in ts;
      var i :| 0 <= i < |ts| && ts[i] == f;
      assert RedactTexts(pf, ts)[i] == RedactText(pf, f);
    }
    forall f | f in RedactTexts(pf, ts) ensures exists x :: x in flags && RedactText(pf, x) == f {
      var i :| 0 <= i < |ts| && RedactTexts(pf, ts)[i] == f;
      assert ts[i] in ts && ts[i] in flags;
    }
  }

  lemma {:induction false} ItemLoads(pf: Platform, w: WorkItem)
    requires CleanNames(pf)
    ensures ItemFrom(RedactFields(pf, Named(ItemFields(w)))) == Ok(RedactItem(pf, w))
  {
    var o := RedactFields(pf, Named(ItemFields(w)));
    ItemStored(pf, w, o);
    hide ItemFields, Named, RedactFields, CleanNames, Stored, Name, Sorted, RedactText, RedactTexts, Text, Texts,
      AccessOf, Number, TextList, Word, AccessTag;
    TextLoads(pf, o, Id, w.id);
    TextLoads(pf, o, Title, w.title);
    TextLoads(pf, o, Instructions, w.instructions);
    TextLoads(pf, o, Task, w.task);
    TextLoads(pf, o, Phase, w.phase);
    TextsLoad(pf, o, Dependencies, w.dependencies);
    AccessLoads(pf, o, Access, w.access);
    TextsLoad(pf, o, AffectedPaths, w.affectedPaths);
    TextLoads(pf, o, ExpectedResult, w.expectedResult);
    TextsLoad(pf, o, Verification, w.verification);
    PlainLoads(pf, o, Confidence, JFloat(w.confidence));
    TextsLoad(pf, o, RiskFlags, Sorted(w.riskFlags));
    FlagsLoad(pf, w.riskFlags);
  }

  lemma {:induction false} SandboxLoads(pf: Platform, o: Fields, f: Field, a: SandboxMode)
    requires CleanNames(pf) && Stored(pf, o, f, Word(SandboxTag(a)))
    ensures SandboxOf(o, f) == Ok(a)
  {
    TagsDiffer();
    hide TagText, TagOf, CleanNames, Stored;
    TagLoads(pf, o, f, SandboxTag(a));
  }

  lemma {:induction false} ApprovalModeLoads(pf: Platform, o: Fields, f: Field, a: ApprovalMode)
    requires CleanNames(pf) && Stored(pf, o, f, Word(ApprovalTag(a)))
    ensures ApprovalOf(o, f) == Ok(a)
  {
    TagsDiffer();
    hide TagText, TagOf, CleanNames, Stored;
    TagLoads(pf, o, f, ApprovalTag(a));
  }

  lemma {:induction false} SourceLoads(pf: Platform, o: Fields, f: Field, a: RouteSource)
    requires CleanNames(pf) && Stored(pf, o, f, Word(SourceTag(a)))
    ensures SourceOf(o, f) == Ok(a)
  {
    TagsDiffer();
    hide TagText, TagOf, CleanNames, Stored;
    TagLoads(pf, o, f, SourceTag(a));
  }

  lemma {:induction false} WorkStatusLoads(pf: Platform, o: Fields, f: Field, a: WorkStatus)
    requires CleanNames(pf) && Stored(pf, o, f, Word(WorkTag(a)))
    ensures WorkStatusOf(o, f) == Ok(a)
  {
    TagsDiffer();
    hide TagText, TagOf, CleanNames, Stored;
    TagLoads(pf, o, f, WorkTag(a));
  }

  lemma {:induction false} RunStatusLoads(pf: Platform, o: Fields, f: Field, a: RunStatus)
    requires CleanNames(pf) && Stored(pf, o, f, Word(RunTag(a)))
    ensures RunStatusOf(o, f) == Ok(a)
  {
    TagsDiffer();
    hide TagText, TagOf, CleanNames, Stored;
    TagLoads(pf, o, f, RunTag(a));
  }

  lemma {:induction false} TimeLoads(pf: Platform, o: Fields, f: Field, t: string)
    requires ValidPlatform(pf) && Stored(pf, o, f, JString(t)) && pf.timestamp(t)
    ensures Time(pf, o, f) == Ok(RedactText(pf, t))
  {
    TextLoads(pf, o, f, t);
  }

  lemma {:induction false} ListLoads(pf: Platform, o: Fields, f: Field, items: seq<Json>)
    requires Stored(pf, o, f, JList(items))
    ensures Items(o, f) == Ok(RedactJsons(pf, items))
  {
  }

  lemma {:induction false} RouteHas(r: RouteDecision)
    ensures var m := RouteFields(r);
            && Has(m, Task, JString(r.task))
            && Has(m, ModelAlias, JString(r.modelAlias))
            && Has(m, Model, JString(r.model))
            && Has(m, ReasoningEffort, JString(r.reasoningEffort))
            && Has(m, Sandbox, Word(SandboxTag(r.sandbox)))
            && Has(m, Approval, Word(ApprovalTag(r.approval)))
            && Has(m, TimeoutSeconds, JInt(r.timeoutSeconds))
            && Has(m, MaxAttempts, JInt(r.maxAttempts))
  {
    hide Word, Optional, SandboxTag, ApprovalTag, SourceTag;
  }

  lemma {:induction false} RouteHasToo(r: RouteDecision)
    ensures var m := RouteFields(r);
            && Has(m, Destructive, JBool(r.destructive))
            && Has(m, ExternalWrite, JBool(r.externalWrite))
            && Has(m, EscalationTask, Optional(r.escalationTask))
            && Has(m, Source, Word(SourceTag(r.source)))
            && Has(m, Reason, JString(r.reason))
  {
    hide Word, Optional, SandboxTag, ApprovalTag, SourceTag;
  }

  lemma {:induction false} RouteStored(pf: Platform, r: RouteDecision, o: Fields)
    requires CleanNames(pf) && o == RedactFields(pf, Named(RouteFields(r)))
    ensures Stored(pf, o, Task, JString(r.task)) && Stored(pf, o, ModelAlias, JString(r.modelAlias))
    ensures Stored(pf, o, Model, JString(r.model)) && Stored(pf, o, ReasoningEffort, JString(r.reasoningEffort))
    ensures Stored(pf, o, Sandbox, Word(SandboxTag(r.sandbox)))
    ensures Stored(pf, o, Approval, Word(ApprovalTag(r.approval)))
    ensures Stored(pf, o, TimeoutSeconds, JInt(r.timeoutSeconds)) && Stored(pf, o, MaxAttempts, JInt(r.maxAttempts))
    ensures Stored(pf, o, Destructive, JBool(r.destructive)) && Stored(pf, o, ExternalWrite, JBool(r.externalWrite))
    ensures Stored(pf, o, EscalationTask, Optional(r.escalationTask))
    ensures Stored(pf, o, Source, Word(SourceTag(r.source)))
    ensures Stored(pf, o, Reason, JString(r.reason))
  {
    hide *;
    var m := RouteFields(r);
    RouteHas(r);
    RouteHasToo(r);
    FieldStored(pf, m, Task, JString(r.task));
    FieldStored(pf, m, ModelAlias, JString(r.modelAlias));
    FieldStored(pf, m, Model, JString(r.model));
    FieldStored(pf, m, ReasoningEffort, JString(r.reasoningEffort));
    FieldStored(pf, m, Sandbox, Word(SandboxTag(r.sandbox)));
    FieldStored(pf, m, Approval, Word(ApprovalTag(r.approval)));
    FieldStored(pf, m, TimeoutSeconds, JInt(r.timeoutSeconds));
    FieldStored(pf, m, MaxAttempts, JInt(r.maxAttempts));
    FieldStored(pf, m, Destructive, JBool(r.destructive));
    FieldStored(pf, m, ExternalWrite, JBool(r.externalWrite));
    FieldStored(pf, m, EscalationTask, Optional(r.escalationTask));
    FieldStored(pf, m, Source, Word(SourceTag(r.source)));
    FieldStored(pf, m, Reason, JString(r.reason));
  }

  lemma {:induction false} RouteLoads(pf: Platform, r: RouteDecision)
    requires CleanNames(pf)
    ensures RouteFrom(RedactFields(pf, Named(RouteFields(r)))) == Ok(RedactRoute(pf, r))
  {
    var o := RedactFields(pf, Named(RouteFields(r)));
    RouteStored(pf, r, o);
    hide RouteFields, Named, RedactFields, CleanNames, Stored, Name, RedactText, RedactTexts, RedactOption, Text,
      MaybeText, Texts, Number, Integer, Truth, TextList, Word, Optional, SandboxOf, ApprovalOf, SourceOf,
      WorkStatusOf, Time, Items, RedactJsons, SandboxTag, ApprovalTag, SourceTag, WorkTag;
    TextLoads(pf, o, Task, r.task);
    TextLoads(pf, o, ModelAlias, r.modelAlias);
    TextLoads(pf, o, Model, r.model);
    TextLoads(pf, o, ReasoningEffort, r.reasoningEffort);
    SandboxLoads(pf, o, Sandbox, r.sandbox);
    ApprovalModeLoads(pf, o, Approval, r.approval);
    PlainLoads(pf, o, TimeoutSeconds, JInt(r.timeoutSeconds));
    PlainLoads(pf, o, MaxAttempts, JInt(r.maxAttempts));
    PlainLoads(pf, o, Destructive, JBool(r.destructive));
    PlainLoads(pf, o, ExternalWrite, JBool(r.externalWrite));
    OptionalLoads(pf, o, EscalationTask, r.escalationTask);
    SourceLoads(pf, o, Source, r.source);
    TextLoads(pf, o, Reason, r.reason);
  }

  lemma {:induction false} ResultStored(pf: Platform, r: WorkResult, o: Fields)
    requires CleanNames(pf) && o == RedactFields(pf, Named(ResultFields(r)))
    ensures Stored(pf, o, WorkItemId, JString(r.workItemId)) && Stored(pf, o, ThreadId, Optional(r.threadId))
    ensures Stored(pf, o, TurnId, Optional(r.turnId)) && Stored(pf, o, Status, Word(WorkTag(r.status)))
    ensures Stored(pf, o, FinalResponse, Optional(r.finalResponse)) && Stored(pf, o, SdkItems, JList(r.sdkItems))
    ensures Stored(pf, o, InputTokens, JInt(r.inputTokens))
    ensures Stored(pf, o, CachedInputTokens, JInt(r.cachedInputTokens))
    ensures Stored(pf, o, OutputTokens, JInt(r.outputTokens))
    ensures Stored(pf, o, DurationSeconds, JFloat(r.durationSeconds))
    ensures Stored(pf, o, ChangedPaths, TextList(r.changedPaths))
    ensures Stored(pf, o, Verification, TextList(r.verification))
    ensures Stored(pf, o, Confidence, JFloat(r.confidence))
    ensures Stored(pf, o, EscalationRequested, JBool(r.escalationRequested))
    ensures Stored(pf, o, Field.Error, Optional(r.error))
  {
    hide Name, Named, CleanNames, RedactFields, Stored, TextList, Word, Optional, SandboxTag, ApprovalTag, SourceTag,
      WorkTag;
    var m := ResultFields(r);
    FieldStored(pf, m, WorkItemId, JString(r.workItemId));
    FieldStored(pf, m, ThreadId, Optional(r.threadId));
    FieldStored(pf, m, TurnId, Optional(r.turnId));
    FieldStored(pf, m, Status, Word(WorkTag(r.status)));
    FieldStored(pf, m, FinalResponse, Optional(r.finalResponse));
    FieldStored(pf, m, SdkItems, JList(r.sdkItems));
    FieldStored(pf, m, InputTokens, JInt(r.inputTokens));
    FieldStored(pf, m, CachedInputTokens, JInt(r.cachedInputTokens));
    FieldStored(pf, m, OutputTokens, JInt(r.outputTokens));
    FieldStored(pf, m, DurationSeconds, JFloat(r.durationSeconds));
    FieldStored(pf, m, ChangedPaths, TextList(r.changedPaths));
    FieldStored(pf, m, Verification, TextList(r.verification));
    FieldStored(pf, m, Confidence, JFloat(r.confidence));
    FieldStored(pf, m, EscalationRequested, JBool(r.escalationRequested));
    FieldStored(pf, m, Field.Error, Optional(r.error));
  }

  lemma {:induction false} ResultLoads(pf: Platform, r: WorkResult)
    requires CleanNames(pf)
    ensures ResultFrom(RedactFields(pf, Named(ResultFields(r)))) == Ok(RedactResult(pf, r))
  {
    var o := RedactFields(pf, Named(ResultFields(r)));
    ResultStored(pf, r, o);
    hide ResultFields, Named, RedactFields, CleanNames, Stored, Name, RedactText, RedactTexts, RedactOption, Text,
      MaybeText, Texts, Number, Integer, Truth, TextList, Word, Optional, SandboxOf, ApprovalOf, SourceOf,
      WorkStatusOf, Time, Items, RedactJsons, SandboxTag, ApprovalTag, SourceTag, WorkTag;
    TextLoads(pf, o, WorkItemId, r.workItemId);
    OptionalLoads(pf, o, ThreadId, r.threadId);
    OptionalLoads(pf, o, TurnId, r.turnId);
    WorkStatusLoads(pf, o, Status, r.status);
    OptionalLoads(pf, o, FinalResponse, r.finalResponse);
    ListLoads(pf, o, SdkItems, r.sdkItems);
    PlainLoads(pf, o, InputTokens, JInt(r.inputTokens));
    PlainLoads(pf, o, CachedInputTokens, JInt(r.cachedInputTokens));
    PlainLoads(pf, o, OutputTokens, JInt(r.outputTokens));
    PlainLoads(pf, o, DurationSeconds, JFloat(r.durationSeconds));
    TextsLoad(pf, o, ChangedPaths, r.changedPaths);
    TextsLoad(pf, o, Verification, r.verification);
    PlainLoads(pf, o, Confidence, JFloat(r.confidence));
    PlainLoads(pf, o, EscalationRequested, JBool(r.escalationRequested));
    OptionalLoads(pf, o, Field.Error, r.error);
  }

  lemma {:induction false} ApprovalStored(pf: Platform, a: ApprovalRecord, o: Fields)
    requires CleanNames(pf) && o == RedactFields(pf, Named(ApprovalFields(a)))
    ensures Stored(pf, o, RunId, JString(a.runId)) && Stored(pf, o, WorkItemId, JString(a.workItemId))
    ensures Stored(pf, o, ApprovedBy, JString(a.approvedBy)) && Stored(pf, o, ApprovedAt, JString(a.approvedAt))
    ensures Stored(pf, o, ConfigurationDigest, JString(a.configurationDigest))
    ensures Stored(pf, o, Fingerprint, JString(a.fingerprint))
  {
    hide Name, Named, CleanNames, RedactFields, Stored, TextList, Word, Optional, SandboxTag, ApprovalTag, SourceTag,
      WorkTag;
    var m := ApprovalFields(a);
    FieldStored(pf, m, RunId, JString(a.runId));
    FieldStored(pf, m, WorkItemId, JString(a.workItemId));
    FieldStored(pf, m, ApprovedBy, JString(a.approvedBy));
    FieldStored(pf, m, ApprovedAt, JString(a.approvedAt));
    FieldStored(pf, m, ConfigurationDigest, JString(a.configurationDigest));
    FieldStored(pf, m, Fingerprint, JString(a.fingerprint));
  }

  lemma {:induction false} ApprovalLoads(pf: Platform, a: ApprovalRecord)
    requires CleanNames(pf) && ValidPlatform(pf) && pf.timestamp(a.approvedAt)
    ensures ApprovalFrom(pf, RedactFields(pf, Named(ApprovalFields(a)))) == Ok(RedactApproval(pf, a))
  {
    var o := RedactFields(pf, Named(ApprovalFields(a)));
    ApprovalStored(pf, a, o);
    hide ApprovalFields, Named, RedactFields, CleanNames, Stored, Name, RedactText, RedactTexts, RedactOption, Text,
      MaybeText, Texts, Number, Integer, Truth, TextList, Word, Optional, SandboxOf, ApprovalOf, SourceOf,
      WorkStatusOf, Time, Items, RedactJsons, SandboxTag, ApprovalTag, SourceTag, WorkTag;
    TextLoads(pf, o, RunId, a.runId);
    TextLoads(pf, o, WorkItemId, a.workItemId);
    TextLoads(pf, o, ApprovedBy, a.approvedBy);
    TimeLoads(pf, o, ApprovedAt, a.approvedAt);
    TextLoads(pf, o, ConfigurationDigest, a.configurationDigest);
    TextLoads(pf, o, Fingerprint, a.fingerprint);
  }

  lemma {:induction false} ObjectiveStored(pf: Platform, ob: Domain.Objective, o: Fields)
    requires CleanNames(pf) && o == RedactFields(pf, Named(ObjectiveFields(ob)))
    ensures Stored(pf, o, Id, JString(ob.id)) && Stored(pf, o, Prompt, JString(ob.prompt))
    ensures Stored(pf, o, ProjectPath, JString(ob.projectPath))
    ensures Stored(pf, o, ExplicitTask, Optional(ob.explicitTask))
    ensures Stored(pf, o, ConfigPath, JString(ob.configPath)) && Stored(pf, o, CreatedAt, JString(ob.createdAt))
  {
    hide Name, Named, CleanNames, RedactFields, Stored, TextList, Word, Optional, SandboxTag, ApprovalTag, SourceTag,
      WorkTag;
    var m := ObjectiveFields(ob);
    FieldStored(pf, m, Id, JString(ob.id));
    FieldStored(pf, m, Prompt, JString(ob.prompt));
    FieldStored(pf, m, ProjectPath, JString(ob.projectPath));
    FieldStored(pf, m, ExplicitTask, Optional(ob.explicitTask));
    FieldStored(pf, m, ConfigPath, JString(ob.configPath));
    FieldStored(pf, m, CreatedAt, JString(ob.createdAt));
  }

  lemma {:induction false} ObjectiveLoads(pf: Platform, ob: Domain.Objective)
    requires CleanNames(pf) && ValidPlatform(pf) && pf.timestamp(ob.createdAt)
    ensures ObjectiveFrom(pf, RedactFields(pf, Named(ObjectiveFields(ob)))) == Ok(RedactObjective(pf, ob))
  {
    var o := RedactFields(pf, Named(ObjectiveFields(ob)));
    ObjectiveStored(pf, ob, o);
    hide ObjectiveFields, Named, RedactFields, CleanNames, Stored, Name, RedactText, RedactTexts, RedactOption, Text,
      MaybeText, Texts, Number, Integer, Truth, TextList, Word, Optional, SandboxOf, ApprovalOf, SourceOf,
      WorkStatusOf, Time, Items, RedactJsons, SandboxTag, ApprovalTag, SourceTag, WorkTag;
    TextLoads(pf, o, Id, ob.id);
    TextLoads(pf, o, Prompt, ob.prompt);
    TextLoads(pf, o, ProjectPath, ob.projectPath);
    OptionalLoads(pf, o, ExplicitTask, ob.explicitTask);
    TextLoads(pf, o, ConfigPath, ob.configPath);
    TimeLoads(pf, o, CreatedAt, ob.createdAt);
  }

  lemma {:induction false} InstructionStored(pf: Platform, i: InstructionFile, o: Fields)
    requires CleanNames(pf) && o == RedactFields(pf, Named(InstructionFields(i)))
    ensures Stored(pf, o, Path, JString(i.path)) && Stored(pf, o, Content, JString(i.content))
  {
    hide Name, Named, CleanNames, RedactFields, Stored, TextList, Word, Optional, SandboxTag, ApprovalTag, SourceTag,
      WorkTag;
    var m := InstructionFields(i);
    FieldStored(pf, m, Path, JString(i.path));
    FieldStored(pf, m, Content, JString(i.content));
  }

  lemma {:induction false} InstructionLoads(pf: Platform, i: InstructionFile)
    requires CleanNames(pf)
    ensures InstructionFrom(RedactFields(pf, Named(InstructionFields(i)))) ==
              Ok(InstructionFile(RedactText(pf, i.path), RedactText(pf, i.content)))
  {
    var o := RedactFields(pf, Named(InstructionFields(i)));
    InstructionStored(pf, i, o);
    hide InstructionFields, Named, RedactFields, CleanNames, Stored, Name, RedactText, RedactTexts, RedactOption, Text,
      MaybeText, Texts, Number, Integer, Truth, TextList, Word, Optional, SandboxOf, ApprovalOf, SourceOf,
      WorkStatusOf, Time, Items, RedactJsons, SandboxTag, ApprovalTag, SourceTag, WorkTag;
    TextLoads(pf, o, Path, i.path);
    TextLoads(pf, o, Content, i.content);
  }

  lemma {:induction false} CountStored(pf: Platform, c: LanguageCount, o: Fields)
    requires CleanNames(pf) && o == RedactFields(pf, Named(CountFields(c)))
    ensures Stored(pf, o, Language, JString(c.language)) && Stored(pf, o, Count, JInt(c.count))
  {
    hide Name, Named, CleanNames, RedactFields, Stored, TextList, Word, Optional, SandboxTag, ApprovalTag, SourceTag,
      WorkTag;
    var m := CountFields(c);
    FieldStored(pf, m, Language, JString(c.language));
    FieldStored(pf, m, Count, JInt(c.count));
  }

  lemma {:induction false} CountLoads(pf: Platform, c: LanguageCount)
    requires CleanNames(pf)
    ensures CountFrom(RedactFields(pf, Named(CountFields(c)))) == Ok(LanguageCount(RedactText(pf, c.language), c.count))
  {
    var o := RedactFields(pf, Named(CountFields(c)));
    CountStored(pf, c, o);
    hide CountFields, Named, RedactFields, CleanNames, Stored, Name, RedactText, RedactTexts, RedactOption, Text,
      MaybeText, Texts, Number, Integer, Truth, TextList, Word, Optional, SandboxOf, ApprovalOf, SourceOf,
      WorkStatusOf, Time, Items, RedactJsons, SandboxTag, ApprovalTag, SourceTag, WorkTag;
    TextLoads(pf, o, Language, c.language);
    PlainLoads(pf, o, Count, JInt(c.count));
  }

  lemma {:induction false} EachInstruction(vs: seq<Json>, xs: seq<InstructionFile>)
    requires |vs| == |xs| && forall i | 0 <= i < |xs| :: vs[i].JObject? && InstructionFrom(vs[i].fields) == Ok(xs[i])
    ensures InstructionsFrom(vs) == Ok(xs)
    decreases |xs|
  {
    hide InstructionFrom;
    if xs != [] {
      EachInstruction(vs[1..], xs[1..]);
      assert xs == [xs[0]] + xs[1..];
    }
  }

  lemma {:induction false} EachCount(vs: seq<Json>, xs: seq<LanguageCount>)
    requires |vs| == |xs| && forall i | 0 <= i < |xs| :: vs[i].JObject? && CountFrom(vs[i].fields) == Ok(xs[i])
    ensures CountsFrom(vs) == Ok(xs)
    decreases |xs|
  {
    hide CountFrom;
    if xs != [] {
      EachCount(vs[1..], xs[1..]);
      assert xs == [xs[0]] + xs[1..];
    }
  }

  lemma {:induction false} InstructionsLoad(pf: Platform, xs: seq<InstructionFile>)
    requires CleanNames(pf)
    ensures InstructionsFrom(RedactJsons(pf, InstructionList(xs))) == Ok(RedactInstructions(pf, xs))
  {
    var vs, ys := RedactJsons(pf, InstructionList(xs)), RedactInstructions(pf, xs);
    hide CleanNames, Named, InstructionFields, InstructionFrom, InstructionsFrom, RedactFields, RedactJson;
    forall i | 0 <= i < |xs| ensures vs[i].JObject? && InstructionFrom(vs[i].fields) == Ok(ys[i]) {
      InstructionLoads(pf, xs[i]);
      RedactObject(pf, Named(InstructionFields(xs[i])));
    }
    EachInstruction(vs, ys);
  }

  lemma {:induction false} CountsLoad(pf: Platform, xs: seq<LanguageCount>)
    requires CleanNames(pf)
    ensures CountsFrom(RedactJsons(pf, CountList(xs))) == Ok(RedactCounts(pf, xs))
  {
    var vs, ys := RedactJsons(pf, CountList(xs)), RedactCounts(pf, xs);
    hide CleanNames, Named, CountFields, CountFrom, CountsFrom, RedactFields, RedactJson;
    forall i | 0 <= i < |xs| ensures vs[i].JObject? && CountFrom(vs[i].fields) == Ok(ys[i]) {
      CountLoads(pf, xs[i]);
      RedactObject(pf, Named(CountFields(xs[i])));
    }
    EachCount(vs, ys);
  }

  lemma {:induction false} RepositoryStored(pf: Platform, r: RepositoryContext, o: Fields)
    requires CleanNames(pf) && o == RedactFields(pf, Named(RepositoryFields(r)))
    ensures Stored(pf, o, ProjectPath, JString(r.projectPath)) && Stored(pf, o, IsGitWorktree, JBool(r.isGitWorktree))
    ensures Stored(pf, o, Branch, Optional(r.branch)) && Stored(pf, o, DirtyPaths, TextList(r.dirtyPaths))
    ensures Stored(pf, o, InstructionFiles, JList(InstructionList(r.instructionFiles)))
    ensures Stored(pf, o, LanguageCounts, JList(CountList(r.languageCounts)))
    ensures Stored(pf, o, DockerFiles, TextList(r.dockerFiles))
    ensures Stored(pf, o, CommandErrors, TextList(r.commandErrors))
  {
    hide Name, Named, CleanNames, RedactFields, Stored, TextList, Optional, InstructionList, CountList;
    var m := RepositoryFields(r);
    FieldStored(pf, m, ProjectPath, JString(r.projectPath));
    FieldStored(pf, m, IsGitWorktree, JBool(r.isGitWorktree));
    FieldStored(pf, m, Branch, Optional(r.branch));
    FieldStored(pf, m, DirtyPaths, TextList(r.dirtyPaths));
    FieldStored(pf, m, InstructionFiles, JList(InstructionList(r.instructionFiles)));
    FieldStored(pf, m, LanguageCounts, JList(CountList(r.languageCounts)));
    FieldStored(pf, m, DockerFiles, TextList(r.dockerFiles));
    FieldStored(pf, m, CommandErrors, TextList(r.commandErrors));
  }

  lemma {:induction false} RepositoryLoads(pf: Platform, r: RepositoryContext)
    requires CleanNames(pf)
    ensures RepositoryFrom(RedactFields(pf, Named(RepositoryFields(r)))) == Ok(RedactRepository(pf, r))
  {
    var o := RedactFields(pf, Named(RepositoryFields(r)));
    RepositoryStored(pf, r, o);
    hide RepositoryFields, Named, RedactFields, CleanNames, Stored, Name, RedactText, RedactTexts, RedactOption,
      RedactJsons, Text, MaybeText, Texts, Truth, TextList, Optional, Items, InstructionList, CountList,
      InstructionsFrom, CountsFrom, RedactInstructions, RedactCounts;
    TextLoads(pf, o, ProjectPath, r.projectPath);
    PlainLoads(pf, o, IsGitWorktree, JBool(r.isGitWorktree));
    OptionalLoads(pf, o, Branch, r.branch);
    TextsLoad(pf, o, DirtyPaths, r.dirtyPaths);
    ListLoads(pf, o, InstructionFiles, InstructionList(r.instructionFiles));
    InstructionsLoad(pf, r.instructionFiles);
    ListLoads(pf, o, LanguageCounts, CountList(r.languageCounts));
    CountsLoad(pf, r.languageCounts);
    TextsLoad(pf, o, DockerFiles, r.dockerFiles);
    TextsLoad(pf, o, CommandErrors, r.commandErrors);
  }

  lemma {:induction false} PublicEntry(pf: Platform, m: Fields, id: string)
    requires id in m && !pf.secretKey(id)
    ensures RedactFields(pf, m)[id] == RedactJson(pf, m[id])
  {
  }

  lemma {:induction false} SecretEntry(pf: Platform, m: Fields, id: string)
    requires id in m && pf.secretKey(id)
    ensures RedactFields(pf, m)[id] == JString(REDACTED)
  {
  }

  lemma {:induction false} ItemsEntry(pf: Platform, m: map<string, WorkItem>, id: string)
    requires CleanNames(pf) && id in m && !pf.secretKey(id)
    ensures id in RedactFields(pf, ItemsJson(m)) && RedactFields(pf, ItemsJson(m))[id].JObject?
    ensures ItemFrom(RedactFields(pf, ItemsJson(m))[id].fields) == Ok(RedactItem(pf, m[id]))
  {
    hide CleanNames, Named, ItemFrom, RedactItem, ItemFields;
    PublicEntry(pf, ItemsJson(m), id);
    RedactObject(pf, Named(ItemFields(m[id])));
    ItemLoads(pf, m[id]);
  }

  lemma {:induction false} ItemsLoad(pf: Platform, m: map<string, WorkItem>)
    requires CleanNames(pf)
    ensures KeySetClean(pf, m.Keys) ==> ItemsFrom(RedactFields(pf, ItemsJson(m))) == Ok(RedactItems(pf, m))
    ensures !KeySetClean(pf, m.Keys) ==> ItemsFrom(RedactFields(pf, ItemsJson(m))).Err?
  {
    var o := RedactFields(pf, ItemsJson(m));
    hide RedactFields, ItemFrom, RedactItem, ItemFields, Named, CleanNames;
    forall id | id in m && !pf.secretKey(id)
      ensures o[id].JObject? && ItemFrom(o[id].fields) == Ok(RedactItem(pf, m[id]))
    {
      ItemsEntry(pf, m, id);
    }
    forall id | id in m && pf.secretKey(id) ensures o[id] == JString(REDACTED) {
      SecretEntry(pf, ItemsJson(m), id);
    }
    assert o.Keys == m.Keys;
    if KeySetClean(pf, m.Keys) {
      assert (map id | id in o :: ItemFrom(o[id].fields).value) == RedactItems(pf, m);
    }
  }

  lemma {:induction false} RoutesEntry(pf: Platform, m: map<string, RouteDecision>, id: string)
    requires CleanNames(pf) && id in m && !pf.secretKey(id)
    ensures id in RedactFields(pf, RoutesJson(m)) && RedactFields(pf, RoutesJson(m))[id].JObject?
    ensures RouteFrom(RedactFields(pf, RoutesJson(m))[id].fields) == Ok(RedactRoute(pf, m[id]))
  {
    hide CleanNames, Named, RouteFrom, RedactRoute, RouteFields;
    PublicEntry(pf, RoutesJson(m), id);
    RedactObject(pf, Named(RouteFields(m[id])));
    RouteLoads(pf, m[id]);
  }

  lemma {:induction false} RoutesLoad(pf: Platform, m: map<string, RouteDecision>)
    requires CleanNames(pf)
    ensures KeySetClean(pf, m.Keys) ==> RoutesFrom(RedactFields(pf, RoutesJson(m))) == Ok(RedactRoutes(pf, m))
    ensures !KeySetClean(pf, m.Keys) ==> RoutesFrom(RedactFields(pf, RoutesJson(m))).Err?
  {
    var o := RedactFields(pf, RoutesJson(m));
    hide RedactFields, RouteFrom, RedactRoute, RouteFields, Named, CleanNames;
    forall id | id in m && !pf.secretKey(id)
      ensures o[id].JObject? && RouteFrom(o[id].fields) == Ok(RedactRoute(pf, m[id]))
    {
      RoutesEntry(pf, m, id);
    }
    forall id | id in m && pf.secretKey(id) ensures o[id] == JString(REDACTED) {
      SecretEntry(pf, RoutesJson(m), id);
    }
    assert o.Keys == m.Keys;
    if KeySetClean(pf, m.Keys) {
      assert (map id | id in o :: RouteFrom(o[id].fields).value) == RedactRoutes(pf, m);
    }
  }

  lemma {:induction false} ResultsEntry(pf: Platform, m: map<string, WorkResult>, id: string)
    requires CleanNames(pf) && id in m && !pf.secretKey(id)
    ensures id in RedactFields(pf, ResultsJson(m)) && RedactFields(pf, ResultsJson(m))[id].JObject?
    ensures ResultFrom(RedactFields(pf, ResultsJson(m))[id].fields) == Ok(RedactResult(pf, m[id]))
  {
    hide CleanNames, Named, ResultFrom, RedactResult, ResultFields;
    PublicEntry(pf, ResultsJson(m), id);
    RedactObject(pf, Named(ResultFields(m[id])));
    ResultLoads(pf, m[id]);
  }

  lemma {:induction false} ResultsLoad(pf: Platform, m: map<string, WorkResult>)
    requires CleanNames(pf)
    ensures KeySetClean(pf, m.Keys) ==> ResultsFrom(RedactFields(pf, ResultsJson(m))) == Ok(RedactResults(pf, m))
    ensures !KeySetClean(pf, m.Keys) ==> ResultsFrom(RedactFields(pf, ResultsJson(m))).Err?
  {
    var o := RedactFields(pf, ResultsJson(m));
    hide RedactFields, ResultFrom, RedactResult, ResultFields, Named, CleanNames;
    forall id | id in m && !pf.secretKey(id)
      ensures o[id].JObject? && ResultFrom(o[id].fields) == Ok(RedactResult(pf, m[id]))
    {
      ResultsEntry(pf, m, id);
    }
    forall id | id in m && pf.secretKey(id) ensures o[id] == JString(REDACTED) {
      SecretEntry(pf, ResultsJson(m), id);
    }
    assert o.Keys == m.Keys;
    if KeySetClean(pf, m.Keys) {
      assert (map id | id in o :: ResultFrom(o[id].fields).value) == RedactResults(pf, m);
    }
  }

  predicate ApprovalTimes(pf: Platform, m: map<string, ApprovalRecord>) {
    forall id | id in m :: pf.timestamp(m[id].approvedAt)
  }

  lemma {:induction false} ApprovalsEntry(pf: Platform, m: map<string, ApprovalRecord>, id: string)
    requires CleanNames(pf) && id in m && !pf.secretKey(id) && ValidPlatform(pf) && pf.timestamp(m[id].approvedAt)
    ensures id in RedactFields(pf, ApprovalsJson(m)) && RedactFields(pf, ApprovalsJson(m))[id].JObject?
    ensures ApprovalFrom(pf, RedactFields(pf, ApprovalsJson(m))[id].fields) == Ok(RedactApproval(pf, m[id]))
  {
    hide CleanNames, Named, ApprovalFrom, RedactApproval, ApprovalFields;
    PublicEntry(pf, ApprovalsJson(m), id);
    RedactObject(pf, Named(ApprovalFields(m[id])));
    ApprovalLoads(pf, m[id]);
  }

  lemma {:induction false} ApprovalsLoad(pf: Platform, m: map<string, ApprovalRecord>)
    requires CleanNames(pf) && ValidPlatform(pf) && ApprovalTimes(pf, m)
    ensures KeySetClean(pf, m.Keys) ==>
              ApprovalsFrom(pf, RedactFields(pf, ApprovalsJson(m))) == Ok(RedactApprovals(pf, m))
    ensures !KeySetClean(pf, m.Keys) ==> ApprovalsFrom(pf, RedactFields(pf, ApprovalsJson(m))).Err?
  {
    var o := RedactFields(pf, ApprovalsJson(m));
    hide RedactFields, ApprovalFrom, RedactApproval, ApprovalFields, Named, CleanNames;
    forall id | id in m && !pf.secretKey(id)
      ensures o[id].JObject? && ApprovalFrom(pf, o[id].fields) == Ok(RedactApproval(pf, m[id]))
    {
      ApprovalsEntry(pf, m, id);
    }
    forall id | id in m && pf.secretKey(id) ensures o[id] == JString(REDACTED) {
      SecretEntry(pf, ApprovalsJson(m), id);
    }
    assert o.Keys == m.Keys;
    if KeySetClean(pf, m.Keys) {
      assert (map id | id in o :: ApprovalFrom(pf, o[id].fields).value) == RedactApprovals(pf, m);
    }
  }

  lemma {:induction false} MembersLoad(pf: Platform, o: Fields, f: Field, m: Fields)
    requires Stored(pf, o, f, JObject(m))
    ensures Members(o, f) == Ok(RedactFields(pf, m))
  {
    RedactObject(pf, m);
  }

  lemma {:induction false} StateStored(pf: Platform, s: Snapshot, o: Fields)
    requires CleanNames(pf) && o == RedactFields(pf, Named(StateFields(s)))
    ensures Stored(pf, o, SchemaVersion, JInt(s.schemaVersion))
    ensures Stored(pf, o, ConfigurationDigest, JString(s.configurationDigest))
    ensures Stored(pf, o, Field.Objective, JObject(Named(ObjectiveFields(s.objective))))
    ensures Stored(pf, o, Repository, JObject(Named(RepositoryFields(s.repository))))
    ensures Stored(pf, o, WorkItems, JObject(ItemsJson(s.workItems)))
    ensures Stored(pf, o, Routes, JObject(RoutesJson(s.routes)))
    ensures Stored(pf, o, Results, JObject(ResultsJson(s.results)))
    ensures Stored(pf, o, Approvals, JObject(ApprovalsJson(s.approvals)))
    ensures Stored(pf, o, Status, Word(RunTag(s.status)))
  {
    hide Name, Named, CleanNames, RedactFields, Stored, Word, RunTag, ObjectiveFields, RepositoryFields, ItemsJson,
      RoutesJson, ResultsJson, ApprovalsJson;
    var m := StateFields(s);
    FieldStored(pf, m, SchemaVersion, JInt(s.schemaVersion));
    FieldStored(pf, m, ConfigurationDigest, JString(s.configurationDigest));
    FieldStored(pf, m, Field.Objective, JObject(Named(ObjectiveFields(s.objective))));
    FieldStored(pf, m, Repository, JObject(Named(RepositoryFields(s.repository))));
    FieldStored(pf, m, WorkItems, JObject(ItemsJson(s.workItems)));
    FieldStored(pf, m, Routes, JObject(RoutesJson(s.routes)));
    FieldStored(pf, m, Results, JObject(ResultsJson(s.results)));
    FieldStored(pf, m, Approvals, JObject(ApprovalsJson(s.approvals)));
    FieldStored(pf, m, Status, Word(RunTag(s.status)));
  }

  /** Time stamps of the state are time stamps (datetime values with a zone). */
  predicate TimesValid(pf: Platform, s: Snapshot) {
    pf.timestamp(s.objective.createdAt) && ApprovalTimes(pf, s.approvals)
  }

  /** The nine parts of the stored state can be read, the keyed ones if no key
      names a secret. */
  ghost predicate PartsLoad(pf: Platform, s: Snapshot, o: Fields) {
    && Integer(o, SchemaVersion) == Ok(s.schemaVersion)
    && Text(o, ConfigurationDigest) == Ok(RedactText(pf, s.configurationDigest))
    && RunStatusOf(o, Status) == Ok(s.status)
    && Members(o, Field.Objective).Ok?
    && ObjectiveFrom(pf, Members(o, Field.Objective).value) == Ok(RedactObjective(pf, s.objective))
    && Members(o, Repository).Ok?
    && RepositoryFrom(Members(o, Repository).value) == Ok(RedactRepository(pf, s.repository))
    && Members(o, WorkItems).Ok? && Members(o, Routes).Ok? && Members(o, Results).Ok? && Members(o, Approvals).Ok?
  }

  lemma {:induction false} StatePartsLoad(pf: Platform, s: Snapshot, o: Fields)
    requires CleanNames(pf) && ValidPlatform(pf) && TimesValid(pf, s) && o == RedactFields(pf, Named(StateFields(s)))
    ensures PartsLoad(pf, s, o)
  {
    assert pf.timestamp(s.objective.createdAt);
    hide *;
    StateStored(pf, s, o);
    PlainLoads(pf, o, SchemaVersion, JInt(s.schemaVersion));
    TextLoads(pf, o, ConfigurationDigest, s.configurationDigest);
    RunStatusLoads(pf, o, Status, s.status);
    MembersLoad(pf, o, Field.Objective, Named(ObjectiveFields(s.objective)));
    ObjectiveLoads(pf, s.objective);
    MembersLoad(pf, o, Repository, Named(RepositoryFields(s.repository)));
    RepositoryLoads(pf, s.repository);
    MembersLoad(pf, o, WorkItems, ItemsJson(s.workItems));
    MembersLoad(pf, o, Routes, RoutesJson(s.routes));
    MembersLoad(pf, o, Results, ResultsJson(s.results));
    MembersLoad(pf, o, Approvals, ApprovalsJson(s.approvals));
    PartsLoadNow(pf, s, o);
  }

  lemma {:induction false} PartsLoadNow(pf: Platform, s: Snapshot, o: Fields)
    requires Integer(o, SchemaVersion) == Ok(s.schemaVersion)
    requires Text(o, ConfigurationDigest) == Ok(RedactText(pf, s.configurationDigest))
    requires RunStatusOf(o, Status) == Ok(s.status)
    requires Members(o, Field.Objective).Ok?
    requires ObjectiveFrom(pf, Members(o, Field.Objective).value) == Ok(RedactObjective(pf, s.objective))
    requires Members(o, Repository).Ok?
    requires RepositoryFrom(Members(o, Repository).value) == Ok(RedactRepository(pf, s.repository))
    requires Members(o, WorkItems).Ok? && Members(o, Routes).Ok? && Members(o, Results).Ok? && Members(o, Approvals).Ok?
    ensures PartsLoad(pf, s, o)
  {
    hide Integer, Text, RunStatusOf, Members, ObjectiveFrom, RepositoryFrom, RedactText, RedactObjective,
      RedactRepository;
  }

  lemma {:induction false} StateBuilt(pf: Platform, s: Snapshot, o: Fields)
    requires PartsLoad(pf, s, o)
    ensures var items, routes := ItemsFrom(Members(o, WorkItems).value), RoutesFrom(Members(o, Routes).value);
            var results, approvals := ResultsFrom(Members(o, Results).value), ApprovalsFrom(pf, Members(o, Approvals).value);
            if items.Ok? && routes.Ok? && results.Ok? && approvals.Ok?
            then StateFrom(pf, o) == Ok(Snapshot(s.schemaVersion, RedactText(pf, s.configurationDigest), RedactObjective(pf, s.objective),
                                                 RedactRepository(pf, s.repository), items.value, routes.value, results.value,
                                                 approvals.value, s.status))
            else StateFrom(pf, o).Err?
  {
    hide Integer, Text, RunStatusOf, Members, ObjectiveFrom, RepositoryFrom, RedactText, RedactObjective,
      RedactRepository, ItemsFrom, RoutesFrom, ResultsFrom, ApprovalsFrom, Name;
  }

  lemma {:induction false} StateLoads(pf: Platform, s: Snapshot, o: Fields)
    requires CleanNames(pf) && ValidPlatform(pf) && TimesValid(pf, s) && o == RedactFields(pf, Named(StateFields(s)))
    ensures KeysClean(pf, s) ==> StateFrom(pf, o) == Ok(Persisted(pf, s))
    ensures !KeysClean(pf, s) ==> StateFrom(pf, o).Err?
  {
    hide StateFields, Named, RedactFields, CleanNames, ValidPlatform, Stored, Name, Members, ItemsFrom, RoutesFrom,
      ResultsFrom, ApprovalsFrom, ItemsJson, RoutesJson, ResultsJson, ApprovalsJson, RedactItems, RedactRoutes,
      RedactResults, RedactApprovals, RedactObjective, RedactRepository, RedactText, KeySetClean, ApprovalTimes,
      StateFrom, PartsLoad;
    StatePartsLoad(pf, s, o);
    StateBuilt(pf, s, o);
    StateStored(pf, s, o);
    MembersLoad(pf, o, WorkItems, ItemsJson(s.workItems));
    ItemsLoad(pf, s.workItems);
    MembersLoad(pf, o, Routes, RoutesJson(s.routes));
    RoutesLoad(pf, s.routes);
    MembersLoad(pf, o, Results, ResultsJson(s.results));
    ResultsLoad(pf, s.results);
    MembersLoad(pf, o, Approvals, ApprovalsJson(s.approvals));
    ApprovalsLoad(pf, s.approvals);
  }

  lemma {:induction false} VersionStored(pf: Platform, s: Snapshot, o: Fields)
    requires CleanNames(pf) && o == RedactFields(pf, Named(StateFields(s)))
    ensures Name(SchemaVersion) in o && o[Name(SchemaVersion)] == JInt(s.schemaVersion)
  {
    hide Name, Named, StateFields, RedactFields, CleanNames;
    StateStored(pf, s, o);
  }

  /** What is saved and loaded again is the redacted state, exactly if no key of
      the state names a secret; otherwise the file cannot be loaded. */
  lemma {:induction false} SaveThenLoad(pf: Platform, s: Snapshot)
    requires CleanNames(pf) && ValidPlatform(pf) && TimesValid(pf, s) && s.schemaVersion == 1
    ensures FromJson(pf, RedactJson(pf, ToJson(s))) == Ok(Persisted(pf, s)) <==> KeysClean(pf, s)
    ensures FromJson(pf, RedactJson(pf, ToJson(s))).Ok? <==> KeysClean(pf, s)
  {
    var o := RedactFields(pf, Named(StateFields(s)));
    VersionStored(pf, s, o);
    StateLoads(pf, s, o);
    RedactObject(pf, Named(StateFields(s)));
    hide StateFields, Named, RedactFields, CleanNames, ValidPlatform, StateFrom, Persisted, KeysClean, RedactJson,
      Name, TimesValid;
  }

  lemma {:induction false} PersistedTimes(pf: Platform, s: Snapshot)
    requires ValidPlatform(pf) && TimesValid(pf, s)
    ensures TimesValid(pf, Persisted(pf, s)) && Persisted(pf, s).schemaVersion == s.schemaVersion
    ensures KeysClean(pf, s) ==> KeysClean(pf, Persisted(pf, s))
  {
  }

  /** The state after loading what was saved, n times in a row. */
  function Cycled(pf: Platform, s: Snapshot, n: nat): Result<Snapshot, Problem> {
    if n == 0 then Ok(s) else
      var before :- Cycled(pf, s, n - 1);
      FromJson(pf, RedactJson(pf, ToJson(before)))
  }

  /** However often a state is saved and loaded, it is the redacted state. */
  lemma {:induction false} CyclesAreOne(pf: Platform, s: Snapshot, n: nat)
    requires CleanNames(pf) && ValidPlatform(pf) && TimesValid(pf, s) && s.schemaVersion == 1 && KeysClean(pf, s)
    requires n >= 1
    ensures Cycled(pf, s, n) == Ok(Persisted(pf, s))
    decreases n
  {
    hide CleanNames, ValidPlatform, TimesValid, KeysClean, Persisted, FromJson, ToJson, RedactJson;
    if n == 1 {
      assert Cycled(pf, s, 0) == Ok(s);
      SaveThenLoad(pf, s);
    } else {
      CyclesAreOne(pf, s, n - 1);
      PersistedTimes(pf, s);
      SaveThenLoad(pf, Persisted(pf, s));
      PersistedIdempotent(pf, s);
    }
  }
}
