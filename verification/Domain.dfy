// Values of a run: work items, routes, results, approvals and the checkpoint
// that aggregates them (domain.py).  Paths and time stamps are strings.

module Domain {

  datatype Option<+T> = None | Some(value: T)

  datatype Result<+T, +E> = Ok(value: T) | Err(error: E) {
    predicate IsFailure() {
      Err?
    }

    function PropagateFailure<U>(): Result<U, E>
      requires Err?
    {
      Err(error)
    }

    function Extract(): T
      requires Ok?
    {
      value
    }
  }

  datatype WorkStatus = Pending | AwaitingApproval | Running | Succeeded | Failed | Blocked

  datatype RunStatus = Planned | AwaitingApproval | Running | Completed | Failed | Blocked

  datatype AccessMode = ReadOnly | WorkspaceWrite

  datatype SandboxMode = ReadOnly | WorkspaceWrite

  datatype ApprovalMode = Automatic | Required

  datatype RouteSource = Explicit | Planned | Match | Default

  /** A Python float, as mantissa * 2^exponent. */
  datatype Float = Float(mantissa: int, exponent: int)

  const ZERO := Float(0, 0)

  const ONE := Float(1, 0)

  datatype Json =
    | JNull
    | JBool(truth: bool)
    | JInt(integer: int)
    | JFloat(number: Float)
    | JString(text: string)
    | JList(items: seq<Json>)
    | JObject(fields: map<string, Json>)

  datatype WorkItem = WorkItem(
    id: string,
    title: string,
    instructions: string,
    task: string,
    phase: string,
    dependencies: seq<string>,
    access: AccessMode,
    affectedPaths: seq<string>,
    expectedResult: string,
    verification: seq<string>,
    confidence: Float,
    riskFlags: set<string>)

  datatype RouteDecision = RouteDecision(
    task: string,
    modelAlias: string,
    model: string,
    reasoningEffort: string,
    sandbox: SandboxMode,
    approval: ApprovalMode,
    timeoutSeconds: int,
    maxAttempts: int,
    destructive: bool,
    externalWrite: bool,
    escalationTask: Option<string>,
    source: RouteSource,
    reason: string)

  datatype WorkResult = WorkResult(
    workItemId: string,
    threadId: Option<string>,
    turnId: Option<string>,
    status: WorkStatus,
    finalResponse: Option<string>,
    sdkItems: seq<Json>,
    inputTokens: int,
    cachedInputTokens: int,
    outputTokens: int,
    durationSeconds: Float,
    changedPaths: seq<string>,
    verification: seq<string>,
    confidence: Float,
    escalationRequested: bool,
    error: Option<string>)

  datatype ApprovalRecord = ApprovalRecord(
    runId: string,
    workItemId: string,
    approvedBy: string,
    approvedAt: string,
    configurationDigest: string,
    fingerprint: string)

  datatype Objective = Objective(
    id: string,
    prompt: string,
    projectPath: string,
    explicitTask: Option<string>,
    configPath: string,
    createdAt: string)

  datatype InstructionFile = InstructionFile(path: string, content: string)

  datatype LanguageCount = LanguageCount(language: string, count: int)

  datatype RepositoryContext = RepositoryContext(
    projectPath: string,
    isGitWorktree: bool,
    branch: Option<string>,
    dirtyPaths: seq<string>,
    instructionFiles: seq<InstructionFile>,
    languageCounts: seq<LanguageCount>,
    dockerFiles: seq<string>,
    commandErrors: seq<string>)

  /** One checkpoint: the whole value of a run's mutable state. */
  datatype Snapshot = Snapshot(
    schemaVersion: int,
    configurationDigest: string,
    objective: Objective,
    repository: RepositoryContext,
    workItems: map<string, WorkItem>,
    routes: map<string, RouteDecision>,
    results: map<string, WorkResult>,
    approvals: map<string, ApprovalRecord>,
    status: RunStatus)

  /** The canonical content an approval is bound to (approvals.py:70-78). */
  datatype Payload = Payload(configurationDigest: string, route: RouteDecision, item: WorkItem)

  /** What the run engine takes as given: which map keys and which texts are
      secret, the hash of a canonical payload, recognition of timezone-aware ISO
      time stamps, blankness after stripping, and the physical directory a
      project path resolves to. */
  datatype Platform = Platform(
    secretKey: string -> bool,
    secretText: string -> bool,
    fingerprint: Payload -> string,
    timestamp: string -> bool,
    blank: string -> bool,
    physical: string -> string)

  const TASK_ID := "task"

  const COMPLETION_ID := "__goalrouter_completion_review__"

  predicate Terminal(status: WorkStatus) {
    status.Succeeded? || status.Failed? || status.Blocked?
  }
}
