// The field names and enumeration values of the persisted JSON (domain.py).

module FieldNames {

  datatype Field =
    | Id | Title | Instructions | Task | Phase | Dependencies | Access | AffectedPaths | ExpectedResult
    | Verification | Confidence | RiskFlags | ModelAlias | Model | ReasoningEffort | Sandbox | Approval
    | TimeoutSeconds | MaxAttempts | Destructive | ExternalWrite | EscalationTask | Source | Reason | WorkItemId
    | ThreadId | TurnId | Status | FinalResponse | SdkItems | InputTokens | CachedInputTokens | OutputTokens
    | DurationSeconds | ChangedPaths | EscalationRequested | Error | RunId | ApprovedBy | ApprovedAt
    | ConfigurationDigest | Fingerprint | Prompt | ProjectPath | ExplicitTask | ConfigPath | CreatedAt
    | IsGitWorktree | Branch | DirtyPaths | InstructionFiles | LanguageCounts | DockerFiles | CommandErrors | Path
    | Content | Language | Count | SchemaVersion | Objective | Repository | WorkItems | Routes | Results | Approvals

  function Name(f: Field): string {
    match f
    case Id => "id"
    case Title => "title"
    case Instructions => "instructions"
    case Task => "task"
    case Phase => "phase"
    case Dependencies => "dependencies"
    case Access => "access"
    case AffectedPaths => "affected_paths"
    case ExpectedResult => "expected_result"
    case Verification => "verification"
    case Confidence => "confidence"
    case RiskFlags => "risk_flags"
    case ModelAlias => "model_alias"
    case Model => "model"
    case ReasoningEffort => "reasoning_effort"
    case Sandbox => "sandbox"
    case Approval => "approval"
    case TimeoutSeconds => "timeout_seconds"
    case MaxAttempts => "max_attempts"
    case Destructive => "destructive"
    case ExternalWrite => "external_write"
    case EscalationTask => "escalation_task"
    case Source => "source"
    case Reason => "reason"
    case WorkItemId => "work_item_id"
    case ThreadId => "thread_id"
    case TurnId => "turn_id"
    case Status => "status"
    case FinalResponse => "final_response"
    case SdkItems => "sdk_items"
    case InputTokens => "input_tokens"
    case CachedInputTokens => "cached_input_tokens"
    case OutputTokens => "output_tokens"
    case DurationSeconds => "duration_seconds"
    case ChangedPaths => "changed_paths"
    case EscalationRequested => "escalation_requested"
    case Error => "error"
    case RunId => "run_id"
    case ApprovedBy => "approved_by"
    case ApprovedAt => "approved_at"
    case ConfigurationDigest => "configuration_digest"
    case Fingerprint => "fingerprint"
    case Prompt => "prompt"
    case ProjectPath => "project_path"
    case ExplicitTask => "explicit_task"
    case ConfigPath => "config_path"
    case CreatedAt => "created_at"
    case IsGitWorktree => "is_git_worktree"
    case Branch => "branch"
    case DirtyPaths => "dirty_paths"
    case InstructionFiles => "instruction_files"
    case LanguageCounts => "language_counts"
    case DockerFiles => "docker_files"
    case CommandErrors => "command_errors"
    case Path => "path"
    case Content => "content"
    case Language => "language"
    case Count => "count"
    case SchemaVersion => "schema_version"
    case Objective => "objective"
    case Repository => "repository"
    case WorkItems => "work_items"
    case Routes => "routes"
    case Results => "results"
    case Approvals => "approvals"
  }

  /** Tells a field name by its length and a few of its characters. */
  function FieldOf(n: string): Field {
    if |n| == 2 then Id
    else if |n| == 4 then if n[3] == 'k' then Task else Path
    else if |n| == 5 then
      if n[3] == 'l' then Title
      else if n[3] == 's' then Phase
      else if n[3] == 'e' then Model
      else if n[3] == 'o' then Error
      else Count
    else if |n| == 6 then
      if n[4] == 's' then Access
      else if n[4] == 'c' then (if n[5] == 'e' then Source else Branch)
      else if n[4] == 'o' then Reason
      else if n[4] == 'u' then Status
      else if n[4] == 'i' then RunId
      else if n[4] == 'p' then Prompt
      else Routes
    else if |n| == 7 then
      if n[6] == 'x' then Sandbox
      else if n[6] == 'd' then TurnId
      else if n[6] == 't' then Content
      else Results
    else if |n| == 8 then if n[7] == 'l' then Approval else Language
    else if |n| == 9 then
      if n[7] == 'i' then ThreadId
      else if n[7] == 'm' then SdkItems
      else if n[7] == 'v' then Objective
      else Approvals
    else if |n| == 10 then
      if n[8] == 'c' then Confidence
      else if n[8] == 'g' then RiskFlags
      else if n[8] == 'a' then CreatedAt
      else if n[8] == 'r' then Repository
      else WorkItems
    else if |n| == 11 then
      if n[9] == 'a' then (if n[10] == 's' then ModelAlias else ApprovedAt)
      else if n[9] == 'v' then Destructive
      else if n[9] == 'b' then ApprovedBy
      else if n[9] == 'n' then Fingerprint
      else if n[9] == 't' then ConfigPath
      else DirtyPaths
    else if |n| == 12 then
      if n[9] == 'o' then Instructions
      else if n[9] == 'i' then (if n[11] == 's' then Dependencies else Verification)
      else if n[9] == 'p' then MaxAttempts
      else if n[9] == '_' then WorkItemId
      else if n[9] == 'e' then InputTokens
      else if n[9] == 'a' then ProjectPath
      else DockerFiles
    else if |n| == 13 then
      if n[11] == 'n' then OutputTokens
      else if n[11] == 'h' then ChangedPaths
      else ExplicitTask
    else if |n| == 14 then
      if n[12] == 'h' then AffectedPaths
      else if n[12] == 't' then ExternalWrite
      else if n[12] == 's' then FinalResponse
      else if n[12] == 'r' then CommandErrors
      else SchemaVersion
    else if |n| == 15 then
      if n[13] == 'l' then ExpectedResult
      else if n[13] == 'd' then TimeoutSeconds
      else if n[13] == 's' then EscalationTask
      else if n[13] == 'e' then IsGitWorktree
      else LanguageCounts
    else if |n| == 16 then if n[15] == 't' then ReasoningEffort else DurationSeconds
    else if |n| == 17 then InstructionFiles
    else if |n| == 19 then CachedInputTokens
    else if |n| == 20 then if n[19] == 'd' then EscalationRequested else ConfigurationDigest
    else Id
  }

  /** The fields of items, routes and most results. */
  predicate OfWork(f: Field) {
    f.Id? || f.Title? || f.Instructions? || f.Task? || f.Phase? || f.Dependencies? || f.Access? ||
    f.AffectedPaths? || f.ExpectedResult? || f.Verification? || f.Confidence? || f.RiskFlags? || f.ModelAlias?
    || f.Model? || f.ReasoningEffort? || f.Sandbox? || f.Approval? || f.TimeoutSeconds? || f.MaxAttempts? ||
    f.Destructive? || f.ExternalWrite? || f.EscalationTask? || f.Source? || f.Reason? || f.WorkItemId? ||
    f.ThreadId? || f.TurnId? || f.Status? || f.FinalResponse? || f.SdkItems? || f.InputTokens? ||
    f.CachedInputTokens? || f.OutputTokens? || f.DurationSeconds? || f.ChangedPaths? || f.EscalationRequested?
  }

  lemma {:induction false} WorkNameInverts(f: Field)
    requires OfWork(f)
    ensures FieldOf(Name(f)) == f
  {
    match f
    case Id => assert |Name(f)| == 2;
    case Title => assert |Name(f)| == 5;
    case Instructions => assert |Name(f)| == 12;
    case Task => assert |Name(f)| == 4;
    case Phase => assert |Name(f)| == 5;
    case Dependencies => assert |Name(f)| == 12;
    case Access => assert |Name(f)| == 6;
    case AffectedPaths => assert |Name(f)| == 14;
    case ExpectedResult => assert |Name(f)| == 15;
    case Verification => assert |Name(f)| == 12;
    case Confidence => assert |Name(f)| == 10;
    case RiskFlags => assert |Name(f)| == 10;
    case ModelAlias => assert |Name(f)| == 11;
    case Model => assert |Name(f)| == 5;
    case ReasoningEffort => assert |Name(f)| == 16;
    case Sandbox => assert |Name(f)| == 7;
    case Approval => assert |Name(f)| == 8;
    case TimeoutSeconds => assert |Name(f)| == 15;
    case MaxAttempts => assert |Name(f)| == 12;
    case Destructive => assert |Name(f)| == 11;
    case ExternalWrite => assert |Name(f)| == 14;
    case EscalationTask => assert |Name(f)| == 15;
    case Source => assert |Name(f)| == 6;
    case Reason => assert |Name(f)| == 6;
    case WorkItemId => assert |Name(f)| == 12;
    case ThreadId => assert |Name(f)| == 9;
    case TurnId => assert |Name(f)| == 7;
    case Status => assert |Name(f)| == 6;
    case FinalResponse => assert |Name(f)| == 14;
    case SdkItems => assert |Name(f)| == 9;
    case InputTokens => assert |Name(f)| == 12;
    case CachedInputTokens => assert |Name(f)| == 19;
    case OutputTokens => assert |Name(f)| == 13;
    case DurationSeconds => assert |Name(f)| == 16;
    case ChangedPaths => assert |Name(f)| == 13;
    case EscalationRequested => assert |Name(f)| == 20;
    case _ =>
  }

  lemma {:induction false} OtherNameInverts(f: Field)
    requires !OfWork(f)
    ensures FieldOf(Name(f)) == f
  {
    match f
    case Error => assert |Name(f)| == 5;
    case RunId => assert |Name(f)| == 6;
    case ApprovedBy => assert |Name(f)| == 11;
    case ApprovedAt => assert |Name(f)| == 11;
    case ConfigurationDigest => assert |Name(f)| == 20;
    case Fingerprint => assert |Name(f)| == 11;
    case Prompt => assert |Name(f)| == 6;
    case ProjectPath => assert |Name(f)| == 12;
    case ExplicitTask => assert |Name(f)| == 13;
    case ConfigPath => assert |Name(f)| == 11;
    case CreatedAt => assert |Name(f)| == 10;
    case IsGitWorktree => assert |Name(f)| == 15;
    case Branch => assert |Name(f)| == 6;
    case DirtyPaths => assert |Name(f)| == 11;
    case InstructionFiles => assert |Name(f)| == 17;
    case LanguageCounts => assert |Name(f)| == 15;
    case DockerFiles => assert |Name(f)| == 12;
    case CommandErrors => assert |Name(f)| == 14;
    case Path => assert |Name(f)| == 4;
    case Content => assert |Name(f)| == 7;
    case Language => assert |Name(f)| == 8;
    case Count => assert |Name(f)| == 5;
    case SchemaVersion => assert |Name(f)| == 14;
    case Objective => assert |Name(f)| == 9;
    case Repository => assert |Name(f)| == 10;
    case WorkItems => assert |Name(f)| == 10;
    case Routes => assert |Name(f)| == 6;
    case Results => assert |Name(f)| == 7;
    case Approvals => assert |Name(f)| == 9;
    case _ =>
  }

  lemma {:induction false} NameInverts(f: Field)
    ensures FieldOf(Name(f)) == f
  {
    hide *;
    if OfWork(f) {
      WorkNameInverts(f);
    } else {
      OtherNameInverts(f);
    }
  }

  /** No two fields have the same name. */
  lemma {:induction false} NamesDiffer()
    ensures forall f :: FieldOf(Name(f)) == f
  {
    hide *;
    forall f ensures FieldOf(Name(f)) == f {
      NameInverts(f);
    }
  }

  datatype Tag =
    | ReadOnly | WorkspaceWrite | Automatic | Required | Pending | AwaitingApproval | Running | Succeeded | Failed
    | Blocked | Planned | Completed | Explicit | Planner | Match | Default

  function TagText(t: Tag): string {
    match t
    case ReadOnly => "read-only"
    case WorkspaceWrite => "workspace-write"
    case Automatic => "automatic"
    case Required => "required"
    case Pending => "pending"
    case AwaitingApproval => "awaiting-approval"
    case Running => "running"
    case Succeeded => "succeeded"
    case Failed => "failed"
    case Blocked => "blocked"
    case Planned => "planned"
    case Completed => "completed"
    case Explicit => "explicit"
    case Planner => "planner"
    case Match => "match"
    case Default => "default"
  }

  /** Tells an enumeration value in the same way. */
  function TagOf(n: string): Tag {
    if |n| == 5 then Match
    else if |n| == 6 then Failed
    else if |n| == 7 then
      if n[6] == 'g' then (if n[3] == 'd' then Pending else Running)
      else if n[6] == 'd' then (if n[4] == 'k' then Blocked else Planned)
      else if n[6] == 'r' then Planner
      else Default
    else if |n| == 8 then if n[7] == 'd' then Required else Explicit
    else if |n| == 9 then
      if n[4] == '-' then ReadOnly
      else if n[4] == 'm' then Automatic
      else if n[4] == 'e' then Succeeded
      else Completed
    else if |n| == 15 then WorkspaceWrite
    else if |n| == 17 then AwaitingApproval
    else ReadOnly
  }

  lemma {:induction false} TagInverts(t: Tag)
    ensures TagOf(TagText(t)) == t
  {
  }

  /** No two enumeration values have the same text. */
  lemma {:induction false} TagsDiffer()
    ensures forall t :: TagOf(TagText(t)) == t
  {
    hide *;
    forall t ensures TagOf(TagText(t)) == t {
      TagInverts(t);
    }
  }
}
