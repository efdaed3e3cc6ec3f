// The routing policy (config.py) and the router that applies it (routing.py).

module Routing {
  import opened Domain

  datatype ModelAlias = ModelAlias(name: string, model: string, reasoningEffort: string, rank: int)

  datatype TaskPolicy = TaskPolicy(
    task: string,
    description: string,
    modelAlias: string,
    sandbox: SandboxMode,
    approval: ApprovalMode,
    timeoutSeconds: int,
    maxAttempts: int,
    destructive: bool,
    externalWrite: bool,
    escalateTo: Option<string>)

  datatype MatchRule = MatchRule(task: string, phrases: seq<string>, fileGlobs: seq<string>)

  datatype HardRiskRule = HardRiskRule(flag: string, minimumModelAlias: Option<string>, approval: Option<ApprovalMode>)

  datatype RouterConfig = RouterConfig(
    defaultTask: string,
    plannerTask: string,
    completionTask: string,
    modelAliases: map<string, ModelAlias>,
    tasks: map<string, TaskPolicy>,
    matching: seq<MatchRule>,
    hardRiskRules: seq<HardRiskRule>)

  /** A schema-valid policy: the entries of its mappings in the order of the file. */
  datatype RawConfig = RawConfig(
    defaultTask: string,
    plannerTask: string,
    completionTask: string,
    aliases: seq<ModelAlias>,
    tasks: seq<TaskPolicy>,
    matching: seq<MatchRule>,
    hardRiskRules: seq<HardRiskRule>)

  // ----- semantic validation (config.py:87-134) -----

  datatype ConfigProblem =
    | InvalidRank(alias: string)
    | DuplicateRank(rank: int, first: string, second: string)
    | UnknownTask(task: string)
    | UnknownAlias(alias: string)

  predicate HasAlias(raw: RawConfig, name: string) {
    exists i :: 0 <= i < |raw.aliases| && raw.aliases[i].name == name
  }

  predicate HasTask(raw: RawConfig, name: string) {
    exists i :: 0 <= i < |raw.tasks| && raw.tasks[i].task == name
  }

  /** The keys of a mapping are distinct. */
  ghost predicate DistinctNames(raw: RawConfig) {
    && (forall i, j | 0 <= i < j < |raw.aliases| :: raw.aliases[i].name != raw.aliases[j].name)
    && (forall i, j | 0 <= i < j < |raw.tasks| :: raw.tasks[i].task != raw.tasks[j].task)
  }

  ghost predicate RanksSound(aliases: seq<ModelAlias>) {
    && (forall i | 0 <= i < |aliases| :: aliases[i].rank > 0)
    && forall i, j | 0 <= i < j < |aliases| :: aliases[i].rank != aliases[j].rank
  }

  predicate TaskSound(raw: RawConfig, p: TaskPolicy) {
    HasAlias(raw, p.modelAlias) && (p.escalateTo.Some? ==> HasTask(raw, p.escalateTo.value))
  }

  predicate RuleSound(raw: RawConfig, r: HardRiskRule) {
    r.minimumModelAlias.Some? ==> HasAlias(raw, r.minimumModelAlias.value)
  }

  ghost predicate ReferencesSound(raw: RawConfig) {
    && HasTask(raw, raw.defaultTask) && HasTask(raw, raw.plannerTask) && HasTask(raw, raw.completionTask)
    && (forall i | 0 <= i < |raw.matching| :: HasTask(raw, raw.matching[i].task))
    && (forall i | 0 <= i < |raw.hardRiskRules| :: RuleSound(raw, raw.hardRiskRules[i]))
  }

  ghost predicate Sound(raw: RawConfig) {
    && RanksSound(raw.aliases) && ReferencesSound(raw)
    && (forall i | 0 <= i < |raw.tasks| :: TaskSound(raw, raw.tasks[i]))
  }

  /** The reported problem is really there. */
  ghost predicate Found(raw: RawConfig, problem: ConfigProblem) {
    match problem
    case InvalidRank(alias) => exists i :: 0 <= i < |raw.aliases| && raw.aliases[i].name == alias && raw.aliases[i].rank <= 0
    case DuplicateRank(rank, first, second) =>
      exists i, j :: 0 <= i < j < |raw.aliases| && raw.aliases[i].name == first && raw.aliases[j].name == second
                     && raw.aliases[i].rank == rank == raw.aliases[j].rank
    case UnknownTask(task) => !HasTask(raw, task)
    case UnknownAlias(alias) => !HasAlias(raw, alias)
  }

  /** The first names of the ranks seen among the first k aliases. */
  ghost predicate RanksSeen(aliases: seq<ModelAlias>, k: nat, ranks: map<int, string>) {
    && k <= |aliases|
    && (forall i | 0 <= i < k :: aliases[i].rank in ranks)
    && forall r | r in ranks :: exists i :: 0 <= i < k && aliases[i].rank == r && aliases[i].name == ranks[r]
  }

  method ValidateRanks(raw: RawConfig) returns (problem: Option<ConfigProblem>)
    ensures problem.None? <==> RanksSound(raw.aliases)
    ensures problem.Some? ==> Found(raw, problem.value)
  {
    var ranks: map<int, string> := map[];
    for k := 0 to |raw.aliases|
      invariant RanksSeen(raw.aliases, k, ranks) && RanksSound(raw.aliases[..k])
    {
      var alias := raw.aliases[k];
      if alias.rank <= 0 {
        return Some(InvalidRank(alias.name));
      }
      if alias.rank in ranks {
        return Some(DuplicateRank(alias.rank, ranks[alias.rank], alias.name));
      }
      ranks := ranks[alias.rank := alias.name];
    }
    assert raw.aliases[..|raw.aliases|] == raw.aliases;
    return None;
  }

  method ValidateSemantics(raw: RawConfig) returns (problem: Option<ConfigProblem>)
    ensures problem.None? <==> Sound(raw)
    ensures problem.Some? ==> Found(raw, problem.value)
  {
    problem := ValidateRanks(raw);
    if problem.Some? {
      return;
    }
    var named := [raw.defaultTask, raw.plannerTask, raw.completionTask];
    for k := 0 to 3
      invariant forall i | 0 <= i < k :: HasTask(raw, named[i])
    {
      if !HasTask(raw, named[k]) {
        assert k == 0 || k == 1 || k == 2;
        return Some(UnknownTask(named[k]));
      }
    }
    assert HasTask(raw, named[0]) && HasTask(raw, named[1]) && HasTask(raw, named[2]);
    for k := 0 to |raw.tasks|
      invariant forall i | 0 <= i < k :: TaskSound(raw, raw.tasks[i])
    {
      if !HasAlias(raw, raw.tasks[k].modelAlias) {
        return Some(UnknownAlias(raw.tasks[k].modelAlias));
      }
      var escalation := raw.tasks[k].escalateTo;
      if escalation.Some? && !HasTask(raw, escalation.value) {
        return Some(UnknownTask(escalation.value));
      }
    }
    for k := 0 to |raw.matching|
      invariant forall i | 0 <= i < k :: HasTask(raw, raw.matching[i].task)
    {
      if !HasTask(raw, raw.matching[k].task) {
        return Some(UnknownTask(raw.matching[k].task));
      }
    }
    for k := 0 to |raw.hardRiskRules|
      invariant forall i | 0 <= i < k :: RuleSound(raw, raw.hardRiskRules[i])
    {
      var alias := raw.hardRiskRules[k].minimumModelAlias;
      if alias.Some? && !HasAlias(raw, alias.value) {
        return Some(UnknownAlias(alias.value));
      }
    }
    return None;
  }

  function AliasesByName(aliases: seq<ModelAlias>): (r: map<string, ModelAlias>)
    ensures forall n | n in r :: exists i :: 0 <= i < |aliases| && aliases[i] == r[n] && aliases[i].name == n
    ensures forall i | 0 <= i < |aliases| :: aliases[i].name in r
  {
    if aliases == [] then map[] else
      var last := aliases[|aliases| - 1];
      assert forall i | 0 <= i < |aliases| - 1 :: aliases[..|aliases| - 1][i] == aliases[i];
      AliasesByName(aliases[..|aliases| - 1])[last.name := last]
  }

  function TasksByName(tasks: seq<TaskPolicy>): (r: map<string, TaskPolicy>)
    ensures forall n | n in r :: exists i :: 0 <= i < |tasks| && tasks[i] == r[n] && tasks[i].task == n
    ensures forall i | 0 <= i < |tasks| :: tasks[i].task in r
  {
    if tasks == [] then map[] else
      var last := tasks[|tasks| - 1];
      assert forall i | 0 <= i < |tasks| - 1 :: tasks[..|tasks| - 1][i] == tasks[i];
      TasksByName(tasks[..|tasks| - 1])[last.task := last]
  }

  /** config.py:137-171. */
  function ParseRouterConfig(raw: RawConfig): RouterConfig {
    RouterConfig(raw.defaultTask, raw.plannerTask, raw.completionTask, AliasesByName(raw.aliases), TasksByName(raw.tasks),
                 raw.matching, raw.hardRiskRules)
  }

  ghost predicate AliasesKnown(m: map<string, ModelAlias>) {
    && (forall n | n in m :: m[n].name == n && m[n].rank > 0)
    && (forall n, k | n in m && k in m && m[n].rank == m[k].rank :: n == k)
  }

  ghost predicate TasksKnown(c: RouterConfig) {
    && (forall n | n in c.tasks :: c.tasks[n].task == n && c.tasks[n].modelAlias in c.modelAliases)
    && (forall n | n in c.tasks && c.tasks[n].escalateTo.Some? :: c.tasks[n].escalateTo.value in c.tasks)
  }

  ghost predicate ReferencesKnown(c: RouterConfig) {
    && c.defaultTask in c.tasks && c.plannerTask in c.tasks && c.completionTask in c.tasks
    && (forall r | r in c.matching :: r.task in c.tasks)
    && (forall r | r in c.hardRiskRules && r.minimumModelAlias.Some? :: r.minimumModelAlias.value in c.modelAliases)
  }

  /** What the router can rely on. */
  ghost predicate Accepted(c: RouterConfig) {
    AliasesKnown(c.modelAliases) && TasksKnown(c) && ReferencesKnown(c)
  }

  lemma {:induction false} NamesKept(raw: RawConfig)
    ensures forall n :: HasAlias(raw, n) <==> n in AliasesByName(raw.aliases)
    ensures forall n :: HasTask(raw, n) <==> n in TasksByName(raw.tasks)
  {
  }

  lemma {:induction false} RanksKnown(aliases: seq<ModelAlias>)
    requires RanksSound(aliases)
    ensures AliasesKnown(AliasesByName(aliases))
  {
    var m := AliasesByName(aliases);
    forall n, k | n in m && k in m ensures m[n].name == n && m[n].rank > 0 && (m[n].rank == m[k].rank ==> n == k) {
      var i :| 0 <= i < |aliases| && aliases[i] == m[n] && aliases[i].name == n;
      var j :| 0 <= j < |aliases| && aliases[j] == m[k] && aliases[j].name == k;
      assert aliases[i].rank == aliases[j].rank ==> i == j;
    }
  }

  lemma {:induction false} TaskKnown(raw: RawConfig, n: string)
    requires n in TasksByName(raw.tasks) && forall i | 0 <= i < |raw.tasks| :: TaskSound(raw, raw.tasks[i])
    ensures var p := TasksByName(raw.tasks)[n];
            && p.task == n && p.modelAlias in AliasesByName(raw.aliases)
            && (p.escalateTo.Some? ==> p.escalateTo.value in TasksByName(raw.tasks))
  {
    NamesKept(raw);
    var i :| 0 <= i < |raw.tasks| && raw.tasks[i] == TasksByName(raw.tasks)[n] && raw.tasks[i].task == n;
    assert TaskSound(raw, raw.tasks[i]);
    hide AliasesByName, TasksByName, HasAlias, HasTask;
  }

  lemma {:induction false} SameReferences(raw: RawConfig)
    ensures ReferencesSound(raw) <==> ReferencesKnown(ParseRouterConfig(raw))
  {
    NamesKept(raw);
    hide AliasesByName, TasksByName, HasAlias, HasTask;
    if ReferencesSound(raw) {
      forall r | r in raw.hardRiskRules ensures RuleSound(raw, r) {
        var i :| 0 <= i < |raw.hardRiskRules| && raw.hardRiskRules[i] == r;
      }
    }
  }

  /** A policy that passes validation is one the router can rely on. */
  lemma {:induction false} SoundIsAccepted(raw: RawConfig)
    requires Sound(raw)
    ensures Accepted(ParseRouterConfig(raw))
  {
    RanksKnown(raw.aliases);
    SameReferences(raw);
    hide RanksSound, AliasesKnown, ReferencesKnown, TaskSound, RuleSound, AliasesByName, TasksByName, HasTask, HasAlias;
    forall n | n in TasksByName(raw.tasks)
      ensures TasksByName(raw.tasks)[n].task == n && TasksByName(raw.tasks)[n].modelAlias in AliasesByName(raw.aliases)
      ensures TasksByName(raw.tasks)[n].escalateTo.Some? ==>
                TasksByName(raw.tasks)[n].escalateTo.value in TasksByName(raw.tasks)
    {
      TaskKnown(raw, n);
    }
  }

  lemma {:induction false} AliasFound(aliases: seq<ModelAlias>, i: nat)
    requires i < |aliases| && forall j, k | 0 <= j < k < |aliases| :: aliases[j].name != aliases[k].name
    ensures aliases[i].name in AliasesByName(aliases) && AliasesByName(aliases)[aliases[i].name] == aliases[i]
  {
    var n :| 0 <= n < |aliases| && aliases[n] == AliasesByName(aliases)[aliases[i].name] && aliases[n].name == aliases[i].name;
  }

  lemma {:induction false} TaskFound(raw: RawConfig, i: nat)
    requires i < |raw.tasks| && DistinctNames(raw)
    ensures raw.tasks[i].task in TasksByName(raw.tasks) && TasksByName(raw.tasks)[raw.tasks[i].task] == raw.tasks[i]
  {
    var p := TasksByName(raw.tasks)[raw.tasks[i].task];
    var n :| 0 <= n < |raw.tasks| && raw.tasks[n] == p && raw.tasks[n].task == raw.tasks[i].task;
  }

  lemma {:induction false} KnownRanks(aliases: seq<ModelAlias>)
    requires forall j, k | 0 <= j < k < |aliases| :: aliases[j].name != aliases[k].name
    requires AliasesKnown(AliasesByName(aliases))
    ensures RanksSound(aliases)
  {
    hide AliasesByName;
    forall i | 0 <= i < |aliases| ensures aliases[i].rank > 0 {
      AliasFound(aliases, i);
    }
    forall i, j | 0 <= i < j < |aliases| ensures aliases[i].rank != aliases[j].rank {
      AliasFound(aliases, i);
      AliasFound(aliases, j);
    }
  }

  lemma {:induction false} KnownTask(raw: RawConfig, i: nat)
    requires DistinctNames(raw) && TasksKnown(ParseRouterConfig(raw)) && i < |raw.tasks|
    ensures TaskSound(raw, raw.tasks[i])
  {
    NamesKept(raw);
    TaskFound(raw, i);
    hide AliasesByName, TasksByName, HasAlias, HasTask;
  }

  /** Validation asks for no more than what the router relies on. */
  lemma {:induction false} AcceptedIsSound(raw: RawConfig)
    requires DistinctNames(raw) && Accepted(ParseRouterConfig(raw))
    ensures Sound(raw)
  {
    KnownRanks(raw.aliases);
    SameReferences(raw);
    hide RanksSound, AliasesKnown, ReferencesKnown, TasksKnown, TaskSound, RuleSound, AliasesByName, TasksByName,
      HasTask, HasAlias;
    forall i | 0 <= i < |raw.tasks| ensures TaskSound(raw, raw.tasks[i]) {
      KnownTask(raw, i);
    }
  }

  // ----- task selection (routing.py:28-71) -----

  /** Library behaviour: quoting, and whether a phrase occurs in a prompt or a
      pattern matches a path. */
  datatype Library = Library(quote: string -> string, phraseIn: (string, string) -> bool, globMatches: (string, string) -> bool)

  datatype RoutingError = NoSuchTask(task: string) | NoSuchAlias(alias: string)

  predicate PatternMatches(lib: Library, path: string, pattern: string) {
    lib.globMatches(path, pattern) || ("**/" <= pattern && lib.globMatches(path, pattern[3..]))
  }

  predicate RuleMatches(lib: Library, rule: MatchRule, prompt: string, paths: seq<string>) {
    || (exists p :: p in rule.phrases && lib.phraseIn(p, prompt))
    || (exists path, pattern :: path in paths && pattern in rule.fileGlobs && PatternMatches(lib, path, pattern))
  }

  /** The first matching pattern of the first path that has one. */
  ghost predicate FirstPair(lib: Library, paths: seq<string>, patterns: seq<string>, i: nat, j: nat) {
    && i < |paths| && j < |patterns| && PatternMatches(lib, paths[i], patterns[j])
    && (forall m, n | 0 <= m < i && 0 <= n < |patterns| :: !PatternMatches(lib, paths[m], patterns[n]))
    && (forall n | 0 <= n < j :: !PatternMatches(lib, paths[i], patterns[n]))
  }

  /** routing.py:158-168. */
  method FirstGlobMatch(lib: Library, paths: seq<string>, patterns: seq<string>)
    returns (found: Option<(string, string)>)
    ensures found.None? <==>
              forall path, pattern | path in paths && pattern in patterns :: !PatternMatches(lib, path, pattern)
    ensures found.Some? ==>
              found.value.0 in paths && found.value.1 in patterns && PatternMatches(lib, found.value.0, found.value.1)
    ensures found.Some? ==>
              (exists i: nat, j: nat :: FirstPair(lib, paths, patterns, i, j) && found.value == (paths[i], patterns[j]))
  {
    for i := 0 to |paths|
      invariant forall m, n | 0 <= m < i && 0 <= n < |patterns| :: !PatternMatches(lib, paths[m], patterns[n])
    {
      for j := 0 to |patterns|
        invariant forall n | 0 <= n < j :: !PatternMatches(lib, paths[i], patterns[n])
      {
        if PatternMatches(lib, paths[i], patterns[j]) {
          assert FirstPair(lib, paths, patterns, i, j);
          return Some((paths[i], patterns[j]));
        }
      }
    }
    return None;
  }

  method FirstPhrase(lib: Library, phrases: seq<string>, prompt: string) returns (found: Option<string>)
    ensures found.None? <==> forall p | p in phrases :: !lib.phraseIn(p, prompt)
  {
    for i := 0 to |phrases|
      invariant forall j | 0 <= j < i :: !lib.phraseIn(phrases[j], prompt)
    {
      if lib.phraseIn(phrases[i], prompt) {
        return Some(phrases[i]);
      }
    }
    return None;
  }

  /** The first matching rule, if any. */
  ghost predicate FirstRule(c: RouterConfig, lib: Library, prompt: string, paths: seq<string>, k: nat) {
    && k < |c.matching| && RuleMatches(lib, c.matching[k], prompt, paths)
    && forall i | 0 <= i < k :: !RuleMatches(lib, c.matching[i], prompt, paths)
  }

  ghost predicate NoRule(c: RouterConfig, lib: Library, prompt: string, paths: seq<string>) {
    forall i | 0 <= i < |c.matching| :: !RuleMatches(lib, c.matching[i], prompt, paths)
  }

  /** Explicit before planned before the first matching rule before the default. */
  ghost predicate Selected(c: RouterConfig, lib: Library, explicit: Option<string>, planned: Option<string>,
                           prompt: string, paths: seq<string>, task: string, source: RouteSource)
  {
    if explicit.Some? then task == explicit.value && source.Explicit?
    else if planned.Some? then task == planned.value && source.Planned?
    else (source.Match? && exists k: nat :: FirstRule(c, lib, prompt, paths, k) && task == c.matching[k].task)
         || (source.Default? && NoRule(c, lib, prompt, paths) && task == c.defaultTask)
  }

  method SelectTask(c: RouterConfig, lib: Library, explicit: Option<string>, planned: Option<string>, prompt: string,
                    paths: seq<string>)
    returns (r: Result<(string, RouteSource, string), RoutingError>)
    ensures r.Ok? ==> Selected(c, lib, explicit, planned, prompt, paths, r.value.0, r.value.1)
    ensures r.Ok? && !r.value.1.Match? ==> r.value.0 in c.tasks
    ensures r.Err? ==> r.error.NoSuchTask? && r.error.task !in c.tasks
    ensures r.Err? ==>
              exists source: RouteSource :: Selected(c, lib, explicit, planned, prompt, paths, r.error.task, source)
    ensures r.Ok? && r.value.1.Explicit? ==> r.value.2 == "explicit task " + lib.quote(r.value.0)
    ensures r.Ok? && r.value.1.Planned? ==> r.value.2 == "planner task " + lib.quote(r.value.0)
  {
    if explicit.Some? {
      if explicit.value !in c.tasks {
        assert Selected(c, lib, explicit, planned, prompt, paths, explicit.value, RouteSource.Explicit);
        return Err(NoSuchTask(explicit.value));
      }
      return Ok((explicit.value, RouteSource.Explicit, "explicit task " + lib.quote(explicit.value)));
    }
    if planned.Some? {
      if planned.value !in c.tasks {
        assert Selected(c, lib, explicit, planned, prompt, paths, planned.value, RouteSource.Planned);
        return Err(NoSuchTask(planned.value));
      }
      return Ok((planned.value, RouteSource.Planned, "planner task " + lib.quote(planned.value)));
    }
    for k := 0 to |c.matching|
      invariant forall i | 0 <= i < k :: !RuleMatches(lib, c.matching[i], prompt, paths)
    {
      var rule := c.matching[k];
      var phrase := FirstPhrase(lib, rule.phrases, prompt);
      if phrase.Some? {
        assert FirstRule(c, lib, prompt, paths, k);
        return Ok((rule.task, RouteSource.Match, "phrase " + lib.quote(phrase.value)));
      }
      var glob := FirstGlobMatch(lib, paths, rule.fileGlobs);
      if glob.Some? {
        assert FirstRule(c, lib, prompt, paths, k);
        return Ok((rule.task, RouteSource.Match, "glob " + lib.quote(glob.value.1) + " matched " + lib.quote(glob.value.0)));
      }
    }
    if c.defaultTask !in c.tasks {
      assert Selected(c, lib, explicit, planned, prompt, paths, c.defaultTask, RouteSource.Default);
      return Err(NoSuchTask(c.defaultTask));
    }
    return Ok((c.defaultTask, RouteSource.Default, "default task " + lib.quote(c.defaultTask)));
  }

  // ----- routing one item (routing.py:73-130) -----

  function ActiveFlags(p: TaskPolicy, flags: set<string>): set<string> {
    flags + (if p.destructive then {"destructive"} else {}) + (if p.externalWrite then {"external-write"} else {})
  }

  /** The rank of the routed task and the ranks of all active floors. */
  ghost function Ranks(c: RouterConfig, p: TaskPolicy, flags: set<string>, rules: seq<HardRiskRule>): set<int>
    requires p.modelAlias in c.modelAliases && FloorsKnown(c, p, flags, rules)
  {
    {c.modelAliases[p.modelAlias].rank}
    + set r | r in rules && Floor(p, flags, r) :: c.modelAliases[r.minimumModelAlias.value].rank
  }

  predicate Floor(p: TaskPolicy, flags: set<string>, r: HardRiskRule) {
    r.flag in ActiveFlags(p, flags) && r.minimumModelAlias.Some?
  }

  predicate Demands(p: TaskPolicy, flags: set<string>, r: HardRiskRule) {
    r.flag in ActiveFlags(p, flags) && r.approval == Some(ApprovalMode.Required)
  }

  ghost predicate FloorsKnown(c: RouterConfig, p: TaskPolicy, flags: set<string>, rules: seq<HardRiskRule>) {
    forall r | r in rules && Floor(p, flags, r) :: r.minimumModelAlias.value in c.modelAliases
  }

  ghost predicate NeedsApproval(p: TaskPolicy, flags: set<string>, rules: seq<HardRiskRule>) {
    p.approval.Required? || exists r :: r in rules && Demands(p, flags, r)
  }

  ghost predicate IsMaximum(m: int, s: set<int>) {
    m in s && forall x | x in s :: x <= m
  }

  function FloorNames(p: TaskPolicy, flags: set<string>, rules: seq<HardRiskRule>): seq<string> {
    if rules == [] then []
    else
      var n := |rules| - 1;
      FloorNames(p, flags, rules[..n])
      + (if Floor(p, flags, rules[n]) then [rules[n].flag + ":" + rules[n].minimumModelAlias.value] else [])
  }

  function Joined(parts: seq<string>): string {
    if parts == [] then "" else if |parts| == 1 then parts[0] else parts[0] + ", " + Joined(parts[1..])
  }

  /** What a route says of an item, whose chosen alias is under key. */
  ghost predicate Decides(c: RouterConfig, item: WorkItem, task: string, source: RouteSource, reason: string,
                          key: string, d: RouteDecision) {
    && task in c.tasks && key in c.modelAliases
    && var p, alias := c.tasks[task], c.modelAliases[key];
    && p.modelAlias in c.modelAliases && FloorsKnown(c, p, item.riskFlags, c.hardRiskRules)
    && IsMaximum(alias.rank, Ranks(c, p, item.riskFlags, c.hardRiskRules))
    && d.modelAlias == alias.name && d.model == alias.model && d.reasoningEffort == alias.reasoningEffort
    && (d.approval.Required? <==> NeedsApproval(p, item.riskFlags, c.hardRiskRules))
    && d.task == task && d.sandbox == p.sandbox && d.timeoutSeconds == p.timeoutSeconds && d.maxAttempts == p.maxAttempts
    && d.destructive == (p.destructive || "destructive" in item.riskFlags)
    && d.externalWrite == (p.externalWrite || "external-write" in item.riskFlags)
    && d.escalationTask == p.escalateTo && d.source == source
    && d.reason == (var floors := FloorNames(p, item.riskFlags, c.hardRiskRules);
                    if floors == [] then reason else reason + "; hard floors " + Joined(floors))
  }

  function TaskFor(item: WorkItem, explicit: Option<string>): string {
    if explicit.Some? then explicit.value else item.task
  }

  function SourceFor(explicit: Option<string>): RouteSource {
    if explicit.Some? then RouteSource.Explicit else RouteSource.Planned
  }

  function ReasonFor(lib: Library, item: WorkItem, explicit: Option<string>): string {
    (if explicit.Some? then "explicit task " else "planner task ") + lib.quote(TaskFor(item, explicit))
  }

  ghost predicate RoutedAs(c: RouterConfig, lib: Library, item: WorkItem, explicit: Option<string>, d: RouteDecision) {
    exists key :: Decides(c, item, TaskFor(item, explicit), SourceFor(explicit), ReasonFor(lib, item, explicit), key, d)
  }

  /** Everything the route refers to is configured. */
  ghost predicate CanRoute(c: RouterConfig, item: WorkItem, explicit: Option<string>) {
    var task := TaskFor(item, explicit);
    task in c.tasks && c.tasks[task].modelAlias in c.modelAliases
    && FloorsKnown(c, c.tasks[task], item.riskFlags, c.hardRiskRules)
  }

  method ApplyFloors(c: RouterConfig, p: TaskPolicy, flags: set<string>)
    returns (outcome: Result<int, RoutingError>, approval: ApprovalMode, floors: seq<string>)
    requires p.modelAlias in c.modelAliases
    ensures outcome.Ok? <==> FloorsKnown(c, p, flags, c.hardRiskRules)
    ensures outcome.Ok? ==> IsMaximum(outcome.value, Ranks(c, p, flags, c.hardRiskRules))
    ensures outcome.Ok? ==> (approval.Required? <==> NeedsApproval(p, flags, c.hardRiskRules))
    ensures outcome.Ok? ==> floors == FloorNames(p, flags, c.hardRiskRules)
    ensures outcome.Err? ==> outcome.error.NoSuchAlias?
  {
    var rules := c.hardRiskRules;
    var minimumRank := c.modelAliases[p.modelAlias].rank;
    approval, floors := p.approval, [];
    for k := 0 to |rules|
      invariant FloorsKnown(c, p, flags, rules[..k]) && IsMaximum(minimumRank, Ranks(c, p, flags, rules[..k]))
      invariant approval.Required? <==> NeedsApproval(p, flags, rules[..k])
      invariant floors == FloorNames(p, flags, rules[..k])
    {
      var rule := rules[k];
      assert rules[..k + 1] == rules[..k] + [rule] && rules[..k + 1][..k] == rules[..k];
      if rule.flag !in ActiveFlags(p, flags) {
        RuleAdded(c, p, flags, rules[..k], rule, minimumRank);
        continue;
      }
      if rule.minimumModelAlias.Some? {
        if rule.minimumModelAlias.value !in c.modelAliases {
          assert Floor(p, flags, rule) && rule in rules;
          return Err(NoSuchAlias(rule.minimumModelAlias.value)), approval, floors;
        }
        RuleAdded(c, p, flags, rules[..k], rule, minimumRank);
        var floor := c.modelAliases[rule.minimumModelAlias.value].rank;
        minimumRank := if minimumRank >= floor then minimumRank else floor;
        floors := floors + [rule.flag + ":" + rule.minimumModelAlias.value];
      } else {
        RuleAdded(c, p, flags, rules[..k], rule, minimumRank);
      }
      if rule.approval == Some(ApprovalMode.Required) {
        assert Demands(p, flags, rule) && rule in rules[..k + 1];
        approval := ApprovalMode.Required;
      }
    }
    assert rules[..|rules|] == rules;
    return Ok(minimumRank), approval, floors;
  }

  lemma {:induction false} RuleAdded(c: RouterConfig, p: TaskPolicy, flags: set<string>, rules: seq<HardRiskRule>,
                                     rule: HardRiskRule, m: int)
    requires p.modelAlias in c.modelAliases && FloorsKnown(c, p, flags, rules)
    requires IsMaximum(m, Ranks(c, p, flags, rules))
    requires Floor(p, flags, rule) ==> rule.minimumModelAlias.value in c.modelAliases
    ensures FloorsKnown(c, p, flags, rules + [rule])
    ensures var floor := if Floor(p, flags, rule) then c.modelAliases[rule.minimumModelAlias.value].rank else m;
            IsMaximum(if m >= floor then m else floor, Ranks(c, p, flags, rules + [rule]))
    ensures NeedsApproval(p, flags, rules + [rule]) <==> NeedsApproval(p, flags, rules) || Demands(p, flags, rule)
  {
    var more := rules + [rule];
    assert forall r :: r in more <==> r in rules || r == rule;
    assert Ranks(c, p, flags, more) == Ranks(c, p, flags, rules)
      + (if Floor(p, flags, rule) then {c.modelAliases[rule.minimumModelAlias.value].rank} else {});
  }

  /** Some alias has the required rank, namely the one that sets it. */
  lemma {:induction false} RankIsSomeAlias(c: RouterConfig, p: TaskPolicy, flags: set<string>, m: int)
    requires p.modelAlias in c.modelAliases && FloorsKnown(c, p, flags, c.hardRiskRules)
    requires m in Ranks(c, p, flags, c.hardRiskRules)
    ensures exists k :: k in c.modelAliases && c.modelAliases[k].rank == m
  {
    if m != c.modelAliases[p.modelAlias].rank {
      var r :| r in c.hardRiskRules && Floor(p, flags, r) && c.modelAliases[r.minimumModelAlias.value].rank == m;
    }
  }

  method CheapestAlias(c: RouterConfig, minimumRank: int) returns (key: Option<string>)
    ensures key.None? <==> forall k | k in c.modelAliases :: c.modelAliases[k].rank < minimumRank
    ensures key.Some? ==> key.value in c.modelAliases && c.modelAliases[key.value].rank >= minimumRank
    ensures key.Some? ==> forall k | k in c.modelAliases && c.modelAliases[k].rank >= minimumRank ::
                            c.modelAliases[key.value].rank <= c.modelAliases[k].rank
  {
    var candidates := set k | k in c.modelAliases && c.modelAliases[k].rank >= minimumRank;
    key := None;
    while candidates != {}
      invariant candidates <= c.modelAliases.Keys
      invariant key.Some? ==> key.value in c.modelAliases && c.modelAliases[key.value].rank >= minimumRank
      invariant forall k | k in c.modelAliases && c.modelAliases[k].rank >= minimumRank && k !in candidates ::
                  key.Some? && c.modelAliases[key.value].rank <= c.modelAliases[k].rank
    {
      var k :| k in candidates;
      if key.None? || c.modelAliases[k].rank < c.modelAliases[key.value].rank {
        key := Some(k);
      }
      candidates := candidates - {k};
    }
  }

  /** The router answers exactly if everything it needs is configured; no alias
      is ever too low, because the required rank is that of an alias. */
  method Route(c: RouterConfig, lib: Library, item: WorkItem, explicit: Option<string>)
    returns (r: Result<RouteDecision, RoutingError>)
    ensures r.Ok? <==> CanRoute(c, item, explicit)
    ensures r.Ok? ==> RoutedAs(c, lib, item, explicit, r.value)
    ensures r.Err? && r.error.NoSuchTask? <==> TaskFor(item, explicit) !in c.tasks
  {
    var selected := SelectTask(c, lib, explicit, Some(item.task), item.instructions, item.affectedPaths);
    if selected.Err? {
      return Err(selected.error);
    }
    var (task, source, reason) := selected.value;
    var p := c.tasks[task];
    if p.modelAlias !in c.modelAliases {
      return Err(NoSuchAlias(p.modelAlias));
    }
    var minimum, approval, floors := ApplyFloors(c, p, item.riskFlags);
    if minimum.Err? {
      return Err(minimum.error);
    }
    var key := CheapestAlias(c, minimum.value);
    RankIsSomeAlias(c, p, item.riskFlags, minimum.value);
    assert key.Some?;
    var alias := c.modelAliases[key.value];
    if floors != [] {
      reason := reason + "; hard floors " + Joined(floors);
    }
    var d := RouteDecision(task, alias.name, alias.model, alias.reasoningEffort, p.sandbox, approval, p.timeoutSeconds,
                           p.maxAttempts, p.destructive || "destructive" in item.riskFlags,
                           p.externalWrite || "external-write" in item.riskFlags, p.escalateTo, source, reason);
    assert Decides(c, item, TaskFor(item, explicit), SourceFor(explicit), ReasonFor(lib, item, explicit), key.value, d);
    return Ok(d);
  }

  // ----- what an accepted policy guarantees -----

  lemma {:induction false} AcceptedRoutes(c: RouterConfig, item: WorkItem, explicit: Option<string>)
    requires Accepted(c)
    ensures CanRoute(c, item, explicit) <==> TaskFor(item, explicit) in c.tasks
  {
  }

  ghost predicate SameButReason(d: RouteDecision, d': RouteDecision) {
    d' == d.(reason := d'.reason)
  }

  /** Neither the order nor the repetition of the hard-risk rules matters. */
  lemma {:induction false} RuleOrderIrrelevant(c: RouterConfig, rules: seq<HardRiskRule>, lib: Library, item: WorkItem,
                                               explicit: Option<string>, d: RouteDecision, d': RouteDecision)
    requires Accepted(c) && forall r :: r in rules <==> r in c.hardRiskRules
    requires RoutedAs(c, lib, item, explicit, d) && RoutedAs(c.(hardRiskRules := rules), lib, item, explicit, d')
    ensures SameButReason(d, d')
  {
    var c' := c.(hardRiskRules := rules);
    var task, source, reason := TaskFor(item, explicit), SourceFor(explicit), ReasonFor(lib, item, explicit);
    var key :| Decides(c, item, task, source, reason, key, d);
    var key' :| Decides(c', item, task, source, reason, key', d');
    var p := c.tasks[task];
    assert Ranks(c, p, item.riskFlags, c.hardRiskRules) == Ranks(c', p, item.riskFlags, rules);
    assert c.modelAliases[key].rank == c.modelAliases[key'].rank;
  }

  /** More risk flags never lower the rank of the model and never lift an approval. */
  lemma {:induction false} FlagsNeverRelax(c: RouterConfig, lib: Library, item: WorkItem, flags: set<string>,
                                           explicit: Option<string>, d: RouteDecision, d': RouteDecision)
    requires Accepted(c) && item.riskFlags <= flags
    requires RoutedAs(c, lib, item, explicit, d) && RoutedAs(c, lib, item.(riskFlags := flags), explicit, d')
    ensures d.modelAlias in c.modelAliases && d'.modelAlias in c.modelAliases
    ensures c.modelAliases[d.modelAlias].rank <= c.modelAliases[d'.modelAlias].rank
    ensures d.approval.Required? ==> d'.approval.Required?
    ensures d.destructive ==> d'.destructive
    ensures d.externalWrite ==> d'.externalWrite
  {
    var item' := item.(riskFlags := flags);
    var task, source, reason := TaskFor(item, explicit), SourceFor(explicit), ReasonFor(lib, item, explicit);
    var key :| Decides(c, item, task, source, reason, key, d);
    var key' :| Decides(c, item', task, source, reason, key', d');
    var p := c.tasks[task];
    assert ActiveFlags(p, item.riskFlags) <= ActiveFlags(p, flags);
    assert Ranks(c, p, item.riskFlags, c.hardRiskRules) <= Ranks(c, p, flags, c.hardRiskRules);
    assert c.modelAliases[key].rank in Ranks(c, p, flags, c.hardRiskRules);
    if r :| r in c.hardRiskRules && Demands(p, item.riskFlags, r) {
      assert Demands(p, flags, r);
    }
  }

  /** The chosen model has exactly the highest rank that is asked for: that of
      the routed task or of a floor that one of its risks is under. */
  lemma {:induction false} RankIsHighest(c: RouterConfig, lib: Library, item: WorkItem, explicit: Option<string>,
                                         d: RouteDecision)
    requires Accepted(c) && RoutedAs(c, lib, item, explicit, d)
    ensures d.task in c.tasks && d.modelAlias in c.modelAliases
    ensures var p, rank := c.tasks[d.task], c.modelAliases[d.modelAlias].rank;
            && c.modelAliases[p.modelAlias].rank <= rank
            && (forall r | r in c.hardRiskRules && Floor(p, item.riskFlags, r) ::
                  r.minimumModelAlias.value in c.modelAliases && c.modelAliases[r.minimumModelAlias.value].rank <= rank)
            && (d.modelAlias == p.modelAlias
                || exists r :: r in c.hardRiskRules && Floor(p, item.riskFlags, r) && r.minimumModelAlias.value == d.modelAlias)
  {
    var task, source, reason := TaskFor(item, explicit), SourceFor(explicit), ReasonFor(lib, item, explicit);
    var key :| Decides(c, item, task, source, reason, key, d);
    var p := c.tasks[task];
    assert key == d.modelAlias;
    forall r | r in c.hardRiskRules && Floor(p, item.riskFlags, r)
      ensures c.modelAliases[r.minimumModelAlias.value].rank <= c.modelAliases[key].rank
    {
      assert c.modelAliases[r.minimumModelAlias.value].rank in Ranks(c, p, item.riskFlags, c.hardRiskRules);
    }
  }
}
