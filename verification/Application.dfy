// The application coordinator (application.py).  As in Scheduler, every method
// returns the steps it took of the one-process machine.

module Application {
  import opened Domain
  import opened Ordering
  import opened Graph
  import opened Progress
  import opened Rules
  import opened Redaction
  import opened Process
  import opened Safety
  import opened Storage
  import opened Scheduler
  import opened Liveness
  import opened Approvals
  import opened Plans
  import Planner

  // ----- steps of the coordinator -----

  lemma {:induction false} NoteStep(pf: Platform, v: View, limit: nat, name: string, itemId: Option<string>)
    requires SessionOk(pf, v) && Idle(v, limit, false)
    ensures Enabled(pf, Note(name, itemId), v)
    ensures Apply(pf, Note(name, itemId), v) == View(v.session, v.files.(events := v.files.events + [Noted(name, itemId)]))
  {
    WorkingView(pf, v);
  }

  lemma {:induction false} AppendStep(pf: Platform, v: View, limit: nat, item: WorkItem, route: RouteDecision)
    requires SessionOk(pf, v) && Idle(v, limit, false)
    requires v.session.work.mem.objective.explicitTask.None? && BaseWorkSucceeded(v.session.work.mem)
    requires COMPLETION_ID !in v.session.work.mem.workItems && item.id == COMPLETION_ID
    requires item.dependencies == Sorted(v.session.work.mem.workItems.Keys) && item.access.ReadOnly?
    ensures Enabled(pf, AppendCompletion(item, route), v)
    ensures Apply(pf, AppendCompletion(item, route), v) ==
            View(Working(v.session.work.(mem := WithCompletion(v.session.work.mem, item, route))), v.files)
  {
    hide SessionOk, BaseWorkSucceeded, WellFormed, WithCompletion;
    WorkingView(pf, v);
  }

  lemma {:induction false} NoReturnsIn2(a: Action, b: Action)
    requires !a.Return? && !b.Return?
    ensures NoReturns([a, b]) && forall name, itemId :: NoReturns([a, b] + [Note(name, itemId)])
  {
  }

  lemma {:induction false} NoReturnsIn(a: Action, b: Action, c: Action)
    requires !a.Return? && !b.Return? && !c.Return?
    ensures NoReturns([] + [a] + [b] + [c])
  {
  }

  /** The router never wants an approval for a completion review by task. */
  ghost predicate ReviewAutomatic(router: Router, task: string) {
    forall s :: ReviewRouteAutomatic(router, CompletionItem(s, task))
  }

  predicate ReviewRouteAutomatic(router: Router, item: WorkItem) {
    router(item).Some? ==> router(item).value.approval.Automatic?
  }

  ghost predicate ReviewIsAutomatic(s: Snapshot) {
    COMPLETION_ID in s.routes ==> s.routes[COMPLETION_ID].approval.Automatic?
  }

  /** The router has an answer for every completion review by task. */
  ghost predicate ReviewRoutable(router: Router, task: string) {
    forall s :: ReviewRouted(router, CompletionItem(s, task))
  }

  predicate ReviewRouted(router: Router, item: WorkItem) {
    router(item).Some?
  }

  lemma {:induction false} Routable(router: Router, task: string, s: Snapshot, m: Snapshot)
    requires ReviewComes(router, task, s)
    ensures COMPLETION_ID in s.workItems || ReviewRouted(router, CompletionItem(m, task))
  {
    hide CompletionItem, ReviewRouted;
  }

  /** The review of s is in the plan, or can be routed. */
  ghost predicate ReviewComes(router: Router, task: string, s: Snapshot) {
    COMPLETION_ID in s.workItems || ReviewRoutable(router, task)
  }

  /** The review of s is in the plan, or will join it without an approval. */
  ghost predicate ReviewSettled(router: Router, task: string, s: Snapshot) {
    COMPLETION_ID in s.workItems || ReviewAutomatic(router, task)
  }

  /** A plan that can run through: acyclic, authorized, nothing failed yet. */
  ghost predicate CanComplete(pf: Platform, s: Snapshot) {
    && s.objective.explicitTask.None? && HasBaseWork(s)
    && Closed(DependencyGraph(s)) && Acyclic(DependencyGraph(s)) && NoFailing(s)
    && forall id | id in s.workItems :: Authorized(pf, s, id)
  }

  ghost predicate Reviewed(s: Snapshot) {
    AllSucceeded(s) && HasSucceeded(s, COMPLETION_ID)
  }

  lemma {:induction false} MemoryGood(pf: Platform, v: View)
    requires SessionOk(pf, v) && v.session.Working?
    ensures WellFormed(v.session.work.mem)
  {
    WorkingView(pf, v);
  }

  ghost predicate CanAppend(s: Snapshot) {
    s.objective.explicitTask.None? && BaseWorkSucceeded(s) && COMPLETION_ID !in s.workItems
  }

  ghost predicate NeedsReview(s: Snapshot) {
    s.objective.explicitTask.None? && HasBaseWork(s)
  }

  lemma {:induction false} BaseDoneIs(m: Snapshot)
    ensures BaseDone(m) <==> m.objective.explicitTask.None? && BaseWorkSucceeded(m)
  {
  }

  lemma {:induction false} CanAppendNow(m: Snapshot)
    requires BaseDone(m) && COMPLETION_ID !in m.workItems
    ensures CanAppend(m)
  {
    hide BaseWorkSucceeded;
  }

  lemma {:induction false} AppendNeverFails(task: string, m: Snapshot, m': Snapshot)
    requires AppendsCompletion(task, m, m')
    ensures NoFailing(m) ==> NoFailing(m')
    ensures COMPLETION_ID in m'.workItems
  {
    hide CompletionItem;
    CompletionItemShape(m, task);
    assert forall id :: IsFailing(m', id) <==> IsFailing(m, id);
  }

  lemma {:induction false} SucceededJoin(first: seq<Action>, second: seq<Action>)
    ensures TurnsSucceeded(first + second) <==> TurnsSucceeded(first) && TurnsSucceeded(second)
    ensures NoReturns(first) ==> TurnsSucceeded(first)
    ensures TurnsSucceeded(first + second) ==> TurnsTerminal(first + second)
  {
    if TurnsSucceeded(first + second) {
      assert forall a | a in first :: a in first + second;
      assert forall a | a in second :: a in first + second;
    }
  }

  lemma {:induction false} ReviewedHere(pf: Platform, task: string, m: Snapshot, m': Snapshot, s': Snapshot,
                                        terminal: bool, all: bool)
    requires if COMPLETION_ID in m.workItems then m' == m else AppendsCompletion(task, m, m')
    requires if COMPLETION_ID in m'.results then s' == m' else PassResult(pf, m', s', terminal)
    requires all ==> terminal
    ensures Reviewing(pf, task, m, m', s', all)
  {
    hide PassResult, AppendsCompletion;
    ReviewingWeaker(pf, task, m, m', s', terminal, all);
  }

  lemma {:induction false} ContinuedHere(pf: Platform, task: string, s: Snapshot, m: Snapshot, m': Snapshot,
                                         s': Snapshot, first: bool, second: bool, all: bool)
    requires PassResult(pf, s, m, first) && all == (first && second)
    requires if BaseDone(m) then Reviewing(pf, task, m, m', s', second) else m' == m && s' == m
    ensures Continued(pf, task, s, m, m', s', all)
  {
    hide PassResult, Reviewing, BaseDone;
    PassWeaker(pf, s, m, first, all);
    if BaseDone(m) {
      ReviewingWeaker(pf, task, m, m', s', second, all);
    }
  }

  /** What a finished call promises: COMPLETED means reviewed, and a run that can
      complete does. */
  lemma {:induction false} ContinueEnds(pf: Platform, task: string, s: Snapshot, m: Snapshot, m': Snapshot,
                                        s': Snapshot, terminal: bool, succeeded: bool, router: Router)
    requires Continued(pf, task, s, m, m', s', terminal)
    requires WellFormed(s) && WellFormed(m) && WellFormed(m') && WellFormed(s')
    requires succeeded && NoFailing(s) ==> terminal && NoFailing(m) && NoFailing(s')
    requires ReviewAutomatic(router, task) && BaseDone(m) && COMPLETION_ID !in m.workItems ==> ReviewIsAutomatic(m')
    ensures NeedsReview(s) && s'.status.Completed? ==> Reviewed(s')
    ensures CanComplete(pf, s) && succeeded && ReviewSettled(router, task, s) ==> s'.status.Completed? && Reviewed(s')
  {
    hide Continued, WellFormed, BaseDone, AllSucceeded, HasSucceeded, HasBaseWork, NoFailing, Closed, Acyclic,
      ReviewAutomatic;
    if NeedsReview(s) && s'.status.Completed? {
      CompletedMeansReviewed(pf, task, s, m, m', s', terminal);
    }
    if CanComplete(pf, s) && succeeded && ReviewSettled(router, task, s) {
      ReviewOnItsWay(pf, task, s, m, m', s');
      ContinueCompletes(pf, task, s, m, m', s');
      EachSucceeded(s', COMPLETION_ID);
    }
  }

  lemma {:induction false} ContinueOver(pf: Platform, router: Router, task: string, s: Snapshot, m: Snapshot,
                                        m': Snapshot, s': Snapshot, first: seq<Action>, more: seq<Action>)
    requires PassResult(pf, s, m, TurnsTerminal(first))
    requires if BaseDone(m) then Reviewing(pf, task, m, m', s', TurnsTerminal(more)) else m' == m && s' == m && more == []
    requires WellFormed(s) && WellFormed(m) && WellFormed(m') && WellFormed(s')
    requires TurnsSucceeded(first) && NoFailing(s) ==> NoFailing(m)
    requires TurnsSucceeded(more) && NoFailing(m) ==> NoFailing(s')
    requires ReviewAutomatic(router, task) && BaseDone(m) && COMPLETION_ID !in m.workItems ==> ReviewIsAutomatic(m')
    ensures Continued(pf, task, s, m, m', s', TurnsTerminal(first + more))
    ensures NeedsReview(s) && s'.status.Completed? ==> Reviewed(s')
    ensures CanComplete(pf, s) && TurnsSucceeded(first + more) && ReviewSettled(router, task, s) ==>
              s'.status.Completed? && Reviewed(s')
  {
    hide *;
    TerminalJoin(first, more);
    SucceededJoin(first, more);
    ContinuedHere(pf, task, s, m, m', s', TurnsTerminal(first), TurnsTerminal(more), TurnsTerminal(first + more));
    ContinueEnds(pf, task, s, m, m', s', TurnsTerminal(first + more), TurnsSucceeded(first + more), router);
  }

  lemma {:induction false} ReviewOnItsWay(pf: Platform, task: string, s: Snapshot, m: Snapshot, m': Snapshot,
                                          s': Snapshot)
    requires Continued(pf, task, s, m, m', s', true) && WellFormed(s) && WellFormed(m)
    requires COMPLETION_ID !in s.workItems && BaseDone(m) && COMPLETION_ID !in m.workItems ==> ReviewIsAutomatic(m')
    ensures COMPLETION_ID !in s.workItems && COMPLETION_ID in m'.routes ==> m'.routes[COMPLETION_ID].approval.Automatic?
  {
    PassKeepsShape(pf, s, m, true);
    hide PassResult, BaseDone;
    if !BaseDone(m) {
      assert m' == m;
    }
  }

  // ----- opening a run -----

  /** A process that has just taken the lease on the run. */
  function Opened(f: RunFiles, limit: nat): View {
    View(Entered(limit), f)
  }

  lemma {:induction false} OpenedOk(pf: Platform, f: RunFiles, limit: nat)
    requires FilesOk(pf, f)
    ensures SessionOk(pf, Opened(f, limit)) && Opened(f, limit).files == f
  {
    hide FilesOk;
  }

  lemma {:induction false} LoadStep(pf: Platform, f: RunFiles, limit: nat)
    requires ValidPlatform(pf) && FilesOk(pf, f) && f.disk.Some?
    ensures SessionOk(pf, Opened(f, limit)) && Enabled(pf, Load, Opened(f, limit))
    ensures Apply(pf, Load, Opened(f, limit)) == View(Working(Begin(f.disk.value, limit)), f)
    ensures Synced(pf, Apply(pf, Load, Opened(f, limit))) && Stable(pf, f.disk.value)
  {
    hide GoodSnapshot, SavedMonotone, PlanMonotone, EventsOnDisk, EventsOnce, Persisted;
  }

  lemma {:induction false} CreateSteps(pf: Platform, f: RunFiles, limit: nat, first: Snapshot)
    requires ValidPlatform(pf) && FilesOk(pf, f) && !f.directory && Fresh(pf, first)
    ensures f.events == [] && f.disk.None?
    ensures Enabled(pf, MakeDirectory(first), Opened(f, limit))
    ensures Apply(pf, MakeDirectory(first), Opened(f, limit)) == Created(f, limit, first)
    ensures Enabled(pf, WriteFirst, Created(f, limit, first))
    ensures Apply(pf, WriteFirst, Created(f, limit, first)) ==
            View(Working(Begin(first, limit)), Write(pf, f.(directory := true), first))
    ensures Synced(pf, Apply(pf, WriteFirst, Created(f, limit, first)))
  {
    hide GoodSnapshot, SavedMonotone, PlanMonotone, EventsOnDisk, EventsOnce, Persisted, Stable, Fresh;
  }

  function Created(f: RunFiles, limit: nat, first: Snapshot): View {
    View(Creating(limit, first), f.(directory := true))
  }

  lemma {:induction false} ApproveStep(pf: Platform, v: View, limit: nat, id: string, approver: string, time: string)
    requires SessionOk(pf, v) && Idle(v, limit, false) && pf.timestamp(time)
    requires id in v.session.work.mem.workItems && id in v.session.work.mem.routes
    ensures Enabled(pf, Action.Approve(id, approver, time), v)
    ensures Apply(pf, Action.Approve(id, approver, time), v) ==
            View(Working(v.session.work.(mem := WithApproval(pf, v.session.work.mem, id, approver, time))),
                 v.files.(audit := v.files.audit + [Approval(id, PayloadOf(v.session.work.mem, id))]))
  {
    hide SessionOk, WellFormed, WithApproval;
    WorkingView(pf, v);
  }

  ghost predicate RoutedBy(router: Router, items: map<string, WorkItem>, routes: map<string, RouteDecision>) {
    forall id | id in routes :: id in items && router(items[id]) == Some(routes[id])
  }

  /** s' is s under the current configuration, everything unfinished routed again
      and all approvals dropped. */
  ghost predicate Adopts(router: Router, digest: string, s: Snapshot, s': Snapshot) {
    exists rerouted: map<string, RouteDecision> ::
      rerouted.Keys == Unfinished(s) && RoutedBy(router, s.workItems, rerouted) && s' == Adopted(s, digest, rerouted)
  }

  /** Everything unfinished has a route. */
  ghost predicate UnfinishedRoutable(router: Router, s: Snapshot) {
    forall id | id in Unfinished(s) && id in s.workItems :: router(s.workItems[id]).Some?
  }

  lemma {:induction false} NoRoute(router: Router, s: Snapshot, id: string)
    requires IsPending(s, id) && router(s.workItems[id]).None?
    ensures !UnfinishedRoutable(router, s)
  {
    assert id in Unfinished(s);
  }

  ghost predicate Adopting(v: View, limit: nat) {
    v.session.Working? && v.session.work == Begin(v.session.work.mem, limit).(adopting := true)
  }

  lemma {:induction false} AdoptStep(pf: Platform, v: View, limit: nat, digest: string,
                                     rerouted: map<string, RouteDecision>)
    requires SessionOk(pf, v) && Idle(v, limit, false) && Hex(digest) && rerouted.Keys == Unfinished(v.session.work.mem)
    ensures Enabled(pf, Action.Adopt(digest, rerouted), v)
    ensures Apply(pf, Action.Adopt(digest, rerouted), v) ==
            View(Working(v.session.work.(mem := Adopted(v.session.work.mem, digest, rerouted), adopting := true)), v.files)
    ensures Adopting(Apply(pf, Action.Adopt(digest, rerouted), v), limit)
  {
    hide SessionOk, WellFormed, Adopted, Unfinished;
    WorkingView(pf, v);
  }

  lemma {:induction false} AdoptSaveStep(pf: Platform, v: View, limit: nat)
    requires SessionOk(pf, v) && Adopting(v, limit)
    ensures Enabled(pf, SaveState, v)
    ensures var after, mem := Apply(pf, SaveState, v), v.session.work.mem;
            && after == View(Working(Begin(mem, limit)),
                             Write(pf, v.files, mem).(audit := v.files.audit + [Adoption(mem.configurationDigest)]))
            && Idle(after, limit, false) && Synced(pf, after)
  {
    hide SessionOk, WellFormed, Persisted;
    WorkingView(pf, v);
    SaveStep(pf, v);
  }

  lemma {:induction false} AdoptsHere(router: Router, digest: string, s: Snapshot, s': Snapshot,
                                      rerouted: map<string, RouteDecision>)
    requires rerouted.Keys == Unfinished(s) && RoutedBy(router, s.workItems, rerouted)
    requires s' == Adopted(s, digest, rerouted)
    ensures Adopts(router, digest, s, s')
  {
  }

  lemma {:induction false} ContinuedWeaker(pf: Platform, task: string, s: Snapshot, m: Snapshot, m': Snapshot,
                                           s': Snapshot, before: seq<Action>, trace: seq<Action>)
    requires Continued(pf, task, s, m, m', s', TurnsTerminal(trace))
    ensures Continued(pf, task, s, m, m', s', TurnsTerminal(before + trace))
    ensures TurnsSucceeded(before + trace) ==> TurnsSucceeded(trace)
  {
    TerminalJoin(before, trace);
    SucceededJoin(before, trace);
    hide PassResult, Reviewing, BaseDone, TurnsTerminal;
    PassWeaker(pf, s, m, TurnsTerminal(trace), TurnsTerminal(before + trace));
    if BaseDone(m) {
      ReviewingWeaker(pf, task, m, m', s', TurnsTerminal(trace), TurnsTerminal(before + trace));
    }
  }

  /** The first k items have been looked at, and the unfinished ones routed again. */
  ghost predicate Rerouting(router: Router, s: Snapshot, routes: map<string, RouteDecision>,
                            all: seq<string>, k: nat, rerouted: map<string, RouteDecision>)
  {
    && k <= |all| && routes == s.routes + rerouted && RoutedBy(router, s.workItems, rerouted)
    && forall id :: id in rerouted <==> id in all[..k] && IsPending(s, id)
  }

  lemma {:induction false} ReroutingBegins(router: Router, s: Snapshot, all: seq<string>)
    ensures Rerouting(router, s, s.routes, all, 0, map[])
  {
    assert s.routes + map[] == s.routes;
  }

  lemma {:induction false} PendingIs(s: Snapshot, id: string)
    ensures IsPending(s, id) <==> id in s.workItems && (id !in s.results || !Terminal(s.results[id].status))
  {
  }

  lemma {:induction false} Reroute(router: Router, s: Snapshot, routes: map<string, RouteDecision>,
                                   all: seq<string>, k: nat, rerouted: map<string, RouteDecision>, route: RouteDecision)
    requires Rerouting(router, s, routes, all, k, rerouted) && k < |all|
    requires IsPending(s, all[k]) && router(s.workItems[all[k]]) == Some(route)
    ensures Rerouting(router, s, routes[all[k] := route], all, k + 1, rerouted[all[k] := route])
  {
    assert all[..k + 1] == all[..k] + [all[k]];
  }

  lemma {:induction false} KeepRoute(router: Router, s: Snapshot, routes: map<string, RouteDecision>,
                                     all: seq<string>, k: nat, rerouted: map<string, RouteDecision>)
    requires Rerouting(router, s, routes, all, k, rerouted) && k < |all| && !IsPending(s, all[k])
    ensures Rerouting(router, s, routes, all, k + 1, rerouted)
  {
    assert all[..k + 1] == all[..k] + [all[k]];
  }

  lemma {:induction false} ReroutedAll(router: Router, digest: string, s: Snapshot, routes: map<string, RouteDecision>,
                                       all: seq<string>, rerouted: map<string, RouteDecision>)
    requires Rerouting(router, s, routes, all, |all|, rerouted) && forall id :: id in all <==> id in s.workItems
    ensures rerouted.Keys == Unfinished(s) && RoutedBy(router, s.workItems, rerouted)
    ensures Adopted(s, digest, rerouted) == s.(routes := routes, configurationDigest := digest, approvals := map[])
  {
    assert all[..|all|] == all;
  }

  // ----- planning -----

  ghost predicate CleanRaw(pf: Platform, raw: seq<Planner.RawItem>) {
    forall i | 0 <= i < |raw| :: !pf.secretText(raw[i].id) && !pf.secretKey(raw[i].id)
  }

  /** The first state of a planned run. */
  ghost predicate PlannedRun(pf: Platform, router: Router, objective: Objective, raw: seq<Planner.RawItem>,
                             s: Snapshot) {
    && s.objective == objective && Fresh(pf, s)
    && (forall id :: id in s.workItems <==> exists i :: 0 <= i < |raw| && raw[i].id == id)
    && (forall id | id in s.workItems :: id in s.routes && router(s.workItems[id]) == Some(s.routes[id]))
    && Closed(DependencyGraph(s)) && Acyclic(DependencyGraph(s))
    && (AllAutomatic(s) && raw != [] ==> CanComplete(pf, s))
  }

  /** The planner's answer can become a run. */
  ghost predicate Plannable(raw: seq<Planner.RawItem>, tasks: set<string>, contained: string -> Option<string>) {
    Planner.Acceptable(raw, tasks, contained) && NothingReserved(raw)
  }

  /** No item takes the identifier of the completion review. */
  predicate NothingReserved(raw: seq<Planner.RawItem>) {
    forall i | 0 <= i < |raw| :: raw[i].id != COMPLETION_ID
  }

  /** The router has an answer for every item of the plan. */
  ghost predicate PlanRoutable(router: Router, raw: seq<Planner.RawItem>, contained: string -> Option<string>) {
    forall items | Planner.Parsed(raw, contained, items) :: AllRoutable(router, items)
  }

  predicate AllRoutable(router: Router, items: seq<WorkItem>) {
    forall i | 0 <= i < |items| :: router(items[i]).Some?
  }

  lemma {:induction false} NotPlannable(raw: seq<Planner.RawItem>, tasks: set<string>,
                                        contained: string -> Option<string>)
    requires !Planner.Acceptable(raw, tasks, contained) || exists i :: 0 <= i < |raw| && raw[i].id == COMPLETION_ID
    ensures !Plannable(raw, tasks, contained)
  {
    hide Planner.Acceptable;
  }

  lemma {:induction false} IsPlannable(raw: seq<Planner.RawItem>, tasks: set<string>,
                                       contained: string -> Option<string>)
    requires Planner.Acceptable(raw, tasks, contained) && forall i | 0 <= i < |raw| :: raw[i].id != COMPLETION_ID
    ensures Plannable(raw, tasks, contained)
  {
    hide Planner.Acceptable;
  }

  lemma {:induction false} PlanUnrouted(router: Router, raw: seq<Planner.RawItem>, contained: string -> Option<string>,
                                        items: seq<WorkItem>, i: nat)
    requires Planner.Parsed(raw, contained, items) && i < |items| && router(items[i]).None?
    ensures !PlanRoutable(router, raw, contained)
  {
    hide Planner.Parsed;
    assert !AllRoutable(router, items);
  }

  lemma {:induction false} FirstParts(digest: string, objective: Objective, repository: RepositoryContext,
                                      workItems: map<string, WorkItem>, routes: map<string, RouteDecision>)
    ensures var s := FirstState(digest, objective, repository, workItems, routes);
            && s == FirstState(s.configurationDigest, s.objective, s.repository, workItems, s.routes)
            && s.configurationDigest == digest && s.objective == objective && s.workItems == workItems && s.routes == routes
            && s.results == map[]
  {
  }

  lemma {:induction false} PlanIsPlanned(pf: Platform, router: Router, objective: Objective, raw: seq<Planner.RawItem>,
                                         s: Snapshot, items: seq<WorkItem>, order: seq<string>)
    requires s.objective == objective && objective.explicitTask.None? && Fresh(pf, s) && s.results == map[]
    requires DistinctItems(items) && s.workItems == ItemsById(items) && RoutedAs(router, items, s.routes)
    requires |items| == |raw| && forall i | 0 <= i < |raw| :: items[i].id == raw[i].id && raw[i].id != COMPLETION_ID
    requires Topological(Planner.DependencyMap(Planner.Declared(items)), order)
    ensures PlannedRun(pf, router, objective, raw, s)
  {
    hide *;
    SameIds(raw, items);
    PlanCanRun(pf, router, s, items, order);
    PlanRouted(router, items, s.routes);
    PlanIds(raw, items);
    PlannedHere(pf, router, objective, raw, s);
  }

  lemma {:induction false} SameIds(raw: seq<Planner.RawItem>, items: seq<WorkItem>)
    requires |items| == |raw| && forall i | 0 <= i < |raw| :: items[i].id == raw[i].id && raw[i].id != COMPLETION_ID
    ensures forall i | 0 <= i < |items| :: items[i].id != COMPLETION_ID
    ensures raw != [] <==> items != []
  {
    assert forall i | 0 <= i < |items| :: items[i].id == raw[i].id;
  }

  lemma {:induction false} PlannedHere(pf: Platform, router: Router, objective: Objective, raw: seq<Planner.RawItem>,
                                       s: Snapshot)
    requires s.objective == objective && objective.explicitTask.None? && Fresh(pf, s)
    requires forall id :: id in s.workItems <==> exists i :: 0 <= i < |raw| && raw[i].id == id
    requires forall id | id in s.workItems :: id in s.routes && router(s.workItems[id]) == Some(s.routes[id])
    requires Closed(DependencyGraph(s)) && Acyclic(DependencyGraph(s)) && NoFailing(s)
    requires AllAutomatic(s) ==> forall id | id in s.workItems :: Authorized(pf, s, id)
    requires raw != [] ==> HasBaseWork(s) && COMPLETION_ID !in s.workItems
    ensures PlannedRun(pf, router, objective, raw, s)
  {
    hide Fresh, Closed, Acyclic, NoFailing, HasBaseWork, Authorized, AllAutomatic, DependencyGraph;
  }

  lemma {:induction false} PlanIds(raw: seq<Planner.RawItem>, items: seq<WorkItem>)
    requires |items| == |raw| && forall i | 0 <= i < |raw| :: items[i].id == raw[i].id
    ensures forall id :: id in ItemsById(items) <==> exists i :: 0 <= i < |raw| && raw[i].id == id
  {
    var m := ItemsById(items);
    assert forall i | 0 <= i < |items| :: items[i].id in m;
    assert forall id | id in m :: m[id] in items && m[id].id == id;
    hide ItemsById;
    forall id ensures id in m <==> exists i :: 0 <= i < |raw| && raw[i].id == id {
      if id in m {
        var i :| 0 <= i < |items| && items[i] == m[id];
        assert raw[i].id == id;
      }
      if i :| 0 <= i < |raw| && raw[i].id == id {
        assert items[i].id in m;
      }
    }
  }

  lemma {:induction false} PlanRouted(router: Router, items: seq<WorkItem>, routes: map<string, RouteDecision>)
    requires DistinctItems(items) && RoutedAs(router, items, routes)
    ensures forall id | id in ItemsById(items) :: id in routes && router(ItemsById(items)[id]) == Some(routes[id])
  {
    var m := ItemsById(items);
    assert forall id | id in m :: m[id] in items && m[id].id == id;
    hide ItemsById;
    forall id | id in m ensures id in routes && router(m[id]) == Some(routes[id]) {
      var i :| 0 <= i < |items| && items[i] == m[id];
      assert items[i].id == id;
    }
  }

  lemma {:induction false} ParsedPlan(pf: Platform, raw: seq<Planner.RawItem>, tasks: set<string>,
                                      contained: string -> Option<string>, items: seq<WorkItem>)
    requires Planner.Acceptable(raw, tasks, contained) && Planner.Parsed(raw, contained, items) && CleanRaw(pf, raw)
    ensures |items| == |raw| && forall i | 0 <= i < |raw| :: items[i].id == raw[i].id
    ensures DistinctItems(items) && CleanPlan(pf, items) && DependenciesInside(items)
  {
    forall i | 0 <= i < |items| ensures DependOnAny(items, items[i].dependencies) {
      forall d | d in items[i].dependencies ensures exists j :: 0 <= j < |items| && items[j].id == d {
        assert d in raw[i].dependencies;
        var j :| 0 <= j < |raw| && raw[j].id == d;
        assert items[j].id == d;
      }
    }
  }

  lemma {:induction false} PlannedFacts(pf: Platform, router: Router, objective: Objective, raw: seq<Planner.RawItem>,
                                        s: Snapshot)
    requires PlannedRun(pf, router, objective, raw, s) && objective.explicitTask.None?
    ensures AllAutomatic(s) && raw != [] ==> CanComplete(pf, s)
    ensures raw != [] && NothingReserved(raw) ==> NeedsReview(s)
  {
    hide Fresh, Closed, Acyclic, CanComplete;
    if raw != [] && NothingReserved(raw) {
      assert raw[0].id in s.workItems;
    }
  }

  lemma {:induction false} PlannedReview(router: Router, raw: seq<Planner.RawItem>, tasks: set<string>,
                                         contained: string -> Option<string>, task: string, s: Snapshot)
    requires Plannable(raw, tasks, contained)
    ensures NothingReserved(raw)
    ensures ReviewRoutable(router, task) ==> ReviewComes(router, task, s)
    ensures ReviewAutomatic(router, task) ==> ReviewSettled(router, task, s)
  {
    hide Planner.Acceptable, ReviewRoutable, ReviewAutomatic;
  }

  /** The state of a run of one explicit task, which may write exactly if its
      route may. */
  function TaskState(digest: string, objective: Objective, repository: RepositoryContext, provisional: WorkItem,
                     route: RouteDecision): Snapshot
  {
    var access := if route.sandbox.WorkspaceWrite? then AccessMode.WorkspaceWrite else AccessMode.ReadOnly;
    var item := provisional.(access := access);
    FirstState(digest, objective, repository, map[item.id := item], map[item.id := route])
  }

  lemma {:induction false} TaskIsFresh(pf: Platform, digest: string, objective: Objective,
                                       repository: RepositoryContext, provisional: WorkItem, route: RouteDecision)
    requires ValidPlatform(pf) && Hex(digest) && !pf.secretText(objective.id)
    requires provisional.id == TASK_ID && provisional.dependencies == []
    ensures Fresh(pf, TaskState(digest, objective, repository, provisional, route))
    ensures TaskState(digest, objective, repository, provisional, route).workItems.Keys == {TASK_ID}
  {
    assert !pf.secretText(TASK_ID) && !pf.secretKey(TASK_ID);
    hide Hex, ValidPlatform;
  }

  lemma {:induction false} TaskCompletes(pf: Platform, s: Snapshot, s': Snapshot, terminal: bool)
    requires PassResult(pf, s, s', terminal) && WellFormed(s') && s.workItems.Keys == {TASK_ID}
    ensures s'.status.Completed? <==> HasSucceeded(s', TASK_ID)
  {
    CompletedExactly(s');
    assert s'.workItems == s.workItems;
    hide FinalStatus, Pass;
    assert forall id :: id in s'.workItems <==> id in s'.workItems.Keys;
  }

  class Coordinator {
    const pf: Platform
    const store: RunStore
    const scheduler: WorkScheduler
    const router: Router
    const digest: string
    const completionTask: string

    constructor (scheduler: WorkScheduler, router: Router, digest: string, completionTask: string)
      requires scheduler.Ready()
      ensures this.scheduler == scheduler && this.router == router && this.digest == digest
      ensures this.completionTask == completionTask && Ready()
    {
      pf, store := scheduler.pf, scheduler.store;
      this.scheduler, this.router, this.digest, this.completionTask := scheduler, router, digest, completionTask;
    }

    ghost predicate Ready() {
      scheduler.Ready() && pf == scheduler.pf && store == scheduler.store
    }

    /** application.py:362-378. */
    method Event(name: string, itemId: Option<string>, ghost state: RunState, ghost before: seq<Action>, ghost v0: View,
                 ghost v: View)
      returns (outcome: Outcome, ghost trace: seq<Action>, ghost v': View)
      requires Ready() && ValidPlatform(pf)
      requires Reached(pf, before, v0, v) && SessionOk(pf, v) && At(v, state, store) && Idle(v, scheduler.limit, false)
      modifies store`events, store`troubles
      ensures Accounted(outcome, old(store.troubles), store.troubles)
      ensures outcome.Ok? ==> store.troubles == old(store.troubles)
      ensures Reached(pf, trace, v0, v') && SessionOk(pf, v') && At(v', state, store) && v'.session == v.session
      ensures v'.files == v.files.(events := store.events)
      ensures trace == before || trace == before + [Note(name, itemId)]
      ensures outcome.Ok? ==> trace == before + [Note(name, itemId)]
      ensures outcome.Err? ==> outcome.error.StateFailure?
    {
      hide SessionOk, Enabled, Apply, InMemoryWellFormed, Reached, ValidPlatform;
      trace, v' := before, v;
      WorkingView(pf, v);
      outcome := store.AppendEvent(Noted(name, itemId));
      if store.events != v.files.events {
        NoteStep(pf, v, scheduler.limit, name, itemId);
        trace, v' := TakeStep(pf, before, v0, v, Note(name, itemId));
      }
    }

    /** application.py:277-283: the completion review joins the plan, saved and
        announced before it may run. */
    method AppendReview(state: RunState, ghost v: View)
      returns (outcome: Outcome, ghost trace: seq<Action>, ghost v': View)
      requires Ready() && ValidPlatform(pf)
      requires SessionOk(pf, v) && At(v, state, store) && Idle(v, scheduler.limit, false)
      requires CanAppend(v.session.work.mem)
      modifies state`workItems, state`routes, state`status, store`disk, store`events, store`saved, store`audit,
        store`troubles
      ensures Accounted(outcome, old(store.troubles), store.troubles)
      ensures outcome.Ok? ==> store.troubles == old(store.troubles)
      ensures Reached(pf, trace, v, v') && SessionOk(pf, v') && v'.files == store.Files()
      ensures outcome.Ok? ==>
                At(v', state, store) && v'.session.Working? && Idle(v', scheduler.limit, false) && Synced(pf, v')
      ensures outcome.Err? ==> outcome.error.StateFailure? || outcome.error.RoutingFailure?
      ensures outcome.Err? && outcome.error.RoutingFailure? ==>
                !ReviewRouted(router, CompletionItem(v.session.work.mem, completionTask))
      ensures outcome.Ok? ==> NoReturns(trace)
      ensures outcome.Ok? && ReviewAutomatic(router, completionTask) ==> ReviewIsAutomatic(v'.session.work.mem)
      ensures outcome.Ok? ==> AppendsCompletion(completionTask, v.session.work.mem, v'.session.work.mem)
    {
      hide SessionOk, Enabled, Apply, InMemoryWellFormed, Reached, ValidPlatform, BaseWorkSucceeded, CompletionItem,
        Sorted, NoReturns, Accounted;
      NoSteps(pf, v);
      trace, v' := [], v;
      ghost var s := v.session.work.mem;
      var item := CompletionItem(state.Value(), completionTask);
      CompletionItemShape(s, completionTask);
      state.workItems := state.workItems[item.id := item];
      var route := router(item);
      if route.None? {
        Untroubled<Unit>(Err(RoutingFailure), store.troubles);
        return Err(RoutingFailure), [], v;
      }
      assert ReviewAutomatic(router, completionTask) ==> ReviewRouteAutomatic(router, item);
      state.routes := state.routes[item.id := route.value];
      state.status := RunStatus.Planned;
      AppendStep(pf, v, scheduler.limit, item, route.value);
      trace, v' := TakeStep(pf, trace, v, v', AppendCompletion(item, route.value));
      outcome, trace, v' := scheduler.Checkpoint(state, false, trace, v, v');
      if outcome.Err? {
        return;
      }
      outcome, trace, v' := Event("completion-review-appended", None, state, trace, v, v');
      NoReturnsIn(AppendCompletion(item, route.value), SaveState, Note("completion-review-appended", None));
    }

    /** application.py:276-285: the completion review is appended if it is not in
        the plan, and run unless it has a result. */
    method Review(state: RunState, ghost v: View)
      returns (outcome: Outcome, ghost m': Snapshot, ghost trace: seq<Action>, ghost v': View)
      requires Ready() && ValidPlatform(pf)
      requires SessionOk(pf, v) && At(v, state, store) && Idle(v, scheduler.limit, false) && Synced(pf, v)
      requires BaseDone(v.session.work.mem)
      modifies state`workItems, state`routes, state`status, state`results, store`disk, store`events, store`saved,
        store`audit, scheduler.client, store`troubles
      ensures Accounted(outcome, old(store.troubles), store.troubles)
      ensures outcome.Ok? ==> store.troubles == old(store.troubles)
      ensures Reached(pf, trace, v, v') && SessionOk(pf, v') && v'.files == store.Files()
      ensures outcome.Ok? ==>
                At(v', state, store) && v'.session.Working? && Idle(v', scheduler.limit, false) && Synced(pf, v')
      ensures outcome.Err? ==>
                outcome.error.ProjectBusy? || outcome.error.StateFailure? || outcome.error.RoutingFailure?
      ensures outcome.Err? && outcome.error.RoutingFailure? ==>
                && COMPLETION_ID !in v.session.work.mem.workItems
                && !ReviewRouted(router, CompletionItem(v.session.work.mem, completionTask))
      ensures outcome.Ok? ==> WellFormed(m')
      ensures outcome.Ok? && ReviewAutomatic(router, completionTask) ==>
                COMPLETION_ID in v.session.work.mem.workItems || ReviewIsAutomatic(m')
      ensures outcome.Ok? && TurnsSucceeded(trace) && NoFailing(v.session.work.mem) ==> NoFailing(v'.session.work.mem)
      ensures outcome.Ok? ==>
                Reviewing(pf, completionTask, v.session.work.mem, m', v'.session.work.mem, TurnsTerminal(trace))
    {
      hide *;
      Wired();
      MemoryOf(v, state);
      MemoryGood(pf, v);
      NoSteps(pf, v);
      trace, v', outcome := [], v, Ok(Unit);
      Untroubled<Unit>(Ok(Unit), store.troubles);
      m' := v.session.work.mem;
      if COMPLETION_ID !in state.workItems {
        CanAppendNow(v.session.work.mem);
        outcome, trace, v' := AppendReview(state, v);
        if outcome.Err? {
          return;
        }
        MemoryOf(v', state);
        MemoryGood(pf, v');
        AppendNeverFails(completionTask, v.session.work.mem, v'.session.work.mem);
      }
      m' := v'.session.work.mem;
      ghost var first, more, mid := trace, [], v';
      if COMPLETION_ID !in state.results {
        outcome, more, v' := scheduler.RunReady(state, v');
        JoinSteps(pf, trace, v, mid, more, v');
        trace := trace + more;
      }
      MemoryOf(v', state);
      if outcome.Err? {
        return;
      }
      assert trace == first + more;
      TerminalJoin(first, more);
      SucceededJoin(first, more);
      ReviewedHere(pf, completionTask, v.session.work.mem, m', v'.session.work.mem, TurnsTerminal(more), TurnsTerminal(trace));
    }

    lemma {:induction false} Wired()
      requires Ready()
      ensures scheduler.Ready() && pf == scheduler.pf && store == scheduler.store && store.pf == pf
    {
    }

    lemma {:induction false} MemoryOf(v: View, state: RunState)
      requires At(v, state, store)
      ensures v.session.Working? && v.session.work.mem == state.Value() && v.files == store.Files()
      ensures v.session.work.mem.workItems == state.workItems && v.session.work.mem.results == state.results
      ensures v.session.work.mem.objective == state.objective
      ensures store.directory == v.files.directory && store.disk == v.files.disk
    {
    }

    /** application.py:274-287. */
    method Continue(state: RunState, ghost v: View)
      returns (outcome: Outcome, ghost m: Snapshot, ghost m': Snapshot, ghost trace: seq<Action>, ghost v': View)
      requires Ready() && ValidPlatform(pf)
      requires SessionOk(pf, v) && At(v, state, store) && Idle(v, scheduler.limit, false) && Synced(pf, v)
      modifies state`workItems, state`routes, state`status, state`results, store`disk, store`events, store`saved,
        store`audit, store`report, scheduler.client, store`troubles
      ensures Accounted(outcome, old(store.troubles), store.troubles)
      ensures outcome.Ok? ==> store.troubles == old(store.troubles)
      ensures Reached(pf, trace, v, v') && SessionOk(pf, v') && v'.files == store.Files()
      ensures outcome.Ok? ==>
                At(v', state, store) && v'.session.Working? && Idle(v', scheduler.limit, false) && Synced(pf, v')
      ensures outcome.Ok? ==> store.report == Some(state.Value())
      ensures outcome.Err? ==>
                outcome.error.ProjectBusy? || outcome.error.StateFailure? || outcome.error.RoutingFailure?
      ensures outcome.Err? && outcome.error.RoutingFailure? ==>
                && COMPLETION_ID !in v.session.work.mem.workItems
                && !ReviewRouted(router, CompletionItem(m, completionTask))
      ensures outcome.Ok? ==>
                Continued(pf, completionTask, v.session.work.mem, m, m', v'.session.work.mem, TurnsTerminal(trace))
      ensures outcome.Ok? && NeedsReview(v.session.work.mem) && v'.session.work.mem.status.Completed? ==>
                Reviewed(v'.session.work.mem)
      ensures outcome.Ok? && CanComplete(pf, v.session.work.mem) && TurnsSucceeded(trace)
              && ReviewSettled(router, completionTask, v.session.work.mem) ==>
                v'.session.work.mem.status.Completed? && Reviewed(v'.session.work.mem)
      ensures store.troubles == old(store.troubles) && ReviewComes(router, completionTask, v.session.work.mem) ==>
                outcome.Ok?
    {
      hide *;
      Wired();
      MemoryOf(v, state);
      ghost var s := v.session.work.mem;
      MemoryGood(pf, v);
      outcome, trace, v' := scheduler.RunReady(state, v);
      MemoryOf(v', state);
      m, m' := v'.session.work.mem, v'.session.work.mem;
      if outcome.Err? {
        Untroubling(outcome, old(store.troubles));
        return;
      }
      MemoryGood(pf, v');
      PassKeepsShape(pf, s, m, TurnsTerminal(trace));
      if ReviewComes(router, completionTask, s) {
        Routable(router, completionTask, s, m);
      }
      ghost var first, more, mid := trace, [], v';
      BaseDoneIs(m);
      if state.objective.explicitTask.None? && BaseWorkSucceeded(state.Value()) {
        outcome, m', more, v' := Review(state, v');
        JoinSteps(pf, trace, v, mid, more, v');
        trace := trace + more;
        if outcome.Err? {
          Untroubling(outcome, old(store.troubles));
          return;
        }
        MemoryOf(v', state);
        MemoryGood(pf, v');
      }
      assert trace == first + more;
      ContinueOver(pf, router, completionTask, s, m, m', v'.session.work.mem, first, more);
      MemoryOf(v', state);
      WorkingView(pf, v');
      outcome := store.WriteReport(state);
      Untroubling(outcome, old(store.troubles));
      MemoryOf(v', state);
    }

    lemma {:induction false} Untroubling<T>(outcome: Result<T, Error>, before: Troubles)
      requires Accounted(outcome, before, store.troubles)
      ensures outcome.Err? && store.troubles == before ==>
                && !outcome.error.StateFailure? && !outcome.error.ProjectBusy? && !outcome.error.RunBusy?
                && !outcome.error.ModelUnavailable?
    {
    }

    /** locking.py:69-79: the lease on the run, or an error. */
    method AcquireRun() returns (outcome: Outcome)
      modifies store`troubles
      ensures Accounted(outcome, old(store.troubles), store.troubles)
      ensures outcome.Ok? ==> store.troubles == old(store.troubles)
      ensures outcome.Err? ==> outcome.error.RunBusy? || outcome.error.StateFailure?
    {
      var busy := store.Call(true);
      if busy {
        return Err(RunBusy);
      }
      var fails := store.Call(false);
      return if fails then Err(StateFailure) else Ok(Unit);
    }

    /** locking.py:107-113: the end of the lease on the run; outcome is that of what
        ran under it, whose own error comes before one of the release. */
    method ReleaseRun<T>(ended: Result<T, Error>) returns (outcome: Result<T, Error>)
      modifies store`troubles
      ensures forall before | Accounted(ended, before, old(store.troubles)) :: Accounted(outcome, before, store.troubles)
      ensures outcome == ended || (ended.Ok? && outcome == Err(StateFailure))
    {
      outcome := ended;
      var fails := store.Call(false);
      if fails && ended.Ok? {
        outcome := Err(StateFailure);
      }
    }

    /** What is on disk is under the current configuration, and the approval is of
        one of its items, by somebody, at a known time. */
    predicate Approvable(s: Snapshot, id: string, approver: string, time: string) {
      s.configurationDigest == digest && pf.timestamp(time) && !pf.blank(approver) && id in s.workItems && id in s.routes
    }

    /** application.py:211-239. */
    method Approve(id: string, approver: string, time: string)
      returns (outcome: Outcome, ghost trace: seq<Action>, ghost v': View)
      requires Ready() && ValidPlatform(pf) && FilesOk(pf, store.Files())
      modifies store`disk, store`events, store`saved, store`audit, store`report, store`troubles
      ensures Reached(pf, trace, Opened(old(store.Files()), scheduler.limit), v') && v'.files == store.Files()
      ensures outcome.Ok? ==> old(store.disk).Some? && Approvable(old(store.disk).value, id, approver, time)
      ensures outcome.Ok? ==>
                store.disk == Some(Persisted(pf, WithApproval(pf, old(store.disk).value, id, approver, time)))
      ensures outcome.Ok? ==> Authorized(pf, store.disk.value, id)
      ensures outcome.Err? && !outcome.error.StateFailure? ==> store.Files() == old(store.Files())
      ensures Loadable(old(store.disk)) ==> Accounted(outcome, old(store.troubles), store.troubles)
      ensures Loadable(old(store.disk)) && Approvable(old(store.disk).value, id, approver, time)
              && store.troubles == old(store.troubles) ==>
                outcome.Ok?
    {
      hide *;
      Wired();
      ghost var v, calm, disk := Opened(store.Files(), scheduler.limit), store.troubles, store.disk;
      var loaded;
      loaded, trace, v' := OpenRun(Some(digest), false);
      if loaded.Err? {
        outcome := Err(loaded.error);
        if Loadable(disk) {
          SameError(loaded, outcome, calm, store.troubles);
        }
        ApprovalRefused(outcome, disk, id, approver, time, calm);
        return;
      }
      var state := loaded.value;
      ghost var s := state.Value();
      ValueParts(state);
      ApprovalChecked(s, id, approver, time);
      outcome, trace, v' := RecordApproval(state, id, approver, time, trace, v, v');
      if outcome.Ok? {
        outcome, trace, v' := SaveApproval(state, id, trace, v, v');
        if outcome.Ok? {
          ApprovalSurvives(pf, s, id, approver, time);
          outcome := ReleaseRun(outcome);
        }
        Untroubling(outcome, calm);
      } else {
        Untroubled(outcome, calm);
        MemoryOf(v', state);
      }
    }

    lemma {:induction false} ApprovalChecked(s: Snapshot, id: string, approver: string, time: string)
      requires s.configurationDigest == digest
      ensures Approvable(s, id, approver, time) <==>
                pf.timestamp(time) && !pf.blank(approver) && id in s.workItems && id in s.routes
    {
    }

    lemma {:induction false} ApprovalRefused(outcome: Outcome, disk: Option<Snapshot>, id: string, approver: string,
                                             time: string, calm: Troubles)
      requires Loadable(disk) ==> Accounted(outcome, calm, store.troubles)
      requires outcome.Err?
      requires (outcome.error.RunBusy? || outcome.error.StateFailure? || outcome.error.ConfigurationChanged?)
      requires outcome.error.ConfigurationChanged? ==> disk.Some? && disk.value.configurationDigest != digest
      ensures Loadable(disk) && Approvable(disk.value, id, approver, time) ==> store.troubles != calm
    {
    }

    /** application.py:230-238. */
    method SaveApproval(state: RunState, id: string, ghost before: seq<Action>, ghost v0: View, ghost v: View)
      returns (outcome: Outcome, ghost trace: seq<Action>, ghost v': View)
      requires Ready() && ValidPlatform(pf)
      requires Reached(pf, before, v0, v) && SessionOk(pf, v) && At(v, state, store) && Idle(v, scheduler.limit, false)
      modifies store`disk, store`events, store`saved, store`audit, store`report, store`troubles
      ensures Accounted(outcome, old(store.troubles), store.troubles)
      ensures outcome.Ok? ==> store.troubles == old(store.troubles)
      ensures Reached(pf, trace, v0, v') && SessionOk(pf, v') && v'.files == store.Files()
      ensures outcome.Ok? ==> store.disk == Some(Persisted(pf, state.Value())) && store.report == Some(state.Value())
      ensures outcome.Err? ==> outcome.error.StateFailure?
    {
      hide *;
      Wired();
      outcome, trace, v' := scheduler.Checkpoint(state, false, before, v0, v);
      SameSession(v, v', scheduler.limit);
      if outcome.Ok? {
        SyncedDisk(v', state);
        outcome, trace, v' := Event("approval-recorded", Some(id), state, trace, v0, v');
        MemoryOf(v', state);
        WorkingView(pf, v');
        if outcome.Ok? {
          outcome := store.WriteReport(state);
        }
      }
      MemoryOf(v', state);
    }

    /** The lease on the run, and the state loaded under it. */
    method OpenRun(expected: Option<string>, acknowledged: bool)
      returns (loaded: Result<RunState, Error>, ghost trace: seq<Action>, ghost v': View)
      requires Ready() && ValidPlatform(pf) && FilesOk(pf, store.Files())
      modifies store`troubles
      ensures Loadable(store.disk) ==> Accounted(loaded, old(store.troubles), store.troubles)
      ensures loaded.Ok? ==> Loadable(store.disk) && store.troubles == old(store.troubles)
      ensures loaded.Err? && loaded.error.ConfigurationChanged? ==>
                store.disk.Some? && expected.Some? && !acknowledged && store.disk.value.configurationDigest != expected.value
      ensures Reached(pf, trace, Opened(store.Files(), scheduler.limit), v') && SessionOk(pf, v')
      ensures v'.files == store.Files()
      ensures loaded.Ok? ==> fresh(loaded.value) && store.disk == Some(loaded.value.Value()) && trace == [Load]
      ensures loaded.Ok? ==> At(v', loaded.value, store) && v'.session.Working? && Idle(v', scheduler.limit, false)
      ensures loaded.Ok? ==> Synced(pf, v') && Stable(pf, loaded.value.Value())
      ensures loaded.Ok? && expected.Some? && !acknowledged ==> loaded.value.configurationDigest == expected.value
      ensures loaded.Err? ==> loaded.error.RunBusy? || loaded.error.StateFailure? || loaded.error.ConfigurationChanged?
    {
      hide *;
      Wired();
      ghost var v := Opened(store.Files(), scheduler.limit);
      OpenedOk(pf, store.Files(), scheduler.limit);
      NoSteps(pf, v);
      trace, v' := [], v;
      var outcome := AcquireRun();
      if outcome.Err? {
        loaded := Err(outcome.error);
        SameError(outcome, loaded, old(store.troubles), store.troubles);
        return;
      }
      loaded := store.Load(expected, acknowledged);
      if loaded.Ok? {
        DiskIs(loaded.value);
        LoadStep(pf, store.Files(), scheduler.limit);
        trace, v' := TakeStep(pf, trace, v, v', Load);
        LoadedAt(v', loaded.value);
      }
    }

    lemma {:induction false} SameSession(v: View, v': View, limit: nat)
      requires Idle(v, limit, false) && v'.session == v.session
      ensures Idle(v', limit, false)
    {
    }

    lemma {:induction false} DiskIs(state: RunState)
      requires store.disk == Some(state.Value())
      ensures store.Files().disk == Some(state.Value())
    {
    }

    lemma {:induction false} SyncedDisk(v: View, state: RunState)
      requires At(v, state, store) && Synced(pf, v)
      ensures store.disk == Some(Persisted(pf, state.Value()))
    {
    }

    lemma {:induction false} LoadedAt(v: View, state: RunState)
      requires v == View(Working(Begin(state.Value(), scheduler.limit)), store.Files())
      ensures At(v, state, store) && v.session.Working? && Idle(v, scheduler.limit, false)
      ensures v.session.work.mem == state.Value()
    {
    }

    /** The approval of a loaded item (approvals.py:21-42), and its audit entry. */
    method RecordApproval(state: RunState, id: string, approver: string, time: string,
                          ghost before: seq<Action>, ghost v0: View, ghost v: View)
      returns (outcome: Outcome, ghost trace: seq<Action>, ghost v': View)
      requires Ready() && ValidPlatform(pf)
      requires Reached(pf, before, v0, v) && SessionOk(pf, v) && At(v, state, store) && Idle(v, scheduler.limit, false)
      modifies state`approvals, store`audit
      ensures Reached(pf, trace, v0, v') && SessionOk(pf, v') && At(v', state, store)
      ensures v'.session.Working? && Idle(v', scheduler.limit, false)
      ensures outcome.Ok? <==> pf.timestamp(time) && !pf.blank(approver) && id in state.workItems && id in state.routes
      ensures outcome.Ok? ==> state.Value() == WithApproval(pf, old(state.Value()), id, approver, time)
      ensures outcome.Err? ==> outcome.error.ApprovalRequired? && v' == v
    {
      hide SessionOk, Enabled, Apply, InMemoryWellFormed, Reached, ValidPlatform, RecordFor, Authorized;
      trace, v' := before, v;
      outcome := state.Approve(pf, id, approver, time);
      if outcome.Ok? {
        ApproveStep(pf, v, scheduler.limit, id, approver, time);
        trace, v' := TakeStep(pf, before, v0, v, Action.Approve(id, approver, time));
        store.audit := v'.files.audit;
      }
    }

    /** application.py:346-356. */
    method AdoptCurrentConfiguration(state: RunState)
      returns (outcome: Outcome, ghost rerouted: map<string, RouteDecision>)
      requires WellFormed(state.Value())
      modifies state`routes, state`configurationDigest, state`approvals
      ensures outcome.Ok? ==>
                rerouted.Keys == Unfinished(old(state.Value())) && RoutedBy(router, state.workItems, rerouted)
      ensures outcome.Ok? ==> state.Value() == Adopted(old(state.Value()), digest, rerouted)
      ensures outcome.Err? ==> outcome.error.RoutingFailure? && !UnfinishedRoutable(router, old(state.Value()))
    {
      hide *;
      var all := Sorted(state.workItems.Keys);
      rerouted := map[];
      ghost var s := state.Value();
      ValueParts(state);
      ReroutingBegins(router, s, all);
      for k := 0 to |all|
        invariant Rerouting(router, s, state.routes, all, k, rerouted)
      {
        assert all[k] in all;
        PendingIs(s, all[k]);
        if all[k] !in state.results || !Terminal(state.results[all[k]].status) {
          var route := router(state.workItems[all[k]]);
          if route.None? {
            NoRoute(router, s, all[k]);
            return Err(RoutingFailure), rerouted;
          }
          Reroute(router, s, state.routes, all, k, rerouted, route.value);
          state.routes := state.routes[all[k] := route.value];
          rerouted := rerouted[all[k] := route.value];
        } else {
          KeepRoute(router, s, state.routes, all, k, rerouted);
        }
      }
      ReroutedAll(router, digest, s, state.routes, all, rerouted);
      state.configurationDigest := digest;
      state.approvals := map[];
      ValueParts(state);
      return Ok(Unit), rerouted;
    }

    lemma {:induction false} ValueParts(state: RunState)
      ensures state.Value() == Snapshot(state.schemaVersion, state.configurationDigest, state.objective, state.repository,
                                        state.workItems, state.routes, state.results, state.approvals, state.status)
    {
    }

    /** application.py:255-258: adopting the configuration, saved and announced. */
    method Adopt(state: RunState, ghost before: seq<Action>, ghost v0: View, ghost v: View)
      returns (outcome: Outcome, ghost trace: seq<Action>, ghost v': View)
      requires Ready() && ValidPlatform(pf) && Hex(digest)
      requires Reached(pf, before, v0, v) && SessionOk(pf, v) && At(v, state, store) && Idle(v, scheduler.limit, false)
      modifies state`routes, state`configurationDigest, state`approvals, store`disk, store`events, store`saved,
        store`audit, store`troubles
      ensures Accounted(outcome, old(store.troubles), store.troubles)
      ensures outcome.Ok? ==> store.troubles == old(store.troubles)
      ensures Reached(pf, trace, v0, v') && SessionOk(pf, v') && v'.session.Working? && v'.files == store.Files()
      ensures outcome.Ok? ==> At(v', state, store) && Idle(v', scheduler.limit, false) && Synced(pf, v')
      ensures outcome.Ok? ==> Adopts(router, digest, v.session.work.mem, v'.session.work.mem)
      ensures outcome.Err? ==> outcome.error.StateFailure? || outcome.error.RoutingFailure?
      ensures outcome.Err? && outcome.error.RoutingFailure? ==> !UnfinishedRoutable(router, v.session.work.mem)
    {
      hide *;
      Wired();
      MemoryOf(v, state);
      MemoryGood(pf, v);
      trace, v' := before, v;
      ghost var s, limit, rerouted := v.session.work.mem, scheduler.limit, map[];
      outcome, rerouted := AdoptCurrentConfiguration(state);
      if outcome.Err? {
        Untroubled(outcome, store.troubles);
        return;
      }
      AdoptStep(pf, v, limit, digest, rerouted);
      trace, v' := TakeStep(pf, trace, v0, v', Action.Adopt(digest, rerouted));
      AdoptsHere(router, digest, s, v'.session.work.mem, rerouted);
      outcome, trace, v' := SaveAdopted(state, trace, v0, v');
      if outcome.Ok? {
        ghost var saved := v';
        outcome, trace, v' := Event("configuration-change-acknowledged", None, state, trace, v0, v');
        SameSession(saved, v', limit);
        StillSynced(saved, v');
      }
      MemoryOf(v', state);
    }

    method SaveAdopted(state: RunState, ghost before: seq<Action>, ghost v0: View, ghost v: View)
      returns (outcome: Outcome, ghost trace: seq<Action>, ghost v': View)
      requires Ready() && ValidPlatform(pf)
      requires Reached(pf, before, v0, v) && SessionOk(pf, v) && Adopting(v, scheduler.limit)
      requires v.session.work.mem == state.Value() && v.files == store.Files()
      modifies store`disk, store`saved, store`audit, store`troubles
      ensures Accounted(outcome, old(store.troubles), store.troubles)
      ensures outcome.Ok? ==> store.troubles == old(store.troubles)
      ensures Reached(pf, trace, v0, v') && SessionOk(pf, v') && At(v', state, store)
      ensures outcome.Ok? ==> v'.session.Working? && Idle(v', scheduler.limit, false) && Synced(pf, v')
      ensures outcome.Ok? ==> v'.session.work.mem == v.session.work.mem
      ensures outcome.Err? ==> outcome.error.StateFailure?
    {
      hide SessionOk, Enabled, Apply, InMemoryWellFormed, Reached, ValidPlatform, Persisted, Adopted;
      trace, v' := before, v;
      WorkingView(pf, v);
      outcome := store.Save(state, true);
      if outcome.Ok? {
        AdoptSaveStep(pf, v, scheduler.limit);
        trace, v' := TakeStep(pf, trace, v0, v', SaveState);
      }
    }

    lemma {:induction false} StillSynced(v: View, v': View)
      requires Synced(pf, v) && v'.session == v.session && v'.files == v.files.(events := v'.files.events)
      ensures Synced(pf, v')
    {
    }

    /** routing.py:133-147: fail if a configured model is not available. */
    method ValidateModels() returns (outcome: Outcome)
      modifies store`troubles
      ensures Accounted(outcome, old(store.troubles), store.troubles)
      ensures outcome.Ok? ==> store.troubles == old(store.troubles)
      ensures outcome.Err? ==> outcome.error.ModelUnavailable?
    {
      var missing := store.Call(false);
      return if missing then Err(ModelUnavailable) else Ok(Unit);
    }

    /** What is on disk is under the current configuration, or its change is
        acknowledged and everything unfinished can be routed under the new one. */
    ghost predicate Adoptable(s: Snapshot, acknowledged: bool) {
      s.configurationDigest == digest || (acknowledged && UnfinishedRoutable(router, s))
    }

    /** application.py:241-260. */
    method Resume(acknowledged: bool)
      returns (outcome: Result<RunState, Error>, ghost s: Snapshot, ghost m: Snapshot, ghost m': Snapshot,
               ghost trace: seq<Action>, ghost v': View)
      requires Ready() && ValidPlatform(pf) && Hex(digest) && FilesOk(pf, store.Files())
      modifies store`disk, store`events, store`saved, store`audit, store`report, scheduler.client, store`troubles
      ensures Reached(pf, trace, Opened(old(store.Files()), scheduler.limit), v') && v'.files == store.Files()
      ensures outcome.Ok? ==>
                store.disk == Some(Persisted(pf, outcome.value.Value())) && store.report == Some(outcome.value.Value())
      ensures outcome.Ok? ==> old(store.disk).Some?
      ensures outcome.Ok? ==>
                if old(store.disk).value.configurationDigest == digest then s == old(store.disk).value
                else acknowledged && Adopts(router, digest, old(store.disk).value, s)
      ensures outcome.Ok? ==> Continued(pf, completionTask, s, m, m', outcome.value.Value(), TurnsTerminal(trace))
      ensures outcome.Ok? && NeedsReview(s) && outcome.value.status.Completed? ==> Reviewed(outcome.value.Value())
      ensures outcome.Ok? && CanComplete(pf, s) && ReviewSettled(router, completionTask, s) && TurnsSucceeded(trace) ==>
                outcome.value.status.Completed? && Reviewed(outcome.value.Value())
      ensures outcome.Err? && (outcome.error.ConfigurationChanged? || outcome.error.RunBusy?) ==>
                store.Files() == old(store.Files())
      ensures Loadable(old(store.disk)) ==> Accounted(outcome, old(store.troubles), store.troubles)
      ensures Loadable(old(store.disk)) && Adoptable(old(store.disk).value, acknowledged)
              && ReviewComes(router, completionTask, old(store.disk).value) && store.troubles == old(store.troubles) ==>
                outcome.Ok?
    {
      hide *;
      Wired();
      ghost var v, calm, disk := Opened(store.Files(), scheduler.limit), store.troubles, store.disk;
      outcome, trace, v' := OpenRun(Some(digest), acknowledged);
      s, m, m' := *, *, *;
      if outcome.Err? {
        OpenRefused(outcome, disk, acknowledged, calm);
        return;
      }
      var state := outcome.value;
      ValueParts(state);
      MemoryOf(v', state);
      ghost var loaded := state.Value();
      var step: Outcome := Ok(Unit);
      Untroubled(step, store.troubles);
      if state.configurationDigest != digest {
        step, trace, v' := Adopt(state, trace, v, v');
      }
      s := v'.session.work.mem;
      if step.Ok? {
        step := ValidateModels();
      }
      if step.Err? {
        outcome := Err(step.error);
        SameError(step, outcome, calm, store.troubles);
        AdoptStopped(step, loaded, acknowledged, calm);
        return;
      }
      SamePlan(loaded, s);
      ghost var before, more, mid := trace, [], v';
      step, m, m', more, v' := Continue(state, v');
      JoinSteps(pf, before, v, mid, more, v');
      trace := before + more;
      if step.Err? {
        outcome := Err(step.error);
        SameError(step, outcome, calm, store.troubles);
        return;
      }
      ContinuedWeaker(pf, completionTask, s, m, m', v'.session.work.mem, before, more);
      MemoryOf(v', state);
      SyncedDisk(v', state);
      ValueParts(state);
      Untroubled<RunState>(Ok(state), store.troubles);
      outcome := ReleaseRun(Ok(state));
      Untroubling(outcome, calm);
    }

    lemma {:induction false} OpenRefused(outcome: Result<RunState, Error>, disk: Option<Snapshot>, acknowledged: bool,
                                         calm: Troubles)
      requires Loadable(disk) ==> Accounted(outcome, calm, store.troubles)
      requires outcome.Err?
      requires (outcome.error.RunBusy? || outcome.error.StateFailure? || outcome.error.ConfigurationChanged?)
      requires outcome.error.ConfigurationChanged? ==>
                 disk.Some? && !acknowledged && disk.value.configurationDigest != digest
      ensures Loadable(disk) && Adoptable(disk.value, acknowledged) ==> store.troubles != calm
    {
    }

    lemma {:induction false} AdoptStopped(step: Outcome, loaded: Snapshot, acknowledged: bool, calm: Troubles)
      requires Accounted(step, calm, store.troubles) && step.Err?
      requires step.error.StateFailure? || step.error.ModelUnavailable?
               || (step.error.RoutingFailure? && loaded.configurationDigest != digest && !UnfinishedRoutable(router, loaded))
      ensures Adoptable(loaded, acknowledged) ==> store.troubles != calm
    {
    }

    lemma {:induction false} SamePlan(loaded: Snapshot, s: Snapshot)
      requires s == loaded || Adopts(router, digest, loaded, s)
      ensures ReviewComes(router, completionTask, s) <==> ReviewComes(router, completionTask, loaded)
    {
    }

    /** The creation of the run's directory and first snapshot (json_store.py:100-105). */
    method CreateFiles(state: RunState) returns (outcome: Outcome, ghost trace: seq<Action>, ghost v': View)
      requires Ready() && ValidPlatform(pf) && FilesOk(pf, store.Files()) && Fresh(pf, state.Value())
      modifies store`directory, store`disk, store`events, store`saved, store`troubles
      ensures !old(store.directory) ==> Accounted(outcome, old(store.troubles), store.troubles)
      ensures outcome.Ok? ==> store.troubles == old(store.troubles)
      ensures Reached(pf, trace, Opened(old(store.Files()), scheduler.limit), v') && SessionOk(pf, v')
      ensures v'.files == store.Files()
      ensures outcome.Ok? ==> !old(store.directory) && trace == [MakeDirectory(state.Value()), WriteFirst]
      ensures outcome.Ok? ==>
                At(v', state, store) && v'.session.Working? && Idle(v', scheduler.limit, false) && Synced(pf, v')
      ensures outcome.Err? ==> outcome.error.StateFailure?
    {
      ghost var f, limit, first := store.Files(), scheduler.limit, state.Value();
      ghost var v := Opened(f, limit);
      hide SessionOk, FilesOk, Enabled, Apply, InMemoryWellFormed, Reached, ValidPlatform, Persisted, Fresh, Synced;
      OpenedOk(pf, f, limit);
      NoSteps(pf, v);
      trace, v' := [], v;
      outcome := store.Create(state);
      if !f.directory && store.directory {
        CreateSteps(pf, f, limit, first);
        trace, v' := TakeStep(pf, trace, v, v', MakeDirectory(first));
        if outcome.Ok? {
          trace, v' := TakeStep(pf, trace, v, v', WriteFirst);
        }
      }
    }

    /** Creation, and the event that announces it. */
    method CreateRun(state: RunState, event: string)
      returns (outcome: Outcome, ghost trace: seq<Action>, ghost v': View)
      requires Ready() && ValidPlatform(pf) && FilesOk(pf, store.Files()) && Fresh(pf, state.Value())
      modifies store`directory, store`disk, store`events, store`saved, store`troubles
      ensures !old(store.directory) ==> Accounted(outcome, old(store.troubles), store.troubles)
      ensures outcome.Ok? ==> store.troubles == old(store.troubles)
      ensures Reached(pf, trace, Opened(old(store.Files()), scheduler.limit), v') && SessionOk(pf, v')
      ensures v'.files == store.Files()
      ensures outcome.Ok? ==> !old(store.directory) && NoReturns(trace)
      ensures outcome.Ok? ==>
                At(v', state, store) && v'.session.Working? && Idle(v', scheduler.limit, false) && Synced(pf, v')
      ensures outcome.Err? ==> outcome.error.StateFailure?
    {
      hide *;
      Wired();
      ghost var v, first := Opened(store.Files(), scheduler.limit), state.Value();
      outcome, trace, v' := CreateFiles(state);
      if outcome.Ok? {
        ghost var created := v';
        NoReturnsIn2(MakeDirectory(first), WriteFirst);
        outcome, trace, v' := Event(event, None, state, trace, v, v');
        SameSession(created, v', scheduler.limit);
        StillSynced(created, v');
        MemoryOf(v', state);
      }
    }

    /** application.py:117-145: the first state of a validated, routed plan. */
    method FirstPlan(objective: Objective, repository: RepositoryContext, raw: seq<Planner.RawItem>,
                     tasks: set<string>, contained: string -> Option<string>) returns (first: Result<Snapshot, Error>)
      requires Hex(digest) && objective.explicitTask.None? && !pf.secretText(objective.id) && CleanRaw(pf, raw)
      ensures first.Ok? ==> Plannable(raw, tasks, contained)
      ensures first.Ok? ==> PlannedRun(pf, router, objective, raw, first.value) && Fresh(pf, first.value)
      ensures first.Err? && first.error.PlannerFailure? <==> !Plannable(raw, tasks, contained)
      ensures first.Err? ==> first.error.PlannerFailure? || first.error.RoutingFailure?
      ensures first.Err? && first.error.RoutingFailure? ==> !PlanRoutable(router, raw, contained)
    {
      hide *;
      hide Planner.Acceptable;
      var parsed := Planner.ParseSemanticWorkItems(raw, tasks, contained);
      if parsed.Err? {
        NotPlannable(raw, tasks, contained);
        return Err(PlannerFailure);
      }
      var items := parsed.value;
      ParsedPlan(pf, raw, tasks, contained, items);
      ghost var order :| Topological(Planner.DependencyMap(Planner.Declared(items)), order);
      if exists i :: 0 <= i < |items| && items[i].id == COMPLETION_ID {
        ghost var i :| 0 <= i < |items| && items[i].id == COMPLETION_ID;
        assert raw[i].id == COMPLETION_ID;
        NotPlannable(raw, tasks, contained);
        return Err(PlannerFailure);
      }
      assert forall i | 0 <= i < |raw| :: items[i].id == raw[i].id;
      IsPlannable(raw, tasks, contained);
      var routes := RouteItems(router, items);
      if routes.None? {
        ghost var i :| 0 <= i < |items| && router(items[i]).None?;
        PlanUnrouted(router, raw, contained, items, i);
        return Err(RoutingFailure);
      }
      var state := FirstState(digest, objective, repository, ItemsById(items), routes.value);
      FirstParts(digest, objective, repository, ItemsById(items), routes.value);
      PlanIsFresh(pf, router, state, items);
      PlanIsPlanned(pf, router, objective, raw, state, items, order);
      return Ok(state);
    }

    /** application.py:117-147: a validated, routed plan becomes the first snapshot.
        raw is what the planner model answered. */
    method PlanUnlocked(objective: Objective, repository: RepositoryContext, raw: seq<Planner.RawItem>,
                        tasks: set<string>, contained: string -> Option<string>)
      returns (outcome: Result<RunState, Error>, ghost trace: seq<Action>, ghost v': View)
      requires Ready() && ValidPlatform(pf) && Hex(digest) && FilesOk(pf, store.Files())
      requires objective.explicitTask.None? && !pf.secretText(objective.id) && CleanRaw(pf, raw)
      modifies store`directory, store`disk, store`events, store`saved, store`troubles
      ensures Reached(pf, trace, Opened(old(store.Files()), scheduler.limit), v') && SessionOk(pf, v')
      ensures v'.files == store.Files()
      ensures outcome.Ok? ==> fresh(outcome.value) && At(v', outcome.value, store) && v'.session.Working?
      ensures outcome.Ok? ==> Idle(v', scheduler.limit, false) && Synced(pf, v') && NoReturns(trace)
      ensures outcome.Ok? ==> Plannable(raw, tasks, contained)
      ensures outcome.Ok? ==> PlannedRun(pf, router, objective, raw, outcome.value.Value())
      ensures outcome.Err? && outcome.error.PlannerFailure? ==> store.Files() == old(store.Files())
      ensures outcome.Err? ==> !outcome.error.RunBusy?
      ensures !old(store.directory) ==> Accounted(outcome, old(store.troubles), store.troubles)
      ensures outcome.Ok? ==> store.troubles == old(store.troubles)
      ensures !old(store.directory) && Plannable(raw, tasks, contained) && PlanRoutable(router, raw, contained)
              && store.troubles == old(store.troubles) ==>
                outcome.Ok?
    {
      hide *;
      Wired();
      ghost var calm := store.troubles;
      trace, v' := [], Opened(store.Files(), scheduler.limit);
      OpenedOk(pf, store.Files(), scheduler.limit);
      NoSteps(pf, v');
      var inventory := ValidateModels();
      if inventory.Err? {
        outcome := Err(inventory.error);
        SameError(inventory, outcome, calm, store.troubles);
        Untroubling(outcome, calm);
        return;
      }
      var first := FirstPlan(objective, repository, raw, tasks, contained);
      if first.Err? {
        outcome := Err(first.error);
        Untroubled(outcome, store.troubles);
        return;
      }
      var state := new RunState(first.value);
      var step;
      step, trace, v' := CreateRun(state, "objective-planned");
      if step.Ok? {
        Untroubled<RunState>(Ok(state), store.troubles);
        return Ok(state), trace, v';
      }
      outcome := Err(step.error);
      if !old(store.directory) {
        SameError(step, outcome, calm, store.troubles);
        Untroubling(outcome, calm);
      }
    }

    /** application.py:100-115. */
    method PlanObjective(objective: Objective, repository: RepositoryContext, raw: seq<Planner.RawItem>,
                         tasks: set<string>, contained: string -> Option<string>)
      returns (outcome: Result<RunState, Error>, ghost trace: seq<Action>, ghost v': View)
      requires Ready() && ValidPlatform(pf) && Hex(digest) && FilesOk(pf, store.Files())
      requires objective.explicitTask.None? && !pf.secretText(objective.id) && CleanRaw(pf, raw)
      modifies store`directory, store`disk, store`events, store`saved, store`troubles
      ensures Reached(pf, trace, Opened(old(store.Files()), scheduler.limit), v') && v'.files == store.Files()
      ensures outcome.Ok? ==> store.disk == Some(Persisted(pf, outcome.value.Value()))
      ensures outcome.Ok? ==> Plannable(raw, tasks, contained)
      ensures outcome.Ok? ==> PlannedRun(pf, router, objective, raw, outcome.value.Value())
      ensures outcome.Err? && (outcome.error.PlannerFailure? || outcome.error.RunBusy?) ==>
                store.Files() == old(store.Files())
      ensures !old(store.directory) ==> Accounted(outcome, old(store.troubles), store.troubles)
      ensures !old(store.directory) && Plannable(raw, tasks, contained) && PlanRoutable(router, raw, contained)
              && store.troubles == old(store.troubles) ==>
                outcome.Ok?
    {
      hide *;
      Wired();
      ghost var calm := store.troubles;
      trace, v' := [], Opened(store.Files(), scheduler.limit);
      OpenedOk(pf, store.Files(), scheduler.limit);
      NoSteps(pf, v');
      var leased := AcquireRun();
      if leased.Err? {
        outcome := Err(leased.error);
        SameError(leased, outcome, calm, store.troubles);
        Untroubling(outcome, calm);
        return;
      }
      outcome, trace, v' := PlanUnlocked(objective, repository, raw, tasks, contained);
      if outcome.Ok? {
        SyncedDisk(v', outcome.value);
        ghost var planned := outcome;
        Untroubled(planned, store.troubles);
        outcome := ReleaseRun(outcome);
        Untroubling(outcome, calm);
      }
    }

    /** application.py:192-209. */
    method RunObjective(objective: Objective, repository: RepositoryContext, raw: seq<Planner.RawItem>,
                        tasks: set<string>, contained: string -> Option<string>)
      returns (outcome: Result<RunState, Error>, ghost s: Snapshot, ghost m: Snapshot, ghost m': Snapshot,
               ghost trace: seq<Action>, ghost v': View)
      requires Ready() && ValidPlatform(pf) && Hex(digest) && FilesOk(pf, store.Files())
      requires objective.explicitTask.None? && !pf.secretText(objective.id) && CleanRaw(pf, raw)
      modifies store`directory, store`disk, store`events, store`saved, store`audit, store`report, scheduler.client,
        store`troubles
      ensures Reached(pf, trace, Opened(old(store.Files()), scheduler.limit), v') && v'.files == store.Files()
      ensures outcome.Ok? ==>
                store.disk == Some(Persisted(pf, outcome.value.Value())) && store.report == Some(outcome.value.Value())
      ensures outcome.Ok? ==> Plannable(raw, tasks, contained) && PlannedRun(pf, router, objective, raw, s)
      ensures outcome.Ok? ==> Continued(pf, completionTask, s, m, m', outcome.value.Value(), TurnsTerminal(trace))
      ensures outcome.Ok? && raw != [] && outcome.value.status.Completed? ==> Reviewed(outcome.value.Value())
      ensures outcome.Ok? && raw != [] && AllAutomatic(s) && ReviewAutomatic(router, completionTask)
              && TurnsSucceeded(trace) ==>
                outcome.value.status.Completed? && Reviewed(outcome.value.Value())
      ensures !old(store.directory) ==> Accounted(outcome, old(store.troubles), store.troubles)
      ensures !old(store.directory) && Plannable(raw, tasks, contained) && PlanRoutable(router, raw, contained)
              && ReviewRoutable(router, completionTask) && store.troubles == old(store.troubles) ==>
                outcome.Ok?
    {
      hide *;
      Wired();
      ghost var v, calm := Opened(store.Files(), scheduler.limit), store.troubles;
      trace, v' := [], v;
      OpenedOk(pf, store.Files(), scheduler.limit);
      NoSteps(pf, v);
      s, m, m' := *, *, *;
      var leased := AcquireRun();
      if leased.Err? {
        outcome := Err(leased.error);
        SameError(leased, outcome, calm, store.troubles);
        Untroubling(outcome, calm);
        return;
      }
      outcome, trace, v' := PlanUnlocked(objective, repository, raw, tasks, contained);
      if outcome.Err? {
        return;
      }
      var state := outcome.value;
      MemoryOf(v', state);
      s := state.Value();
      PlannedFacts(pf, router, objective, raw, s);
      PlannedReview(router, raw, tasks, contained, completionTask, s);
      ghost var before, more, mid := trace, [], v';
      var step;
      step, m, m', more, v' := Continue(state, v');
      JoinSteps(pf, before, v, mid, more, v');
      trace := before + more;
      if step.Err? {
        outcome := Err(step.error);
        SameError(step, outcome, calm, store.troubles);
        return;
      }
      ContinuedWeaker(pf, completionTask, s, m, m', v'.session.work.mem, before, more);
      MemoryOf(v', state);
      SyncedDisk(v', state);
      ValueParts(state);
      Untroubled<RunState>(Ok(state), store.troubles);
      outcome := ReleaseRun(Ok(state));
      Untroubling(outcome, calm);
    }

    /** application.py:149-190 and 292-317: one explicit task. */
    method RunTask(objective: Objective, repository: RepositoryContext, provisional: WorkItem,
                   routed: Option<RouteDecision>)
      returns (outcome: Result<RunState, Error>, ghost s: Snapshot, ghost trace: seq<Action>, ghost v': View)
      requires Ready() && ValidPlatform(pf) && Hex(digest) && FilesOk(pf, store.Files())
      requires objective.explicitTask.Some? && !pf.secretText(objective.id)
      requires provisional.id == TASK_ID && provisional.dependencies == [] && provisional.access.ReadOnly?
      modifies store`directory, store`disk, store`events, store`saved, store`audit, store`report, scheduler.client,
        store`troubles
      ensures Reached(pf, trace, Opened(old(store.Files()), scheduler.limit), v') && v'.files == store.Files()
      ensures outcome.Ok? ==>
                store.disk == Some(Persisted(pf, outcome.value.Value())) && store.report == Some(outcome.value.Value())
      ensures outcome.Ok? ==> routed.Some? && s == TaskState(digest, objective, repository, provisional, routed.value)
      ensures outcome.Ok? ==> PassResult(pf, s, outcome.value.Value(), TurnsTerminal(trace))
      ensures outcome.Ok? ==> (outcome.value.status.Completed? <==> HasSucceeded(outcome.value.Value(), TASK_ID))
      ensures !old(store.directory) ==> Accounted(outcome, old(store.troubles), store.troubles)
      ensures !old(store.directory) && routed.Some? && store.troubles == old(store.troubles) ==> outcome.Ok?
    {
      hide *;
      Wired();
      ghost var v, calm := Opened(store.Files(), scheduler.limit), store.troubles;
      trace, v', s := [], v, *;
      OpenedOk(pf, store.Files(), scheduler.limit);
      NoSteps(pf, v);
      var step := AcquireRun();
      if step.Ok? {
        step := ValidateModels();
      }
      if step.Err? {
        outcome := Err(step.error);
        SameError(step, outcome, calm, store.troubles);
        Untroubling(outcome, calm);
        return;
      }
      if routed.None? {
        outcome := Err(RoutingFailure);
        Untroubled(outcome, store.troubles);
        return;
      }
      var first := TaskState(digest, objective, repository, provisional, routed.value);
      TaskIsFresh(pf, digest, objective, repository, provisional, routed.value);
      s := first;
      var state := new RunState(first);
      step, trace, v' := CreateRun(state, "task-created");
      if step.Ok? {
        ghost var before, mid := trace, v';
        MemoryOf(v', state);
        step, trace, v' := FinishTask(state, s, trace, v, v');
      }
      if step.Err? {
        outcome := Err(step.error);
        if !old(store.directory) {
          SameError(step, outcome, calm, store.troubles);
          Untroubling(outcome, calm);
        }
        return;
      }
      Untroubled<RunState>(Ok(state), store.troubles);
      outcome := ReleaseRun(Ok(state));
      Untroubling(outcome, calm);
    }

    /** application.py:187-190. */
    method FinishTask(state: RunState, ghost s: Snapshot, ghost before: seq<Action>, ghost v0: View, ghost v: View)
      returns (outcome: Outcome, ghost trace: seq<Action>, ghost v': View)
      requires Ready() && ValidPlatform(pf)
      requires Reached(pf, before, v0, v) && SessionOk(pf, v) && At(v, state, store) && Idle(v, scheduler.limit, false)
      requires Synced(pf, v) && NoReturns(before) && s == v.session.work.mem && s.workItems.Keys == {TASK_ID}
      modifies state`status, state`results, store`disk, store`events, store`saved, store`audit, store`report,
        scheduler.client, store`troubles
      ensures Accounted(outcome, old(store.troubles), store.troubles)
      ensures outcome.Ok? ==> store.troubles == old(store.troubles)
      ensures Reached(pf, trace, v0, v') && v'.files == store.Files()
      ensures outcome.Ok? ==> store.disk == Some(Persisted(pf, state.Value())) && store.report == Some(state.Value())
      ensures outcome.Ok? ==> PassResult(pf, s, state.Value(), TurnsTerminal(trace))
      ensures outcome.Ok? ==> (state.status.Completed? <==> HasSucceeded(state.Value(), TASK_ID))
      ensures outcome.Err? ==> outcome.error.ProjectBusy? || outcome.error.StateFailure?
    {
      hide *;
      Wired();
      ghost var more := [];
      outcome, more, v' := scheduler.RunReady(state, v);
      JoinSteps(pf, before, v0, v, more, v');
      trace := before + more;
      MemoryOf(v', state);
      if outcome.Err? {
        return;
      }
      TerminalJoin(before, more);
      PassWeaker(pf, s, v'.session.work.mem, TurnsTerminal(more), TurnsTerminal(trace));
      MemoryGood(pf, v');
      TaskCompletes(pf, s, v'.session.work.mem, TurnsTerminal(trace));
      SyncedDisk(v', state);
      ValueParts(state);
      WorkingView(pf, v');
      outcome := store.WriteReport(state);
    }

    /** application.py:262-272. */
    method Report() returns (outcome: Outcome)
      requires Ready() && ValidPlatform(pf) && FilesOk(pf, store.Files())
      modifies store`report, store`troubles
      ensures store.Files() == old(store.Files())
      ensures outcome.Ok? ==> store.disk.Some? && store.report == Some(store.disk.value)
      ensures Loadable(store.disk) ==> Accounted(outcome, old(store.troubles), store.troubles)
      ensures Loadable(store.disk) && store.troubles == old(store.troubles) ==> outcome.Ok?
    {
      hide *;
      ghost var calm := store.troubles;
      var loaded, trace, v' := OpenRun(None, false);
      if loaded.Err? {
        outcome := Err(loaded.error);
        if Loadable(store.disk) {
          SameError(loaded, outcome, calm, store.troubles);
          Untroubling(outcome, calm);
        }
        return;
      }
      MemoryOf(v', loaded.value);
      WorkingView(pf, v');
      outcome := store.WriteReport(loaded.value);
      outcome := ReleaseRun(outcome);
      Untroubling(outcome, calm);
    }
  }
}
