// What an accepted policy means for a run: when its routes, and that of the
// completion review, need no approval.

module PolicyRuns {
  import opened Domain
  import opened Rules
  import opened Plans
  import opened Routing
  import opened Application

  /** The coordinator's router answers as the policy says. */
  ghost predicate Follows(router: Router, c: RouterConfig, lib: Library) {
    && (forall item :: router(item).Some? <==> CanRoute(c, item, None))
    && (forall item :: router(item).Some? ==> Routing.RoutedAs(c, lib, item, None, router(item).value))
  }

  /** Some rule, or the policy of its task, wants an approval for the item. */
  ghost predicate Guarded(c: RouterConfig, item: WorkItem)
    requires item.task in c.tasks
  {
    NeedsApproval(c.tasks[item.task], item.riskFlags, c.hardRiskRules)
  }

  lemma {:induction false} RoutedApproval(router: Router, c: RouterConfig, lib: Library, item: WorkItem)
    requires Accepted(c) && Follows(router, c, lib)
    ensures router(item).Some? <==> item.task in c.tasks
    ensures item.task in c.tasks ==> (router(item).value.approval.Required? <==> Guarded(c, item))
  {
    AcceptedRoutes(c, item, None);
    if router(item).Some? {
      var d := router(item).value;
      assert Routing.RoutedAs(c, lib, item, None, d);
      var key :| Decides(c, item, TaskFor(item, None), SourceFor(None), ReasonFor(lib, item, None), key, d);
    }
  }

  /** Completion reviews run unattended exactly if the completion task is not
      guarded by itself: they carry no risk flags. */
  lemma {:induction false} ReviewUnattended(router: Router, c: RouterConfig, lib: Library)
    requires Accepted(c) && Follows(router, c, lib)
    ensures ReviewAutomatic(router, c.completionTask) <==>
              !NeedsApproval(c.tasks[c.completionTask], {}, c.hardRiskRules)
  {
    hide CompletionItem, Accepted, Follows, NeedsApproval;
    CompletionConfigured(c);
    forall s ensures ReviewRouteAutomatic(router, CompletionItem(s, c.completionTask)) <==>
                       !NeedsApproval(c.tasks[c.completionTask], {}, c.hardRiskRules) {
      ReviewItemTask(s, c.completionTask);
      RoutedApproval(router, c, lib, CompletionItem(s, c.completionTask));
    }
    var nowhere := RepositoryContext("", false, None, [], [], [], [], []);
    var any := FirstState("", Objective("", "", "", None, "", ""), nowhere, map[], map[]);
    assert ReviewAutomatic(router, c.completionTask) ==> ReviewRouteAutomatic(router, CompletionItem(any, c.completionTask));
  }

  lemma {:induction false} ReviewItemTask(s: Snapshot, task: string)
    ensures CompletionItem(s, task).task == task && CompletionItem(s, task).riskFlags == {}
  {
  }

  lemma {:induction false} CompletionConfigured(c: RouterConfig)
    requires Accepted(c)
    ensures c.completionTask in c.tasks
  {
  }

  /** A planned run needs no approval exactly if none of its items is guarded. */
  lemma {:induction false} PlanUnattended(router: Router, c: RouterConfig, lib: Library, s: Snapshot)
    requires Accepted(c) && Follows(router, c, lib)
    requires forall id | id in s.workItems :: id in s.routes && router(s.workItems[id]) == Some(s.routes[id])
    ensures forall id | id in s.workItems :: s.workItems[id].task in c.tasks
    ensures AllAutomatic(s) <==> forall id | id in s.workItems :: !Guarded(c, s.workItems[id])
  {
    hide Accepted, Follows, Guarded;
    forall id | id in s.workItems
      ensures s.workItems[id].task in c.tasks && (s.routes[id].approval.Required? <==> Guarded(c, s.workItems[id]))
    {
      RoutedApproval(router, c, lib, s.workItems[id]);
    }
  }
}
