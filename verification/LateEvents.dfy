// Events and first snapshots that land after the lease of their run was given
// up: unlike saves, they do no harm whenever they land.

module LateEvents {
  import opened Domain
  import opened Progress
  import opened Rules
  import opened Redaction
  import opened Process
  import opened Safety
  import opened Approvals
  import opened Cluster
  import opened ClusterSafety
  import opened LateWrites

  /** The item whose terminal event the abandoned step was to append. */
  ghost predicate Announces(l: Late) {
    && l.step.AnnounceResult? && l.session.Working? && l.session.work.todo.Announce?
    && l.session.work.todo.id in l.session.work.mem.results
    && Terminal(l.session.work.mem.results[l.session.work.todo.id].status)
  }

  /** The result is on disk, its event is not, and nobody is about to write one. */
  ghost predicate Unannounced(c: Cluster, run: string, id: string, status: WorkStatus) {
    && FilesOf(c, run).disk.Some? && Announced(FilesOf(c, run).disk.value, id, status)
    && NoTerminalEvent(FilesOf(c, run).events, id)
    && forall p | p in c.seats && c.seats[p].run == run :: Silent(c.seats[p].session, id)
  }

  lemma {:induction false} NotPending(pf: Platform, mem: Snapshot, disk: Snapshot, id: string)
    requires MemoryAhead(pf, mem, disk) && IsResolved(disk, id)
    ensures !IsPending(mem, id)
  {
  }

  lemma {:induction false} OnlyPending(pf: Platform, w: Work, a: Action)
    requires EnabledWork(pf, a, w) && TurnsOk(w) && (a.Record? || a.Block?)
    ensures IsPending(w.mem, a.id)
  {
    if a.Record? {
      assert a.id in w.flight + w.returned.Keys;
      assert Runnable(w.mem, a.id);
    }
  }

  lemma {:induction false} NotRecorded(pf: Platform, v: View, a: Action, id: string)
    requires SessionOk(pf, v) && v.session.Working? && Enabled(pf, a, v) && (a.Record? || a.Block?)
    requires v.files.disk.Some? && IsResolved(v.files.disk.value, id)
    ensures a.id != id
  {
    hide SessionOk, EnabledWork, WellFormed, Explained, PlanAhead, TodoOk, MemoryAhead, TurnsOk, IsResolved, IsPending;
    WorkFacts(pf, v);
    NotPending(pf, v.session.work.mem, v.files.disk.value, id);
    OnlyPending(pf, v.session.work, a);
  }

  /** The session is not about to announce id. */
  predicate Silent(session: Session, id: string) {
    session.Working? && !session.work.todo.Nothing? ==> session.work.todo.id != id
  }

  lemma {:induction false} TodoAfter(pf: Platform, v: View, a: Action, id: string)
    requires Enabled(pf, a, v) && InMemoryWellFormed(v) && (a.Record? || a.Block? ==> a.id != id)
    requires NoTerminalEvent(v.files.events, id) && Silent(v.session, id)
    ensures NoTerminalEvent(Apply(pf, a, v).files.events, id) && Silent(Apply(pf, a, v).session, id)
  {
    hide WellFormed;
  }

  lemma {:induction false} NotAgain(pf: Platform, v: View, a: Action, id: string)
    requires SessionOk(pf, v) && Enabled(pf, a, v) && InMemoryWellFormed(v)
    requires v.files.disk.Some? && IsResolved(v.files.disk.value, id)
    requires NoTerminalEvent(v.files.events, id) && Silent(v.session, id)
    ensures NoTerminalEvent(Apply(pf, a, v).files.events, id) && Silent(Apply(pf, a, v).session, id)
  {
    hide SessionOk, NoTerminalEvent, Silent, IsResolved, Apply, InMemoryWellFormed;
    if a.Record? || a.Block? {
      NotRecorded(pf, v, a, id);
    }
    TodoAfter(pf, v, a, id);
  }

  lemma {:induction false} SaveShows(pf: Platform, v: View)
    requires Enabled(pf, SaveState, v) && InMemoryWellFormed(v)
    ensures v.session.Working? && Apply(pf, SaveState, v).files.disk == Some(Persisted(pf, v.session.work.mem))
  {
    hide WellFormed, Persisted;
  }

  lemma {:induction false} OtherShows(pf: Platform, v: View, a: Action)
    requires Enabled(pf, a, v) && InMemoryWellFormed(v) && v.files.disk.Some? && !a.SaveState?
    requires a.WriteFirst? ==> v.files.disk.None?
    ensures Apply(pf, a, v).files.disk == v.files.disk
  {
    hide WellFormed;
  }

  lemma {:induction false} CreatesOnce(pf: Platform, v: View)
    requires SessionOk(pf, v) && Enabled(pf, WriteFirst, v)
    ensures v.files.disk.None?
  {
    hide FilesOk, WorkOk, Fresh;
  }

  lemma {:induction false} DiskKeeps(pf: Platform, v: View, a: Action)
    requires ValidPlatform(pf) && SessionOk(pf, v) && Enabled(pf, a, v) && InMemoryWellFormed(v) && v.files.disk.Some?
    ensures var v' := Apply(pf, a, v); v'.files.disk.Some? && Preserves(v.files.disk.value, v'.files.disk.value)
  {
    hide SessionOk, Enabled, Apply, InMemoryWellFormed, Persisted, WellFormed, Explained, TurnsOk, TodoOk, PlanAhead,
      MemoryAhead;
    if a.SaveState? {
      SaveShows(pf, v);
      WorkFacts(pf, v);
      SavePreserves(pf, v.session.work.mem, v.files.disk.value);
    } else {
      if a.WriteFirst? {
        CreatesOnce(pf, v);
      }
      OtherShows(pf, v, a);
    }
  }

  lemma {:induction false} OnlySeat(c: Cluster, p: nat, q: nat)
    requires SeatsOwned(c) && p in c.seats && q in c.seats && c.seats[p].run == c.seats[q].run
    ensures p == q
  {
    assert c.runOwner[c.seats[p].run] == p;
  }

  lemma {:induction false} StaysAnnounced(disk: Snapshot, disk': Snapshot, id: string, status: WorkStatus)
    requires Announced(disk, id, status) && Terminal(status) && Preserves(disk, disk')
    ensures IsResolved(disk, id) && Announced(disk', id, status)
  {
    assert IsResolved(disk, id);
  }

  lemma {:induction false} UnannouncedWith(c: Cluster, c': Cluster, p: nat, run: string, id: string, status: WorkStatus)
    requires SeatsOwned(c) && Unannounced(c, run, id, status) && Terminal(status) && p in c.seats
    requires c.seats[p].run == run
    requires p in c'.seats && c'.seats == c.seats[p := Seat(run, c'.seats[p].session)]
    requires FilesOf(c', run).disk.Some? && Preserves(FilesOf(c, run).disk.value, FilesOf(c', run).disk.value)
    requires NoTerminalEvent(FilesOf(c', run).events, id) && Silent(c'.seats[p].session, id)
    ensures Unannounced(c', run, id, status)
  {
    StaysAnnounced(FilesOf(c, run).disk.value, FilesOf(c', run).disk.value, id, status);
    hide SeatsOwned, NoTerminalEvent, Silent, FilesOf, Announced, Preserves;
    forall q | q in c'.seats && c'.seats[q].run == run ensures q == p {
      OnlySeat(c, p, q);
    }
  }

  /** What an action changes in the cluster. */
  lemma {:induction false} ActShows(pf: Platform, c: Cluster, p: nat, a: Action)
    requires Possible(pf, c, Act(p, a))
    ensures var v, c' := ViewOf(c, p), Moved(pf, c, Act(p, a));
            && p in c.seats && Enabled(pf, a, v) && InMemoryWellFormed(v)
            && c'.seats == c.seats[p := Seat(c.seats[p].run, Apply(pf, a, v).session)]
            && FilesOf(c', c.seats[p].run) == Apply(pf, a, v).files
            && forall run | run != c.seats[p].run :: FilesOf(c', run) == FilesOf(c, run)
  {
    hide Enabled, Apply, InMemoryWellFormed, ProjectOf;
  }

  lemma {:induction false} OwnSession(pf: Platform, c: Cluster, p: nat)
    requires InOrder(pf, c) && p in c.seats
    ensures SessionOk(pf, ViewOf(c, p)) && SeatsOwned(c)
  {
    hide SessionOk, SeatsOwned;
  }

  lemma {:induction false} UnannouncedElsewhere(c: Cluster, c': Cluster, p: nat, run: string, id: string,
                                                status: WorkStatus)
    requires Unannounced(c, run, id, status) && p in c.seats && c.seats[p].run != run && FilesOf(c', run) == FilesOf(c, run)
    requires p in c'.seats && c'.seats == c.seats[p := Seat(c.seats[p].run, c'.seats[p].session)]
    ensures Unannounced(c', run, id, status)
  {
    hide FilesOf, NoTerminalEvent, Silent, Announced;
  }

  lemma {:induction false} UnannouncedAct(pf: Platform, c: Cluster, p: nat, a: Action, run: string, id: string,
                                          status: WorkStatus)
    requires ValidPlatform(pf) && InOrder(pf, c) && Possible(pf, c, Act(p, a))
    requires Unannounced(c, run, id, status) && Terminal(status)
    ensures Unannounced(Moved(pf, c, Act(p, a)), run, id, status)
  {
    var v, c' := ViewOf(c, p), Moved(pf, c, Act(p, a));
    ActShows(pf, c, p, a);
    OwnSession(pf, c, p);
    hide InOrder, SeatsOwned, SessionOk, Enabled, Apply, InMemoryWellFormed, ValidPlatform, NoTerminalEvent, Silent,
      Preserves, Announced, Possible, Moved, ProjectsAfter, Terminal;
    if c.seats[p].run == run {
      DiskKeeps(pf, v, a);
      StaysAnnounced(v.files.disk.value, Apply(pf, a, v).files.disk.value, id, status);
      NotAgain(pf, v, a, id);
      UnannouncedWith(c, c', p, run, id, status);
    } else {
      UnannouncedElsewhere(c, c', p, run, id, status);
    }
  }

  lemma {:induction false} UnannouncedMove(pf: Platform, c: Cluster, m: Move, run: string, id: string,
                                           status: WorkStatus)
    requires ValidPlatform(pf) && InOrder(pf, c) && Possible(pf, c, m)
    requires Unannounced(c, run, id, status) && Terminal(status)
    ensures Unannounced(Moved(pf, c, m), run, id, status)
  {
    if m.Act? {
      UnannouncedAct(pf, c, m.p, m.action, run, id, status);
    } else {
      hide InOrder, NoTerminalEvent, Silent;
      assert FilesOf(Moved(pf, c, m), run) == FilesOf(c, run);
    }
  }

  lemma {:induction false} UnannouncedMoves(pf: Platform, c: Cluster, moves: seq<Move>, c': Cluster, run: string,
                                            id: string, status: WorkStatus)
    requires ValidPlatform(pf) && InOrder(pf, c) && Leads(pf, c, moves, c')
    requires Unannounced(c, run, id, status) && Terminal(status)
    ensures Unannounced(c', run, id, status)
    decreases |moves|
  {
    if moves != [] {
      hide Possible, Moved, InOrder, Unannounced;
      OrderedMove(pf, c, moves[0]);
      UnannouncedMove(pf, c, moves[0], run, id, status);
      UnannouncedMoves(pf, Moved(pf, c, moves[0]), moves[1..], c', run, id, status);
    }
  }

  ghost predicate AppendsEvent(l: Late) {
    l.session.Working? && (l.step.AnnounceResult? || l.step.Note?)
  }

  function EventOf(l: Late): Event
    requires l.session.Working? && (l.step.Note? ||
               (l.step.AnnounceResult? && l.session.work.todo.Announce? && l.session.work.todo.id in l.session.work.mem.results))
  {
    if l.step.Note? then Noted(l.step.name, l.step.itemId)
    else Finished(l.session.work.todo.id, l.session.work.mem.results[l.session.work.todo.id].status)
  }

  lemma {:induction false} EventLands(pf: Platform, c: Cluster, l: Late)
    requires LateOk(pf, l) && AppendsEvent(l) && FilesOf(c, l.run).disk.Some?
    ensures l.step.AnnounceResult? ==>
              l.session.work.todo.Announce? && l.session.work.todo.id in l.session.work.mem.results
    ensures CanLand(pf, FilesOf(c, l.run), l)
    ensures FilesOf(Landed(pf, c, l), l.run) == FilesOf(c, l.run).(events := FilesOf(c, l.run).events + [EventOf(l)])
  {
    hide SessionOk, AuditOk, WellFormed;
  }

  /** Right after the step was abandoned its terminal event is not written. */
  lemma {:induction false} LeftUnannounced(pf: Platform, c: Cluster, l: Late)
    requires SeatsOwned(c) && LateOk(pf, l) && AppendsEvent(l) && Prompt(c, l) && Announces(l)
    ensures var id := l.session.work.todo.id; Unannounced(c, l.run, id, l.session.work.mem.results[id].status)
  {
    hide SessionOk, AuditOk, WellFormed, Explained, TurnsOk, MemoryAhead, PlanAhead, Enabled, InMemoryWellFormed;
    WorkFacts(pf, View(l.session, l.files));
  }

  lemma {:induction false} EventKeepsFiles(pf: Platform, f: RunFiles, e: Event)
    requires FilesOk(pf, f) && f.disk.Some?
    requires TerminalEvent(e) ==> Announced(f.disk.value, e.id, e.status) && NoTerminalEvent(f.events, e.id)
    ensures FilesOk(pf, f.(events := f.events + [e]))
  {
    hide GoodSnapshot, Stable, SavedMonotone, PlanMonotone;
    AppendOnDisk(f.events, e, f.disk.value);
    if TerminalEvent(e) {
      AnnounceOnce(f.events, e.id, e.status);
    }
    assert EventsOnce(f.events + [e]);
  }

  lemma {:induction false} EventKeepsSession(pf: Platform, v: View, e: Event)
    requires SessionOk(pf, v) && v.files.disk.Some? && FilesOk(pf, v.files.(events := v.files.events + [e]))
    requires TerminalEvent(e) ==> Silent(v.session, e.id)
    ensures SessionOk(pf, View(v.session, v.files.(events := v.files.events + [e])))
  {
    hide FilesOk;
    if v.session.Working? {
      hide WorkOk;
      EventKeeps(pf, v.session.work, v.files, e);
    }
  }

  lemma {:induction false} SnapshotStays(pf: Platform, c: Cluster, moves: seq<Move>, c': Cluster, run: string)
    requires ValidPlatform(pf) && InOrder(pf, c) && Leads(pf, c, moves, c') && FilesOf(c, run).disk.Some?
    ensures FilesOf(c', run).disk.Some?
  {
    OrderedRun(pf, c, run);
    OrderedMoves(pf, c, moves, c');
    OrderedRun(pf, c', run);
    HistoryGrows(pf, c, moves, c', run);
    hide InOrder, Leads, FilesOf, GoodSnapshot, Stable;
  }

  /** An event of an abandoned step is in order whenever it lands: nobody else can
      announce the item, and its result stays on disk. */
  lemma {:induction false} LateEventsHarmless(pf: Platform, c: Cluster, l: Late, moves: seq<Move>, c': Cluster)
    requires ValidPlatform(pf) && InOrder(pf, c) && LateOk(pf, l) && AppendsEvent(l) && Prompt(c, l)
    requires Leads(pf, c, moves, c')
    ensures CanLand(pf, FilesOf(c', l.run), l) && InOrder(pf, Landed(pf, c', l))
  {
    SnapshotStays(pf, c, moves, c', l.run);
    EventLands(pf, c', l);
    OrderedMoves(pf, c, moves, c');
    OrderedRun(pf, c', l.run);
    var e, f := EventOf(l), FilesOf(c', l.run);
    if Announces(l) {
      LeftUnannounced(pf, c, l);
      UnannouncedMoves(pf, c, moves, c', l.run, e.id, e.status);
    }
    assert TerminalEvent(e) ==> Unannounced(c', l.run, e.id, e.status);
    hide LateOk, CanLand, FilesAfter, Leads, FilesOk, SessionOk, NoTerminalEvent, Announced, Silent, ValidPlatform,
      EventOf;
    EventKeepsFiles(pf, f, e);
    var c1 := Landed(pf, c', l);
    assert c1.runs[l.run] == FilesOf(c1, l.run);
    forall p | p in c'.seats && c'.seats[p].run == l.run
      ensures SessionOk(pf, View(c'.seats[p].session, c1.runs[l.run]))
    {
      assert SessionOk(pf, ViewOf(c', p));
      EventKeepsSession(pf, ViewOf(c', p), e);
    }
    hide InOrder;
    OrderedWith(pf, c', c1, l.run);
  }

  // A creation that was abandoned after its directory was made.

  ghost predicate HalfCreated(c: Cluster, l: Late) {
    && FilesOf(c, l.run) == l.files && l.files.directory && l.files.disk.None?
    && forall p | p in c.seats && c.seats[p].run == l.run :: c.seats[p].session.Entered?
  }

  lemma {:induction false} NothingToDo(pf: Platform, f: RunFiles, session: Session, a: Action)
    requires f.directory && f.disk.None? && session.Entered?
    ensures !Enabled(pf, a, View(session, f))
  {
  }

  lemma {:induction false} HalfCreatedMove(pf: Platform, c: Cluster, m: Move, l: Late)
    requires HalfCreated(c, l) && Possible(pf, c, m)
    ensures HalfCreated(Moved(pf, c, m), l)
  {
    if m.Act? {
      if c.seats[m.p].run == l.run {
        NothingToDo(pf, l.files, c.seats[m.p].session, m.action);
      } else {
        hide Enabled, Apply, InMemoryWellFormed, ProjectsAfter;
        assert FilesOf(Moved(pf, c, m), l.run) == FilesOf(c, l.run);
      }
    }
  }

  lemma {:induction false} HalfCreatedMoves(pf: Platform, c: Cluster, moves: seq<Move>, c': Cluster, l: Late)
    requires HalfCreated(c, l) && Leads(pf, c, moves, c')
    ensures HalfCreated(c', l)
    decreases |moves|
  {
    if moves != [] {
      hide Possible, Moved, HalfCreated;
      HalfCreatedMove(pf, c, moves[0], l);
      HalfCreatedMoves(pf, Moved(pf, c, moves[0]), moves[1..], c', l);
    }
  }

  lemma {:induction false} FirstLands(pf: Platform, c: Cluster, l: Late)
    requires ValidPlatform(pf) && LateOk(pf, l) && l.step.WriteFirst? && FilesOf(c, l.run) == l.files
    ensures CanLand(pf, FilesOf(c, l.run), l) && FilesOk(pf, FilesOf(Landed(pf, c, l), l.run))
    ensures l.files.directory && l.files.disk.None?
  {
    var v := View(l.session, l.files);
    StepWriteFirst(pf, v);
    SessionFiles(pf, Apply(pf, l.step, v));
    assert FilesOf(Landed(pf, c, l), l.run) == Apply(pf, l.step, v).files;
    hide AuditOk, FilesOk, Apply;
  }

  /** The first snapshot of an abandoned creation is in order whenever it lands:
      until then nobody can do anything with the directory. */
  lemma {:induction false} LateCreationHarmless(pf: Platform, c: Cluster, l: Late, moves: seq<Move>, c': Cluster)
    requires ValidPlatform(pf) && InOrder(pf, c) && LateOk(pf, l) && l.step.WriteFirst? && Prompt(c, l)
    requires Leads(pf, c, moves, c')
    ensures CanLand(pf, FilesOf(c', l.run), l) && InOrder(pf, Landed(pf, c', l))
  {
    FirstLands(pf, c, l);
    assert HalfCreated(c, l) by {
      forall p | p in c.seats ensures c.seats[p].run != l.run {
      }
    }
    HalfCreatedMoves(pf, c, moves, c', l);
    OrderedMoves(pf, c, moves, c');
    FirstLands(pf, c', l);
    hide LateOk, CanLand, FilesAfter, Leads, FilesOk, ValidPlatform, InOrder;
    var c1 := Landed(pf, c', l);
    assert c1.runs[l.run] == FilesOf(c1, l.run);
    forall p | p in c'.seats && c'.seats[p].run == l.run
      ensures SessionOk(pf, View(c'.seats[p].session, c1.runs[l.run]))
    {
      EnteredOk(pf, c1.runs[l.run], c'.seats[p].session.limit);
    }
    OrderedWith(pf, c', c1, l.run);
  }
}
