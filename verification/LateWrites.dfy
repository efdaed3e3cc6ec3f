// Writes that outlive the lease they were made under.  The store writes in a
// thread that a cancelled command does not wait for (json_store.py:41-84): the
// command unwinds and gives up its run lease, and the write lands later, or
// never if the process ends first.

module LateWrites {
  import opened Domain
  import opened Traces
  import opened Progress
  import opened Rules
  import opened Redaction
  import opened Process
  import opened Safety
  import opened Approvals
  import opened Cluster
  import opened ClusterSafety

  /** A step that writes to the run directory in a thread, the session it was a
      step of, and the directory as it was when the session ended. */
  datatype Late = Late(run: string, step: Action, session: Session, files: RunFiles)

  datatype Wide = Wide(cluster: Cluster, late: set<Late>)

  datatype WideMove = Usual(move: Move) | Abandon(p: nat, step: Action) | Land(write: Late)

  predicate InThread(a: Action) {
    a.WriteFirst? || a.SaveState? || a.AnnounceResult? || a.Note?
  }

  /** The directory in which the write lands is one that its step could meet. */
  ghost predicate CanLand(pf: Platform, f: RunFiles, l: Late) {
    Enabled(pf, l.step, View(l.session, f)) && InMemoryWellFormed(View(l.session, f))
  }

  ghost function FilesAfter(pf: Platform, l: Late, f: RunFiles): RunFiles
    requires CanLand(pf, f, l)
  {
    Apply(pf, l.step, View(l.session, f)).files
  }

  /** The cluster once the write has landed, whoever holds the run by now. */
  ghost function Landed(pf: Platform, c: Cluster, l: Late): Cluster
    requires CanLand(pf, FilesOf(c, l.run), l)
  {
    c.(runs := c.runs[l.run := FilesAfter(pf, l, FilesOf(c, l.run))])
  }

  ghost predicate WidePossible(pf: Platform, w: Wide, m: WideMove) {
    match m
    case Usual(move) => Possible(pf, w.cluster, move)
    case Abandon(p, a) =>
      && p in w.cluster.seats && InThread(a)
      && Enabled(pf, a, ViewOf(w.cluster, p)) && InMemoryWellFormed(ViewOf(w.cluster, p))
    case Land(l) => l in w.late && CanLand(pf, FilesOf(w.cluster, l.run), l)
  }

  ghost function WideMoved(pf: Platform, w: Wide, m: WideMove): Wide
    requires WidePossible(pf, w, m)
  {
    match m
    case Usual(move) => w.(cluster := Moved(pf, w.cluster, move))
    case Abandon(p, a) =>
      var seat := w.cluster.seats[p];
      Wide(Moved(pf, w.cluster, Vanish(p)), w.late + {Late(seat.run, a, seat.session, FilesOf(w.cluster, seat.run))})
    case Land(l) => Wide(Landed(pf, w.cluster, l), w.late - {l})
  }

  // ----- writes that land promptly -----

  /** Nobody holds the run and its directory is as it was left. */
  predicate Prompt(c: Cluster, l: Late) {
    l.run !in c.runOwner && FilesOf(c, l.run) == l.files
  }

  ghost predicate LandsPromptly(w: Wide, m: WideMove) {
    m.Land? ==> Prompt(w.cluster, m.write)
  }

  ghost function PromptMover(pf: Platform): (WideMove, Wide) -> Option<Wide> {
    (m: WideMove, w: Wide) =>
      if WidePossible(pf, w, m) && LandsPromptly(w, m) then Some(WideMoved(pf, w, m)) else None
  }

  /** The abandoned session was in order. */
  ghost predicate LateOk(pf: Platform, l: Late) {
    && InThread(l.step) && CanLand(pf, l.files, l)
    && SessionOk(pf, View(l.session, l.files)) && AuditOk(pf, View(l.session, l.files))
  }

  ghost predicate WideOk(pf: Platform, w: Wide) {
    ClusterOk(pf, w.cluster) && forall l | l in w.late :: LateOk(pf, l)
  }

  lemma {:induction false} AbandonKeeps(pf: Platform, w: Wide, p: nat, a: Action)
    requires WideOk(pf, w) && WidePossible(pf, w, Abandon(p, a))
    ensures WideOk(pf, WideMoved(pf, w, Abandon(p, a)))
  {
    hide SessionOk, AuditOk, Enabled, InMemoryWellFormed;
    VanishKeeps(pf, w.cluster, p);
    assert SessionOk(pf, ViewOf(w.cluster, p)) && AuditOk(pf, ViewOf(w.cluster, p));
    hide ClusterOk, Moved;
  }

  lemma {:induction false} LandedInOrder(pf: Platform, l: Late)
    requires ValidPlatform(pf) && Injective(pf) && LateOk(pf, l)
    ensures var f := FilesAfter(pf, l, l.files);
            SessionOk(pf, View(Away, f)) && AuditOk(pf, View(Away, f)) && l.files.saved <= f.saved
  {
    var v := View(l.session, l.files);
    hide SessionOk, AuditOk, Enabled, Apply, InMemoryWellFormed, ValidPlatform;
    StepKeeps(pf, l.step, v);
    AuditKeeps(pf, l.step, v);
    ActionFrame(pf, l.step, v);
    AwayOk(pf, Apply(pf, l.step, v));
  }

  /** Landing promptly is the step that was abandoned, taken a little later. */
  lemma {:induction false} PromptKeeps(pf: Platform, c: Cluster, l: Late)
    requires ValidPlatform(pf) && Injective(pf) && ClusterOk(pf, c) && LateOk(pf, l) && Prompt(c, l)
    ensures CanLand(pf, FilesOf(c, l.run), l) && ClusterOk(pf, Landed(pf, c, l))
  {
    assert CanLand(pf, FilesOf(c, l.run), l);
    LandedInOrder(pf, l);
    hide CanLand, LateOk, SessionOk, AuditOk, Apply, ValidPlatform, ProjectOf;
    var c' := Landed(pf, c, l);
    OnlyRunChanged(pf, c, c', l.run);
    SeenStays(c, c', l.run);
  }

  lemma {:induction false} OnlyRunChanged(pf: Platform, c: Cluster, c': Cluster, run: string)
    requires SeatsOwned(c) && ProjectsOwned(pf, c) && RunsOk(pf, c) && SessionsOk(pf, c) && run !in c.runOwner
    requires run in c'.runs && c' == c.(runs := c.runs[run := c'.runs[run]])
    requires SessionOk(pf, View(Away, c'.runs[run])) && AuditOk(pf, View(Away, c'.runs[run]))
    ensures SeatsOwned(c') && ProjectsOwned(pf, c') && RunsOk(pf, c') && SessionsOk(pf, c')
  {
    hide SessionOk, AuditOk, ProjectOf;
    forall p | p in c'.seats ensures ViewOf(c', p) == ViewOf(c, p) {
      assert c.seats[p].run != run;
    }
    assert forall p, k :: HoldsProject(pf, c', p, k) <==> HoldsProject(pf, c, p, k);
  }

  lemma {:induction false} SeenStays(c: Cluster, c': Cluster, run: string)
    requires SeenSaved(c) && c'.seen == c.seen && c.runs.Keys <= c'.runs.Keys
    requires forall r | r in c.runs :: FilesOf(c, r).saved <= FilesOf(c', r).saved
    ensures SeenSaved(c')
  {
    forall i | 0 <= i < |c'.seen| ensures c'.seen[i].0 in c'.runs && c'.seen[i].1 in c'.runs[c'.seen[i].0].saved {
      var r, s := c.seen[i].0, c.seen[i].1;
      assert FilesOf(c, r).saved <= FilesOf(c', r).saved;
      var k :| 0 <= k < |c.runs[r].saved| && c.runs[r].saved[k] == s;
      assert c'.runs[r].saved[k] == s;
    }
  }

  lemma {:induction false} PromptMoveKeeps(pf: Platform, w: Wide, m: WideMove)
    requires ValidPlatform(pf) && Injective(pf) && WideOk(pf, w)
    requires WidePossible(pf, w, m) && LandsPromptly(w, m)
    ensures WideOk(pf, WideMoved(pf, w, m))
  {
    hide ClusterOk, LateOk, Possible, Moved, CanLand, Landed, FilesAfter, Enabled, InMemoryWellFormed;
    match m
    case Usual(move) => MoveKeeps(pf, w.cluster, move);
    case Abandon(p, a) => AbandonKeeps(pf, w, p, a);
    case Land(l) => PromptKeeps(pf, w.cluster, l);
  }

  /** As long as abandoned writes land before anybody takes up the run again, the
      cluster stays in order through any interleaving: all that holds of every
      reachable cluster holds with them. */
  lemma {:induction false} PromptWritesKeepOrder(pf: Platform, w: Wide, moves: seq<WideMove>, w': Wide)
    requires ValidPlatform(pf) && Injective(pf) && WideOk(pf, w) && Exec(PromptMover(pf), moves, w) == Some(w')
    ensures WideOk(pf, w')
    decreases |moves|
  {
    if moves != [] {
      hide WidePossible, WideMoved, WideOk, LandsPromptly;
      PromptMoveKeeps(pf, w, moves[0]);
      PromptWritesKeepOrder(pf, WideMoved(pf, w, moves[0]), moves[1..], w');
    }
  }

  // ----- saves that land late -----

  /** The part of the invariant that is about results and plans. */
  ghost predicate InOrder(pf: Platform, c: Cluster) {
    && SeatsOwned(c)
    && (forall run | run in c.runs :: FilesOk(pf, c.runs[run]))
    && (forall p | p in c.seats :: SessionOk(pf, ViewOf(c, p)))
  }

  lemma {:induction false} OrderedRun(pf: Platform, c: Cluster, run: string)
    requires InOrder(pf, c)
    ensures FilesOk(pf, FilesOf(c, run))
  {
    if run !in c.runs {
      NoRunOk(pf);
    }
  }

  lemma {:induction false} OrderedAct(pf: Platform, c: Cluster, p: nat, a: Action)
    requires ValidPlatform(pf) && InOrder(pf, c) && Possible(pf, c, Act(p, a))
    ensures InOrder(pf, Moved(pf, c, Act(p, a)))
  {
    hide SessionOk, Enabled, Apply, InMemoryWellFormed, FilesOk, ValidPlatform;
    var v, c' := ViewOf(c, p), Moved(pf, c, Act(p, a));
    StepKeeps(pf, a, v);
    SessionFiles(pf, Apply(pf, a, v));
    forall q | q in c'.seats && q != p ensures ViewOf(c', q) == ViewOf(c, q) {
      assert c.seats[q].run != c.seats[p].run;
    }
    assert ViewOf(c', p) == Apply(pf, a, v);
  }

  lemma {:induction false} SessionFiles(pf: Platform, v: View)
    requires SessionOk(pf, v)
    ensures FilesOk(pf, v.files)
  {
    hide FilesOk;
  }

  lemma {:induction false} EnteredOk(pf: Platform, f: RunFiles, limit: nat)
    requires FilesOk(pf, f)
    ensures SessionOk(pf, View(Entered(limit), f))
  {
    hide FilesOk;
  }

  lemma {:induction false} OrderedEnter(pf: Platform, c: Cluster, p: nat, run: string, limit: nat)
    requires InOrder(pf, c) && Possible(pf, c, Enter(p, run, limit))
    ensures InOrder(pf, Moved(pf, c, Enter(p, run, limit)))
  {
    hide SessionOk, FilesOk;
    OrderedRun(pf, c, run);
    EnteredOk(pf, FilesOf(c, run), limit);
    var c' := Moved(pf, c, Enter(p, run, limit));
    assert forall q | q in c.seats :: ViewOf(c', q) == ViewOf(c, q);
  }

  lemma {:induction false} OrderedVanish(pf: Platform, c: Cluster, p: nat)
    requires InOrder(pf, c) && Possible(pf, c, Vanish(p))
    ensures InOrder(pf, Moved(pf, c, Vanish(p)))
  {
    hide SessionOk, FilesOk;
    var c' := Moved(pf, c, Vanish(p));
    assert forall q | q in c'.seats :: ViewOf(c', q) == ViewOf(c, q);
  }

  lemma {:induction false} OrderedRead(pf: Platform, c: Cluster, run: string)
    requires InOrder(pf, c) && Possible(pf, c, ReadStatus(run))
    ensures InOrder(pf, Moved(pf, c, ReadStatus(run)))
  {
    hide SessionOk, FilesOk;
    var c' := Moved(pf, c, ReadStatus(run));
    assert forall q | q in c'.seats :: ViewOf(c', q) == ViewOf(c, q);
  }

  lemma {:induction false} OrderedMove(pf: Platform, c: Cluster, m: Move)
    requires ValidPlatform(pf) && InOrder(pf, c) && Possible(pf, c, m)
    ensures InOrder(pf, Moved(pf, c, m))
  {
    hide Possible, Moved, InOrder;
    match m
    case Enter(p, run, limit) => OrderedEnter(pf, c, p, run, limit);
    case Act(p, a) => OrderedAct(pf, c, p, a);
    case Vanish(p) => OrderedVanish(pf, c, p);
    case ReadStatus(run) => OrderedRead(pf, c, run);
  }

  lemma {:induction false} OrderedMoves(pf: Platform, c: Cluster, moves: seq<Move>, c': Cluster)
    requires ValidPlatform(pf) && InOrder(pf, c) && Leads(pf, c, moves, c')
    ensures InOrder(pf, c')
    decreases |moves|
  {
    if moves != [] {
      hide Possible, Moved, InOrder;
      OrderedMove(pf, c, moves[0]);
      OrderedMoves(pf, Moved(pf, c, moves[0]), moves[1..], c');
    }
  }

  /** A save that was abandoned, of a run that has a snapshot. */
  ghost predicate LateSave(pf: Platform, c: Cluster, l: Late) {
    && l.step.SaveState? && l.session.Working? && LateOk(pf, l)
    && FilesOf(c, l.run).disk.Some?
  }

  /** What the late save writes. */
  ghost function Content(pf: Platform, l: Late): Snapshot
    requires l.session.Working?
  {
    Persisted(pf, l.session.work.mem)
  }

  /** The late snapshot has every item and terminal result that is on disk by now,
      and whoever works on the run has every one that the late snapshot has. */
  ghost predicate Current(pf: Platform, c: Cluster, l: Late)
    requires l.session.Working? && FilesOf(c, l.run).disk.Some?
  {
    var disk := FilesOf(c, l.run).disk.value;
    && Preserves(disk, Content(pf, l)) && PlanKept(disk, Content(pf, l))
    && (forall p | p in c.seats && c.seats[p].run == l.run && c.seats[p].session.Working? ::
          Covers(pf, c.seats[p].session.work.mem, Content(pf, l)))
  }

  ghost predicate Covers(pf: Platform, mem: Snapshot, saved: Snapshot) {
    MemoryAhead(pf, mem, saved) && PlanAhead(pf, mem, saved)
  }

  /** Once the write has landed, whatever happens, no snapshot of the run loses an
      item or a terminal result of an earlier one. */
  ghost predicate Harmless(pf: Platform, c: Cluster, l: Late)
    requires CanLand(pf, FilesOf(c, l.run), l)
  {
    forall moves, c' | Leads(pf, Landed(pf, c, l), moves, c') :: KeepsAll(FilesOf(c', l.run).saved)
  }

  ghost predicate KeepsAll(saved: seq<Snapshot>) {
    SavedMonotone(saved) && PlanMonotone(saved)
  }

  lemma {:induction false} SaveLands(pf: Platform, c: Cluster, l: Late)
    requires LateSave(pf, c, l)
    ensures CanLand(pf, FilesOf(c, l.run), l)
    ensures var f, f' := FilesOf(c, l.run), FilesOf(Landed(pf, c, l), l.run);
            f'.disk == Some(Content(pf, l)) && f'.saved == f.saved + [Content(pf, l)]
            && f'.events == f.events && f'.directory == f.directory
    ensures GoodSnapshot(pf, l.session.work.mem)
  {
    hide SessionOk, AuditOk, Persisted, WellFormed, GoodSnapshot;
    WorkFacts(pf, View(l.session, l.files));
  }

  /** A current write leaves the directory and its owner in order. */
  lemma {:induction false} CurrentFiles(pf: Platform, c: Cluster, l: Late)
    requires ValidPlatform(pf) && InOrder(pf, c) && LateSave(pf, c, l) && Current(pf, c, l)
    ensures CanLand(pf, FilesOf(c, l.run), l) && FilesOk(pf, FilesOf(Landed(pf, c, l), l.run))
  {
    SaveLands(pf, c, l);
    OrderedRun(pf, c, l.run);
    hide LateOk, InOrder, Landed, CanLand, GoodSnapshot, Stable, Preserves, PlanKept, ValidPlatform, Persisted,
      EventsOnce, EventsOnDisk, SavedMonotone, PlanMonotone;
    var f, s := FilesOf(c, l.run), Content(pf, l);
    PersistedGood(pf, l.session.work.mem);
    SavedGrows(f.saved, s);
    PlanGrows(f.saved, s);
    EventsStay(f.events, f.disk.value, s);
  }

  lemma {:induction false} CurrentOwner(pf: Platform, v: View, v': View)
    requires SessionOk(pf, v) && FilesOk(pf, v'.files) && v'.session == v.session
    requires v.files.disk.Some? && v'.files.disk.Some? && v'.files.events == v.files.events
    requires Preserves(v.files.disk.value, v'.files.disk.value)
    requires v.session.Working? ==> Covers(pf, v.session.work.mem, v'.files.disk.value)
    ensures SessionOk(pf, v')
  {
    hide FilesOk, GoodSnapshot, MemoryAhead, PlanAhead, TurnsOk, NoTerminalEvent;
    if v.session.Working? && v.session.work.todo.Announce? {
      var id := v.session.work.todo.id;
      if Terminal(v.session.work.mem.results[id].status) {
        assert Announced(v.files.disk.value, id, v.session.work.mem.results[id].status) && IsResolved(v.files.disk.value, id);
      }
    }
  }

  lemma {:induction false} OrderedWith(pf: Platform, c: Cluster, c': Cluster, run: string)
    requires InOrder(pf, c) && run in c'.runs && c' == c.(runs := c.runs[run := c'.runs[run]])
    requires FilesOk(pf, c'.runs[run])
    requires forall p | p in c.seats && c.seats[p].run == run :: SessionOk(pf, View(c.seats[p].session, c'.runs[run]))
    ensures InOrder(pf, c')
  {
    hide FilesOk, SessionOk;
    forall p | p in c'.seats ensures SessionOk(pf, ViewOf(c', p)) {
      assert SessionOk(pf, ViewOf(c, p));
    }
  }

  lemma {:induction false} CurrentSeat(pf: Platform, c: Cluster, l: Late, p: nat)
    requires ValidPlatform(pf) && InOrder(pf, c) && LateSave(pf, c, l) && Current(pf, c, l)
    requires p in c.seats && c.seats[p].run == l.run
    ensures CanLand(pf, FilesOf(c, l.run), l)
    ensures SessionOk(pf, View(c.seats[p].session, FilesOf(Landed(pf, c, l), l.run)))
  {
    SaveLands(pf, c, l);
    CurrentFiles(pf, c, l);
    hide LateOk, CanLand, Landed, FilesOk, SessionOk, Preserves, PlanKept, Covers, ValidPlatform, Content;
    assert SessionOk(pf, ViewOf(c, p));
    CurrentOwner(pf, ViewOf(c, p), View(c.seats[p].session, FilesOf(Landed(pf, c, l), l.run)));
  }

  lemma {:induction false} CurrentOrder(pf: Platform, c: Cluster, l: Late)
    requires ValidPlatform(pf) && InOrder(pf, c) && LateSave(pf, c, l) && Current(pf, c, l)
    ensures CanLand(pf, FilesOf(c, l.run), l) && InOrder(pf, Landed(pf, c, l))
  {
    CurrentFiles(pf, c, l);
    hide LateOk, LateSave, Current, CanLand, FilesAfter, FilesOk, SessionOk, InOrder, ValidPlatform;
    var c' := Landed(pf, c, l);
    assert c'.runs[l.run] == FilesOf(c', l.run);
    forall p | p in c.seats && c.seats[p].run == l.run ensures SessionOk(pf, View(c.seats[p].session, c'.runs[l.run])) {
      CurrentSeat(pf, c, l, p);
    }
    OrderedWith(pf, c, c', l.run);
  }

  lemma {:induction false} OrderKeepsAll(pf: Platform, c: Cluster, run: string)
    requires InOrder(pf, c) && FilesOf(c, run).disk.Some?
    ensures KeepsAll(FilesOf(c, run).saved)
  {
    OrderedRun(pf, c, run);
    hide GoodSnapshot, Stable, EventsOnDisk, EventsOnce, SavedMonotone, PlanMonotone;
  }

  lemma {:induction false} OrderKeepsSome(pf: Platform, c: Cluster, run: string)
    requires InOrder(pf, c)
    ensures KeepsAll(FilesOf(c, run).saved)
  {
    if FilesOf(c, run).disk.Some? {
      OrderKeepsAll(pf, c, run);
    } else {
      OrderedRun(pf, c, run);
      assert FilesOf(c, run).saved == [];
    }
  }

  lemma {:induction false} CurrentIsHarmless(pf: Platform, c: Cluster, l: Late)
    requires ValidPlatform(pf) && InOrder(pf, c) && LateSave(pf, c, l) && Current(pf, c, l)
    ensures CanLand(pf, FilesOf(c, l.run), l) && Harmless(pf, c, l)
  {
    SaveLands(pf, c, l);
    CurrentOrder(pf, c, l);
    hide InOrder, LateOk, LateSave, Current, Leads, Landed, CanLand, KeepsAll, ValidPlatform, FilesOf;
    forall moves, c' | Leads(pf, Landed(pf, c, l), moves, c') ensures KeepsAll(FilesOf(c', l.run).saved) {
      OrderedMoves(pf, Landed(pf, c, l), moves, c');
      OrderKeepsSome(pf, c', l.run);
    }
  }

  // ----- and why nothing less will do -----

  lemma {:induction false} NotKept(saved: seq<Snapshot>, i: nat)
    requires i + 1 < |saved| && !(Preserves(saved[i], saved[i + 1]) && PlanKept(saved[i], saved[i + 1]))
    ensures !KeepsAll(saved)
  {
  }

  lemma {:induction false} NotCovered(pf: Platform, mem: Snapshot, saved: Snapshot)
    requires !Covers(pf, mem, saved)
    ensures !(Preserves(saved, Persisted(pf, mem)) && PlanKept(saved, Persisted(pf, mem)))
  {
    var s := Persisted(pf, mem);
    if !MemoryAhead(pf, mem, saved) {
      var id :| IsResolved(saved, id) && !(id in mem.results && SavedAs(pf, mem.results[id], saved.results[id]));
      assert id in s.results ==> s.results[id] == RedactResult(pf, mem.results[id]);
      assert !Preserves(saved, s);
    } else {
      var id :| id in saved.workItems && !(id in mem.workItems && ItemSavedAs(pf, mem.workItems[id], saved.workItems[id]));
      assert id in s.workItems ==> s.workItems[id] == RedactItem(pf, mem.workItems[id]);
      assert !PlanKept(saved, s);
    }
  }

  /** A working process that can reach its next save. */
  ghost predicate CanSave(c: Cluster, p: nat) {
    && p in c.seats && c.seats[p].session.Working? && FilesOf(c, c.seats[p].run).disk.Some?
    && WellFormed(c.seats[p].session.work.mem)
    && (c.seats[p].session.work.todo.Announce? ==> c.seats[p].session.work.todo.id in c.seats[p].session.work.mem.results)
  }

  lemma {:induction false} OneMove(pf: Platform, c: Cluster, m: Move, moves: seq<Move>, c': Cluster)
    requires Possible(pf, c, m) && Leads(pf, Moved(pf, c, m), moves, c')
    ensures Leads(pf, c, [m] + moves, c')
  {
    hide Possible, Moved;
    assert ([m] + moves)[1..] == moves;
  }

  lemma {:induction false} SavesNow(pf: Platform, c: Cluster, p: nat)
    requires CanSave(c, p) && c.seats[p].session.work.flight == {} && !c.seats[p].session.work.todo.Announce?
    ensures Possible(pf, c, Act(p, SaveState))
    ensures FilesOf(Moved(pf, c, Act(p, SaveState)), c.seats[p].run).saved ==
              FilesOf(c, c.seats[p].run).saved + [Persisted(pf, c.seats[p].session.work.mem)]
  {
    hide Persisted, WellFormed;
  }

  lemma {:induction false} AnnouncesNow(pf: Platform, c: Cluster, p: nat)
    requires CanSave(c, p) && c.seats[p].session.work.flight == {} && c.seats[p].session.work.todo.Announce?
    ensures Possible(pf, c, Act(p, AnnounceResult))
    ensures var c' := Moved(pf, c, Act(p, AnnounceResult));
            && CanSave(c', p) && c'.seats[p].run == c.seats[p].run
            && c'.seats[p].session == Working(c.seats[p].session.work.(todo := Nothing))
            && FilesOf(c', c.seats[p].run).saved == FilesOf(c, c.seats[p].run).saved
  {
    hide WellFormed;
  }

  lemma {:induction false} ReturnsNow(pf: Platform, c: Cluster, p: nat, id: string)
    requires CanSave(c, p) && id in c.seats[p].session.work.flight
    ensures var a := Return(id, FailureResult(id, WorkStatus.Failed, ""));
            && Possible(pf, c, Act(p, a))
            && var c' := Moved(pf, c, Act(p, a));
               && CanSave(c', p) && c'.seats[p].run == c.seats[p].run
               && c'.seats[p].session ==
                    Working(AfterReturn(c.seats[p].session.work, id, FailureResult(id, WorkStatus.Failed, "")))
               && FilesOf(c', c.seats[p].run).saved == FilesOf(c, c.seats[p].run).saved
  {
    hide WellFormed;
  }

  /** A working process can always come to save what it has in memory. */
  lemma {:induction false} ComesToSave(pf: Platform, c: Cluster, p: nat) returns (moves: seq<Move>, c': Cluster)
    requires CanSave(c, p)
    ensures Leads(pf, c, moves, c')
    ensures FilesOf(c', c.seats[p].run).saved ==
              FilesOf(c, c.seats[p].run).saved + [Persisted(pf, c.seats[p].session.work.mem)]
    decreases |c.seats[p].session.work.flight|
  {
    var w := c.seats[p].session.work;
    hide *;
    if w.flight != {} {
      var id :| id in w.flight;
      var a := Act(p, Return(id, FailureResult(id, WorkStatus.Failed, "")));
      ReturnsNow(pf, c, p, id);
      OneLess(w, id, FailureResult(id, WorkStatus.Failed, ""));
      moves, c' := ComesToSave(pf, Moved(pf, c, a), p);
      OneMove(pf, c, a, moves, c');
      moves := [a] + moves;
    } else {
      NoMoves(pf, c);
      moves, c' := [], c;
      if w.todo.Announce? {
        AnnouncesNow(pf, c, p);
        c' := Moved(pf, c, Act(p, AnnounceResult));
        NoMoves(pf, c');
        OneMove(pf, c, Act(p, AnnounceResult), [], c');
        moves := [Act(p, AnnounceResult)] + [];
      }
      SavesNow(pf, c', p);
      var last := Moved(pf, c', Act(p, SaveState));
      NoMoves(pf, last);
      OneMove(pf, c', Act(p, SaveState), [], last);
      LeadsOn(pf, c, moves, c', [Act(p, SaveState)] + [], last);
      moves, c' := moves + ([Act(p, SaveState)] + []), last;
    }
  }

  lemma {:induction false} OneLess(w: Work, id: string, r: WorkResult)
    requires id in w.flight
    ensures |AfterReturn(w, id, r).flight| < |w.flight| && AfterReturn(w, id, r).mem == w.mem
  {
  }

  lemma {:induction false} NoMoves(pf: Platform, c: Cluster)
    ensures Leads(pf, c, [], c)
  {
  }

  lemma {:induction false} LeadsOn(pf: Platform, c: Cluster, first: seq<Move>, mid: Cluster, second: seq<Move>,
                                   c': Cluster)
    requires Leads(pf, c, first, mid) && Leads(pf, mid, second, c')
    ensures Leads(pf, c, first + second, c')
  {
    ExecAppend(Mover(pf), first, second, c);
  }

  lemma {:induction false} LastOnDisk(pf: Platform, f: RunFiles)
    requires FilesOk(pf, f) && f.disk.Some?
    ensures f.saved != [] && f.saved[|f.saved| - 1] == f.disk.value
  {
    hide GoodSnapshot, Stable, EventsOnDisk, EventsOnce, SavedMonotone, PlanMonotone;
  }

  lemma {:induction false} StaleDisk(pf: Platform, c: Cluster, l: Late)
    requires InOrder(pf, c) && LateSave(pf, c, l)
    requires var d := FilesOf(c, l.run).disk.value; !(Preserves(d, Content(pf, l)) && PlanKept(d, Content(pf, l)))
    ensures CanLand(pf, FilesOf(c, l.run), l) && !Harmless(pf, c, l)
  {
    hide *;
    LateWorks(pf, c, l);
    SaveLands(pf, c, l);
    OrderedRun(pf, c, l.run);
    LastOnDisk(pf, FilesOf(c, l.run));
    var c', f := Landed(pf, c, l), FilesOf(c, l.run);
    assert f.saved + [Content(pf, l)] == FilesOf(c', l.run).saved;
    NotKept(FilesOf(c', l.run).saved, |f.saved| - 1);
    NoMoves(pf, c');
    WitnessesHarm(pf, c, l, [], c');
  }

  lemma {:induction false} StillSaves(pf: Platform, c: Cluster, l: Late, p: nat)
    requires InOrder(pf, c) && LateSave(pf, c, l) && p in c.seats && c.seats[p].run == l.run
    requires c.seats[p].session.Working?
    ensures CanLand(pf, FilesOf(c, l.run), l) && CanSave(Landed(pf, c, l), p)
  {
    SaveLands(pf, c, l);
    assert SessionOk(pf, ViewOf(c, p));
    hide InOrder, LateOk, CanLand, FilesAfter, Content, SessionOk, WellFormed, Explained, TurnsOk, MemoryAhead,
      PlanAhead;
    WorkFacts(pf, ViewOf(c, p));
  }

  lemma {:induction false} LateWorks(pf: Platform, c: Cluster, l: Late)
    requires LateSave(pf, c, l)
    ensures l.session.Working? && FilesOf(c, l.run).disk.Some?
  {
    hide LateOk;
  }

  lemma {:induction false} LandingSeats(pf: Platform, c: Cluster, l: Late)
    requires CanLand(pf, FilesOf(c, l.run), l)
    ensures Landed(pf, c, l).seats == c.seats
  {
    hide CanLand, FilesAfter;
  }

  lemma {:induction false} StaleMemory(pf: Platform, c: Cluster, l: Late, p: nat)
    requires InOrder(pf, c) && LateSave(pf, c, l) && p in c.seats && c.seats[p].run == l.run
    requires c.seats[p].session.Working?
    requires !Covers(pf, c.seats[p].session.work.mem, Content(pf, l))
    ensures CanLand(pf, FilesOf(c, l.run), l) && !Harmless(pf, c, l)
  {
    hide *;
    LateWorks(pf, c, l);
    SaveLands(pf, c, l);
    StillSaves(pf, c, l, p);
    LandingSeats(pf, c, l);
    var c1, s, mem := Landed(pf, c, l), Content(pf, l), c.seats[p].session.work.mem;
    var saved := FilesOf(c1, l.run).saved;
    var moves, c' := ComesToSave(pf, c1, p);
    NotCovered(pf, mem, s);
    NotKept(saved + [Persisted(pf, mem)], |saved| - 1);
    WitnessesHarm(pf, c, l, moves, c');
  }

  lemma {:induction false} WitnessesHarm(pf: Platform, c: Cluster, l: Late, moves: seq<Move>, c': Cluster)
    requires CanLand(pf, FilesOf(c, l.run), l) && Leads(pf, Landed(pf, c, l), moves, c')
    requires !KeepsAll(FilesOf(c', l.run).saved)
    ensures !Harmless(pf, c, l)
  {
    hide CanLand, Landed, Leads, KeepsAll, FilesOf;
  }

  /** A save that lands after its lease was given up is harmless whatever happens
      next exactly if it is current: it brings back nothing older than what is on
      disk, and the process that works on the run by then, if there is one, has
      everything that it brings. */
  lemma {:induction false} HarmlessExactly(pf: Platform, c: Cluster, l: Late)
    requires ValidPlatform(pf) && InOrder(pf, c) && LateSave(pf, c, l)
    ensures CanLand(pf, FilesOf(c, l.run), l)
    ensures Harmless(pf, c, l) <==> Current(pf, c, l)
  {
    SaveLands(pf, c, l);
    hide InOrder, LateOk, Harmless, CanLand, Landed, Preserves, PlanKept, Covers, Content, ValidPlatform;
    if Current(pf, c, l) {
      CurrentIsHarmless(pf, c, l);
    } else if p :| p in c.seats && c.seats[p].run == l.run && c.seats[p].session.Working?
                   && !Covers(pf, c.seats[p].session.work.mem, Content(pf, l)) {
      StaleMemory(pf, c, l, p);
    } else {
      StaleDisk(pf, c, l);
    }
  }

  /** A prompt save is current. */
  lemma {:induction false} PromptIsCurrent(pf: Platform, c: Cluster, l: Late)
    requires SeatsOwned(c) && LateSave(pf, c, l) && Prompt(c, l)
    ensures Current(pf, c, l)
  {
    hide SessionOk, AuditOk, Enabled, Persisted, WellFormed, Explained, TurnsOk, TodoOk, MemoryAhead, PlanAhead,
      Preserves, PlanKept, Covers;
    WorkFacts(pf, View(l.session, l.files));
    SavePreserves(pf, l.session.work.mem, l.files.disk.value);
    SaveKeepsPlan(pf, l.session.work.mem, l.files.disk.value);
  }
}
