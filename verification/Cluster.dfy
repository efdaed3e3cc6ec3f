// Any number of processes, each working on at most one run, with kernel leases
// on runs and on physical projects.  A process may vanish at any moment; that
// covers a crash, an error that unwinds the command, and its normal return, as
// long as no file operation outlives the command: LateWrites adds those.

module Cluster {
  import opened Domain
  import opened Traces
  import opened Redaction
  import opened Process
  import opened Safety
  import opened Approvals

  datatype Seat = Seat(run: string, session: Session)

  /** seen records what every unleased status command read. */
  datatype Cluster = Cluster(
    seats: map<nat, Seat>,
    runOwner: map<string, nat>,
    projectOwner: map<string, nat>,
    runs: map<string, RunFiles>,
    seen: seq<(string, Snapshot)>)

  const START := Cluster(map[], map[], map[], map[], [])

  datatype Move =
    | Enter(p: nat, run: string, limit: nat)
    | Act(p: nat, action: Action)
    | Vanish(p: nat)
    | ReadStatus(run: string)

  function FilesOf(c: Cluster, run: string): RunFiles {
    if run in c.runs then c.runs[run] else NO_RUN
  }

  function ViewOf(c: Cluster, p: nat): View
    requires p in c.seats
  {
    View(c.seats[p].session, FilesOf(c, c.seats[p].run))
  }

  /** The directory whose lease a working process takes before a writer. */
  function ProjectOf(pf: Platform, session: Session): string
    requires session.Working?
  {
    pf.physical(session.work.mem.objective.projectPath)
  }

  ghost predicate Possible(pf: Platform, c: Cluster, m: Move) {
    match m
    case Enter(p, run, _) => p !in c.seats && run !in c.runOwner
    case Act(p, a) =>
      && p in c.seats && Enabled(pf, a, ViewOf(c, p)) && InMemoryWellFormed(ViewOf(c, p))
      && (a.LeaseProject? ==> ProjectOf(pf, c.seats[p].session) !in c.projectOwner)
      && (a.MakeDirectory? ==> a.first.objective.id == c.seats[p].run)
    case Vanish(p) => p in c.seats
    case ReadStatus(run) => FilesOf(c, run).disk.Some?
  }

  /** The kernel's project leases after an action of p. */
  ghost function ProjectsAfter(pf: Platform, c: Cluster, p: nat, a: Action): map<string, nat>
    requires p in c.seats
  {
    if a.LeaseProject? && c.seats[p].session.Working? then c.projectOwner[ProjectOf(pf, c.seats[p].session) := p]
    else if a.ReleaseProject? && c.seats[p].session.Working? then c.projectOwner - {ProjectOf(pf, c.seats[p].session)}
    else c.projectOwner
  }

  ghost function WithView(c: Cluster, p: nat, v: View): Cluster
    requires p in c.seats
  {
    c.(seats := c.seats[p := Seat(c.seats[p].run, v.session)], runs := c.runs[c.seats[p].run := v.files])
  }

  ghost function Moved(pf: Platform, c: Cluster, m: Move): Cluster
    requires Possible(pf, c, m)
  {
    match m
    case Enter(p, run, limit) =>
      c.(seats := c.seats[p := Seat(run, Entered(limit))], runOwner := c.runOwner[run := p])
    case Act(p, a) =>
      WithView(c, p, Apply(pf, a, ViewOf(c, p))).(projectOwner := ProjectsAfter(pf, c, p, a))
    case Vanish(p) =>
      c.(seats := c.seats - {p}, runOwner := c.runOwner - {c.seats[p].run},
         projectOwner := map k | k in c.projectOwner && c.projectOwner[k] != p :: c.projectOwner[k])
    case ReadStatus(run) => c.(seen := c.seen + [(run, FilesOf(c, run).disk.value)])
  }

  ghost function Mover(pf: Platform): (Move, Cluster) -> Option<Cluster> {
    (m: Move, c: Cluster) => if Possible(pf, c, m) then Some(Moved(pf, c, m)) else None
  }

  // ----- what holds in every reachable cluster -----

  ghost predicate SeatsOwned(c: Cluster) {
    && (forall p | p in c.seats :: c.seats[p].run in c.runOwner && c.runOwner[c.seats[p].run] == p)
    && (forall run | run in c.runOwner :: c.runOwner[run] in c.seats && c.seats[c.runOwner[run]].run == run)
  }

  ghost predicate HoldsProject(pf: Platform, c: Cluster, p: nat, k: string) {
    && p in c.seats && c.seats[p].session.Working? && c.seats[p].session.work.lease
    && ProjectOf(pf, c.seats[p].session) == k
  }

  /** The kernel's project leases are exactly those the processes hold. */
  ghost predicate ProjectsOwned(pf: Platform, c: Cluster) {
    && (forall p | p in c.seats && c.seats[p].session.Working? && c.seats[p].session.work.lease ::
          ProjectOf(pf, c.seats[p].session) in c.projectOwner && c.projectOwner[ProjectOf(pf, c.seats[p].session)] == p)
    && (forall k | k in c.projectOwner :: HoldsProject(pf, c, c.projectOwner[k], k))
  }

  ghost predicate RunsOk(pf: Platform, c: Cluster) {
    forall run | run in c.runs :: SessionOk(pf, View(Away, c.runs[run])) && AuditOk(pf, View(Away, c.runs[run]))
  }

  ghost predicate SessionsOk(pf: Platform, c: Cluster) {
    forall p | p in c.seats :: SessionOk(pf, ViewOf(c, p)) && AuditOk(pf, ViewOf(c, p))
  }

  /** Everything a status command ever read was a whole saved snapshot. */
  ghost predicate SeenSaved(c: Cluster) {
    forall i | 0 <= i < |c.seen| :: c.seen[i].0 in c.runs && c.seen[i].1 in c.runs[c.seen[i].0].saved
  }

  ghost predicate ClusterOk(pf: Platform, c: Cluster) {
    && SeatsOwned(c) && ProjectsOwned(pf, c)
    && RunsOk(pf, c) && SessionsOk(pf, c) && SeenSaved(c)
  }

  // ----- one move keeps all of it -----

  lemma {:induction false} AwayOk(pf: Platform, v: View)
    requires SessionOk(pf, v) && AuditOk(pf, v)
    ensures SessionOk(pf, View(Away, v.files)) && AuditOk(pf, View(Away, v.files))
  {
    hide FilesOk, WorkOk, AuditSound, AllBacked;
  }

  lemma {:induction false} FilesOfOk(pf: Platform, c: Cluster, run: string, limit: nat)
    requires RunsOk(pf, c)
    ensures SessionOk(pf, View(Entered(limit), FilesOf(c, run))) && AuditOk(pf, View(Entered(limit), FilesOf(c, run)))
  {
    hide WorkOk, AllBacked;
  }

  lemma {:induction false} EnterKeeps(pf: Platform, c: Cluster, p: nat, run: string, limit: nat)
    requires ClusterOk(pf, c) && Possible(pf, c, Enter(p, run, limit))
    ensures ClusterOk(pf, Moved(pf, c, Enter(p, run, limit)))
  {
    hide SessionOk, AuditOk;
    FilesOfOk(pf, c, run, limit);
    var c' := Moved(pf, c, Enter(p, run, limit));
    forall q | q in c'.seats ensures SessionOk(pf, ViewOf(c', q)) && AuditOk(pf, ViewOf(c', q)) {
      if q != p {
        assert ViewOf(c', q) == ViewOf(c, q);
      }
    }
    assert ProjectsOwned(pf, c');
  }

  lemma {:induction false} VanishKeeps(pf: Platform, c: Cluster, p: nat)
    requires ClusterOk(pf, c) && Possible(pf, c, Vanish(p))
    ensures ClusterOk(pf, Moved(pf, c, Vanish(p)))
  {
    hide SessionOk, AuditOk;
    var c' := Moved(pf, c, Vanish(p));
    forall q | q in c'.seats ensures SessionOk(pf, ViewOf(c', q)) && AuditOk(pf, ViewOf(c', q)) {
      assert ViewOf(c', q) == ViewOf(c, q);
    }
    assert SeatsOwned(c') && ProjectsOwned(pf, c');
  }

  /** Whether the project lease is held after an action. */
  function LeaseAfter(a: Action, held: bool): bool {
    a.LeaseProject? || (held && !a.ReleaseProject?)
  }

  /** No action changes the objective, and only LeaseProject and ReleaseProject
      change whether the project lease is held. */
  lemma {:induction false} ActionFrame(pf: Platform, a: Action, v: View)
    requires Enabled(pf, a, v) && InMemoryWellFormed(v)
    ensures var v' := Apply(pf, a, v);
            && !v'.session.Away?
            && v.files.saved <= v'.files.saved && v.files.events <= v'.files.events && v.files.audit <= v'.files.audit
            && (v.session.Working? ==>
                  && v'.session.Working? && v'.session.work.mem.objective == v.session.work.mem.objective
                  && v'.session.work.limit == v.session.work.limit
                  && v'.session.work.lease == LeaseAfter(a, v.session.work.lease))
            && (!v.session.Working? && v'.session.Working? ==> !v'.session.work.lease)
  {
  }

  lemma {:induction false} ActProjects(pf: Platform, c: Cluster, p: nat, a: Action)
    requires SeatsOwned(c) && ProjectsOwned(pf, c) && Possible(pf, c, Act(p, a))
    ensures ProjectsOwned(pf, Moved(pf, c, Act(p, a)))
  {
    hide Apply, ApplyWork;
    ActionFrame(pf, a, ViewOf(c, p));
    SeatProjects(pf, c, Moved(pf, c, Act(p, a)), p, a);
  }

  lemma {:induction false} SeatProjects(pf: Platform, c: Cluster, c': Cluster, p: nat, a: Action)
    requires ProjectsOwned(pf, c) && p in c.seats && p in c'.seats
    requires c'.seats == c.seats[p := c'.seats[p]] && c'.projectOwner == ProjectsAfter(pf, c, p, a)
    requires var s, s' := c.seats[p].session, c'.seats[p].session;
             if s.Working?
             then s'.Working? && s'.work.mem.objective == s.work.mem.objective
                  && s'.work.lease == LeaseAfter(a, s.work.lease)
             else s'.Working? ==> !s'.work.lease
    requires a.LeaseProject? ==> c.seats[p].session.Working? && ProjectOf(pf, c.seats[p].session) !in c.projectOwner
    requires a.ReleaseProject? ==> c.seats[p].session.Working? && c.seats[p].session.work.lease
    ensures ProjectsOwned(pf, c')
  {
    forall q | q in c'.seats && c'.seats[q].session.Working? && c'.seats[q].session.work.lease
      ensures var k := ProjectOf(pf, c'.seats[q].session); k in c'.projectOwner && c'.projectOwner[k] == q
    {
      if q != p {
        assert c'.seats[q] == c.seats[q];
      }
    }
    forall k | k in c'.projectOwner ensures HoldsProject(pf, c', c'.projectOwner[k], k) {
      if k in c.projectOwner {
        assert HoldsProject(pf, c, c.projectOwner[k], k);
      }
    }
  }

  lemma {:induction false} ActSessions(pf: Platform, c: Cluster, p: nat, a: Action)
    requires ValidPlatform(pf) && Injective(pf)
    requires ClusterOk(pf, c) && Possible(pf, c, Act(p, a))
    ensures SessionsOk(pf, Moved(pf, c, Act(p, a))) && RunsOk(pf, Moved(pf, c, Act(p, a)))
  {
    hide SessionOk, AuditOk, Enabled, Apply, InMemoryWellFormed;
    var v, c' := ViewOf(c, p), Moved(pf, c, Act(p, a));
    StepKeeps(pf, a, v);
    AuditKeeps(pf, a, v);
    AwayOk(pf, Apply(pf, a, v));
    assert ViewOf(c', p) == Apply(pf, a, v);
    forall q | q in c'.seats && q != p ensures ViewOf(c', q) == ViewOf(c, q) {
      assert c.seats[q].run != c.seats[p].run;
    }
  }

  lemma {:induction false} ActSeen(pf: Platform, c: Cluster, p: nat, a: Action)
    requires SeenSaved(c) && Possible(pf, c, Act(p, a))
    ensures SeenSaved(Moved(pf, c, Act(p, a)))
  {
    ActionFrame(pf, a, ViewOf(c, p));
    hide Enabled, EnabledWork, Apply, ApplyWork;
    var c' := Moved(pf, c, Act(p, a));
    forall i | 0 <= i < |c'.seen| ensures c'.seen[i].0 in c'.runs && c'.seen[i].1 in c'.runs[c'.seen[i].0].saved {
      var run, s := c.seen[i].0, c.seen[i].1;
      var k :| 0 <= k < |c.runs[run].saved| && c.runs[run].saved[k] == s;
      assert c'.runs[run].saved[k] == s;
    }
  }

  lemma {:induction false} ReadKeeps(pf: Platform, c: Cluster, run: string)
    requires ClusterOk(pf, c) && Possible(pf, c, ReadStatus(run))
    ensures ClusterOk(pf, Moved(pf, c, ReadStatus(run)))
  {
    hide SessionOk, AuditOk;
    var c' := Moved(pf, c, ReadStatus(run));
    assert run in c.runs && SessionOk(pf, View(Away, c.runs[run]));
    LastSaved(pf, c.runs[run]);
    assert forall p | p in c'.seats :: ViewOf(c', p) == ViewOf(c, p);
  }

  lemma {:induction false} LastSaved(pf: Platform, f: RunFiles)
    requires SessionOk(pf, View(Away, f)) && f.disk.Some?
    ensures f.disk.value in f.saved
  {
  }

  lemma {:induction false} MoveKeeps(pf: Platform, c: Cluster, m: Move)
    requires ValidPlatform(pf) && Injective(pf) && ClusterOk(pf, c) && Possible(pf, c, m)
    ensures ClusterOk(pf, Moved(pf, c, m))
  {
    match m
    case Enter(p, run, limit) => EnterKeeps(pf, c, p, run, limit);
    case Vanish(p) => VanishKeeps(pf, c, p);
    case ReadStatus(run) => ReadKeeps(pf, c, run);
    case Act(p, a) =>
      ActProjects(pf, c, p, a);
      ActSessions(pf, c, p, a);
      ActSeen(pf, c, p, a);
      hide Enabled, Apply, SessionOk, AuditOk, ProjectsOwned, SessionsOk, RunsOk, SeenSaved;
  }

  /** Every cluster reachable from the empty one, by any interleaving of any
      number of processes with crashes anywhere, is in order. */
  lemma {:induction false} ReachableOk(pf: Platform, c: Cluster, moves: seq<Move>)
    requires ValidPlatform(pf) && Injective(pf) && ClusterOk(pf, c)
    requires Exec(Mover(pf), moves, c).Some?
    ensures ClusterOk(pf, Exec(Mover(pf), moves, c).value)
    decreases |moves|
  {
    hide Possible, Moved, ClusterOk;
    if moves != [] {
      MoveKeeps(pf, c, moves[0]);
      ReachableOk(pf, Moved(pf, c, moves[0]), moves[1..]);
    }
  }

  lemma {:induction false} StartOk(pf: Platform)
    ensures ClusterOk(pf, START)
  {
  }
}
