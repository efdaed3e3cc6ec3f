// Which tracked files of a worktree differ from the index and from HEAD
// (repository.py:826-1155), through descriptors that are all closed again.

module Worktree {
  import opened Domain
  import opened Descriptors
  import opened GitEvidence

  datatype Node = Directory | Regular(executable: bool, content: string) | Symlink(target: string) | Special

  /** The entries below the root directory by their path components. */
  type Tree = map<seq<string>, Node>

  datatype InspectError =
    | UnsafeBoundary
    | Changed
    | SystemFailure
    | WrongBatchSize
    | CleanupFailed

  datatype Status = Entry(node: Node, stamp: int) | Absent | StatusFails

  // ----- what a tracked file should be compared with -----

  /** The proper prefixes of parts, up to n components, are directories. */
  predicate Directories(tree: Tree, parts: seq<string>, n: nat)
    requires n <= |parts|
  {
    forall i | 1 <= i <= n :: parts[..i] in tree && tree[parts[..i]].Directory?
  }

  /** Reaching the entry means going through a link, a device or a socket. */
  predicate Unsafe(tree: Tree, parts: seq<string>) {
    || parts == []
    || exists i | 1 <= i <= |parts| :: Blocks(tree, parts, i)
  }

  predicate Blocks(tree: Tree, parts: seq<string>, i: nat)
    requires 1 <= i <= |parts|
  {
    && Directories(tree, parts, i - 1) && parts[..i] in tree
    && (tree[parts[..i]].Special? || (i < |parts| && tree[parts[..i]].Symlink?))
  }

  function ModeOf(node: Node): string {
    match node
    case Regular(executable, _) => if executable then EXECUTABLE else REGULAR
    case Symlink(_) => SYMLINK
    case _ => ""
  }

  function ContentOf(node: Node): string {
    match node
    case Regular(_, content) => content
    case Symlink(target) => target
    case _ => ""
  }

  predicate LeafPresent(tree: Tree, path: seq<string>, mode: string) {
    && path in tree
    && ((tree[path].Regular? && mode in {REGULAR, EXECUTABLE}) || (tree[path].Symlink? && mode == SYMLINK))
  }

  /** There is a file of the kind that the index mode asks for. */
  predicate Present(tree: Tree, parts: seq<string>, mode: string) {
    parts != [] && Directories(tree, parts, |parts| - 1) && LeafPresent(tree, parts, mode)
  }

  /** The worktree has the mode and the content that the index records. */
  predicate Matches(tree: Tree, hash: (string, string) -> string, algorithm: string, e: IndexEntry) {
    var parts := Parts(e.path);
    && Present(tree, parts, e.mode) && ModeOf(tree[parts]) == e.mode
    && hash(algorithm, ContentOf(tree[parts])) == e.objectId
  }

  // ----- the file system -----

  /** One answer of stat about a name in a directory, or of fstat about an open
      descriptor: its stamp, or that there is nothing. */
  datatype Look = Look(descriptor: nat, name: Option<string>, stamp: Option<int>)

  function Told(r: Status): Option<int> {
    if r.Entry? then Some(r.stamp) else None
  }

  /** A worktree under inspection.  Calls may fail; while frozen holds, those that
      do not fail tell what tree is, and otherwise they tell anything. */
  class World {
    const tree: Tree
    const stamps: seq<string> -> int
    const frozen: bool
    const hash: (string, string) -> string
    const kernel: Kernel
    var at: map<nat, seq<string>>
    ghost var looks: seq<Look>

    ghost predicate Valid()
      reads this, kernel
    {
      && kernel.Valid() && kernel.live <= at.Keys
      && forall d | d in at :: d < kernel.next
    }

    constructor (tree: Tree, stamps: seq<string> -> int, frozen: bool, hash: (string, string) -> string)
      ensures Valid() && fresh(kernel) && kernel.live == {}
      ensures this.tree == tree && this.stamps == stamps && this.frozen == frozen && this.hash == hash
    {
      this.tree, this.stamps, this.frozen, this.hash := tree, stamps, frozen, hash;
      kernel := new Kernel();
      at, looks := map[], [];
    }

    function StatusAt(path: seq<string>): Status {
      if path in tree then Entry(tree[path], stamps(path)) else Absent
    }

    /** os.stat of a name in a directory, without following links. */
    method Stat(dir: nat, name: string) returns (r: Status)
      requires Valid() && dir in kernel.live
      modifies kernel`faults, this`looks
      ensures Valid() && Faulted(r.StatusFails?, old(kernel.faults), kernel.faults)
      ensures looks == old(looks) + (if r.StatusFails? then [] else [Look(dir, Some(name), Told(r))])
      ensures frozen && !r.StatusFails? ==> r == StatusAt(at[dir] + [name])
    {
      var call := kernel.Call();
      if call.Fails? {
        return StatusFails;
      }
      r := *;
      if frozen || r.StatusFails? {
        r := StatusAt(at[dir] + [name]);
      }
      looks := looks + [Look(dir, Some(name), Told(r))];
    }

    /** os.fstat of an open descriptor. */
    method StatOpen(d: nat) returns (r: Status)
      requires Valid() && d in kernel.live
      modifies kernel`faults, this`looks
      ensures Valid() && Faulted(r.StatusFails?, old(kernel.faults), kernel.faults)
      ensures looks == old(looks) + (if r.StatusFails? then [] else [Look(d, None, Told(r))])
      ensures frozen && !r.StatusFails? ==> r == StatusAt(at[d])
    {
      var call := kernel.Call();
      if call.Fails? {
        return StatusFails;
      }
      r := *;
      if frozen || r.StatusFails? {
        r := StatusAt(at[d]);
      }
      looks := looks + [Look(d, None, Told(r))];
    }

    /** os.open of a name in a directory, or os.dup if there is no name. */
    method Open(dir: nat, name: Option<string>) returns (r: Opened)
      requires Valid() && dir in kernel.live
      modifies kernel, this`at
      ensures Valid() && Faulted(r.NotOpened?, old(kernel.faults), kernel.faults)
      ensures kernel.locked == old(kernel.locked) && kernel.closed == old(kernel.closed)
      ensures kernel.next >= old(kernel.next)
      ensures r.NotOpened? ==> kernel.live == old(kernel.live) && at == old(at)
      ensures r.Descriptor? ==>
                && r.number == old(kernel.next) && kernel.live == old(kernel.live) + {r.number} && r.number !in old(at)
                && at == old(at)[r.number := old(at)[dir] + if name.Some? then [name.value] else []]
    {
      r := kernel.Open();
      if r.Descriptor? {
        at := at[r.number := at[dir] + if name.Some? then [name.value] else []];
      }
    }

    method ReadLink(dir: nat, name: string) returns (r: Option<string>)
      requires Valid() && dir in kernel.live
      modifies kernel`faults
      ensures Valid() && Faulted(r.None?, old(kernel.faults), kernel.faults)
      ensures frozen && r.Some? && at[dir] + [name] in tree ==> r.value == ContentOf(tree[at[dir] + [name]])
    {
      var call := kernel.Call();
      if call.Fails? {
        return None;
      }
      var content: string := *;
      if frozen && at[dir] + [name] in tree {
        content := ContentOf(tree[at[dir] + [name]]);
      }
      r := Some(content);
    }

    /** The blob hashes of open files, by the hash helper process. */
    method HashDescriptors(ds: seq<nat>, algorithm: string) returns (r: Option<seq<string>>)
      requires Valid() && forall d | d in ds :: d in kernel.live
      modifies kernel`faults
      ensures Valid()
      ensures old(kernel.faults) <= kernel.faults
      ensures r.None? || (frozen && |r.value| != |ds|) ==> old(kernel.faults) < kernel.faults
      ensures frozen && r.Some? && |r.value| == |ds| ==>
                forall i | 0 <= i < |ds| && at[ds[i]] in tree :: r.value[i] == hash(algorithm, ContentOf(tree[at[ds[i]]]))
    {
      var call := kernel.Call();
      if call.Fails? {
        var digests: seq<string> := *;
        r := if |digests| == |ds| then None else Some(digests);
        return;
      }
      var digests: seq<string> := *;
      if frozen {
        digests := seq(|ds|, i requires 0 <= i < |ds| && ds[i] in at reads this =>
          if at[ds[i]] in tree then hash(algorithm, ContentOf(tree[at[ds[i]]])) else "");
      }
      r := Some(digests);
    }
  }

  // ----- opening one tracked file -----

  /** Where open descriptors were opened. */
  type Places = map<nat, seq<string>>

  datatype Guard = Guard(parent: nat, name: string, descriptor: nat, stamp: int)

  datatype OpenedEntry = OpenedEntry(
    matched: bool,
    mode: string,
    descriptor: Option<nat>,
    stamp: Option<int>,
    symlink: Option<string>,
    leafParent: nat,
    leafName: string,
    guards: seq<Guard>,
    owned: seq<nat>)

  function Mismatch(parent: nat, name: string, guards: seq<Guard>, owned: seq<nat>, stamp: Option<int>): OpenedEntry {
    OpenedEntry(false, "", None, stamp, None, parent, name, guards, owned)
  }

  function Members(ds: seq<nat>): set<nat> {
    set d | d in ds
  }

  /** The entry's descriptors are open and its own. */
  ghost predicate Owns(w: World, e: OpenedEntry, from: nat)
    reads w, w.kernel
  {
    && OpenSince(w, e.owned, from)
    && e.leafParent in e.owned
    && (forall g | g in e.guards :: g.parent in e.owned && g.descriptor in e.owned)
    && (e.descriptor.Some? ==> e.descriptor.value in e.owned)
  }

  ghost predicate OpenSince(w: World, ds: seq<nat>, from: nat)
    reads w, w.kernel
  {
    Distinct(ds) && forall d | d in ds :: d in w.kernel.live && from <= d && d in w.at
  }

  ghost predicate GuardFaithful(w: World, at: Places, g: Guard)
  {
    && g.parent in at && g.descriptor in at && at[g.descriptor] == at[g.parent] + [g.name]
    && at[g.descriptor] in w.tree && g.stamp == w.stamps(at[g.descriptor])
  }

  /** What was recorded is what the tree is. */
  ghost predicate Faithful(w: World, at: Places, e: OpenedEntry)
  {
    && (forall g | g in e.guards :: GuardFaithful(w, at, g))
    && e.leafParent in at
    && var leaf := at[e.leafParent] + [e.leafName];
       && (e.stamp.Some? <==> leaf in w.tree)
       && (e.stamp.Some? ==> e.stamp.value == w.stamps(leaf))
       && (e.descriptor.Some? ==> e.stamp.Some? && e.descriptor.value in at && at[e.descriptor.value] == leaf)
  }

  /** The entry was opened as the kind of file that the tree has at parts. */
  ghost predicate Seen(w: World, at: Places, e: OpenedEntry, parts: seq<string>, mode: string)
  {
    && !Unsafe(w.tree, parts)
    && (e.matched <==> Present(w.tree, parts, mode))
    && (e.matched ==>
      && e.mode == ModeOf(w.tree[parts])
      && (w.tree[parts].Symlink? ==> e.symlink == Some(ContentOf(w.tree[parts])))
      && (w.tree[parts].Regular? ==>
            e.symlink == None && e.descriptor.Some? && e.descriptor.value in at && at[e.descriptor.value] == parts))
  }

  /** A descriptor keeps the place it was opened at, and calls only add faults. */
  twostate predicate Keeps(w: World)
    reads w, w.kernel
  {
    && w.kernel.next >= old(w.kernel.next) && w.kernel.faults >= old(w.kernel.faults)
    && (forall d | d in old(w.at) :: d in w.at && w.at[d] == old(w.at[d]))
  }

  /** The one descriptor that was opened, if any, is open and new. */
  twostate predicate AddsOne(w: World, new child: Option<nat>)
    reads w, w.kernel
  {
    && w.kernel.closed == old(w.kernel.closed)
    && w.kernel.live == old(w.kernel.live) + (if child.Some? then {child.value} else {})
    && (child.Some? ==> child.value >= old(w.kernel.next) && child.value !in old(w.at) && child.value in w.at)
  }

  datatype Step = Into(guard: Guard) | Stopped(stamp: Option<int>) | Refuses(error: InspectError)

  /** One directory on the way (repository.py:988-1023). */
  method StepInto(w: World, current: nat, name: string) returns (child: Option<nat>, step: Step)
    requires w.Valid() && current in w.kernel.live
    modifies w, w.kernel
    ensures w.Valid() && Keeps(w) && AddsOne(w, child)
    ensures step.Into? ==>
              child.Some? && step.guard.parent == current && step.guard.name == name && step.guard.descriptor == child.value
    ensures var path := w.at[current] + [name];
            w.frozen ==>
              && (step.Into? ==> path in w.tree && w.tree[path].Directory? && GuardFaithful(w, w.at, step.guard))
              && (step.Stopped? && step.stamp.None? ==> path !in w.tree)
              && (step.Stopped? && step.stamp.Some? ==>
                    path in w.tree && w.tree[path].Regular? && step.stamp.value == w.stamps(path))
              && (step.Refuses? && w.kernel.faults == old(w.kernel.faults) ==>
                    path in w.tree && (w.tree[path].Symlink? || w.tree[path].Special?))
  {
    var before := w.Stat(current, name);
    match before {
      case StatusFails => return None, Refuses(SystemFailure);
      case Absent => return None, Stopped(None);
      case Entry(node, stamp) =>
        if node.Regular? {
          return None, Stopped(Some(stamp));
        }
        if !node.Directory? {
          return None, Refuses(UnsafeBoundary);
        }
        var r := w.Open(current, Some(name));
        if r.NotOpened? {
          return None, Refuses(SystemFailure);
        }
        child := Some(r.number);
        var after := w.StatOpen(r.number);
        if after.StatusFails? {
          return child, Refuses(SystemFailure);
        }
        if after.Absent? || after.stamp != stamp {
          return child, Refuses(Changed);
        }
        return child, Into(Guard(current, name, r.number, after.stamp));
    }
  }

  /** The tracked file itself (repository.py:1025-1098). */
  method OpenLeaf(w: World, current: nat, name: string, mode: string, guards: seq<Guard>, descriptors: seq<nat>)
    returns (child: Option<nat>, r: Result<OpenedEntry, InspectError>)
    requires w.Valid() && current in w.kernel.live
    modifies w, w.kernel
    ensures w.Valid() && Keeps(w) && AddsOne(w, child)
    ensures r.Ok? ==>
              && r.value.leafParent == current && r.value.leafName == name && r.value.guards == guards
              && r.value.owned == descriptors + (if child.Some? then [child.value] else [])
              && r.value.descriptor == child
    ensures w.frozen && r.Ok? ==> LeafSeen(w, r.value, w.at[current] + [name], mode)
    ensures w.frozen && r.Err? && w.kernel.faults == old(w.kernel.faults) ==>
              w.at[current] + [name] in w.tree && w.tree[w.at[current] + [name]].Special?
  {
    var before := w.Stat(current, name);
    match before {
      case StatusFails => return None, Err(SystemFailure);
      case Absent => return None, Ok(Mismatch(current, name, guards, descriptors, None));
      case Entry(node, stamp) =>
        if node.Special? {
          return None, Err(UnsafeBoundary);
        }
        if node.Directory? || (node.Symlink? && mode != SYMLINK) || (node.Regular? && mode !in {REGULAR, EXECUTABLE}) {
          return None, Ok(Mismatch(current, name, guards, descriptors, Some(stamp)));
        }
        if node.Symlink? {
          var content := w.ReadLink(current, name);
          if content.None? {
            return None, Err(SystemFailure);
          }
          var after := w.Stat(current, name);
          if !after.Entry? {
            return None, Err(SystemFailure);
          }
          if after.stamp != stamp {
            return None, Err(Changed);
          }
          return None, Ok(OpenedEntry(true, SYMLINK, None, Some(stamp), content, current, name, guards, descriptors));
        }
        var leaf := w.Open(current, Some(name));
        if leaf.NotOpened? {
          return None, Err(SystemFailure);
        }
        child := Some(leaf.number);
        var after := w.StatOpen(leaf.number);
        if !after.Entry? {
          return child, Err(SystemFailure);
        }
        if after.stamp != stamp {
          return child, Err(Changed);
        }
        var worktreeMode := if after.node.Regular? && after.node.executable then EXECUTABLE else REGULAR;
        var owned := descriptors + [leaf.number];
        return child, Ok(OpenedEntry(true, worktreeMode, child, Some(stamp), None, current, name, guards, owned));
    }
  }

  ghost predicate LeafSeen(w: World, e: OpenedEntry, path: seq<string>, mode: string)
    reads w
  {
    && (e.stamp.Some? <==> path in w.tree)
    && (e.stamp.Some? ==> e.stamp.value == w.stamps(path) && !w.tree[path].Special?)
    && (e.matched <==> LeafPresent(w.tree, path, mode))
    && (e.matched ==>
      && e.mode == ModeOf(w.tree[path])
      && (w.tree[path].Symlink? ==> e.symlink == Some(ContentOf(w.tree[path])))
      && (w.tree[path].Regular? ==> e.symlink == None && e.descriptor.Some?))
    && (e.descriptor.Some? ==> e.stamp.Some? && e.descriptor.value in w.at && w.at[e.descriptor.value] == path)
  }

  // The walk keeps every descriptor it opens in descriptors, the last one being
  // that of the directory it has reached.

  /** What the walk found when it began. */
  datatype Start = Start(next: nat, live: set<nat>, closed: seq<nat>)

  ghost predicate Walking(w: World, descriptors: seq<nat>, start: Start)
    reads w, w.kernel
  {
    && w.Valid() && OpenSince(w, descriptors, start.next) && w.kernel.next >= start.next
    && w.kernel.live == start.live + Members(descriptors) && w.kernel.closed == start.closed
  }

  ghost predicate GuardsOwned(guards: seq<Guard>, descriptors: seq<nat>) {
    forall g | g in guards :: g.parent in descriptors && g.descriptor in descriptors
  }

  lemma {:induction false} OneMoreOpen(w: World, descriptors: seq<nat>, d: nat, from: nat)
    requires OpenSince(w, descriptors, from) && d !in descriptors && d in w.kernel.live && from <= d && d in w.at
    ensures OpenSince(w, descriptors + [d], from) && Members(descriptors + [d]) == Members(descriptors) + {d}
  {
    var more := descriptors + [d];
    forall i, j | 0 <= i < j < |more| ensures more[i] != more[j] {
      assert more[i] == descriptors[i] && descriptors[i] in descriptors;
      assert j < |descriptors| ==> more[j] == descriptors[j];
    }
  }

  ghost predicate WalkFaithful(w: World, descriptors: seq<nat>, guards: seq<Guard>, parts: seq<string>, n: nat)
    reads w
  {
    && n <= |parts| && descriptors != []
    && (forall g | g in guards :: GuardFaithful(w, w.at, g))
    && Directories(w.tree, parts, n)
    && descriptors[|descriptors| - 1] in w.at && w.at[descriptors[|descriptors| - 1]] == parts[..n]
  }

  lemma {:induction false} BlockedHere(tree: Tree, parts: seq<string>, j: nat)
    requires j + 1 < |parts| && Directories(tree, parts, j) && parts[..j + 1] in tree
    requires tree[parts[..j + 1]].Symlink? || tree[parts[..j + 1]].Special?
    ensures Unsafe(tree, parts)
  {
    assert Blocks(tree, parts, j + 1);
  }

  /** The way stops at a missing or regular component. */
  lemma {:induction false} StoppedHere(tree: Tree, parts: seq<string>, j: nat, mode: string)
    requires j + 1 < |parts| && Directories(tree, parts, j)
    requires parts[..j + 1] in tree ==> tree[parts[..j + 1]].Regular?
    ensures !Unsafe(tree, parts) && !Present(tree, parts, mode)
  {
    forall i | 1 <= i <= |parts| ensures !Blocks(tree, parts, i) {
      if i > j + 1 {
        assert !Directories(tree, parts, i - 1) by {
          assert parts[..j + 1] !in tree || !tree[parts[..j + 1]].Directory?;
        }
      }
    }
    assert !Directories(tree, parts, |parts| - 1) by {
      assert parts[..j + 1] !in tree || !tree[parts[..j + 1]].Directory?;
    }
  }

  /** The way ends at the file. */
  lemma {:induction false} ReachedLeaf(tree: Tree, parts: seq<string>)
    requires parts != [] && Directories(tree, parts, |parts| - 1)
    ensures Unsafe(tree, parts) <==> parts in tree && tree[parts].Special?
  {
    assert parts[..|parts|] == parts;
    if parts in tree && tree[parts].Special? {
      assert Blocks(tree, parts, |parts|);
    }
    forall i | 1 <= i < |parts| ensures !Blocks(tree, parts, i) {
    }
  }

  lemma {:induction false} OneMore(parts: seq<string>, j: nat)
    requires j < |parts|
    ensures parts[..j] + [parts[j]] == parts[..j + 1]
  {
  }

  /** How the walk ended, if it did. */
  ghost predicate Sound(w: World, r: Result<OpenedEntry, InspectError>, descriptors: seq<nat>, parts: seq<string>,
                        mode: string, faulty: bool)
    reads w
  {
    && (r.Ok? ==>
          && r.value.owned == descriptors && GuardsOwned(r.value.guards, descriptors)
          && r.value.leafParent in descriptors
          && (r.value.descriptor.Some? ==> r.value.descriptor.value in descriptors))
    && (w.frozen && r.Ok? ==> Faithful(w, w.at, r.value) && Seen(w, w.at, r.value, parts, mode))
    && (w.frozen && r.Err? && !faulty ==> Unsafe(w.tree, parts))
  }

  /** The part of the walk for one directory. */
  method WalkStep(w: World, descriptors: seq<nat>, guards: seq<Guard>, parts: seq<string>, j: nat, mode: string,
                  ghost start: Start)
    returns (ds: seq<nat>, gs: seq<Guard>, stop: Option<Result<OpenedEntry, InspectError>>)
    requires Walking(w, descriptors, start) && GuardsOwned(guards, descriptors) && descriptors != [] && j + 1 < |parts|
    requires w.frozen ==> WalkFaithful(w, descriptors, guards, parts, j)
    modifies w, w.kernel
    ensures Walking(w, ds, start) && Keeps(w) && ds != [] && GuardsOwned(gs, ds)
    ensures stop.Some? ==> Sound(w, stop.value, ds, parts, mode, w.kernel.faults > old(w.kernel.faults))
    ensures stop.None? && w.frozen ==> WalkFaithful(w, ds, gs, parts, j + 1)
  {
    hide Blocks, Unsafe, Present;
    var current := descriptors[|descriptors| - 1];
    assert current in descriptors;
    OneMore(parts, j);
    var child, step := StepInto(w, current, parts[j]);
    ds, gs := descriptors, guards;
    if child.Some? {
      OneMoreOpen(w, descriptors, child.value, start.next);
      ds := ds + [child.value];
    }
    assert Walking(w, ds, start);
    assert forall d | d in descriptors :: d in ds;
    match step {
      case Refuses(error) =>
        if w.frozen && w.kernel.faults == old(w.kernel.faults) {
          BlockedHere(w.tree, parts, j);
        }
        return ds, gs, Some(Err(error));
      case Stopped(stamp) =>
        if w.frozen {
          StoppedHere(w.tree, parts, j, mode);
        }
        return ds, gs, Some(Ok(Mismatch(current, parts[j], guards, ds, stamp)));
      case Into(guard) =>
        return ds, guards + [guard], None;
    }
  }

  /** The part of the walk for the file. */
  method WalkLeaf(w: World, descriptors: seq<nat>, guards: seq<Guard>, parts: seq<string>, mode: string,
                  ghost start: Start)
    returns (ds: seq<nat>, r: Result<OpenedEntry, InspectError>)
    requires Walking(w, descriptors, start) && GuardsOwned(guards, descriptors) && descriptors != [] && parts != []
    requires w.frozen ==> WalkFaithful(w, descriptors, guards, parts, |parts| - 1)
    modifies w, w.kernel
    ensures Walking(w, ds, start) && Keeps(w)
    ensures Sound(w, r, ds, parts, mode, w.kernel.faults > old(w.kernel.faults))
  {
    hide Blocks, Unsafe;
    var current, name := descriptors[|descriptors| - 1], parts[|parts| - 1];
    assert current in descriptors;
    OneMore(parts, |parts| - 1);
    assert parts[..|parts|] == parts;
    var child;
    child, r := OpenLeaf(w, current, name, mode, guards, descriptors);
    ds := descriptors;
    if child.Some? {
      OneMoreOpen(w, descriptors, child.value, start.next);
      ds := ds + [child.value];
    }
    assert Walking(w, ds, start);
    assert forall d | d in descriptors :: d in ds;
    if w.frozen {
      ReachedLeaf(w.tree, parts);
    }
  }

  /** repository.py:979-1098, up to the except clause: on failure the descriptors
      opened so far are still open. */
  method WalkEntry(w: World, root: nat, parts: seq<string>, mode: string)
    returns (descriptors: seq<nat>, r: Result<OpenedEntry, InspectError>)
    requires w.Valid() && root in w.kernel.live && w.at[root] == []
    modifies w, w.kernel
    ensures Walking(w, descriptors, Start(old(w.kernel.next), old(w.kernel.live), old(w.kernel.closed))) && Keeps(w)
    ensures Sound(w, r, descriptors, parts, mode, w.kernel.faults > old(w.kernel.faults))
  {
    hide Directories, Blocks, Unsafe, GuardFaithful, Present, LeafPresent, Seen, Faithful;
    ghost var start := Start(w.kernel.next, w.kernel.live, w.kernel.closed);
    var root := w.Open(root, None);
    if root.NotOpened? {
      return [], Err(SystemFailure);
    }
    OneMoreOpen(w, [], root.number, start.next);
    descriptors := [root.number];
    assert [] + descriptors == descriptors;
    if parts == [] {
      EmptyUnsafe(w.tree);
      return descriptors, Err(SystemFailure);
    }
    var guards: seq<Guard> := [];
    NoDirectories(w.tree, parts);
    for j := 0 to |parts| - 1
      invariant Walking(w, descriptors, start) && GuardsOwned(guards, descriptors) && descriptors != [] && Keeps(w)
      invariant w.frozen ==> WalkFaithful(w, descriptors, guards, parts, j)
    {
      var stop;
      descriptors, guards, stop := WalkStep(w, descriptors, guards, parts, j, mode, start);
      if stop.Some? {
        return descriptors, stop.value;
      }
    }
    descriptors, r := WalkLeaf(w, descriptors, guards, parts, mode, start);
  }

  lemma {:induction false} EmptyUnsafe(tree: Tree)
    ensures Unsafe(tree, [])
  {
  }

  lemma {:induction false} NoDirectories(tree: Tree, parts: seq<string>)
    ensures Directories(tree, parts, 0)
  {
  }

  /** repository.py:979-1101: all that stays open is what the entry owns. */
  method OpenWorktreeEntry(w: World, root: nat, parts: seq<string>, mode: string)
    returns (r: Result<OpenedEntry, InspectError>)
    requires w.Valid() && root in w.kernel.live && w.at[root] == []
    modifies w, w.kernel
    ensures w.Valid() && Keeps(w)
    ensures ClosesOwn(old(w.kernel.closed), w.kernel.closed, old(w.kernel.next))
    ensures r.Err? ==> w.kernel.live == old(w.kernel.live)
    ensures r.Ok? ==>
              && w.kernel.closed == old(w.kernel.closed) && Owns(w, r.value, old(w.kernel.next))
              && w.kernel.live == old(w.kernel.live) + Members(r.value.owned)
    ensures w.frozen && r.Ok? ==> Faithful(w, w.at, r.value) && Seen(w, w.at, r.value, parts, mode)
    ensures w.frozen && r.Err? && w.kernel.faults == old(w.kernel.faults) ==> Unsafe(w.tree, parts)
  {
    hide Unsafe, Seen, Faithful;
    var descriptors;
    descriptors, r := WalkEntry(w, root, parts, mode);
    if r.Err? {
      ghost var before := w.kernel.closed;
      assert w.kernel.live - Members(descriptors) == old(w.kernel.live);
      var ignored := w.kernel.CloseAll(descriptors);
      CloseReversed(old(w.kernel.closed), before, descriptors, old(w.kernel.next));
    }
  }

  function GuardLooks(g: Guard): seq<Look> {
    [Look(g.descriptor, None, Some(g.stamp)), Look(g.parent, Some(g.name), Some(g.stamp))]
  }

  function AllGuardLooks(guards: seq<Guard>): seq<Look> {
    if guards == [] then [] else AllGuardLooks(guards[..|guards| - 1]) + GuardLooks(guards[|guards| - 1])
  }

  /** What another look at everything recorded finds if nothing has changed. */
  function ExpectedLooks(e: OpenedEntry): seq<Look> {
    AllGuardLooks(e.guards)
    + (if e.descriptor.Some? then [Look(e.descriptor.value, None, e.stamp)] else [])
    + [Look(e.leafParent, Some(e.leafName), e.stamp)]
  }

  lemma {:induction false} OneMoreGuard(guards: seq<Guard>, i: nat)
    requires i < |guards|
    ensures AllGuardLooks(guards[..i + 1]) == AllGuardLooks(guards[..i]) + GuardLooks(guards[i])
  {
    assert guards[..i + 1][..i] == guards[..i];
  }

  lemma {:induction false} GuardsPrefix(guards: seq<Guard>, i: nat)
    requires i <= |guards|
    ensures AllGuardLooks(guards[..i]) <= AllGuardLooks(guards)
    decreases |guards| - i
  {
    if i < |guards| {
      OneMoreGuard(guards, i);
      GuardsPrefix(guards, i + 1);
    } else {
      assert guards[..i] == guards;
    }
  }

  /** One directory is as it was recorded. */
  method ValidateGuard(w: World, guard: Guard) returns (same: bool)
    requires w.Valid() && guard.parent in w.kernel.live && guard.descriptor in w.kernel.live
    modifies w.kernel`faults, w`looks
    ensures w.Valid() && w.kernel.faults >= old(w.kernel.faults)
    ensures same ==> w.looks == old(w.looks) + GuardLooks(guard)
    ensures !same ==> !(old(w.looks) + GuardLooks(guard) <= w.looks)
    ensures w.frozen && GuardFaithful(w, w.at, guard) && w.kernel.faults == old(w.kernel.faults) ==> same
  {
    ghost var n := |w.looks|;
    var held := w.StatOpen(guard.descriptor);
    if !held.Entry? || held.stamp != guard.stamp {
      assert |w.looks| > n ==> w.looks[n] != GuardLooks(guard)[0];
      return false;
    }
    var named := w.Stat(guard.parent, guard.name);
    if !named.Entry? || named.stamp != guard.stamp {
      assert |w.looks| > n + 1 ==> w.looks[n + 1] != GuardLooks(guard)[1];
      return false;
    }
    return true;
  }

  lemma {:induction false} PartMissing(looks: seq<Look>, before: seq<Look>, part: seq<Look>, whole: seq<Look>)
    requires part <= whole && !(before + part <= looks)
    ensures !(before + whole <= looks)
  {
    assert before + part <= before + whole;
  }

  method ValidateGuards(w: World, e: OpenedEntry) returns (same: bool)
    requires w.Valid() && Owns(w, e, 0)
    modifies w.kernel`faults, w`looks
    ensures w.Valid() && w.kernel.faults >= old(w.kernel.faults)
    ensures same ==> w.looks == old(w.looks) + AllGuardLooks(e.guards)
    ensures !same ==> !(old(w.looks) + AllGuardLooks(e.guards) <= w.looks)
    ensures w.frozen && Faithful(w, w.at, e) && w.kernel.faults == old(w.kernel.faults) ==> same
  {
    hide GuardLooks, AllGuardLooks, GuardFaithful;
    NoLooks();
    assert e.guards[..0] == [];
    for i := 0 to |e.guards|
      invariant w.Valid() && Owns(w, e, 0) && w.kernel.faults >= old(w.kernel.faults)
      invariant w.looks == old(w.looks) + AllGuardLooks(e.guards[..i])
    {
      var guard := e.guards[i];
      assert guard in e.guards;
      OneMoreGuard(e.guards, i);
      GuardsPrefix(e.guards, i + 1);
      ghost var before := w.looks;
      var good := ValidateGuard(w, guard);
      assert before + GuardLooks(guard) == old(w.looks) + AllGuardLooks(e.guards[..i + 1]);
      if !good {
        PartMissing(w.looks, old(w.looks), AllGuardLooks(e.guards[..i + 1]), AllGuardLooks(e.guards));
        return false;
      }
    }
    assert e.guards[..|e.guards|] == e.guards;
    return true;
  }

  lemma {:induction false} NoLooks()
    ensures AllGuardLooks([]) == []
  {
  }

  /** repository.py:1125-1152: true exactly if every recorded directory, the open
      file and the entry's name were looked at once more, in this order, and all
      are as recorded. */
  method ValidateOpened(w: World, e: OpenedEntry) returns (same: bool)
    requires w.Valid() && Owns(w, e, 0)
    modifies w.kernel`faults, w`looks
    ensures w.Valid() && w.kernel.faults >= old(w.kernel.faults)
    ensures same <==> w.looks == old(w.looks) + ExpectedLooks(e) && (e.descriptor.Some? ==> e.stamp.Some?)
    ensures w.frozen && Faithful(w, w.at, e) && w.kernel.faults == old(w.kernel.faults) ==> same
  {
    hide AllGuardLooks, GuardFaithful;
    ghost var before := w.looks;
    ghost var done := AllGuardLooks(e.guards);
    same := ValidateGuards(w, e);
    if !same {
      PartMissing(w.looks, before, done, ExpectedLooks(e));
      return;
    }
    if e.descriptor.Some? {
      if e.stamp.None? {
        return false;
      }
      var held := w.StatOpen(e.descriptor.value);
      done := done + [Look(e.descriptor.value, None, e.stamp)];
      if !held.Entry? || held.stamp != e.stamp.value {
        assert |w.looks| >= |before + done| ==> w.looks[|before + done| - 1] != done[|done| - 1];
        PartMissing(w.looks, before, done, ExpectedLooks(e));
        return false;
      }
    }
    var leaf := w.Stat(e.leafParent, e.leafName);
    same := !leaf.StatusFails? && Told(leaf) == e.stamp;
    assert ExpectedLooks(e) == done + [Look(e.leafParent, Some(e.leafName), e.stamp)];
    assert !same && |w.looks| > |before + done| ==> w.looks[|before + done|] != ExpectedLooks(e)[|done|];
  }

  // ----- a batch of tracked files -----

  function AllOwned(batch: seq<OpenedEntry>): seq<nat> {
    if batch == [] then [] else AllOwned(batch[..|batch| - 1]) + batch[|batch| - 1].owned
  }

  lemma {:induction false} OwnedMember(batch: seq<OpenedEntry>, i: nat)
    requires i < |batch|
    ensures forall d | d in batch[i].owned :: d in AllOwned(batch)
    decreases |batch|
  {
    if i < |batch| - 1 {
      OwnedMember(batch[..|batch| - 1], i);
    }
  }

  /** The descriptors of a batch are open, new and distinct. */
  ghost predicate BatchOpen(w: World, batch: seq<OpenedEntry>, start: Start)
    reads w, w.kernel
  {
    && w.Valid() && w.kernel.next >= start.next
    && OpenSince(w, AllOwned(batch), start.next)
    && w.kernel.live == start.live + Members(AllOwned(batch))
    && ClosesOwn(start.closed, w.kernel.closed, start.next)
    && forall i | 0 <= i < |batch| :: Owns(w, batch[i], 0)
  }

  ghost predicate BatchSeen(w: World, at: Places, batch: seq<OpenedEntry>, entries: seq<IndexEntry>)
  {
    && |batch| <= |entries|
    && forall i | 0 <= i < |batch| :: Faithful(w, at, batch[i]) && Seen(w, at, batch[i], Parts(entries[i].path), entries[i].mode)
  }

  predicate SomeUnsafe(tree: Tree, entries: seq<IndexEntry>) {
    exists i :: 0 <= i < |entries| && Unsafe(tree, Parts(entries[i].path))
  }

  /** The paths of the entries that the worktree does not match. */
  function Differing(tree: Tree, hash: (string, string) -> string, algorithm: string,
                     entries: seq<IndexEntry>): set<string> {
    set i | 0 <= i < |entries| && !Matches(tree, hash, algorithm, entries[i]) :: entries[i].path
  }

  lemma {:induction false} BatchGrows(w: World, batch: seq<OpenedEntry>, e: OpenedEntry)
    ensures AllOwned(batch + [e]) == AllOwned(batch) + e.owned
    ensures Members(AllOwned(batch + [e])) == Members(AllOwned(batch)) + Members(e.owned)
  {
    assert (batch + [e])[..|batch|] == batch;
  }

  lemma {:induction false} SeenStays(w: World, at: Places, after: Places, e: OpenedEntry, parts: seq<string>,
                                     mode: string)
    requires Faithful(w, at, e) && Seen(w, at, e, parts, mode) && forall d | d in at :: d in after && after[d] == at[d]
    ensures Faithful(w, after, e) && Seen(w, after, e, parts, mode)
  {
    hide Unsafe, Present;
    forall g | g in e.guards ensures GuardFaithful(w, after, g) {
      assert GuardFaithful(w, at, g);
    }
  }

  lemma {:induction false} BatchStays(w: World, at: Places, after: Places, batch: seq<OpenedEntry>,
                                      entries: seq<IndexEntry>)
    requires BatchSeen(w, at, batch, entries) && forall d | d in at :: d in after && after[d] == at[d]
    ensures BatchSeen(w, after, batch, entries)
  {
    hide Seen, Faithful, Parts;
    forall i | 0 <= i < |batch|
      ensures Faithful(w, after, batch[i]) && Seen(w, after, batch[i], Parts(entries[i].path), entries[i].mode)
    {
      SeenStays(w, at, after, batch[i], Parts(entries[i].path), entries[i].mode);
    }
  }

  lemma {:induction false} BatchExtends(w: World, at: Places, batch: seq<OpenedEntry>, e: OpenedEntry,
                                        entries: seq<IndexEntry>)
    requires |batch| < |entries| && BatchSeen(w, at, batch, entries)
    requires Faithful(w, at, e) && Seen(w, at, e, Parts(entries[|batch|].path), entries[|batch|].mode)
    ensures BatchSeen(w, at, batch + [e], entries)
  {
    hide Seen, Faithful, Parts;
  }

  /** One entry more: its descriptors join those of the batch. */
  method OpenNext(w: World, root: nat, entries: seq<IndexEntry>, batch: seq<OpenedEntry>, ghost start: Start)
    returns (more: seq<OpenedEntry>, problem: Option<InspectError>)
    requires BatchOpen(w, batch, start) && root in w.kernel.live && w.at[root] == [] && |batch| < |entries|
    modifies w, w.kernel
    ensures BatchOpen(w, more, start) && Keeps(w) && w.kernel.live >= old(w.kernel.live)
    ensures problem.None? ==> |more| == |batch| + 1 && more[..|batch|] == batch
    ensures problem.Some? ==> more == batch
    ensures w.frozen && BatchSeen(w, old(w.at), batch, entries) && problem.None? ==> BatchSeen(w, w.at, more, entries)
    ensures w.frozen && problem.Some? && w.kernel.faults == old(w.kernel.faults) ==> SomeUnsafe(w.tree, entries)
  {
    var entry := entries[|batch|];
    hide Seen, Faithful, Unsafe, Parts, ClosesOwn, BatchSeen;
    ghost var closed, next, at := w.kernel.closed, w.kernel.next, w.at;
    var r := OpenWorktreeEntry(w, root, Parts(entry.path), entry.mode);
    ClosesJoin(start.closed, closed, w.kernel.closed, start.next, next);
    assert OpenSince(w, AllOwned(batch), start.next);
    forall i | 0 <= i < |batch| ensures Owns(w, batch[i], 0) {
      assert old(Owns(w, batch[i], 0));
    }
    if r.Err? {
      return batch, Some(r.error);
    }
    more := batch + [r.value];
    BatchGrows(w, batch, r.value);
    JoinedOpen(w, AllOwned(batch), r.value.owned, start.next, next);
    if w.frozen && BatchSeen(w, at, batch, entries) {
      BatchStays(w, at, w.at, batch, entries);
      BatchExtends(w, w.at, batch, r.value, entries);
    }
    return more, None;
  }

  lemma {:induction false} JoinedOpen(w: World, a: seq<nat>, b: seq<nat>, from: nat, next: nat)
    requires OpenSince(w, a, from) && OpenSince(w, b, next) && from <= next && forall d | d in a :: d < next
    ensures OpenSince(w, a + b, from) && OpenSince(w, b, 0)
  {
    var ds := a + b;
    forall i, j | 0 <= i < j < |ds| ensures ds[i] != ds[j] {
      assert ds[i] == if i < |a| then a[i] else b[i - |a|];
      assert ds[j] == if j < |a| then a[j] else b[j - |a|];
      assert i < |a| ==> a[i] in a;
      assert j >= |a| ==> b[j - |a|] in b;
    }
  }

  lemma {:induction false} ClosesJoin(before: seq<nat>, middle: seq<nat>, after: seq<nat>, from: nat, next: nat)
    requires ClosesOwn(before, middle, from) && ClosesOwn(middle, after, next) && from <= next
    requires forall d | d in middle :: d < next
    ensures ClosesOwn(before, after, from)
  {
    forall i | |before| <= i < |after| ensures after[i] >= from {
      assert i < |middle| ==> after[i] == middle[i];
    }
    forall i, j | |before| <= i < j < |after| ensures after[i] != after[j] {
      assert i < |middle| ==> after[i] == middle[i] && middle[i] in middle;
      assert j < |middle| ==> after[j] == middle[j];
    }
  }

  method OpenBatch(w: World, root: nat, entries: seq<IndexEntry>, ghost start: Start)
    returns (batch: seq<OpenedEntry>, problem: Option<InspectError>)
    requires w.Valid() && root in w.kernel.live && w.at[root] == []
    requires start == Start(w.kernel.next, w.kernel.live, w.kernel.closed)
    modifies w, w.kernel
    ensures BatchOpen(w, batch, start) && Keeps(w) && w.kernel.live >= old(w.kernel.live)
    ensures problem.None? ==> |batch| == |entries|
    ensures w.frozen && problem.None? ==> BatchSeen(w, w.at, batch, entries)
    ensures w.frozen && problem.Some? && w.kernel.faults == old(w.kernel.faults) ==> SomeUnsafe(w.tree, entries)
  {
    hide Seen, Faithful, Unsafe, Parts;
    batch := [];
    for i := 0 to |entries|
      invariant |batch| == i
      invariant BatchOpen(w, batch, start) && Keeps(w) && w.kernel.live >= old(w.kernel.live)
      invariant w.frozen ==> BatchSeen(w, w.at, batch, entries)
    {
      batch, problem := OpenNext(w, root, entries, batch, start);
      if problem.Some? {
        return;
      }
    }
    problem := None;
  }

  // ----- comparing a batch -----

  predicate Differs(w: World, algorithm: string, e: IndexEntry) {
    !Matches(w.tree, w.hash, algorithm, e)
  }

  /** The paths of those entries with an index in done that differ. */
  ghost function DifferingIn(w: World, algorithm: string, entries: seq<IndexEntry>, done: set<int>): set<string> {
    set i | i in done && 0 <= i < |entries| && Differs(w, algorithm, entries[i]) :: entries[i].path
  }

  lemma {:induction false} OneMoreCompared(w: World, algorithm: string, entries: seq<IndexEntry>, done: set<int>,
                                           i: nat)
    requires i < |entries|
    ensures DifferingIn(w, algorithm, entries, done + {i}) ==
              DifferingIn(w, algorithm, entries, done) + (if Differs(w, algorithm, entries[i]) then {entries[i].path} else {})
  {
    hide Differs;
  }

  /** What was seen of an entry decides whether it differs, apart from the blob
      hash of a regular file. */
  lemma {:induction false} SeenDecides(w: World, at: Places, e: OpenedEntry, entry: IndexEntry, algorithm: string)
    requires Faithful(w, at, e) && Seen(w, at, e, Parts(entry.path), entry.mode)
    ensures !e.matched || e.mode != entry.mode ==> Differs(w, algorithm, entry)
    ensures e.matched && e.mode == entry.mode && e.symlink.Some? ==>
              (Differs(w, algorithm, entry) <==> w.hash(algorithm, e.symlink.value) != entry.objectId)
    ensures e.matched && e.mode == entry.mode && e.symlink.None? ==>
              && e.descriptor.Some? && e.stamp.Some?
              && e.descriptor.value in at && at[e.descriptor.value] in w.tree
              && (Differs(w, algorithm, entry) <==>
                    w.hash(algorithm, ContentOf(w.tree[at[e.descriptor.value]])) != entry.objectId)
  {
    hide Parts, Directories, Unsafe;
  }

  predicate NeedsHash(e: OpenedEntry, entry: IndexEntry) {
    e.matched && e.mode == entry.mode && e.symlink.None?
  }

  /** Those indices below i that have no blob hash to wait for. */
  ghost predicate Settled(done: set<int>, i: nat, waiting: seq<nat>) {
    && (forall j :: j in done <==> 0 <= j < i && j !in waiting)
    && (forall k | 0 <= k < |waiting| :: waiting[k] < i)
    && Distinct(waiting)
  }

  /** repository.py:903-920: mismatches and symbolic links; waiting collects the
      regular files. */
  method CompareUnhashed(w: World, entries: seq<IndexEntry>, batch: seq<OpenedEntry>, algorithm: string)
    returns (dirty: set<string>, waiting: seq<nat>, ghost done: set<int>, problem: Option<InspectError>)
    requires w.Valid() && |batch| == |entries| && forall i | 0 <= i < |batch| :: Owns(w, batch[i], 0)
    modifies w.kernel`faults, w`looks
    ensures w.Valid() && w.kernel.faults >= old(w.kernel.faults)
    ensures problem.None? ==> Settled(done, |entries|, waiting)
    ensures problem.None? ==> forall k | 0 <= k < |waiting| ::
              waiting[k] < |entries| && NeedsHash(batch[waiting[k]], entries[waiting[k]])
              && batch[waiting[k]].descriptor.Some? && batch[waiting[k]].stamp.Some?
    ensures w.frozen && BatchSeen(w, w.at, batch, entries) ==>
              && (problem.None? ==> dirty == DifferingIn(w, algorithm, entries, done))
              && (w.kernel.faults == old(w.kernel.faults) ==> problem.None?)
  {
    hide Faithful, Seen, Differs, DifferingIn, Parts;
    dirty, waiting, done, problem := {}, [], {}, None;
    NoneCompared(w, algorithm, entries);
    for i := 0 to |entries|
      invariant w.Valid() && w.kernel.faults >= old(w.kernel.faults)
      invariant forall j | 0 <= j < |batch| :: Owns(w, batch[j], 0)
      invariant Settled(done, i, waiting)
      invariant forall k | 0 <= k < |waiting| ::
                  NeedsHash(batch[waiting[k]], entries[waiting[k]])
                  && batch[waiting[k]].descriptor.Some? && batch[waiting[k]].stamp.Some?
      invariant w.frozen && BatchSeen(w, w.at, batch, entries) ==> dirty == DifferingIn(w, algorithm, entries, done)
    {
      var entry, e := entries[i], batch[i];
      if w.frozen && BatchSeen(w, w.at, batch, entries) {
        SeenDecides(w, w.at, e, entry, algorithm);
        OneMoreCompared(w, algorithm, entries, done, i);
      }
      if NeedsHash(e, entry) {
        if e.descriptor.None? || e.stamp.None? {
          problem := Some(SystemFailure);
          return;
        }
        waiting := waiting + [i];
      } else {
        if !e.matched || e.mode != entry.mode || w.hash(algorithm, e.symlink.value) != entry.objectId {
          dirty := dirty + {entry.path};
        }
        var same := ValidateOpened(w, e);
        if !same {
          problem := Some(Changed);
          return;
        }
        done := done + {i};
      }
    }
  }

  lemma {:induction false} NoneCompared(w: World, algorithm: string, entries: seq<IndexEntry>)
    ensures DifferingIn(w, algorithm, entries, {}) == {}
  {
  }

  /** repository.py:921-943: the regular files, by their blob hashes. */
  method CompareHashed(w: World, entries: seq<IndexEntry>, batch: seq<OpenedEntry>, waiting: seq<nat>,
                       algorithm: string, start: set<string>, ghost before: set<int>)
    returns (dirty: set<string>, problem: Option<InspectError>)
    requires w.Valid() && |batch| == |entries| && forall i | 0 <= i < |batch| :: Owns(w, batch[i], 0)
    requires Settled(before, |entries|, waiting)
    requires forall k | 0 <= k < |waiting| ::
               NeedsHash(batch[waiting[k]], entries[waiting[k]])
               && batch[waiting[k]].descriptor.Some? && batch[waiting[k]].stamp.Some?
    modifies w.kernel`faults, w`looks
    ensures w.Valid() && w.kernel.faults >= old(w.kernel.faults)
    ensures w.frozen && BatchSeen(w, w.at, batch, entries) && start == DifferingIn(w, algorithm, entries, before) ==>
              && (problem.None? ==> dirty == Differing(w.tree, w.hash, algorithm, entries))
              && (w.kernel.faults == old(w.kernel.faults) ==> problem.None?)
  {
    hide Faithful, Seen, Differs, DifferingIn, Parts;
    dirty, problem := start, None;
    ghost var done := before;
    var digests: seq<string> := [];
    if waiting != [] {
      var ds := seq(|waiting|, k requires 0 <= k < |waiting| && waiting[k] < |batch| && batch[waiting[k]].descriptor.Some? =>
        batch[waiting[k]].descriptor.value);
      forall d | d in ds ensures d in w.kernel.live {
        var k :| 0 <= k < |ds| && ds[k] == d;
        assert Owns(w, batch[waiting[k]], 0);
      }
      var hashed := w.HashDescriptors(ds, algorithm);
      if hashed.None? {
        problem := Some(SystemFailure);
        return;
      }
      digests := hashed.value;
      if |digests| != |waiting| {
        problem := Some(WrongBatchSize);
        return;
      }
      for k := 0 to |waiting|
        invariant w.Valid() && w.kernel.faults >= old(w.kernel.faults)
        invariant forall j | 0 <= j < |batch| :: Owns(w, batch[j], 0)
        invariant forall j :: j in done <==> 0 <= j < |entries| && j !in waiting[k..]
        invariant w.frozen && BatchSeen(w, w.at, batch, entries) && start == DifferingIn(w, algorithm, entries, before) ==>
                    dirty == DifferingIn(w, algorithm, entries, done)
      {
        var i := waiting[k];
        var entry, e := entries[i], batch[i];
        if w.frozen && BatchSeen(w, w.at, batch, entries) {
          SeenDecides(w, w.at, e, entry, algorithm);
          OneMoreCompared(w, algorithm, entries, done, i);
          assert ds[k] == e.descriptor.value;
        }
        var same := ValidateOpened(w, e);
        if !same {
          problem := Some(Changed);
          return;
        }
        if digests[k] != entry.objectId {
          dirty := dirty + {entry.path};
        }
        NextWaiting(waiting, k);
        done := done + {i};
      }
    }
    AllCompared(w, algorithm, entries, done);
  }

  lemma {:induction false} NextWaiting(waiting: seq<nat>, k: nat)
    requires Distinct(waiting) && k < |waiting|
    ensures forall j :: j in waiting[k..] <==> j == waiting[k] || j in waiting[k + 1..]
    ensures waiting[k] !in waiting[k + 1..]
  {
    assert waiting[k..] == [waiting[k]] + waiting[k + 1..];
  }

  lemma {:induction false} AllCompared(w: World, algorithm: string, entries: seq<IndexEntry>, done: set<int>)
    ensures (forall j :: j in done <==> 0 <= j < |entries|) ==>
              DifferingIn(w, algorithm, entries, done) == Differing(w.tree, w.hash, algorithm, entries)
  {
    hide Matches;
  }

  /** Close what the batch owns, the last entry first (repository.py:948-961). */
  method CloseBatch(w: World, batch: seq<OpenedEntry>, ghost start: Start) returns (clean: bool)
    requires BatchOpen(w, batch, start)
    requires forall d | d in start.live :: d < start.next
    modifies w.kernel
    ensures w.Valid() && w.kernel.next == old(w.kernel.next)
    ensures w.kernel.live == start.live && ClosesOwn(start.closed, w.kernel.closed, start.next)
    ensures Faulted(!clean, old(w.kernel.faults), w.kernel.faults)
  {
    hide BatchOpen;
    clean := true;
    var i := |batch|;
    assert batch[..i] == batch;
    while i > 0
      invariant 0 <= i <= |batch| && w.kernel.next == old(w.kernel.next)
      invariant BatchOpen(w, batch[..i], start)
      invariant Faulted(!clean, old(w.kernel.faults), w.kernel.faults)
    {
      i := i - 1;
      clean := CloseLast(w, batch[..i + 1], clean, start);
      assert batch[..i + 1][..i] == batch[..i];
    }
    assert batch[..0] == [];
    NothingOpen(w, start);
  }

  lemma {:induction false} NothingOpen(w: World, start: Start)
    requires BatchOpen(w, [], start)
    ensures w.Valid() && w.kernel.live == start.live && ClosesOwn(start.closed, w.kernel.closed, start.next)
  {
    hide ClosesOwn;
  }

  method CloseLast(w: World, batch: seq<OpenedEntry>, clean: bool, ghost start: Start) returns (still: bool)
    requires BatchOpen(w, batch, start) && batch != []
    requires forall d | d in start.live :: d < start.next
    modifies w.kernel
    ensures BatchOpen(w, batch[..|batch| - 1], start) && w.kernel.next == old(w.kernel.next)
    ensures w.kernel.faults >= old(w.kernel.faults) && (clean ==> Faulted(!still, old(w.kernel.faults), w.kernel.faults))
    ensures !clean ==> !still
  {
    var last := batch[|batch| - 1];
    ghost var rest := batch[..|batch| - 1];
    ghost var closed := w.kernel.closed;
    SplitOpen(w, rest, last, start);
    var first := w.kernel.CloseAll(last.owned);
    still := clean && first.Done?;
    CloseReversed(start.closed, closed, last.owned, start.next);
    forall i | 0 <= i < |rest| ensures Owns(w, rest[i], 0) {
      assert old(Owns(w, batch[i], 0)) && rest[i] == batch[i];
      OwnedMember(rest, i);
    }
  }

  lemma {:induction false} SplitOpen(w: World, rest: seq<OpenedEntry>, last: OpenedEntry, start: Start)
    requires OpenSince(w, AllOwned(rest) + last.owned, start.next)
    ensures OpenSince(w, AllOwned(rest), start.next) && OpenSince(w, last.owned, start.next)
    ensures forall d | d in AllOwned(rest) :: d !in last.owned
    ensures Members(AllOwned(rest) + last.owned) == Members(AllOwned(rest)) + Members(last.owned)
  {
    var a, b := AllOwned(rest), last.owned;
    var ds := a + b;
    forall i | 0 <= i < |a| ensures a[i] !in b && ds[i] == a[i] {
      forall j | 0 <= j < |b| ensures a[i] != b[j] {
        assert ds[i] == a[i] && ds[|a| + j] == b[j];
      }
    }
    forall i, j | 0 <= i < j < |b| ensures b[i] != b[j] {
      assert ds[|a| + i] == b[i] && ds[|a| + j] == b[j];
    }
    forall i, j | 0 <= i < j < |a| ensures a[i] != a[j] {
      assert ds[i] == a[i] && ds[j] == a[j];
    }
    assert forall d | d in b :: d in ds;
    assert forall d | d in a :: d in ds;
  }

  /** repository.py:881-961: every descriptor is closed again, whatever fails, and
      the result names exactly the files that differ. */
  method CompareWorktreeBatch(w: World, root: nat, entries: seq<IndexEntry>, algorithm: string)
    returns (r: Result<set<string>, InspectError>)
    requires w.Valid() && root in w.kernel.live && w.at[root] == []
    modifies w, w.kernel
    ensures w.Valid() && Keeps(w)
    ensures w.kernel.live == old(w.kernel.live)
    ensures ClosesOwn(old(w.kernel.closed), w.kernel.closed, old(w.kernel.next))
    ensures w.frozen && r.Ok? ==>
              r.value == Differing(w.tree, w.hash, algorithm, entries) && !SomeUnsafe(w.tree, entries)
    ensures w.frozen && r.Err? && w.kernel.faults == old(w.kernel.faults) ==> SomeUnsafe(w.tree, entries)
  {
    hide Faithful, Differing, DifferingIn, Settled, NeedsHash;
    ghost var start := Start(w.kernel.next, w.kernel.live, w.kernel.closed);
    var batch, problem := OpenBatch(w, root, entries, start);
    var dirty: set<string> := {};
    if problem.None? {
      var waiting;
      ghost var done;
      if w.frozen {
        SeenSafe(w, w.at, batch, entries);
      }
      dirty, waiting, done, problem := CompareUnhashed(w, entries, batch, algorithm);
      if problem.None? {
        dirty, problem := CompareHashed(w, entries, batch, waiting, algorithm, dirty, done);
      }
    }
    assert BatchOpen(w, batch, start);
    var clean := CloseBatch(w, batch, start);
    if problem.Some? {
      return Err(problem.value);
    }
    if !clean {
      return Err(CleanupFailed);
    }
    return Ok(dirty);
  }

  lemma {:induction false} SeenSafe(w: World, at: Places, batch: seq<OpenedEntry>, entries: seq<IndexEntry>)
    requires BatchSeen(w, at, batch, entries) && |batch| == |entries|
    ensures !SomeUnsafe(w.tree, entries)
  {
    hide Unsafe, Faithful, Present, Parts;
    forall i | 0 <= i < |entries| ensures !Unsafe(w.tree, Parts(entries[i].path)) {
      assert Seen(w, at, batch[i], Parts(entries[i].path), entries[i].mode);
    }
  }
}
