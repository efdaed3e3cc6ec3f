// Exclusive leases of a run and of a project directory (locking.py): which
// descriptors are open after every pattern of failures and cancellations.

module Leases {
  import opened Descriptors
  import opened Cancellation

  datatype Failure =
    | System(errno: Errno)
    | Busy
    | StateFailure
    | RepositoryFailure
    | Cancellation(error: Cancelled)
    | InvalidState
    | BodyFailure

  datatype Acquired = Acquired(descriptor: nat) | Refused(failure: Failure)

  datatype Released = Released | NotReleased(failure: Failure)

  /** The lock file of a run, regular if its path names a regular file, or a
      project directory. */
  datatype LeaseFile = RunLock(regular: bool) | ProjectDirectory

  predicate Usable(path: LeaseFile) {
    path.RunLock? ==> path.regular
  }

  /** Opens one lease file: only a returned descriptor stays open. */
  ghost predicate OpensOne(r: Acquired, before: set<nat>, after: set<nat>, next: nat) {
    match r
    case Acquired(d) => d >= next && after == before + {d}
    case Refused(_) => after == before
  }

  /** locking.py:285-303. */
  method OpenPrivateDirectory(k: Kernel) returns (r: Acquired)
    requires k.Valid()
    modifies k
    ensures k.Valid() && k.next >= old(k.next) && k.locked == old(k.locked)
    ensures OpensOne(r, old(k.live), k.live, old(k.next))
    ensures r.Refused? ==> r.failure.System?
    ensures Faulted(r.Refused?, old(k.faults), k.faults) && k.contended == old(k.contended)
    ensures k.closed == old(k.closed) || (r.Refused? && k.closed == old(k.closed) + [old(k.next)])
  {
    var made := k.MakeDirectory();
    if made.Fails? {
      return Refused(System(made.errno));
    }
    var child := k.Open();
    if child.NotOpened? {
      return Refused(System(child.errno));
    }
    var changed := k.Call();
    if changed.Fails? {
      var ignored := k.Close(child.number);
      return Refused(System(changed.errno));
    }
    return Acquired(child.number);
  }

  /** The part of locking.py:223-249 before the cleanup: the directories opened
      on the way, the lock file if it was opened, and the failure if there was one. */
  method OpenLockFile(k: Kernel, regular: bool) returns (directories: seq<nat>, lock: Opened, failed: Released)
    requires k.Valid()
    modifies k
    ensures k.Valid() && k.next >= old(k.next) && k.locked == old(k.locked)
    ensures Distinct(directories) && |directories| <= 3
    ensures forall d | d in directories :: old(k.next) <= d < k.next
    ensures lock.Descriptor? ==> old(k.next) <= lock.number < k.next && lock.number !in directories
    ensures k.live == old(k.live) + (set d | d in directories) + (if lock.Descriptor? then {lock.number} else {})
    ensures failed.Released? ==> lock.Descriptor?
    ensures failed.NotReleased? ==> failed.failure == StateFailure
    ensures k.faults >= old(k.faults) && k.contended == old(k.contended)
    ensures failed.NotReleased? <==> !regular || k.faults > old(k.faults)
    ensures ClosesOwn(old(k.closed), k.closed, old(k.next))
  {
    directories, lock := [], NotOpened(OtherError);
    var made := k.MakeDirectory();
    if made.Fails? {
      return directories, lock, NotReleased(StateFailure);
    }
    var root := k.Open();
    if root.NotOpened? {
      return directories, lock, NotReleased(StateFailure);
    }
    directories := [root.number];
    var locks := OpenPrivateDirectory(k);
    if locks.Refused? {
      return directories, lock, NotReleased(StateFailure);
    }
    directories := directories + [locks.descriptor];
    var runs := OpenPrivateDirectory(k);
    if runs.Refused? {
      return directories, lock, NotReleased(StateFailure);
    }
    directories := directories + [runs.descriptor];
    lock := k.Open();
    if lock.NotOpened? {
      return directories, lock, NotReleased(StateFailure);
    }
    var status := k.Call();
    if status.Fails? || !regular {
      return directories, lock, NotReleased(StateFailure);
    }
    var changed := k.Call();
    if changed.Fails? {
      return directories, lock, NotReleased(StateFailure);
    }
    failed := Released;
  }

  /** locking.py:223-282. */
  method OpenRunLock(k: Kernel, regular: bool) returns (r: Acquired)
    requires k.Valid()
    modifies k
    ensures k.Valid() && k.next >= old(k.next) && k.locked == old(k.locked)
    ensures OpensOne(r, old(k.live), k.live, old(k.next))
    ensures ClosesOwn(old(k.closed), k.closed, old(k.next))
    ensures r.Refused? ==> r.failure == StateFailure
    ensures k.faults >= old(k.faults) && k.contended == old(k.contended)
    ensures r.Refused? <==> !regular || k.faults > old(k.faults)
  {
    ghost var next := k.next;
    var directories, lock, failed := OpenLockFile(k, regular);
    ghost var closedThen := k.closed;
    var transfer := failed.Released?;
    ghost var mine := if lock.Descriptor? then {lock.number} else {};
    var cleanup := Done;
    if lock.Descriptor? && !transfer {
      cleanup := k.CloseAll([lock.number]);
      LastClosed(lock.number);
    }
    ghost var lockClosed := k.closed;
    assert ClosesOwn(old(k.closed), lockClosed, next);
    var directoryCleanup := k.CloseAll(directories);
    ReversedOnce(directories);
    forall d ensures d in Reversed(directories) <==> d in directories {
      ReversedMembers(directories, d);
    }
    CloseMore(old(k.closed), lockClosed, Reversed(directories), next);
    if cleanup.Done? {
      cleanup := directoryCleanup;
    }
    if cleanup.Fails? && transfer {
      LastClosed(lock.number);
      ghost var directoriesClosed := k.closed;
      var ignored := k.CloseAll([lock.number]);
      CloseMore(old(k.closed), directoriesClosed, [lock.number], next);
    }
    if cleanup.Fails? && failed.Released? {
      return Refused(StateFailure);
    }
    if failed.NotReleased? {
      return Refused(failed.failure);
    }
    return Acquired(lock.number);
  }

  lemma {:induction false} LastClosed(d: nat)
    ensures Reversed([d]) == [d]
  {
    assert [d] == [d] + [];
    ClosedLast(d, []);
  }

  /** locking.py:213-220: resolving the project path may fail. */
  method OpenProjectDirectory(k: Kernel) returns (r: Acquired)
    requires k.Valid()
    modifies k
    ensures k.Valid() && k.next >= old(k.next) && k.locked == old(k.locked) && k.closed == old(k.closed)
    ensures OpensOne(r, old(k.live), k.live, old(k.next))
    ensures r.Refused? ==> r.failure == RepositoryFailure
    ensures Faulted(r.Refused?, old(k.faults), k.faults) && k.contended == old(k.contended)
  {
    var resolved := k.Call();
    if resolved.Fails? {
      return Refused(RepositoryFailure);
    }
    var child := k.Open();
    if child.NotOpened? {
      return Refused(RepositoryFailure);
    }
    return Acquired(child.number);
  }

  /** locking.py:175-193: a returned descriptor is open and locked, nothing else
      is left open, and only a lock held elsewhere makes the lease busy. */
  method AcquireDescriptor(k: Kernel, path: LeaseFile) returns (r: Acquired)
    requires k.Valid()
    modifies k
    ensures k.Valid() && k.next >= old(k.next)
    ensures OpensOne(r, old(k.live), k.live, old(k.next))
    ensures ClosesOwn(old(k.closed), k.closed, old(k.next))
    ensures k.locked == if r.Acquired? then old(k.locked) + {r.descriptor} else old(k.locked)
    ensures r.Acquired? ==> r.descriptor !in k.closed
    ensures k.faults >= old(k.faults) && (r.Refused? <==> !Usable(path) || k.faults > old(k.faults))
    ensures Faulted(r == Refused(Busy), old(k.contended), k.contended)
    ensures r.Refused? ==>
              r.failure.Busy? || r.failure.System? || r.failure.StateFailure? || r.failure.RepositoryFailure?
  {
    match path {
      case RunLock(regular) => r := OpenRunLock(k, regular);
      case ProjectDirectory => r := OpenProjectDirectory(k);
    }
    if r.Acquired? {
      assert r.descriptor !in old(k.locked);
      var locked := k.Lock(r.descriptor);
      if locked.Fails? {
        ghost var before := k.closed;
        var ignored := k.Close(r.descriptor);
        CloseMore(old(k.closed), before, [r.descriptor], old(k.next));
        assert k.locked == old(k.locked);
        if locked.errno == Denied || locked.errno == Again {
          return Refused(Busy);
        }
        return Refused(System(locked.errno));
      }
      assert k.locked == old(k.locked) + {r.descriptor};
    }
  }

  /** locking.py:196-210: the descriptor is closed once, even if unlocking it
      fails. */
  method ReleaseDescriptor(k: Kernel, d: nat) returns (r: Released)
    requires k.Valid() && d in k.live
    modifies k
    ensures k.Valid() && k.next == old(k.next)
    ensures k.live == old(k.live) - {d} && k.locked == old(k.locked) - {d} && k.closed == old(k.closed) + [d]
    ensures r.NotReleased? ==> r.failure.System?
    ensures Faulted(r.NotReleased?, old(k.faults), k.faults) && k.contended == old(k.contended)
  {
    var unlocked := k.Unlock(d);
    var closed := k.Close(d);
    if unlocked.Fails? {
      return NotReleased(System(unlocked.errno));
    }
    if closed.Fails? {
      return NotReleased(System(closed.errno));
    }
    return Released;
  }

  /** The requests that interrupt the wait for one operation. */
  datatype Schedule = Schedule(interruptions: seq<nat>, late: nat)

  ghost predicate Expected(s: Schedule, owner: Owner)
    reads owner
  {
    Plausible(s.interruptions, owner.undelivered)
  }

  method AnySchedule(owner: Owner) returns (s: Schedule)
    ensures Expected(s, owner)
  {
    s := *;
    if !Plausible(s.interruptions, owner.undelivered) {
      s := Schedule([], s.late);
    }
  }

  /** Wait for an operation that runs in a thread and ends as ending says. */
  method WaitFor(owner: Owner, s: Schedule, ending: Ending) returns (done: bool, cancellations: seq<Cancelled>)
    requires Expected(s, owner)
    modifies owner
    ensures !done <==> Abandons(s.interruptions, old(owner.undelivered))
    ensures owner.cancelling == old(owner.cancelling) + AllRequests(cancellations)
    ensures done ==> owner.cancelling == old(owner.cancelling) + Total(s.interruptions) + s.late
    ensures !done ==> cancellations == []
    ensures !owner.undelivered
    ensures cancellations == [] <==> owner.cancelling == old(owner.cancelling)
    ensures forall i | 0 <= i < |cancellations| :: Recorded(cancellations[i])
  {
    var task := new Owned(s.interruptions, s.late, ending);
    cancellations := WaitForOwnedTask(owner, task);
    done := task.done;
  }

  /** locking.py:155-172.  The descriptor is closed exactly once before the call
      returns, unless the wait was abandoned; every request made meanwhile is in
      the cancellation that is raised. */
  method ReleaseCancellationSafe(k: Kernel, owner: Owner, d: nat, s: Schedule) returns (r: Released)
    requires k.Valid() && d in k.live && Expected(s, owner)
    modifies k, owner
    ensures k.Valid() && k.next == old(k.next) && !owner.undelivered
    ensures var abandoned := Abandons(s.interruptions, old(owner.undelivered));
            && (abandoned <==> r == NotReleased(InvalidState))
            && (abandoned ==> k.live == old(k.live) && k.locked == old(k.locked) && k.closed == old(k.closed))
            && (!abandoned ==> k.live == old(k.live) - {d} && k.locked == old(k.locked) - {d} && k.closed == old(k.closed) + [d])
    ensures owner.cancelling >= old(owner.cancelling)
    ensures (r.NotReleased? && r.failure.Cancellation?) <==> owner.cancelling > old(owner.cancelling)
    ensures r.NotReleased? && r.failure.Cancellation? ==>
              Requests(r.failure.error) == owner.cancelling - old(owner.cancelling)
    ensures r.NotReleased? ==> r.failure.Cancellation? || r.failure.System? || r.failure.InvalidState?
    ensures k.faults >= old(k.faults) && k.contended == old(k.contended)
    ensures r.NotReleased? && r.failure.System? ==> k.faults > old(k.faults)
    ensures r.Released? ==> k.faults == old(k.faults)
  {
    var ending: Ending := *;
    var done, cancellations := WaitFor(owner, s, ending);
    if !done {
      return NotReleased(InvalidState);
    }
    r := ReleaseDescriptor(k, d);
    if cancellations != [] {
      var cancellation := PrepareCancellation(cancellations);
      NoRequestLost(cancellations);
      if r.NotReleased? {
        cancellation := Remarked(cancellation);
      }
      return NotReleased(Cancellation(cancellation));
    }
  }

  /** error.add_note of a text: no further requests. */
  function Remarked(c: Cancelled): (r: Cancelled)
    ensures Requests(r) == Requests(c)
  {
    var r := Cancelled(c.message, c.notes + [Remark("cleanup failed")]);
    assert r.notes[..|c.notes|] == c.notes;
    r
  }

  /** The notes on c for a cancellation during its cleanup (locking.py:143-151). */
  method WithCleanup(c: Cancelled, cleanup: Cancelled) returns (r: Cancelled)
    ensures Requests(r) == Requests(c) + Requests(cleanup)
  {
    r := c.(notes := c.notes + [Additional(cleanup.message)]);
    assert r.notes[..|c.notes|] == c.notes;
    for i := 0 to |cleanup.notes|
      invariant Requests(r) == Requests(c) + 1 + NotesRequests(cleanup.notes[..i])
    {
      ghost var before := r.notes;
      r := r.(notes := r.notes + [Detail(cleanup.notes[i])]);
      assert r.notes[..|before|] == before;
      assert cleanup.notes[..i + 1][..i] == cleanup.notes[..i];
    }
    assert cleanup.notes[..|cleanup.notes|] == cleanup.notes;
  }

  /** locking.py:117-152.  A descriptor is returned only if no cancellation was
      requested meanwhile; otherwise whatever was opened has been closed again. */
  method AcquireCancellationSafe(k: Kernel, owner: Owner, path: LeaseFile, s: Schedule) returns (r: Acquired)
    requires k.Valid() && Expected(s, owner)
    modifies k, owner
    ensures k.Valid() && k.next >= old(k.next) && !owner.undelivered
    ensures OpensOne(r, old(k.live), k.live, old(k.next))
    ensures ClosesOwn(old(k.closed), k.closed, old(k.next))
    ensures k.locked == if r.Acquired? then old(k.locked) + {r.descriptor} else old(k.locked)
    ensures r.Acquired? ==> r.descriptor !in k.closed && owner.cancelling == old(owner.cancelling)
    ensures owner.cancelling >= old(owner.cancelling)
    ensures (r.Refused? && r.failure.Cancellation?) <==> owner.cancelling > old(owner.cancelling)
    ensures r.Refused? && r.failure.Cancellation? ==>
              Requests(r.failure.error) == owner.cancelling - old(owner.cancelling)
    ensures r == Refused(InvalidState) <==> Abandons(s.interruptions, old(owner.undelivered))
    ensures r.Refused? ==> !r.failure.System? && !r.failure.BodyFailure?
    ensures k.faults >= old(k.faults)
    ensures r.Acquired? <==>
              && owner.cancelling == old(owner.cancelling) && k.faults == old(k.faults) && Usable(path)
              && !Abandons(s.interruptions, old(owner.undelivered))
    ensures r == Refused(Busy) ==> k.contended > old(k.contended)
  {
    var ending: Ending := *;
    var done, cancellations := WaitFor(owner, s, ending);
    if !done {
      return Refused(InvalidState);
    }
    r := AcquireDescriptor(k, path);
    if r.Refused? {
      if cancellations != [] {
        var cancellation := PrepareCancellation(cancellations);
        NoRequestLost(cancellations);
        cancellation := Remarked(cancellation);
        return Refused(Cancellation(cancellation));
      }
      if r.failure.System? {
        return Refused(if path.RunLock? then StateFailure else RepositoryFailure);
      }
      return;
    }
    if cancellations != [] {
      var cancellation := PrepareCancellation(cancellations);
      NoRequestLost(cancellations);
      var again := AnySchedule(owner);
      var released := ReleaseCancellationSafe(k, owner, r.descriptor, again);
      if released.NotReleased? {
        if released.failure.Cancellation? {
          cancellation := WithCleanup(cancellation, released.failure.error);
        } else {
          cancellation := Remarked(cancellation);
        }
      }
      return Refused(Cancellation(cancellation));
    }
  }

  datatype Ended = Finished | Broken(failure: Failure)

  /** The block that runs under the lease: entered only while it is held, and only
      if no cancellation was requested since requestsBefore. */
  method Body(k: Kernel, owner: Owner, d: nat, ghost requestsBefore: nat) returns (r: Ended)
    requires k.Valid() && d in k.live && d in k.locked
    requires owner.cancelling == requestsBefore && !owner.undelivered
    modifies owner
    ensures owner.cancelling >= old(owner.cancelling)
  {
    var requests: int := *;
    if requests > 0 {
      owner.cancelling := owner.cancelling + requests;
    }
    owner.undelivered := *;
    var raises: bool := *;
    r := if raises then Broken(BodyFailure) else Finished;
  }

  /** One use of a lease.  requestsAtEntry is the owner's count when the block was
      entered; left tells that the block ended with a request still to be
      delivered, and release which requests arrived during the release. */
  datatype Use =
    | NotEntered(failure: Failure)
    | Entered(descriptor: nat, requestsAtEntry: nat, left: bool, release: Schedule, ended: Ended)

  /** The release was waited for to its end. */
  predicate Completed(use: Use)
    requires use.Entered?
  {
    !Abandons(use.release.interruptions, use.left)
  }

  /** locking.py:84-114.  The block is entered only with a held descriptor and only
      if no cancellation was requested since the call began.  Its descriptor has
      been closed, once, when the lease is left, exactly if the wait for the
      release was not abandoned; no other descriptor of the lease stays open. */
  method ExclusiveLease(k: Kernel, owner: Owner, path: LeaseFile) returns (use: Use)
    requires k.Valid()
    modifies k, owner
    ensures k.Valid()
    ensures ClosesOwn(old(k.closed), k.closed, old(k.next))
    ensures use.NotEntered? ==> k.live == old(k.live) && k.locked == old(k.locked)
    ensures use.NotEntered? ==>
              owner.cancelling > old(owner.cancelling) || k.faults > old(k.faults) || !Usable(path) || old(owner.undelivered)
    ensures use.NotEntered? && owner.cancelling > old(owner.cancelling) ==>
              use.failure.Cancellation? && Requests(use.failure.error) == owner.cancelling - old(owner.cancelling)
    ensures use.Entered? ==> use.requestsAtEntry == old(owner.cancelling) && use.descriptor !in old(k.live)
    ensures use.Entered? ==> (use.descriptor in k.closed[|old(k.closed)|..] <==> Completed(use))
    ensures use.Entered? ==>
              && k.live == old(k.live) + (if Completed(use) then {} else {use.descriptor})
              && k.locked == old(k.locked) + (if Completed(use) then {} else {use.descriptor})
    ensures use.Entered? && use.ended.Finished? ==> Completed(use) && k.faults == old(k.faults)
  {
    var s := AnySchedule(owner);
    var acquired := AcquireCancellationSafe(k, owner, path, s);
    if acquired.Refused? {
      return NotEntered(acquired.failure);
    }
    var d := acquired.descriptor;
    var entry := owner.cancelling;
    ghost var closedBefore := k.closed;
    var ended := Body(k, owner, d, old(owner.cancelling));
    var left := owner.undelivered;
    var release := AnySchedule(owner);
    var released := ReleaseCancellationSafe(k, owner, d, release);
    if ended.Finished? && released.NotReleased? {
      ended := Broken(released.failure);
    }
    use := Entered(d, entry, left, release, ended);
    if Completed(use) {
      assert k.closed == closedBefore + [d];
      assert k.closed[|closedBefore|] == d && k.closed[|old(k.closed)|..][|closedBefore| - |old(k.closed)|] == d;
    } else {
      assert forall e | e in k.closed[|old(k.closed)|..] :: e in k.closed;
    }
  }

  /** The wait for a release can be abandoned: the block ends with a request still
      to be delivered, which is all that interrupts the first wait. */
  lemma {:induction false} AbandonmentHappens()
    ensures Plausible([0], true) && Abandons([0], true)
    ensures forall interruptions :: !Abandons(interruptions, false)
  {
  }
}
