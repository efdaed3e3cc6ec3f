// File descriptors of the process and the system calls that open, lock and
// close them.  Every call may fail.

module Descriptors {

  datatype Errno = Exists | NotFound | Denied | Again | OtherError

  datatype Call = Done | Fails(errno: Errno)

  datatype Opened = Descriptor(number: nat) | NotOpened(errno: Errno)

  /** ds in the opposite order. */
  function Reversed(ds: seq<nat>): seq<nat> {
    if ds == [] then [] else Reversed(ds[1..]) + [ds[0]]
  }

  predicate Faulted(fails: bool, before: nat, after: nat) {
    before <= after && (fails <==> before < after)
  }

  predicate Distinct(ds: seq<nat>) {
    forall i, j | 0 <= i < j < |ds| :: ds[i] != ds[j]
  }

  /** Nothing that was open before is closed, and nothing twice: every close is of
      a descriptor opened since. */
  ghost predicate ClosesOwn(before: seq<nat>, after: seq<nat>, next: nat) {
    && |before| <= |after| && after[..|before|] == before
    && (forall i | |before| <= i < |after| :: after[i] >= next)
    && (forall i, j | |before| <= i < j < |after| :: after[i] != after[j])
  }

  /** Descriptors get fresh numbers here, so closing one twice, or one that is
      not open, shows: Close demands an open one.  faults counts failed calls,
      contended those of them that found a lock held elsewhere. */
  class Kernel {
    var live: set<nat>
    var locked: set<nat>
    var next: nat
    ghost var closed: seq<nat>
    ghost var faults: nat
    ghost var contended: nat

    ghost predicate Valid()
      reads this
    {
      && locked <= live
      && (forall d | d in live :: d < next)
      && (forall d | d in closed :: d < next && d !in live)
    }

    constructor ()
      ensures Valid() && live == {} && locked == {} && closed == []
    {
      live, locked, next, closed, faults, contended := {}, {}, 0, [], 0, 0;
    }

    method Open() returns (r: Opened)
      requires Valid()
      modifies this`live, this`next, this`faults
      ensures Faulted(r.NotOpened?, old(faults), faults)
      ensures Valid() && old(next) <= next
      ensures r.NotOpened? ==> live == old(live)
      ensures r.Descriptor? ==>
                r.number == old(next) && r.number < next && live == old(live) + {r.number} && r.number !in old(live)
    {
      var fails: bool := *;
      if fails {
        var errno: Errno := *;
        faults := faults + 1;
        return NotOpened(errno);
      }
      r := Descriptor(next);
      live := live + {next};
      next := next + 1;
    }

    /** close(2) gives the descriptor up even when it reports an error. */
    method Close(d: nat) returns (r: Call)
      requires Valid() && d in live
      modifies this`live, this`locked, this`closed, this`faults
      ensures Valid() && Faulted(r.Fails?, old(faults), faults)
      ensures live == old(live) - {d} && locked == old(locked) - {d} && closed == old(closed) + [d]
    {
      live, locked, closed := live - {d}, locked - {d}, closed + [d];
      r := Call();
    }

    /** flock(2), exclusive and without waiting. */
    method Lock(d: nat) returns (r: Call)
      requires Valid() && d in live
      modifies this`locked, this`faults, this`contended
      ensures Faulted(r.Fails?, old(faults), faults)
      ensures Faulted(r.Fails? && r.errno in {Denied, Again}, old(contended), contended)
      ensures Valid() && locked == if r.Done? then old(locked) + {d} else old(locked)
    {
      r := Call();
      if r.Done? {
        locked := locked + {d};
      } else if r.errno in {Denied, Again} {
        contended := contended + 1;
      }
    }

    method Unlock(d: nat) returns (r: Call)
      requires Valid() && d in live
      modifies this`locked, this`faults
      ensures Faulted(r.Fails?, old(faults), faults)
      ensures Valid() && locked == if r.Done? then old(locked) - {d} else old(locked)
    {
      r := Call();
      if r.Done? {
        locked := locked - {d};
      }
    }

    /** mkdir, fstat, fchmod and the like: no effect on descriptors. */
    method Call() returns (r: Call)
      modifies this`faults
      ensures Faulted(r.Fails?, old(faults), faults)
    {
      r := *;
      if r.Fails? {
        faults := faults + 1;
      }
    }

    /** mkdir: an existing directory will do. */
    method MakeDirectory() returns (r: Call)
      modifies this`faults
      ensures Faulted(r.Fails?, old(faults), faults)
      ensures r.Fails? ==> r.errno != Exists
    {
      r := *;
      if r.Fails? {
        if r.errno == Exists {
          r := Done;
        } else {
          faults := faults + 1;
        }
      }
    }

    /** Close every descriptor, the last opened first, whatever fails; report the
        first failure (locking.py:306-316, repository.py:1471-1480). */
    method CloseAll(ds: seq<nat>) returns (first: Call)
      requires Valid() && Distinct(ds) && forall d | d in ds :: d in live
      modifies this`live, this`locked, this`closed, this`faults
      ensures Valid() && Faulted(first.Fails?, old(faults), faults)
      ensures live == old(live) - (set d | d in ds) && locked == old(locked) - (set d | d in ds)
      ensures closed == old(closed) + Reversed(ds)
    {
      first := Done;
      var i := |ds|;
      while i > 0
        invariant 0 <= i <= |ds| && Valid() && Faulted(first.Fails?, old(faults), faults)
        invariant forall d | d in ds[..i] :: d in live
        invariant live == old(live) - (set d | d in ds[i..]) && locked == old(locked) - (set d | d in ds[i..])
        invariant closed == old(closed) + Reversed(ds[i..])
      {
        i := i - 1;
        assert ds[i..] == [ds[i]] + ds[i + 1..];
        assert ds[..i + 1][i] == ds[i] && ds[..i + 1][..i] == ds[..i];
        forall d | d in ds[..i] ensures d != ds[i] {
          var k :| 0 <= k < i && ds[k] == d;
        }
        ClosedLast(ds[i], ds[i + 1..]);
        var r := Close(ds[i]);
        if first.Done? {
          first := r;
        }
      }
      assert ds[0..] == ds;
    }
  }

  lemma {:induction false} ClosedLast(d: nat, ds: seq<nat>)
    ensures Reversed([d] + ds) == Reversed(ds) + [d]
  {
    assert ([d] + ds)[1..] == ds;
  }

  lemma {:induction false} ReversedMembers(ds: seq<nat>, d: nat)
    ensures d in Reversed(ds) <==> d in ds
    decreases |ds|
  {
    if ds != [] {
      ReversedMembers(ds[1..], d);
      assert ds == [ds[0]] + ds[1..];
    }
  }

  /** Closing in reverse closes each descriptor exactly once. */
  lemma {:induction false} ReversedOnce(ds: seq<nat>)
    requires Distinct(ds)
    ensures multiset(Reversed(ds)) == multiset(ds) && Distinct(Reversed(ds))
    decreases |ds|
  {
    if ds != [] {
      var rest := ds[1..];
      assert Distinct(rest) by {
        assert forall i | 0 <= i < |rest| :: rest[i] == ds[i + 1];
      }
      ReversedOnce(rest);
      ReversedMembers(rest, ds[0]);
      assert ds[0] !in rest;
      assert ds == [ds[0]] + rest;
    }
  }

  lemma {:induction false} CloseMore(before: seq<nat>, middle: seq<nat>, more: seq<nat>, next: nat)
    requires ClosesOwn(before, middle, next) && Distinct(more) && forall d | d in more :: d >= next && d !in middle
    ensures ClosesOwn(before, middle + more, next)
  {
    var after := middle + more;
    forall i | |before| <= i < |after| ensures after[i] >= next {
      assert after[i] == if i < |middle| then middle[i] else more[i - |middle|];
      assert i >= |middle| ==> more[i - |middle|] in more;
    }
    forall i, j | |before| <= i < j < |after| ensures after[i] != after[j] {
      assert after[i] == if i < |middle| then middle[i] else more[i - |middle|];
      assert after[j] == if j < |middle| then middle[j] else more[j - |middle|];
      assert i < |middle| <= j ==> middle[i] in middle && more[j - |middle|] in more;
    }
  }

  lemma {:induction false} ReversedJoin(a: seq<nat>, b: seq<nat>)
    ensures Reversed(a + b) == Reversed(b) + Reversed(a)
    decreases |a|
  {
    if a == [] {
      assert a + b == b;
    } else {
      ReversedJoin(a[1..], b);
      assert (a + b)[1..] == a[1..] + b;
    }
  }

  /** Closing descriptors of one's own in reverse. */
  lemma {:induction false} CloseReversed(before: seq<nat>, middle: seq<nat>, ds: seq<nat>, next: nat)
    requires ClosesOwn(before, middle, next) && Distinct(ds) && forall d | d in ds :: d >= next && d !in middle
    ensures ClosesOwn(before, middle + Reversed(ds), next)
  {
    ReversedOnce(ds);
    forall d ensures d in Reversed(ds) <==> d in ds {
      ReversedMembers(ds, d);
    }
    CloseMore(before, middle, Reversed(ds), next);
  }
}
