// Waiting for an owned operation through repeated cancellation
// (async_tools.py): which requests are recorded, and that none is lost.

module Cancellation {

  /** A note on a cancellation error.  Detail repeats a note of another error. */
  datatype Note =
    | Coalesced(extra: nat)
    | Additional(message: string)
    | Detail(note: Note)
    | Remark(text: string)

  datatype Cancelled = Cancelled(message: string, notes: seq<Note>)

  /** How many cancellation requests a note stands for. */
  function NoteRequests(note: Note): nat {
    match note
    case Coalesced(extra) => extra
    case Additional(_) => 1
    case Detail(inner) => NoteRequests(inner)
    case Remark(_) => 0
  }

  function NotesRequests(notes: seq<Note>): nat {
    if notes == [] then 0 else NotesRequests(notes[..|notes| - 1]) + NoteRequests(notes[|notes| - 1])
  }

  /** The error itself stands for one request, its notes for the others. */
  function Requests(c: Cancelled): nat {
    1 + NotesRequests(c.notes)
  }

  function AllRequests(cs: seq<Cancelled>): nat {
    if cs == [] then 0 else AllRequests(cs[..|cs| - 1]) + Requests(cs[|cs| - 1])
  }

  lemma {:induction false} NotesJoin(a: seq<Note>, b: seq<Note>)
    ensures NotesRequests(a + b) == NotesRequests(a) + NotesRequests(b)
    decreases |b|
  {
    if b == [] {
      assert a + b == a;
    } else {
      var most := b[..|b| - 1];
      NotesJoin(a, most);
      assert (a + b)[..|a + b| - 1] == a + most;
    }
  }

  /** The asyncio task that waits: its count of cancellation requests, and whether
      one of them still has to be delivered at the next wait. */
  class Owner {
    var cancelling: nat
    var undelivered: bool

    constructor ()
      ensures cancelling == 0 && !undelivered
    {
      cancelling, undelivered := 0, false;
    }
  }

  datatype Ending = Returned | Raised | CancelledItself

  datatype Wake = Value | Error | Interrupt(error: Cancelled)

  /** The owned task: how many requests interrupt each wait that ends before it
      does, how many arrive while it ends, and how it ends. */
  class Owned {
    var done: bool
    var interruptions: seq<nat>
    const late: nat
    const ending: Ending

    constructor (interruptions: seq<nat>, late: nat, ending: Ending)
      ensures !done && this.interruptions == interruptions && this.late == late && this.ending == ending
    {
      this.done, this.interruptions, this.late, this.ending := false, interruptions, late, ending;
    }
  }

  /** A wait is only interrupted by a request: one made during it, or, for the
      first, one left undelivered. */
  predicate Plausible(interruptions: seq<nat>, undelivered: bool) {
    && (forall i | 1 <= i < |interruptions| :: interruptions[i] >= 1)
    && (interruptions != [] && !undelivered ==> interruptions[0] >= 1)
  }

  /** The wait ends with its owned task still running exactly if a request was
      left undelivered from before it and no other joins it in the first wait. */
  predicate Abandons(interruptions: seq<nat>, undelivered: bool) {
    undelivered && interruptions != [] && interruptions[0] == 0
  }

  function Total(counts: seq<nat>): nat {
    if counts == [] then 0 else counts[0] + Total(counts[1..])
  }

  /** await asyncio.shield(task) */
  method AwaitShield(owner: Owner, task: Owned) returns (wake: Wake)
    requires !task.done && Plausible(task.interruptions, owner.undelivered)
    modifies owner, task
    ensures !owner.undelivered && Plausible(task.interruptions, false)
    ensures task.done <==> old(task.interruptions) == []
    ensures task.done ==> task.interruptions == [] && owner.cancelling == old(owner.cancelling) + task.late
    ensures !task.done ==>
              && task.interruptions == old(task.interruptions)[1..]
              && owner.cancelling == old(owner.cancelling) + old(task.interruptions)[0]
    ensures !task.done || old(owner.undelivered) || task.late > 0 ==> wake.Interrupt?
    ensures wake.Interrupt? ==> wake.error.notes == []
    ensures task.done && !old(owner.undelivered) && task.late == 0 ==>
              wake.Value? == task.ending.Returned? && wake.Error? == task.ending.Raised?
  {
    var message: string := *;
    if task.interruptions != [] {
      owner.cancelling := owner.cancelling + task.interruptions[0];
      owner.undelivered := false;
      task.interruptions := task.interruptions[1..];
      return Interrupt(Cancelled(message, []));
    }
    task.done := true;
    owner.cancelling := owner.cancelling + task.late;
    if owner.undelivered || task.late > 0 {
      owner.undelivered := false;
      return Interrupt(Cancelled(message, []));
    }
    match task.ending
    case Returned => wake := Value;
    case Raised => wake := Error;
    case CancelledItself => wake := Interrupt(Cancelled(message, []));
  }

  /** async_tools.py:10-36.  The recorded errors account for exactly the requests
      that were made during the wait. */
  method WaitForOwnedTask(owner: Owner, task: Owned) returns (cancellations: seq<Cancelled>)
    requires !task.done && Plausible(task.interruptions, owner.undelivered)
    modifies owner, task
    ensures owner.cancelling == old(owner.cancelling) + AllRequests(cancellations)
    ensures !task.done <==> Abandons(old(task.interruptions), old(owner.undelivered))
    ensures task.done ==> owner.cancelling == old(owner.cancelling) + Total(old(task.interruptions)) + task.late
    ensures !task.done ==> cancellations == []
    ensures !owner.undelivered
    ensures cancellations == [] <==> owner.cancelling == old(owner.cancelling)
    ensures forall i | 0 <= i < |cancellations| :: Recorded(cancellations[i])
  {
    var observed := owner.cancelling;
    ghost var script := task.interruptions;
    ghost var passed := 0;
    cancellations := [];
    while !task.done
      invariant owner.cancelling == observed
      invariant observed == old(owner.cancelling) + AllRequests(cancellations)
      invariant Plausible(task.interruptions, owner.undelivered)
      invariant cancellations == [] ==> !task.done ==> task.interruptions == script && owner.undelivered == old(owner.undelivered)
      invariant cancellations != [] || task.done ==> !owner.undelivered && !Abandons(script, old(owner.undelivered))
      invariant !task.done ==> observed + Total(task.interruptions) == old(owner.cancelling) + Total(script)
      invariant task.done ==> observed == old(owner.cancelling) + Total(script) + task.late
      invariant forall i | 0 <= i < |cancellations| :: Recorded(cancellations[i])
      decreases !task.done, |task.interruptions|
    {
      var wake := AwaitShield(owner, task);
      match wake
      case Value =>
      case Error => break;
      case Interrupt(error) =>
        var current := owner.cancelling;
        if current == observed {
          break;
        }
        var coalesced := current - observed;
        var noted := error;
        if coalesced > 1 {
          noted := Cancelled(error.message, error.notes + [Coalesced(coalesced - 1)]);
        }
        assert noted.notes == if coalesced > 1 then [Coalesced(coalesced - 1)] else [];
        assert NotesRequests([]) == 0;
        assert Requests(noted) == coalesced by {
          if coalesced > 1 {
            assert noted.notes[..0] == [];
          }
        }
        cancellations := cancellations + [noted];
        assert cancellations[..|cancellations| - 1] + [noted] == cancellations;
        observed := current;
    }
  }

  // ----- combining the recorded errors -----

  /** The notes added for one further cancellation: its message, then its notes. */
  function Mention(c: Cancelled): seq<Note> {
    [Additional(if c.message == "" then "without a message" else c.message)]
    + seq(|c.notes|, i requires 0 <= i < |c.notes| => Detail(c.notes[i]))
  }

  function Mentions(cs: seq<Cancelled>): seq<Note> {
    if cs == [] then [] else Mentions(cs[..|cs| - 1]) + Mention(cs[|cs| - 1])
  }

  /** Recorded by a wait: the only notes are counts of coalesced requests. */
  predicate Recorded(c: Cancelled) {
    forall i | 0 <= i < |c.notes| :: c.notes[i].Coalesced?
  }

  function Prepared(cs: seq<Cancelled>): Cancelled
    requires cs != []
  {
    Cancelled(cs[0].message, cs[0].notes + Mentions(cs[1..]))
  }

  /** The notes added for one further cancellation (async_tools.py:47-53). */
  method AddMention(notes: seq<Note>, additional: Cancelled) returns (all: seq<Note>)
    ensures all == notes + Mention(additional)
  {
    var message := if additional.message == "" then "without a message" else additional.message;
    all := notes + [Additional(message)];
    for j := 0 to |additional.notes|
      invariant all == notes + Mention(additional)[..j + 1]
    {
      all := all + [Detail(additional.notes[j])];
    }
    assert Mention(additional)[..|additional.notes| + 1] == Mention(additional);
  }

  /** async_tools.py:39-54. */
  method PrepareCancellation(cancellations: seq<Cancelled>) returns (primary: Cancelled)
    requires cancellations != []
    ensures primary == Prepared(cancellations)
  {
    hide Mention;
    primary := cancellations[0];
    var rest := cancellations[1..];
    for i := 0 to |rest|
      invariant primary == Cancelled(cancellations[0].message, cancellations[0].notes + Mentions(rest[..i]))
    {
      var notes := AddMention(primary.notes, rest[i]);
      primary := primary.(notes := notes);
      assert rest[..i + 1][..i] == rest[..i];
    }
    assert rest[..|rest|] == rest;
  }

  lemma {:induction false} DetailsCount(c: Cancelled, j: nat)
    requires Recorded(c) && j <= |c.notes|
    ensures NotesRequests(Mention(c)[..j + 1]) == 1 + NotesRequests(c.notes[..j])
    decreases j
  {
    var m := Mention(c);
    assert m[..j + 1][..j] == m[..j];
    if j == 0 {
      assert m[..0] == [] && c.notes[..0] == [];
    } else {
      DetailsCount(c, j - 1);
      assert m[j] == Detail(c.notes[j - 1]) && c.notes[j - 1].Coalesced?;
      assert c.notes[..j][..j - 1] == c.notes[..j - 1];
    }
  }

  lemma {:induction false} MentionCounts(c: Cancelled)
    requires Recorded(c)
    ensures NotesRequests(Mention(c)) == Requests(c)
  {
    DetailsCount(c, |c.notes|);
    assert Mention(c)[..|c.notes| + 1] == Mention(c) && c.notes[..|c.notes|] == c.notes;
  }

  lemma {:induction false} MentionsCount(cs: seq<Cancelled>)
    requires forall i | 0 <= i < |cs| :: Recorded(cs[i])
    ensures NotesRequests(Mentions(cs)) == AllRequests(cs)
    decreases |cs|
  {
    if cs != [] {
      var most, last := cs[..|cs| - 1], cs[|cs| - 1];
      MentionsCount(most);
      MentionCounts(last);
      NotesJoin(Mentions(most), Mention(last));
    }
  }

  lemma {:induction false} AllRequestsSplit(cs: seq<Cancelled>)
    requires cs != []
    ensures AllRequests(cs) == Requests(cs[0]) + AllRequests(cs[1..])
    decreases |cs|
  {
    var most := cs[..|cs| - 1];
    if |cs| == 1 {
      assert most == [] && cs[1..] == [];
    } else {
      AllRequestsSplit(most);
      assert most[1..] == cs[1..][..|cs[1..]| - 1];
    }
  }

  /** The one error that is raised stands for every request that any of the
      combined errors stood for. */
  lemma {:induction false} NoRequestLost(cs: seq<Cancelled>)
    requires cs != [] && forall i | 0 <= i < |cs| :: Recorded(cs[i])
    ensures Requests(Prepared(cs)) == AllRequests(cs)
  {
    MentionsCount(cs[1..]);
    NotesJoin(cs[0].notes, Mentions(cs[1..]));
    AllRequestsSplit(cs);
  }
}
