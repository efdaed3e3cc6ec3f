// Running a sequence of actions of a partial deterministic machine.

module Traces {
  import opened Domain

  ghost function Exec<A, V>(step: (A, V) -> Option<V>, trace: seq<A>, v: V): Option<V>
    decreases |trace|
  {
    if trace == [] then Some(v)
    else match step(trace[0], v)
      case None => None
      case Some(next) => Exec(step, trace[1..], next)
  }

  lemma {:induction false} ExecOne<A, V>(step: (A, V) -> Option<V>, a: A, v: V)
    ensures Exec(step, [a], v) == step(a, v)
  {
    if step(a, v).Some? {
      assert [a][1..] == [];
    }
  }

  lemma {:induction false} ExecAppend<A, V>(step: (A, V) -> Option<V>, first: seq<A>, second: seq<A>, v: V)
    ensures Exec(step, first + second, v) ==
            match Exec(step, first, v) case None => None case Some(mid) => Exec(step, second, mid)
    decreases |first|
  {
    if first == [] {
      assert first + second == second;
    } else {
      assert (first + second)[0] == first[0] && (first + second)[1..] == first[1..] + second;
      if step(first[0], v).Some? {
        ExecAppend(step, first[1..], second, step(first[0], v).value);
      }
    }
  }
}
