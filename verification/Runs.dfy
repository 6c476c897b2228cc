/** Runs of a machine given by its partial step function. */
module Runs {
  import opened Wrappers

  /** The state after a run of steps, or None when some step is not enabled. */
  function Run<S, T>(next: (S, T) -> Option<S>, s: S, steps: seq<T>): Option<S>
    decreases |steps|
  {
    if steps == [] then Some(s)
    else match next(s, steps[0])
      case None => None
      case Some(s') => Run(next, s', steps[1..])
  }

  lemma {:induction false} RunConcat<S, T>(next: (S, T) -> Option<S>, s: S, a: seq<T>, b: seq<T>)
    requires Run(next, s, a).Some?
    ensures Run(next, s, a + b) == Run(next, Run(next, s, a).value, b)
    decreases |a|
  {
    if a == [] {
      assert a + b == b;
    } else {
      assert (a + b)[1..] == a[1..] + b;
      RunConcat(next, next(s, a[0]).value, a[1..], b);
    }
  }

  lemma RunOne<S, T>(next: (S, T) -> Option<S>, s: S, t: T)
    ensures Run(next, s, [t]) == next(s, t)
  {
    assert [t][1..] == [];
  }

  /** One more step. */
  lemma RunSnoc<S, T>(next: (S, T) -> Option<S>, s: S, steps: seq<T>, t: T)
    requires Run(next, s, steps).Some?
    ensures Run(next, s, steps + [t]) == next(Run(next, s, steps).value, t)
  {
    RunConcat(next, s, steps, [t]);
    RunOne(next, Run(next, s, steps).value, t);
  }

  /** A run given by the states it goes through. */
  lemma {:induction false} RunChain<S, T>(next: (S, T) -> Option<S>, chain: seq<S>, steps: seq<T>)
    requires |chain| == |steps| + 1
    requires forall i :: 0 <= i < |steps| ==> next(chain[i], steps[i]) == Some(chain[i + 1])
    ensures Run(next, chain[0], steps) == Some(chain[|steps|])
    decreases |steps|
  {
    if steps != [] {
      RunChain(next, chain[1..], steps[1..]);
    }
  }
}
