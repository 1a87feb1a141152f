/** Runs of a state machine given by a total step function. */
module Traces {

  function Run<S, A>(next: (S, A) -> S, s: S, steps: seq<A>): S
    decreases |steps|
  {
    if steps == [] then s else Run(next, next(s, steps[0]), steps[1..])
  }

  ghost predicate Reachable<S, A(!new)>(next: (S, A) -> S, init: S, s: S) {
    exists steps: seq<A> :: Run(next, init, steps) == s
  }

  /** What every step keeps, every run keeps. */
  lemma {:induction false} RunKeeps<S(!new), A(!new)>(next: (S, A) -> S, inv: S -> bool, s: S, steps: seq<A>)
    requires inv(s)
    requires forall t, a :: inv(t) ==> inv(next(t, a))
    ensures inv(Run(next, s, steps))
    decreases |steps|
  {
    if steps != [] {
      RunKeeps(next, inv, next(s, steps[0]), steps[1..]);
    }
  }

  lemma {:induction false} RunAppend<S, A>(next: (S, A) -> S, s: S, xs: seq<A>, a: A)
    ensures Run(next, s, xs + [a]) == next(Run(next, s, xs), a)
    decreases |xs|
  {
    if xs == [] {
      assert [a][1..] == [] && xs + [a] == [a];
    } else {
      RunAppend(next, next(s, xs[0]), xs[1..], a);
      assert (xs + [a])[1..] == xs[1..] + [a];
    }
  }

  lemma InitReachable<S, A(!new)>(next: (S, A) -> S, init: S)
    ensures Reachable(next, init, init)
  {
    assert Run(next, init, []) == init;
  }

  lemma Extend<S, A(!new)>(next: (S, A) -> S, init: S, s: S, a: A) returns (s': S)
    requires Reachable(next, init, s)
    ensures s' == next(s, a) && Reachable(next, init, s')
  {
    var xs: seq<A> :| Run(next, init, xs) == s;
    RunAppend(next, init, xs, a);
    s' := next(s, a);
  }
}
