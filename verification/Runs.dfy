/** Runs of a state machine: `step` says what one act makes of a state, if it is possible there. */
module Runs {
  import opened Wrappers

  /** The state a whole run ends in, if every act was possible when taken. */
  function Run<S, A>(step: (S, A) -> Option<S>, s: S, acts: seq<A>): Option<S>
    decreases |acts|
  {
    if acts == [] then Some(s)
    else
      var before := Run(step, s, acts[..|acts| - 1]);
      if before.Some? then step(before.value, acts[|acts| - 1]) else None
  }

  lemma Snoc<S, A>(step: (S, A) -> Option<S>, s: S, acts: seq<A>, a: A)
    requires Run(step, s, acts).Some?
    ensures Run(step, s, acts + [a]) == step(Run(step, s, acts).value, a)
  {
    assert (acts + [a])[..|acts|] == acts;
  }

  lemma {:induction false} Concat<S, A>(step: (S, A) -> Option<S>, s: S, first: seq<A>, second: seq<A>)
    requires Run(step, s, first).Some?
    ensures Run(step, s, first + second) == Run(step, Run(step, s, first).value, second)
    decreases |second|
  {
    if second == [] {
      assert first + second == first;
    } else {
      var acts := first + second;
      assert acts[..|acts| - 1] == first + second[..|second| - 1];
      Concat(step, s, first, second[..|second| - 1]);
    }
  }

  lemma Cons<S, A>(step: (S, A) -> Option<S>, s: S, a: A, rest: seq<A>)
    requires step(s, a).Some?
    ensures Run(step, s, [a] + rest) == Run(step, step(s, a).value, rest)
  {
    assert [a][..0] == [];
    Concat(step, s, [a], rest);
  }

  /** The acts `round` lead from where `goal` holds of `k` to where it holds of `k + 1`. */
  predicate Advances<S, A>(step: (S, A) -> Option<S>, round: seq<A>, goal: (S, nat) -> bool, s: S, k: nat) {
    goal(s, k) ==> Run(step, s, round).Some? && goal(Run(step, s, round).value, k + 1)
  }

  /** Going round again and again leads from 1 to any `n` after it. */
  lemma {:induction false} Iterate<S(!new), A>(step: (S, A) -> Option<S>, s: S, start: seq<A>, round: seq<A>,
                                               goal: (S, nat) -> bool, n: nat) returns (acts: seq<A>)
    requires n >= 1 && Run(step, s, start).Some? && goal(Run(step, s, start).value, 1)
    requires forall x: S, k: nat :: Advances(step, round, goal, x, k)
    ensures Run(step, s, acts).Some? && goal(Run(step, s, acts).value, n)
  {
    if n == 1 {
      acts := start;
    } else {
      acts := Iterate(step, s, start, round, goal, n - 1);
      assert Advances(step, round, goal, Run(step, s, acts).value, n - 1);
      Concat(step, s, acts, round);
      acts := acts + round;
    }
  }

  predicate Keeps<S, A>(step: (S, A) -> Option<S>, ok: S -> bool, allowed: A -> bool, s: S, a: A) {
    ok(s) && allowed(a) && step(s, a).Some? ==> ok(step(s, a).value)
  }

  /** What every allowed act keeps, every run of allowed acts keeps. */
  lemma {:induction false} RunKeeps<S(!new), A(!new)>(step: (S, A) -> Option<S>, ok: S -> bool, allowed: A -> bool,
                                                      s: S, acts: seq<A>)
    requires forall x: S, a: A :: Keeps(step, ok, allowed, x, a)
    requires ok(s) && (forall i | 0 <= i < |acts| :: allowed(acts[i])) && Run(step, s, acts).Some?
    ensures ok(Run(step, s, acts).value)
    decreases |acts|
  {
    if acts != [] {
      var before, a := acts[..|acts| - 1], acts[|acts| - 1];
      RunKeeps(step, ok, allowed, s, before);
      assert Keeps(step, ok, allowed, Run(step, s, before).value, a);
    }
  }

  /** An allowed act keeps `ok` and lowers `energy`. */
  predicate Spends<S, A>(step: (S, A) -> Option<S>, ok: S -> bool, energy: S -> nat, allowed: A -> bool, s: S, a: A) {
    ok(s) && allowed(a) && step(s, a).Some? ==> ok(step(s, a).value) && energy(step(s, a).value) < energy(s)
  }

  /** A run of allowed acts is no longer than the energy it starts with. */
  lemma {:induction false} RunSpends<S(!new), A(!new)>(step: (S, A) -> Option<S>, ok: S -> bool, energy: S -> nat,
                                                       allowed: A -> bool, s: S, acts: seq<A>)
    requires forall x: S, a: A :: Spends(step, ok, energy, allowed, x, a)
    requires ok(s) && (forall i | 0 <= i < |acts| :: allowed(acts[i])) && Run(step, s, acts).Some?
    ensures var t := Run(step, s, acts).value;
            ok(t) && |acts| + energy(t) <= energy(s)
    decreases |acts|
  {
    if acts != [] {
      var before, a := acts[..|acts| - 1], acts[|acts| - 1];
      RunSpends(step, ok, energy, allowed, s, before);
      assert Spends(step, ok, energy, allowed, Run(step, s, before).value, a);
    }
  }
}
