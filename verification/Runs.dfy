/** Runs of a state machine, how many of their steps change the state, and what bounds them. */
module Runs {

  /** Takes the steps in order. */
  function Run<S, A>(next: (S, A) -> S, s: S, steps: seq<A>): S
    decreases |steps|
  {
    if steps == [] then s else Run(next, next(s, steps[0]), steps[1..])
  }

  lemma {:induction false} RunThen<S, A>(next: (S, A) -> S, s: S, first: seq<A>, second: seq<A>)
    ensures Run(next, s, first + second) == Run(next, Run(next, s, first), second)
    decreases |first|
  {
    if first == [] {
      assert first + second == second;
    } else {
      assert (first + second)[1..] == first[1..] + second;
      RunThen(next, next(s, first[0]), first[1..], second);
    }
  }

  /** `steps` and then `step`, from `s`. */
  lemma {:induction false} Do<S, A>(next: (S, A) -> S, s: S, steps: seq<A>, step: A) returns (more: seq<A>)
    ensures more == steps + [step] && Run(next, s, more) == next(Run(next, s, steps), step)
  {
    more := steps + [step];
    RunThen(next, s, steps, [step]);
    assert [step][1..] == [];
  }

  /** `steps` and then `rest`, from `s`. */
  lemma {:induction false} Then<S, A>(next: (S, A) -> S, s: S, steps: seq<A>, rest: seq<A>) returns (more: seq<A>)
    ensures more == steps + rest && Run(next, s, more) == Run(next, Run(next, s, steps), rest)
  {
    more := steps + rest;
    RunThen(next, s, steps, rest);
  }

  /** What every step keeps, every run keeps. */
  lemma {:induction false} RunKeeps<S(!new), A(!new)>(next: (S, A) -> S, inv: S -> bool, s: S, steps: seq<A>)
    requires inv(s) && forall t, a :: inv(t) ==> inv(next(t, a))
    ensures inv(Run(next, s, steps))
    decreases |steps|
  {
    if steps != [] {
      RunKeeps(next, inv, next(s, steps[0]), steps[1..]);
    }
  }

  function Changes<S(==), A>(next: (S, A) -> S, s: S, steps: seq<A>): nat
    decreases |steps|
  {
    if steps == [] then 0
    else (if next(s, steps[0]) == s then 0 else 1) + Changes(next, next(s, steps[0]), steps[1..])
  }

  /** If every change uses up work, a run has no more changes than there is work at its start. */
  lemma {:induction false} ChangesBounded<S(!new), A(!new)>(
    next: (S, A) -> S, inv: S -> bool, work: S -> int, s: S, steps: seq<A>)
    requires inv(s) && forall t, a :: inv(t) ==> inv(next(t, a))
    requires forall t, a :: inv(t) && next(t, a) != t ==> work(next(t, a)) < work(t)
    requires forall t :: inv(t) ==> work(t) >= 0
    ensures Changes(next, s, steps) <= work(s)
    decreases |steps|
  {
    if steps != [] {
      ChangesBounded(next, inv, work, next(s, steps[0]), steps[1..]);
    }
  }

  /** The work of the first `n` threads together. */
  function Total(n: nat, work: nat -> int): int {
    if n == 0 then 0 else Total(n - 1, work) + work(n - 1)
  }

  lemma {:induction false} TotalChange(n: nat, before: nat -> int, after: nat -> int, k: nat)
    requires forall j: nat :: j < n && j != k ==> after(j) == before(j)
    ensures Total(n, after) == Total(n, before) + if k < n then after(k) - before(k) else 0
  {
    if n > 0 {
      TotalChange(n - 1, before, after, k);
    }
  }

  lemma {:induction false} TotalNotNegative(n: nat, work: nat -> int)
    requires forall j: nat :: j < n ==> work(j) >= 0
    ensures Total(n, work) >= 0
  {
    if n > 0 {
      TotalNotNegative(n - 1, work);
    }
  }
}
