/** Infinite executions of a state machine, and schedules that pass over no goroutine forever. */
module Executions {

  /** Step `i` of the execution is one that the machine can take. */
  ghost predicate StepsAt<S, A>(next: (S, A, S) -> bool, tr: nat -> S, acts: nat -> A, i: nat) {
    next(tr(i), acts(i), tr(i + 1))
  }

  ghost predicate IsExecution<S, A>(init: S, next: (S, A, S) -> bool, tr: nat -> S, acts: nat -> A) {
    tr(0) == init && forall i: nat :: StepsAt(next, tr, acts, i)
  }

  /** At step `i` or later goroutine `w` takes a step or cannot take one. */
  ghost predicate Served<S, A, W>(
    takes: (A, W) -> bool, can: (S, W) -> bool, tr: nat -> S, acts: nat -> A, w: W, i: nat)
  {
    exists j: nat :: i <= j && (takes(acts(j), w) || !can(tr(j), w))
  }

  /** No goroutine is passed over forever while it could go on. */
  ghost predicate WeaklyFair<S, A, W(!new)>(
    takes: (A, W) -> bool, can: (S, W) -> bool, tr: nat -> S, acts: nat -> A)
  {
    forall w: W, i: nat :: Served(takes, can, tr, acts, w, i)
  }

  // ----- executions made of a beginning and rounds that go on forever -----

  /** `begin` is a run under `acts`. */
  ghost predicate IsBeginning<S, A>(next: (S, A, S) -> bool, begin: seq<S>, acts: seq<A>) {
    |begin| == |acts| + 1 && forall i :: 0 <= i < |acts| ==> next(begin[i], acts[i], begin[i + 1])
  }

  /** In a state that is ready for round `i`, `act(i)` leads to one that is ready for the next. */
  ghost predicate GoesRound<S(!new), A>(
    next: (S, A, S) -> bool, ready: (S, nat) -> bool, act: nat -> A, step: (S, nat) -> S)
  {
    forall s: S, i: nat :: ready(s, i) ==> next(s, act(i), step(s, i)) && ready(step(s, i), i + 1)
  }

  function Unroll<S>(s: S, step: (S, nat) -> S, i: nat): S {
    if i == 0 then s else step(Unroll(s, step, i - 1), i - 1)
  }

  lemma {:induction false} StaysReady<S(!new), A>(
    next: (S, A, S) -> bool, ready: (S, nat) -> bool, act: nat -> A, step: (S, nat) -> S, s: S, i: nat)
    requires GoesRound(next, ready, act, step) && ready(s, 0)
    ensures ready(Unroll(s, step, i), i)
  {
    if i > 0 {
      StaysReady(next, ready, act, step, s, i - 1);
    }
  }

  /** The execution that begins so and goes round from there. */
  lemma Lasso<S(!new), A>(
    next: (S, A, S) -> bool, begin: seq<S>, acts: seq<A>,
    ready: (S, nat) -> bool, act: nat -> A, step: (S, nat) -> S)
    returns (tr: nat -> S, all: nat -> A)
    requires IsBeginning(next, begin, acts) && GoesRound(next, ready, act, step) && ready(begin[|acts|], 0)
    ensures IsExecution(begin[0], next, tr, all)
    ensures forall i: nat :: i <= |acts| ==> tr(i) == begin[i]
    ensures forall i: nat :: i < |acts| ==> all(i) == acts[i]
    ensures forall i: nat :: |acts| <= i ==> ready(tr(i), i - |acts|) && all(i) == act(i - |acts|)
  {
    var p := |acts|;
    tr := (i: nat) => if i < p then begin[i] else Unroll(begin[p], step, i - p);
    all := (i: nat) => if i < p then acts[i] else act(i - p);
    assert Unroll(begin[p], step, 0) == begin[p];
    forall i: nat | p <= i
      ensures ready(tr(i), i - p) && all(i) == act(i - p)
    {
      StaysReady(next, ready, act, step, begin[p], i - p);
    }
    forall i: nat
      ensures StepsAt(next, tr, all, i)
    {
      if i >= p {
        var k := i - p;
        assert Unroll(begin[p], step, k + 1) == step(Unroll(begin[p], step, k), k);
        assert i + 1 - p == k + 1 && tr(i + 1) == step(tr(i), k);
        assert ready(tr(i), k);
      }
    }
  }
}
