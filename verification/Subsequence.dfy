/** Ordered, duplicate-free selection from a sequence, in the form that grows at the end. */
module Subsequence {

  ghost predicate IsSubsequence<T(!new)>(a: seq<T>, b: seq<T>) {
    if a == [] then true
    else if b == [] then false
    else
      || (a[|a| - 1] == b[|b| - 1] && IsSubsequence(a[..|a| - 1], b[..|b| - 1]))
      || IsSubsequence(a, b[..|b| - 1])
  }

  /** `at` picks the elements of `a` out of `b`, each once and in order. */
  ghost predicate Selects<T(!new)>(at: seq<nat>, a: seq<T>, b: seq<T>) {
    && |at| == |a|
    && (forall i :: 0 <= i < |at| ==> at[i] < |b| && b[at[i]] == a[i])
    && (forall i, j :: 0 <= i < j < |at| ==> at[i] < at[j])
  }

  /** The recursive definition means what it should: an increasing choice of positions exists. */
  lemma SubsequenceMeaning<T(!new)>(a: seq<T>, b: seq<T>)
    ensures IsSubsequence(a, b) <==> exists at :: Selects(at, a, b)
  {
    if IsSubsequence(a, b) {
      var at := Positions(a, b);
    }
    if at :| Selects(at, a, b) {
      SelectionIsSubsequence(at, a, b);
    }
  }

  lemma {:induction false} Positions<T(!new)>(a: seq<T>, b: seq<T>) returns (at: seq<nat>)
    requires IsSubsequence(a, b)
    ensures Selects(at, a, b)
    decreases |b|
  {
    if a == [] {
      at := [];
    } else if a[|a| - 1] == b[|b| - 1] && IsSubsequence(a[..|a| - 1], b[..|b| - 1]) {
      var front := Positions(a[..|a| - 1], b[..|b| - 1]);
      at := front + [|b| - 1];
    } else {
      at := Positions(a, b[..|b| - 1]);
    }
  }

  lemma {:induction false} SelectionIsSubsequence<T(!new)>(at: seq<nat>, a: seq<T>, b: seq<T>)
    requires Selects(at, a, b)
    ensures IsSubsequence(a, b)
    decreases |b|
  {
    if a != [] {
      if at[|at| - 1] == |b| - 1 {
        SelectionIsSubsequence(at[..|at| - 1], a[..|a| - 1], b[..|b| - 1]);
      } else {
        SelectionIsSubsequence(at, a, b[..|b| - 1]);
      }
    }
  }

  lemma {:induction false} Skip<T(!new)>(a: seq<T>, b: seq<T>, more: seq<T>)
    requires IsSubsequence(a, b)
    ensures IsSubsequence(a, b + more)
    decreases |more|
  {
    if more == [] {
      assert b + more == b;
    } else {
      Skip(a, b, more[..|more| - 1]);
      assert (b + more)[..|b + more| - 1] == b + more[..|more| - 1];
    }
  }

  lemma {:induction false} Take<T(!new)>(a: seq<T>, b: seq<T>, more: seq<T>)
    requires IsSubsequence(a, b)
    ensures IsSubsequence(a + more, b + more)
    decreases |more|
  {
    if more == [] {
      assert a + more == a && b + more == b;
    } else {
      var front := more[..|more| - 1];
      Take(a, b, front);
      assert (a + more)[..|a + more| - 1] == a + front;
      assert (b + more)[..|b + more| - 1] == b + front;
    }
  }
}
