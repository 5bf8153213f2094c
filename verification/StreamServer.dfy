/**
  A TCP or SCTP proxy as a whole: one `Run` that accepts clients and starts a client loop for each, and
  any number of client loops side by side (mct/cmd/mct-docker-proxy/tcp_proxy.go and sctp_proxy.go).
  When `Accept` fails, `Run` closes the one `quit` channel that they all wait on.
 */
module StreamServer {
  import opened Executions
  import L = StreamLoop
  import Safety = StreamSafety
  import D = StreamDrain

  /** Under TCP `Run` unexposes its port after `Accept` has failed; under SCTP it goes on to `quit` at once. */
  datatype RunPc = Accepting | Failed | Unexposed | Ended

  datatype State = State(run: RunPc, loops: seq<L.State>)

  const INIT := State(Accepting, [])

  datatype Action =
    | Accept
    | AcceptError
    | Unexpose
    | CloseQuit
    | OfLoop(i: nat, loop: L.Action)
    | Idle

  predicate Enabled(policy: L.Policy, s: State, a: Action) {
    match a
    case Accept => s.run.Accepting?
    case AcceptError => s.run.Accepting?
    case Unexpose => policy.HalfClose? && s.run.Failed?
    case CloseQuit => s.run == if policy.HalfClose? then Unexposed else Failed
    case OfLoop(i, x) => i < |s.loops| && x != L.OfEnv(L.CloseQuit) && L.Enabled(s.loops[i], x)
    case Idle => true
  }

  function QuitAll(loops: seq<L.State>): seq<L.State> {
    seq(|loops|, i requires 0 <= i < |loops| => loops[i].(quit := true))
  }

  function Step(policy: L.Policy, s: State, a: Action): State
    requires Enabled(policy, s, a)
  {
    match a
    case Accept => s.(loops := s.loops + [L.INIT])
    case AcceptError => s.(run := Failed)
    case Unexpose => s.(run := Unexposed)
    case CloseQuit => State(Ended, QuitAll(s.loops))
    case OfLoop(i, x) => s.(loops := s.loops[i := L.Step(policy, s.loops[i], x)])
    case Idle => s
  }

  function NextOf(policy: L.Policy): (State, Action, State) -> bool {
    (s: State, a: Action, s': State) => Enabled(policy, s, a) && s' == Step(policy, s, a)
  }

  datatype Who = Runner | Of(i: nat, w: D.Who)

  predicate By(a: Action, w: Who) {
    match w
    case Runner => a.Accept? || a.AcceptError? || a.Unexpose? || a.CloseQuit?
    case Of(i, v) => a.OfLoop? && a.i == i && D.By(a.loop, v)
  }

  /** `Run` may wait for a client for ever, and otherwise goes on. */
  predicate CanStep(s: State, w: Who) {
    match w
    case Runner => s.run.Failed? || s.run.Unexposed?
    case Of(i, v) => i < |s.loops| && D.CanStep(s.loops[i], v)
  }

  // ----- every loop keeps its invariant, and sees `quit` exactly when `Run` has closed it -----

  ghost predicate Inv(policy: L.Policy, s: State) {
    && (policy.FullClose? ==> !s.run.Unexposed?)
    && forall i :: 0 <= i < |s.loops| ==>
         Safety.Inv(policy, s.loops[i]) && (s.loops[i].quit <==> s.run.Ended?)
  }

  lemma LoopStepKeepsQuit(policy: L.Policy, s: L.State, a: L.Action)
    requires L.Enabled(s, a) && a != L.OfEnv(L.CloseQuit)
    ensures L.Step(policy, s, a).quit == s.quit
  {
  }

  lemma FreshLoopIsSafe(policy: L.Policy)
    ensures Safety.Inv(policy, L.INIT) && !L.INIT.quit
  {
  }

  lemma QuitKeepsSafe(policy: L.Policy, s: L.State)
    requires Safety.Inv(policy, s) && !s.quit
    ensures Safety.Inv(policy, s.(quit := true))
  {
    assert L.Step(policy, s, L.OfEnv(L.CloseQuit)) == s.(quit := true);
    Safety.StepKeepsInv(policy, s, L.OfEnv(L.CloseQuit));
  }

  lemma StepKeepsInv(policy: L.Policy, s: State, a: Action, s': State)
    requires Inv(policy, s) && Enabled(policy, s, a) && s' == Step(policy, s, a)
    ensures Inv(policy, s')
  {
    match a
    case Accept => FreshLoopIsSafe(policy);
    case CloseQuit =>
      forall i | 0 <= i < |s.loops|
        ensures Safety.Inv(policy, s'.loops[i]) && s'.loops[i].quit
      {
        QuitKeepsSafe(policy, s.loops[i]);
      }
    case OfLoop(i, x) =>
      LoopStepKeepsQuit(policy, s.loops[i], x);
      Safety.StepKeepsInv(policy, s.loops[i], x);
    case _ =>
  }

  lemma TakesStep(policy: L.Policy, tr: nat -> State, acts: nat -> Action, i: nat)
    requires IsExecution(INIT, NextOf(policy), tr, acts)
    ensures Enabled(policy, tr(i), acts(i)) && tr(i + 1) == Step(policy, tr(i), acts(i))
  {
    assert StepsAt(NextOf(policy), tr, acts, i);
    assert NextOf(policy)(tr(i), acts(i), tr(i + 1));
  }

  lemma {:induction false} ExecutionKeepsInv(policy: L.Policy, tr: nat -> State, acts: nat -> Action, n: nat)
    requires IsExecution(INIT, NextOf(policy), tr, acts)
    ensures Inv(policy, tr(n))
  {
    if n > 0 {
      ExecutionKeepsInv(policy, tr, acts, n - 1);
      TakesStep(policy, tr, acts, n - 1);
      StepKeepsInv(policy, tr(n - 1), acts(n - 1), tr(n));
    }
  }

  // ----- every accepted client gets a loop -----

  function Accepts(acts: nat -> Action, n: nat): nat {
    if n == 0 then 0 else Accepts(acts, n - 1) + (if acts(n - 1) == Accept then 1 else 0)
  }

  /** There are as many loops as clients were accepted, and each starts afresh when its client is. */
  lemma {:induction false} EveryClientGetsLoop(policy: L.Policy, tr: nat -> State, acts: nat -> Action, n: nat)
    requires IsExecution(INIT, NextOf(policy), tr, acts)
    ensures |tr(n).loops| == Accepts(acts, n)
    ensures acts(n) == Accept ==> tr(n + 1).loops == tr(n).loops + [L.INIT]
  {
    TakesStep(policy, tr, acts, n);
    if n > 0 {
      EveryClientGetsLoop(policy, tr, acts, n - 1);
      TakesStep(policy, tr, acts, n - 1);
    }
  }

  /** Where `Run` stands is told by what it did: accepting until that fails, unexposing under TCP, then quitting. */
  lemma {:induction false} RunFollowsItsSteps(policy: L.Policy, tr: nat -> State, acts: nat -> Action, n: nat)
    requires IsExecution(INIT, NextOf(policy), tr, acts)
    ensures !tr(n).run.Accepting? <==> exists i :: 0 <= i < n && acts(i) == AcceptError
    ensures tr(n).run.Ended? <==> exists i :: 0 <= i < n && acts(i) == CloseQuit
    ensures tr(n).run.Ended? && policy.HalfClose? ==> exists i :: 0 <= i < n && acts(i) == Unexpose
  {
    if n > 0 {
      RunFollowsItsSteps(policy, tr, acts, n - 1);
      ExecutionKeepsInv(policy, tr, acts, n - 1);
      TakesStep(policy, tr, acts, n - 1);
      UnexposedFirst(policy, tr, acts, n);
    }
  }

  /** Past unexposing, `Run` has unexposed. */
  lemma {:induction false} UnexposedFirst(policy: L.Policy, tr: nat -> State, acts: nat -> Action, n: nat)
    requires IsExecution(INIT, NextOf(policy), tr, acts)
    ensures policy.HalfClose? && (tr(n).run.Unexposed? || tr(n).run.Ended?) ==>
      exists i :: 0 <= i < n && acts(i) == Unexpose
  {
    if n > 0 {
      UnexposedFirst(policy, tr, acts, n - 1);
      TakesStep(policy, tr, acts, n - 1);
    }
  }

  // ----- one loop of the proxy is an execution of a client loop -----

  /** What a step of the proxy is to loop `i`. */
  function Project(a: Action, i: nat): L.Action {
    if a.OfLoop? && a.i == i then a.loop
    else if a.CloseQuit? then L.OfEnv(L.CloseQuit)
    else L.OfEnv(L.Idle)
  }

  function LoopAt(s: State, i: nat): L.State {
    if i < |s.loops| then s.loops[i] else L.INIT
  }

  /** Loop `i` from step `b` on, alone. */
  ghost predicate Alone(
    tr: nat -> State, acts: nat -> Action, i: nat, b: nat, one: nat -> L.State, its: nat -> L.Action)
  {
    forall k: nat :: one(k) == LoopAt(tr(b + k), i) && its(k) == Project(acts(b + k), i)
  }

  /** When client loop `i` was started. */
  lemma {:induction false} Birth(policy: L.Policy, tr: nat -> State, acts: nat -> Action, i: nat, n: nat)
    returns (b: nat)
    requires IsExecution(INIT, NextOf(policy), tr, acts) && i < |tr(n).loops|
    ensures b <= n && i < |tr(b).loops| && tr(b).loops[i] == L.INIT
  {
    TakesStep(policy, tr, acts, n - 1);
    if i < |tr(n - 1).loops| {
      b := Birth(policy, tr, acts, i, n - 1);
    } else {
      b := n;
    }
  }

  lemma {:induction false} LoopsStay(policy: L.Policy, tr: nat -> State, acts: nat -> Action, n: nat, m: nat)
    requires IsExecution(INIT, NextOf(policy), tr, acts) && n <= m
    ensures |tr(n).loops| <= |tr(m).loops|
    decreases m
  {
    if n < m {
      LoopsStay(policy, tr, acts, n, m - 1);
      TakesStep(policy, tr, acts, m - 1);
    }
  }

  lemma ProjectedStep(policy: L.Policy, s: State, a: Action, i: nat)
    requires Inv(policy, s) && Enabled(policy, s, a) && i < |s.loops|
    ensures var x := Project(a, i);
      L.Enabled(s.loops[i], x) && i < |Step(policy, s, a).loops|
      && Step(policy, s, a).loops[i] == L.Step(policy, s.loops[i], x)
  {
  }

  /** On its own a client loop goes through an execution, in which other steps of the proxy are time passing. */
  lemma AloneIsExecution(policy: L.Policy, tr: nat -> State, acts: nat -> Action, i: nat, b: nat,
                         one: nat -> L.State, its: nat -> L.Action)
    requires IsExecution(INIT, NextOf(policy), tr, acts) && Alone(tr, acts, i, b, one, its)
    requires i < |tr(b).loops| && tr(b).loops[i] == L.INIT
    ensures IsExecution(L.INIT, D.NextOf(policy), one, its)
  {
    assert one(0) == LoopAt(tr(b + 0), i);
    forall k: nat
      ensures StepsAt(D.NextOf(policy), one, its, k)
    {
      assert one(k) == LoopAt(tr(b + k), i) && its(k) == Project(acts(b + k), i);
      assert one(k + 1) == LoopAt(tr(b + (k + 1)), i);
      LoopsStay(policy, tr, acts, b, b + k);
      ExecutionKeepsInv(policy, tr, acts, b + k);
      TakesStep(policy, tr, acts, b + k);
      ProjectedStep(policy, tr(b + k), acts(b + k), i);
      assert D.NextOf(policy)(one(k), its(k), one(k + 1));
    }
  }

  lemma AloneIsFair(policy: L.Policy, tr: nat -> State, acts: nat -> Action, i: nat, b: nat,
                    one: nat -> L.State, its: nat -> L.Action)
    requires IsExecution(INIT, NextOf(policy), tr, acts) && WeaklyFair(By, CanStep, tr, acts)
    requires Alone(tr, acts, i, b, one, its) && i < |tr(b).loops|
    ensures WeaklyFair(D.By, D.CanStep, one, its)
  {
    forall v: D.Who, k: nat
      ensures Served(D.By, D.CanStep, one, its, v, k)
    {
      assert Served(By, CanStep, tr, acts, Of(i, v), b + k);
      var j: nat :| b + k <= j && (By(acts(j), Of(i, v)) || !CanStep(tr(j), Of(i, v)));
      var h: nat := j - b;
      LoopsStay(policy, tr, acts, b, j);
      assert one(h) == LoopAt(tr(b + h), i) && its(h) == Project(acts(b + h), i);
      assert D.By(its(h), v) || !D.CanStep(one(h), v);
    }
  }

  // ----- when Accept fails, everything ends -----

  lemma RunStays(policy: L.Policy, s: State, a: Action, s': State)
    requires Enabled(policy, s, a) && s' == Step(policy, s, a) && !s.run.Accepting?
    ensures !s'.run.Accepting? && |s'.loops| == |s.loops|
    ensures s.run.Ended? ==> s'.run.Ended?
    ensures s'.run == s.run || (By(a, Runner) && (s'.run.Ended? || (policy.HalfClose? && s'.run.Unexposed?)))
  {
  }

  function RunRank(policy: L.Policy, run: RunPc): nat {
    match run
    case Accepting => 3
    case Failed => if policy.HalfClose? then 2 else 1
    case Unexposed => 1
    case Ended => 0
  }

  lemma {:induction false} RunOnlyAdvances(policy: L.Policy, tr: nat -> State, acts: nat -> Action, n: nat, m: nat)
    requires IsExecution(INIT, NextOf(policy), tr, acts) && n <= m && !tr(n).run.Accepting?
    ensures !tr(m).run.Accepting? && |tr(m).loops| == |tr(n).loops|
    ensures RunRank(policy, tr(m).run) <= RunRank(policy, tr(n).run)
    decreases m
  {
    if n < m {
      RunOnlyAdvances(policy, tr, acts, n, m - 1);
      TakesStep(policy, tr, acts, m - 1);
      RunStays(policy, tr(m - 1), acts(m - 1), tr(m));
    }
  }

  /** `Run` gets to closing `quit`. */
  lemma {:induction false} RunEnds(policy: L.Policy, tr: nat -> State, acts: nat -> Action, n: nat) returns (m: nat)
    requires IsExecution(INIT, NextOf(policy), tr, acts) && WeaklyFair(By, CanStep, tr, acts)
    requires !tr(n).run.Accepting?
    ensures n <= m && tr(m).run.Ended?
    decreases RunRank(policy, tr(n).run)
  {
    if tr(n).run.Ended? {
      return n;
    }
    assert Served(By, CanStep, tr, acts, Runner, n);
    var j: nat :| n <= j && (By(acts(j), Runner) || !CanStep(tr(j), Runner));
    RunOnlyAdvances(policy, tr, acts, n, j);
    if tr(j).run.Ended? {
      m := j;
    } else {
      ExecutionKeepsInv(policy, tr, acts, j);
      TakesStep(policy, tr, acts, j);
      m := RunEnds(policy, tr, acts, j + 1);
    }
  }

  lemma OverStays(policy: L.Policy, s: State, a: Action, i: nat, s': State)
    requires Enabled(policy, s, a) && s' == Step(policy, s, a) && i < |s.loops| && D.Over(s.loops[i])
    ensures i < |s'.loops| && D.Over(s'.loops[i])
  {
  }

  lemma {:induction false} OverForGood(policy: L.Policy, tr: nat -> State, acts: nat -> Action, i: nat, n: nat, m: nat)
    requires IsExecution(INIT, NextOf(policy), tr, acts) && n <= m && i < |tr(n).loops| && D.Over(tr(n).loops[i])
    ensures i < |tr(m).loops| && D.Over(tr(m).loops[i])
    decreases m
  {
    if n < m {
      OverForGood(policy, tr, acts, i, n, m - 1);
      TakesStep(policy, tr, acts, m - 1);
      OverStays(policy, tr(m - 1), acts(m - 1), i, tr(m));
    }
  }

  /** On its own a loop that sees `quit` closed returns. */
  lemma AloneQuits(policy: L.Policy, one: nat -> L.State, its: nat -> L.Action, n: nat) returns (k: nat)
    requires IsExecution(L.INIT, D.NextOf(policy), one, its) && WeaklyFair(D.By, D.CanStep, one, its) && one(n).quit
    ensures n <= k && D.Over(one(k))
  {
    D.QuitEndsLoop(policy, one, its, n);
    k :| n <= k && D.Over(one(k));
  }

  /** A client loop that sees `quit` closed returns. */
  lemma QuitEndsOneLoop(policy: L.Policy, tr: nat -> State, acts: nat -> Action, i: nat, n: nat) returns (m: nat)
    requires IsExecution(INIT, NextOf(policy), tr, acts) && WeaklyFair(By, CanStep, tr, acts)
    requires tr(n).run.Ended? && i < |tr(n).loops|
    ensures n <= m && i < |tr(m).loops| && D.Over(tr(m).loops[i])
  {
    var b := Birth(policy, tr, acts, i, n);
    var one: nat -> L.State := (k: nat) => LoopAt(tr(b + k), i);
    var its: nat -> L.Action := (k: nat) => Project(acts(b + k), i);
    assert Alone(tr, acts, i, b, one, its);
    AloneIsExecution(policy, tr, acts, i, b, one, its);
    AloneIsFair(policy, tr, acts, i, b, one, its);
    assert one(n - b).quit by {
      ExecutionKeepsInv(policy, tr, acts, n);
    }
    var k := AloneQuits(policy, one, its, n - b);
    m := b + k;
    LoopsStay(policy, tr, acts, b, m);
  }

  /** The first `count` client loops all get to their return. */
  lemma {:induction false} QuitEndsLoops(policy: L.Policy, tr: nat -> State, acts: nat -> Action, count: nat, n: nat)
    returns (m: nat)
    requires IsExecution(INIT, NextOf(policy), tr, acts) && WeaklyFair(By, CanStep, tr, acts)
    requires tr(n).run.Ended? && count <= |tr(n).loops|
    ensures n <= m && count <= |tr(m).loops| && forall i :: 0 <= i < count ==> D.Over(tr(m).loops[i])
    decreases count
  {
    if count == 0 {
      return n;
    }
    var k := QuitEndsLoops(policy, tr, acts, count - 1, n);
    var h := QuitEndsOneLoop(policy, tr, acts, count - 1, n);
    m := if k < h then h else k;
    OverForGood(policy, tr, acts, count - 1, h, m);
    forall i | 0 <= i < count - 1
      ensures D.Over(tr(m).loops[i])
    {
      OverForGood(policy, tr, acts, i, k, m);
    }
  }

  /** `Run` has ended and so has every client loop ever started. */
  predicate AllOver(s: State) {
    s.run.Ended? && forall i :: 0 <= i < |s.loops| ==> D.Over(s.loops[i])
  }

  ghost predicate OverFrom(tr: nat -> State, m: nat) {
    forall k: nat :: m <= k ==> AllOver(tr(k))
  }

  /**
    Once `Accept` has failed, every weakly fair execution gets to a point from which on `Run` and all the
    client loops it ever started have ended, however many there are and whatever their peers do.
   */
  lemma AcceptErrorEndsEverything(policy: L.Policy, tr: nat -> State, acts: nat -> Action, n: nat)
    requires IsExecution(INIT, NextOf(policy), tr, acts) && WeaklyFair(By, CanStep, tr, acts)
    requires !tr(n).run.Accepting?
    ensures exists m: nat :: n <= m && OverFrom(tr, m)
  {
    var q := RunEnds(policy, tr, acts, n);
    var m := QuitEndsLoops(policy, tr, acts, |tr(q).loops|, q);
    forall k: nat | m <= k
      ensures AllOver(tr(k))
    {
      RunOnlyAdvances(policy, tr, acts, q, k);
      RunOnlyAdvances(policy, tr, acts, q, m);
      forall i | 0 <= i < |tr(k).loops|
        ensures D.Over(tr(k).loops[i])
      {
        OverForGood(policy, tr, acts, i, m, k);
      }
    }
    assert OverFrom(tr, m);
  }

  // ----- such executions exist -----

  function Shown(n: nat): State {
    var loop := L.INIT.(quit := true);
    if n == 0 then INIT
    else if n == 1 then State(Accepting, [L.INIT])
    else if n == 2 then State(Failed, [L.INIT])
    else if n == 3 then State(Ended, [loop])
    else if n == 4 then State(Ended, [loop.(main := L.DialFailed)])
    else State(Ended, [L.Step(L.FullClose, loop.(main := L.DialFailed), L.OfMain(L.CloseUnserved))])
  }

  function ShownAction(n: nat): Action {
    if n == 0 then Accept
    else if n == 1 then AcceptError
    else if n == 2 then CloseQuit
    else if n == 3 then OfLoop(0, L.OfMain(L.DialError))
    else if n == 4 then OfLoop(0, L.OfMain(L.CloseUnserved))
    else Idle
  }

  /** `Accept` fails while a client loop is still about to dial its backend. */
  lemma ServerExecution() returns (tr: nat -> State, acts: nat -> Action)
    ensures IsExecution(INIT, NextOf(L.FullClose), tr, acts) && WeaklyFair(By, CanStep, tr, acts)
    ensures tr(2).run.Failed? && |tr(2).loops| == 1 && !D.Over(tr(2).loops[0])
  {
    tr, acts := Shown, ShownAction;
    forall n: nat
      ensures StepsAt(NextOf(L.FullClose), tr, acts, n)
    {
      assert Enabled(L.FullClose, Shown(n), ShownAction(n));
      assert Shown(n + 1) == Step(L.FullClose, Shown(n), ShownAction(n));
      assert NextOf(L.FullClose)(tr(n), acts(n), tr(n + 1));
    }
    forall w, i: nat
      ensures Served(By, CanStep, tr, acts, w, i)
    {
      var j := i + 5;
      assert !CanStep(tr(j), w);
    }
  }
}
