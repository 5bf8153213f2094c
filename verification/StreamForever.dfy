/**
  Fair executions of a client loop exist: every run in which the loop has returned is the beginning of
  one, with nothing but time passing afterwards.
 */
module StreamForever {
  import opened Executions
  import opened StreamLoop
  import opened StreamSafety
  import opened StreamOutcome
  import opened StreamDrain

  function StateAt(states: seq<State>, i: nat): State
    requires states != []
  {
    if i < |states| then states[i] else states[|states| - 1]
  }

  function ActionAt(actions: seq<Action>, i: nat): Action {
    if i < |actions| then actions[i] else OfEnv(Idle)
  }

  /** The run, and after it time passing. */
  ghost predicate GoesOn(states: seq<State>, actions: seq<Action>, tr: nat -> State, acts: nat -> Action) {
    states != [] && forall i: nat :: tr(i) == StateAt(states, i) && acts(i) == ActionAt(actions, i)
  }

  lemma GoingOnIsExecution(
    policy: Policy, states: seq<State>, actions: seq<Action>, tr: nat -> State, acts: nat -> Action)
    requires IsRun(policy, states, actions) && GoesOn(states, actions, tr, acts)
    ensures IsExecution(INIT, NextOf(policy), tr, acts)
  {
    assert tr(0) == StateAt(states, 0);
    forall i: nat
      ensures StepsAt(NextOf(policy), tr, acts, i)
    {
      assert tr(i) == StateAt(states, i) && tr(i + 1) == StateAt(states, i + 1) && acts(i) == ActionAt(actions, i);
      assert Enabled(tr(i), acts(i)) && tr(i + 1) == Step(policy, tr(i), acts(i)) by {
        if i < |actions| {
          assert acts(i) == actions[i] && tr(i) == states[i] && tr(i + 1) == states[i + 1];
        }
      }
      assert NextOf(policy)(tr(i), acts(i), tr(i + 1));
    }
  }

  /** A loop that is over has no goroutine left that could go on, and none in a write. */
  lemma OverIsStill(policy: Policy, s: State, w: Who)
    requires Inv(policy, s) && Over(s)
    ensures !CanStep(s, w) && (w.BrokerFrom? ==> !MayBlock(s, w.x))
  {
    if w.BrokerFrom? {
      assert w.x == Client || w.x == Backend;
    }
  }

  lemma GoingOnIsFair(policy: Policy, states: seq<State>, actions: seq<Action>, tr: nat -> State, acts: nat -> Action)
    requires IsRun(policy, states, actions) && Over(states[|actions|]) && GoesOn(states, actions, tr, acts)
    ensures WeaklyFair(By, CanStep, tr, acts) && forall n: nat :: WritesGoThrough(tr, acts, n)
  {
    var last := |actions|;
    RunsKeepInv(policy, states, actions, last);
    forall w, i: nat
      ensures Served(By, CanStep, tr, acts, w, i)
    {
      var j := if i < last then last else i;
      assert tr(j) == StateAt(states, j);
      OverIsStill(policy, tr(j), w);
    }
    forall x, i: nat
      ensures Unblocked(tr, acts, x, i)
    {
      var j := if i < last then last else i;
      assert tr(j) == StateAt(states, j);
      OverIsStill(policy, tr(j), BrokerFrom(x));
    }
  }

  /** Every run in which the loop has returned or given up is the beginning of a fair execution. */
  lemma FinishedRunGoesOn(policy: Policy, states: seq<State>, actions: seq<Action>)
    returns (tr: nat -> State, acts: nat -> Action)
    requires IsRun(policy, states, actions) && Over(states[|actions|])
    ensures GoesOn(states, actions, tr, acts) && IsExecution(INIT, NextOf(policy), tr, acts)
    ensures WeaklyFair(By, CanStep, tr, acts) && forall n: nat :: WritesGoThrough(tr, acts, n)
  {
    tr := (i: nat) => StateAt(states, i);
    acts := (i: nat) => ActionAt(actions, i);
    GoingOnIsExecution(policy, states, actions, tr, acts);
    GoingOnIsFair(policy, states, actions, tr, acts);
  }

  // ----- a TCP loop that carries a byte each way and returns -----

  /** Both peers send a byte and end their streams while the loop is being set up. */
  lemma TcpPrelude() returns (states: seq<State>, actions: seq<Action>)
    ensures IsCleanRun(HalfClose, states, actions)
    ensures states[|actions|] == State(
      Pair(Endpoint([1], true, true, true, []), Endpoint([2], true, true, true, [])),
      Pair(Broker(Copying, 0), Broker(Copying, 0)), 2, 0, false, Selecting, {})
  {
    states, actions := [INIT], [];
    states, actions := Extend(HalfClose, states, actions, OfMain(Dial));
    states, actions := Extend(HalfClose, states, actions, OfMain(WgAdd));
    states, actions := Extend(HalfClose, states, actions, OfMain(SpawnDown));
    states, actions := Extend(HalfClose, states, actions, OfMain(SpawnUp));
    states, actions := Extend(HalfClose, states, actions, OfMain(SpawnWaiter));
    states, actions := Extend(HalfClose, states, actions, OfEnv(PeerSends(Client, [1])));
    states, actions := Extend(HalfClose, states, actions, OfEnv(PeerSends(Backend, [2])));
    assert states[|actions|].ends.client.sent == [1] && states[|actions|].ends.backend.sent == [2];
    states, actions := Extend(HalfClose, states, actions, OfEnv(PeerEnds(Client)));
    states, actions := Extend(HalfClose, states, actions, OfEnv(PeerEnds(Backend)));
  }

  /** Broker `x` copies the one byte of its source. */
  lemma CopyByte(states: seq<State>, actions: seq<Action>, x: Side) returns (states': seq<State>, actions': seq<Action>)
    requires IsCleanRun(HalfClose, states, actions)
    requires var s := states[|actions|];
      && s.brokers.At(x) == Broker(Copying, 0) && |s.ends.At(x).sent| == 1 && s.ends.At(x).fin
      && s.ends.At(x).readOpen && s.ends.At(Other(x)).writeOpen
    ensures IsCleanRun(HalfClose, states', actions') && states <= states' && actions <= actions'
    ensures var s, s' := states[|actions|], states'[|actions'|];
      && s'.brokers.At(x).pc == Copied(Eof) && s'.brokers.At(Other(x)) == s.brokers.At(Other(x))
      && s'.wg == s.wg && s'.main == s.main && s'.finishCloses == s.finishCloses
      && s'.ends.At(Other(x)) == s.ends.At(Other(x)).(got := s'.ends.At(Other(x)).got)
      && s'.ends.At(x) == s.ends.At(x)
  {
    states', actions' := Extend(HalfClose, states, actions, OfBroker(x, Read(1)));
    states', actions' := Extend(HalfClose, states', actions', OfBroker(x, Write(1)));
    states', actions' := Extend(HalfClose, states', actions', OfBroker(x, ReadEof));
  }

  /** Then it half-closes both connections and ends. */
  lemma CarryByte(states: seq<State>, actions: seq<Action>, x: Side)
    returns (states': seq<State>, actions': seq<Action>)
    requires IsCleanRun(HalfClose, states, actions)
    requires var s := states[|actions|];
      && s.brokers.At(x) == Broker(Copying, 0) && |s.ends.At(x).sent| == 1 && s.ends.At(x).fin
      && s.ends.At(x).readOpen && s.ends.At(Other(x)).writeOpen
    ensures IsCleanRun(HalfClose, states', actions') && states <= states' && actions <= actions'
    ensures var s, s' := states[|actions|], states'[|actions'|];
      && s'.brokers.At(Other(x)) == s.brokers.At(Other(x))
      && s'.wg == s.wg - 1 && s'.main == s.main && s'.finishCloses == s.finishCloses
      && s'.ends.At(Other(x)) == s.ends.At(Other(x)).(writeOpen := false, got := s'.ends.At(Other(x)).got)
      && s'.ends.At(x) == s.ends.At(x).(readOpen := false)
  {
    states', actions' := CopyByte(states, actions, x);
    states', actions' := Extend(HalfClose, states', actions', OfBroker(x, CloseSource));
    states', actions' := Extend(HalfClose, states', actions', OfBroker(x, CloseDest));
    states', actions' := Extend(HalfClose, states', actions', OfBroker(x, WgDone));
  }

  /** Both brokers do so, and the loop joins them and returns. */
  lemma CarryBoth(states: seq<State>, actions: seq<Action>) returns (states': seq<State>, actions': seq<Action>)
    requires IsCleanRun(HalfClose, states, actions)
    requires states[|actions|] == State(
      Pair(Endpoint([1], true, true, true, []), Endpoint([2], true, true, true, [])),
      Pair(Broker(Copying, 0), Broker(Copying, 0)), 2, 0, false, Selecting, {})
    ensures IsCleanRun(HalfClose, states', actions') && states <= states' && actions <= actions'
    ensures states'[|actions'|].main.Returned?
  {
    states', actions' := CarryByte(states, actions, Client);
    states', actions' := CarryByte(states', actions', Backend);
    states', actions' := JoinBrokers(HalfClose, states', actions');
  }

  /**
    A fair TCP execution without I/O errors and without quitting, in which both peers send a byte and end
    their streams while the loop has still everything to do.
   */
  lemma CleanTcpExecution() returns (tr: nat -> State, acts: nat -> Action, n: nat)
    ensures IsExecution(INIT, NextOf(HalfClose), tr, acts) && WeaklyFair(By, CanStep, tr, acts)
    ensures Undisturbed(HalfClose, tr, acts)
    ensures tr(n).ends.client.fin && tr(n).ends.backend.fin && WritesGoThrough(tr, acts, n)
    ensures tr(n).main.Selecting? && tr(n).ends.client.sent == [1] && tr(n).ends.backend.sent == [2]
    ensures tr(n).ends.client.got == tr(n).ends.backend.got == []
  {
    var states, actions := TcpPrelude();
    n := |actions|;
    var serving := states[n];
    states, actions := CarryBoth(states, actions);
    tr, acts := FinishedRunGoesOn(HalfClose, states, actions);
    assert tr(n) == StateAt(states, n) == serving;
    forall i: nat | Enabled(tr(i), acts(i))
      ensures !IoError(tr(i), acts(i)) && acts(i) != OfEnv(CloseQuit)
    {
      assert tr(i) == StateAt(states, i) && acts(i) == ActionAt(actions, i);
    }
  }

  // ----- a loop that is told to quit while both streams are still open -----

  lemma ExtendRun(policy: Policy, states: seq<State>, actions: seq<Action>, a: Action)
    returns (states': seq<State>, actions': seq<Action>)
    requires IsRun(policy, states, actions) && Enabled(states[|actions|], a)
    ensures IsRun(policy, states', actions') && states <= states' && actions <= actions'
    ensures states'[|actions'|] == Step(policy, states[|actions|], a)
  {
    states', actions' := states + [Step(policy, states[|actions|], a)], actions + [a];
    assert actions'[..|actions|] == actions && states'[..|states|] == states;
  }

  /** Set up, then told to quit. */
  lemma QuitEarly(policy: Policy) returns (states: seq<State>, actions: seq<Action>)
    ensures IsRun(policy, states, actions)
    ensures states[|actions|] == State(
      Pair(FRESH_END, FRESH_END), Pair(Broker(Copying, 0), Broker(Copying, 0)), 2, 0, true, Selecting, {})
  {
    states, actions := [INIT], [];
    states, actions := ExtendRun(policy, states, actions, OfMain(Dial));
    states, actions := ExtendRun(policy, states, actions, OfMain(WgAdd));
    states, actions := ExtendRun(policy, states, actions, OfMain(SpawnDown));
    states, actions := ExtendRun(policy, states, actions, OfMain(SpawnUp));
    states, actions := ExtendRun(policy, states, actions, OfMain(SpawnWaiter));
    states, actions := ExtendRun(policy, states, actions, OfEnv(CloseQuit));
  }

  /** A broker whose source has been closed under it fails and runs to its end. */
  lemma FailOut(policy: Policy, states: seq<State>, actions: seq<Action>, x: Side)
    returns (states': seq<State>, actions': seq<Action>)
    requires IsRun(policy, states, actions) && states[|actions|].brokers.At(x).pc.Copying?
    ensures IsRun(policy, states', actions') && states <= states' && actions <= actions'
    ensures var s, s' := states[|actions|], states'[|actions'|];
      && s'.brokers.At(x).pc == Finished(Failed) && s'.brokers.At(Other(x)) == s.brokers.At(Other(x))
      && s'.wg == s.wg - 1 && s'.main == s.main && s'.finishCloses == s.finishCloses && s'.quit == s.quit
  {
    states', actions' := ExtendRun(policy, states, actions, OfBroker(x, ReadError));
    states', actions' := ExtendRun(policy, states', actions', OfBroker(x, CloseSource));
    states', actions' := ExtendRun(policy, states', actions', OfBroker(x, CloseDest));
    states', actions' := ExtendRun(policy, states', actions', OfBroker(x, WgDone));
  }

  lemma CloseBothEnds(policy: Policy, states: seq<State>, actions: seq<Action>)
    returns (states': seq<State>, actions': seq<Action>)
    requires IsRun(policy, states, actions) && states[|actions|].main.Selecting? && states[|actions|].quit
    ensures IsRun(policy, states', actions') && states <= states' && actions <= actions'
    ensures var s, s' := states[|actions|], states'[|actions'|];
      s'.main.Joining? && s'.brokers == s.brokers && s'.wg == s.wg && s'.finishCloses == s.finishCloses
  {
    states', actions' := ExtendRun(policy, states, actions, OfMain(SelectQuit));
    states', actions' := ExtendRun(policy, states', actions', OfMain(CloseClient));
    states', actions' := ExtendRun(policy, states', actions', OfMain(CloseBackend));
  }

  /** A fair execution of either policy in which `quit` is closed while the loop serves two open streams. */
  lemma QuitExecution(policy: Policy) returns (tr: nat -> State, acts: nat -> Action, n: nat)
    ensures IsExecution(INIT, NextOf(policy), tr, acts) && WeaklyFair(By, CanStep, tr, acts)
    ensures tr(n).quit && tr(n).main.Selecting? && !tr(n).ends.client.fin && !tr(n).ends.backend.fin
  {
    var states, actions := QuitEarly(policy);
    n := |actions|;
    var serving := states[n];
    var states', actions' := CloseBothEnds(policy, states, actions);
    states', actions' := FailOut(policy, states', actions', Client);
    states', actions' := FailOut(policy, states', actions', Backend);
    states', actions' := ExtendRun(policy, states', actions', OfWaiter);
    states', actions' := ExtendRun(policy, states', actions', OfMain(Join));
    tr, acts := FinishedRunGoesOn(policy, states', actions');
    assert tr(n) == StateAt(states', n) == serving;
  }
}
