/**
  Every weakly fair execution of a client loop comes to an end once `quit` is closed, with full closes
  once either copy has ended, and once both peers have ended their streams if they go on reading. A
  write on an open connection may block for as long as its peer does not read.
 */
module StreamDrain {
  import opened Executions
  import opened StreamLoop
  import opened StreamSafety
  import opened StreamOutcome

  /** The loop has returned: after the join, or at once because the dial failed. */
  predicate Over(s: State) {
    s.main.Returned? || s.main.Abandoned?
  }

  // ----- a measure that every step of the proxy decreases -----

  function MainRank(m: MainPc): nat {
    match m
    case Dialling => 9
    case DialFailed => 1
    case Abandoned => 0
    case Dialled => 8
    case Added => 7
    case DownSpawned => 6
    case UpSpawned => 5
    case Selecting => 4
    case Chosen => 3
    case ClientClosed => 2
    case Joining => 1
    case Returned => 0
  }

  function BrokerRank(pc: BrokerPc): nat {
    match pc
    case NotStarted => 6
    case Copying => 6
    case Writing(_) => 7
    case Copied(_) => 3
    case SourceClosed(_) => 2
    case DestClosed(_) => 1
    case Finished(_) => 0
  }

  /** The bytes broker `x` can still read. */
  function Unread(s: State, x: Side): nat {
    var from, b := s.ends.At(x), s.brokers.At(x);
    if from.readOpen && b.taken <= |from.sent| then |from.sent| - b.taken else 0
  }

  function Measure(s: State): nat {
    MainRank(s.main) + (if Finish(s) then 0 else 1)
    + BrokerRank(s.brokers.client.pc) + 2 * Unread(s, Client)
    + BrokerRank(s.brokers.backend.pc) + 2 * Unread(s, Backend)
  }

  /** A broker step lowers its own rank, and gives the other broker nothing more to read. */
  lemma BrokerRanks(policy: Policy, s: State, x: Side, a: BrokerAction)
    requires DataInv(s, x) && BrokerEnabled(s, x, a)
    ensures var s' := BrokerStep(policy, s, x, a);
      && BrokerRank(s'.brokers.At(x).pc) + 2 * Unread(s', x) < BrokerRank(s.brokers.At(x).pc) + 2 * Unread(s, x)
      && s'.brokers.At(Other(x)) == s.brokers.At(Other(x))
      && Unread(s', Other(x)) <= Unread(s, Other(x))
      && s'.main == s.main && s'.finishCloses == s.finishCloses
  {
  }

  lemma BrokerDecreases(policy: Policy, s: State, x: Side, a: BrokerAction)
    requires DataInv(s, Client) && DataInv(s, Backend) && BrokerEnabled(s, x, a)
    ensures Measure(BrokerStep(policy, s, x, a)) < Measure(s)
  {
    BrokerRanks(policy, s, x, a);
    assert x == Client || x == Backend;
  }

  lemma MainDecreases(s: State, a: MainAction)
    requires SyncInv(s) && DataInv(s, Client) && DataInv(s, Backend) && MainEnabled(s, a)
    ensures Measure(MainStep(s, a)) < Measure(s)
  {
  }

  lemma ProxyStepDecreases(policy: Policy, s: State, a: Action)
    requires Inv(policy, s) && Enabled(s, a) && !a.OfEnv?
    ensures Measure(Step(policy, s, a)) < Measure(s)
  {
    match a
    case OfBroker(x, b) => BrokerDecreases(policy, s, x, b);
    case OfMain(m) => MainDecreases(s, m);
    case OfWaiter =>
  }

  /** No peer can give its broker anything more to read. */
  predicate Settled(s: State) {
    && (s.ends.client.fin || !s.ends.client.readOpen)
    && (s.ends.backend.fin || !s.ends.backend.readOpen)
  }

  // ----- goroutines that can go on without a spontaneous failure -----

  datatype Who = Main | Waiter | BrokerFrom(x: Side)

  predicate By(a: Action, w: Who) {
    match a
    case OfBroker(x, _) => w == BrokerFrom(x)
    case OfMain(_) => w == Main
    case OfWaiter => w == Waiter
    case OfEnv(_) => false
  }

  predicate CanStep(s: State, w: Who) {
    match w
    case Main =>
      (match s.main
       case Selecting => s.quit || Finish(s)
       case Joining => Finish(s)
       case Returned => false
       case Abandoned => false
       case _ => true)
    case Waiter => WaiterEnabled(s)
    case BrokerFrom(x) =>
      var from, b := s.ends.At(x), s.brokers.At(x);
      (match b.pc
       case NotStarted => false
       case Copying => !from.readOpen || b.taken < |from.sent| || (from.fin && b.taken == |from.sent|)
       case Writing(_) => !s.ends.At(Other(x)).writeOpen
       case Finished(_) => false
       case _ => true)
  }

  /** Broker `x` is in a write that may block, as its destination is open. */
  predicate MayBlock(s: State, x: Side) {
    s.brokers.At(x).pc.Writing? && s.ends.At(Other(x)).writeOpen
  }

  /** `CanStep` is honest: it names a goroutine with an enabled step that is not an I/O error. */
  lemma CanStepMeansEnabled(s: State, w: Who) returns (a: Action)
    requires CanStep(s, w)
    ensures By(a, w) && Enabled(s, a) && !IoError(s, a)
  {
    match w
    case Main =>
      a := OfMain(match s.main
        case Dialling => Dial
        case DialFailed => CloseUnserved
        case Dialled => WgAdd
        case Added => SpawnDown
        case DownSpawned => SpawnUp
        case UpSpawned => SpawnWaiter
        case Selecting => if s.quit then SelectQuit else SelectFinish
        case Chosen => CloseClient
        case ClientClosed => CloseBackend
        case _ => Join);
    case Waiter => a := OfWaiter;
    case BrokerFrom(x) =>
      var from, b := s.ends.At(x), s.brokers.At(x);
      a := OfBroker(x,
        if b.pc.Copying? then
          (if !from.readOpen then ReadError else if b.taken < |from.sent| then Read(1) else ReadEof)
        else if b.pc.Writing? then WriteError
        else if b.pc.Copied? then CloseSource
        else if b.pc.SourceClosed? then CloseDest
        else WgDone);
  }

  /** A loop that is not over and whose peers have nothing to add is never stuck, except in a write that blocks. */
  lemma SettledLoopCanStep(policy: Policy, s: State) returns (w: Who)
    requires Inv(policy, s) && Settled(s) && !Over(s)
    ensures CanStep(s, w) || (w.BrokerFrom? && MayBlock(s, w.x))
  {
    if CanStep(s, Main) {
      w := Main;
    } else if CanStep(s, BrokerFrom(Client)) || MayBlock(s, Client) {
      w := BrokerFrom(Client);
    } else if CanStep(s, BrokerFrom(Backend)) || MayBlock(s, Backend) {
      w := BrokerFrom(Backend);
    } else {
      w := Waiter;
    }
  }

  // ----- infinite executions -----

  /** The steps that a loop of the given policy can take. */
  function NextOf(policy: Policy): (State, Action, State) -> bool {
    (s: State, a: Action, s': State) => Enabled(s, a) && s' == Step(policy, s, a)
  }

  lemma TakesStep(policy: Policy, tr: nat -> State, acts: nat -> Action, i: nat)
    requires IsExecution(INIT, NextOf(policy), tr, acts)
    ensures StepsAt(NextOf(policy), tr, acts, i) && Enabled(tr(i), acts(i)) && tr(i + 1) == Step(policy, tr(i), acts(i))
  {
    assert StepsAt(NextOf(policy), tr, acts, i);
    assert NextOf(policy)(tr(i), acts(i), tr(i + 1));
  }

  /** At step `i` or later broker `x` takes a step or is not in a write that blocks. */
  ghost predicate Unblocked(tr: nat -> State, acts: nat -> Action, x: Side, i: nat) {
    exists j: nat :: i <= j && (By(acts(j), BrokerFrom(x)) || !MayBlock(tr(j), x))
  }

  /** From step `n` on, no write blocks forever. */
  ghost predicate WritesGoThrough(tr: nat -> State, acts: nat -> Action, n: nat) {
    forall x, i: nat :: n <= i ==> Unblocked(tr, acts, x, i)
  }

  lemma {:induction false} ExecutionKeepsInv(policy: Policy, tr: nat -> State, acts: nat -> Action, i: nat)
    requires IsExecution(INIT, NextOf(policy), tr, acts)
    ensures Inv(policy, tr(i))
  {
    if i > 0 {
      ExecutionKeepsInv(policy, tr, acts, i - 1);
      TakesStep(policy, tr, acts, i - 1);
      StepKeepsInv(policy, tr(i - 1), acts(i - 1));
    }
  }

  /** Peers take nothing away: what a goroutine could do, it still can. */
  lemma EnvKeepsSettled(s: State, a: EnvAction)
    requires Settled(s) && EnvEnabled(s, a)
    ensures Settled(EnvStep(s, a)) && Measure(EnvStep(s, a)) == Measure(s)
    ensures forall w :: CanStep(s, w) ==> CanStep(EnvStep(s, a), w)
    ensures forall x :: MayBlock(s, x) ==> MayBlock(EnvStep(s, a), x)
  {
  }

  lemma ProxyKeepsSettled(policy: Policy, s: State, a: Action)
    requires Settled(s) && Enabled(s, a) && !a.OfEnv?
    ensures Settled(Step(policy, s, a))
  {
    if a.OfBroker? {
      BrokerReopensNothing(policy, s, a.x, a.broker, Client);
      BrokerReopensNothing(policy, s, a.x, a.broker, Backend);
    }
  }

  lemma BrokerReopensNothing(policy: Policy, s: State, x: Side, a: BrokerAction, y: Side)
    requires BrokerEnabled(s, x, a)
    ensures var e, e' := s.ends.At(y), BrokerStep(policy, s, x, a).ends.At(y);
      e'.fin == e.fin && (e'.readOpen ==> e.readOpen) && (e'.writeOpen ==> e.writeOpen)
  {
  }

  lemma {:induction false} SettledStays(policy: Policy, tr: nat -> State, acts: nat -> Action, i: nat, j: nat, w: Who)
    requires IsExecution(INIT, NextOf(policy), tr, acts) && Settled(tr(i)) && i <= j
    ensures Settled(tr(j)) && Measure(tr(j)) <= Measure(tr(i))
    ensures Measure(tr(j)) == Measure(tr(i)) ==>
      && (CanStep(tr(i), w) ==> CanStep(tr(j), w))
      && (w.BrokerFrom? && MayBlock(tr(i), w.x) ==> MayBlock(tr(j), w.x))
    decreases j
  {
    if i < j {
      SettledStays(policy, tr, acts, i, j - 1, w);
      var s, a := tr(j - 1), acts(j - 1);
      TakesStep(policy, tr, acts, j - 1);
      if a.OfEnv? {
        EnvKeepsSettled(s, a.env);
      } else {
        ExecutionKeepsInv(policy, tr, acts, j - 1);
        ProxyKeepsSettled(policy, s, a);
        ProxyStepDecreases(policy, s, a);
      }
    }
  }

  /** A goroutine that can go on, or may block, does go on before anything else does. */
  lemma SomeStepFollows(tr: nat -> State, acts: nat -> Action, n: nat, w: Who) returns (j: nat)
    requires WeaklyFair(By, CanStep, tr, acts) && WritesGoThrough(tr, acts, n)
    requires CanStep(tr(n), w) || (w.BrokerFrom? && MayBlock(tr(n), w.x))
    ensures n <= j
    ensures By(acts(j), w) || (CanStep(tr(n), w) && !CanStep(tr(j), w))
         || (w.BrokerFrom? && MayBlock(tr(n), w.x) && !MayBlock(tr(j), w.x))
  {
    if CanStep(tr(n), w) {
      assert Served(By, CanStep, tr, acts, w, n);
      j :| n <= j && (By(acts(j), w) || !CanStep(tr(j), w));
    } else {
      assert Unblocked(tr, acts, w.x, n);
      j :| n <= j && (By(acts(j), BrokerFrom(w.x)) || !MayBlock(tr(j), w.x));
    }
  }

  /** Once neither peer can add anything and no write blocks forever, every weakly fair execution ends the loop. */
  lemma {:induction false} SettledLoopEnds(policy: Policy, tr: nat -> State, acts: nat -> Action, n: nat)
    returns (m: nat)
    requires IsExecution(INIT, NextOf(policy), tr, acts) && WeaklyFair(By, CanStep, tr, acts) && Settled(tr(n))
    requires WritesGoThrough(tr, acts, n)
    ensures n <= m && Over(tr(m))
    decreases Measure(tr(n))
  {
    if Over(tr(n)) {
      return n;
    }
    ExecutionKeepsInv(policy, tr, acts, n);
    var w := SettledLoopCanStep(policy, tr(n));
    var j := SomeStepFollows(tr, acts, n, w);
    SettledStays(policy, tr, acts, n, j, w);
    if Measure(tr(j)) < Measure(tr(n)) {
      m := SettledLoopEnds(policy, tr, acts, j);
    } else {
      ExecutionKeepsInv(policy, tr, acts, j);
      TakesStep(policy, tr, acts, j);
      ProxyKeepsSettled(policy, tr(j), acts(j));
      ProxyStepDecreases(policy, tr(j), acts(j));
      m := SettledLoopEnds(policy, tr, acts, j + 1);
    }
  }

  // ----- quitting -----

  lemma {:induction false} MainOnlyAdvances(policy: Policy, tr: nat -> State, acts: nat -> Action, i: nat, j: nat)
    requires IsExecution(INIT, NextOf(policy), tr, acts) && i <= j
    ensures MainRank(tr(j).main) <= MainRank(tr(i).main)
    ensures tr(i).quit ==> tr(j).quit
    decreases j
  {
    if i < j {
      MainOnlyAdvances(policy, tr, acts, i, j - 1);
      TakesStep(policy, tr, acts, j - 1);
      StepAdvancesMain(policy, tr(j - 1), acts(j - 1));
    }
  }

  lemma StepAdvancesMain(policy: Policy, s: State, a: Action)
    requires Enabled(s, a)
    ensures var s' := Step(policy, s, a);
      && MainRank(s'.main) <= MainRank(s.main) && (s.quit ==> s'.quit)
      && (a.OfMain? ==> MainRank(s'.main) < MainRank(s.main))
  {
    if a.OfBroker? {
      BrokerLeavesMain(policy, s, a.x, a.broker);
    }
  }

  lemma BrokerLeavesMain(policy: Policy, s: State, x: Side, a: BrokerAction)
    requires BrokerEnabled(s, x, a)
    ensures BrokerStep(policy, s, x, a).main == s.main && BrokerStep(policy, s, x, a).quit == s.quit
  {
  }

  /** The main goroutine closes both connections, whatever the brokers and peers are doing. */
  lemma {:induction false} QuitClosesBoth(policy: Policy, tr: nat -> State, acts: nat -> Action, n: nat)
    returns (m: nat)
    requires IsExecution(INIT, NextOf(policy), tr, acts) && WeaklyFair(By, CanStep, tr, acts) && tr(n).quit
    ensures n <= m && (tr(m).main.Joining? || Over(tr(m)))
    decreases MainRank(tr(n).main)
  {
    if tr(n).main.Joining? || Over(tr(n)) {
      return n;
    }
    assert Served(By, CanStep, tr, acts, Main, n);
    var j: nat :| n <= j && (By(acts(j), Main) || !CanStep(tr(j), Main));
    MainOnlyAdvances(policy, tr, acts, n, j);
    if tr(j).main.Joining? || Over(tr(j)) {
      m := j;
    } else {
      TakesStep(policy, tr, acts, j);
      StepAdvancesMain(policy, tr(j), acts(j));
      MainOnlyAdvances(policy, tr, acts, j, j + 1);
      m := QuitClosesBoth(policy, tr, acts, j + 1);
    }
  }

  lemma {:induction false} ClosedStays(policy: Policy, tr: nat -> State, acts: nat -> Action, i: nat, j: nat, x: Side)
    requires IsExecution(INIT, NextOf(policy), tr, acts) && i <= j && !tr(i).ends.At(x).writeOpen
    ensures !tr(j).ends.At(x).writeOpen
    decreases j
  {
    if i < j {
      ClosedStays(policy, tr, acts, i, j - 1, x);
      TakesStep(policy, tr, acts, j - 1);
      NothingReopens(policy, tr(j - 1), acts(j - 1), x);
    }
  }

  lemma NothingReopens(policy: Policy, s: State, a: Action, x: Side)
    requires Enabled(s, a) && !s.ends.At(x).writeOpen
    ensures !Step(policy, s, a).ends.At(x).writeOpen
  {
    if a.OfBroker? {
      BrokerReopensNothing(policy, s, a.x, a.broker, x);
    }
  }

  /** With both connections closed no write blocks: it fails. */
  lemma ClosedNeverBlocks(policy: Policy, tr: nat -> State, acts: nat -> Action, n: nat)
    requires IsExecution(INIT, NextOf(policy), tr, acts) && Closed(tr(n).ends.client) && Closed(tr(n).ends.backend)
    ensures WritesGoThrough(tr, acts, n)
  {
    forall x, i: nat | n <= i
      ensures Unblocked(tr, acts, x, i)
    {
      assert !tr(n).ends.At(Other(x)).writeOpen;
      ClosedStays(policy, tr, acts, n, i, Other(x));
      assert !MayBlock(tr(i), x);
    }
  }

  /** Once `quit` is closed, every weakly fair execution takes the loop to its return, even if no peer reads. */
  lemma QuitEndsLoop(policy: Policy, tr: nat -> State, acts: nat -> Action, n: nat)
    requires IsExecution(INIT, NextOf(policy), tr, acts) && WeaklyFair(By, CanStep, tr, acts) && tr(n).quit
    ensures exists m: nat :: n <= m && Over(tr(m))
  {
    var i := QuitClosesBoth(policy, tr, acts, n);
    if !Over(tr(i)) {
      ExecutionKeepsInv(policy, tr, acts, i);
      ClosedNeverBlocks(policy, tr, acts, i);
      var m := SettledLoopEnds(policy, tr, acts, i);
    }
  }

  /** Once both peers have ended their streams, it returns without quitting, unless a peer stops reading for good. */
  lemma EndedStreamsEndLoop(policy: Policy, tr: nat -> State, acts: nat -> Action, n: nat)
    requires IsExecution(INIT, NextOf(policy), tr, acts) && WeaklyFair(By, CanStep, tr, acts)
    requires tr(n).ends.client.fin && tr(n).ends.backend.fin && WritesGoThrough(tr, acts, n)
    ensures exists m: nat :: n <= m && Over(tr(m))
  {
    var m := SettledLoopEnds(policy, tr, acts, n);
  }

  /** Nothing fails by itself, and the proxy does not quit. */
  ghost predicate Undisturbed(policy: Policy, tr: nat -> State, acts: nat -> Action) {
    forall i: nat :: Enabled(tr(i), acts(i)) ==> !IoError(tr(i), acts(i)) && acts(i) != OfEnv(CloseQuit)
  }

  /** The beginning of an execution in which nothing fails by itself is a clean run. */
  lemma BeginningIsCleanRun(policy: Policy, tr: nat -> State, acts: nat -> Action, n: nat)
    returns (states: seq<State>, actions: seq<Action>)
    requires IsExecution(INIT, NextOf(policy), tr, acts)
    requires Undisturbed(policy, tr, acts)
    ensures IsCleanRun(policy, states, actions) && |actions| == n && states[n] == tr(n)
  {
    states, actions := seq(n + 1, i requires 0 <= i <= n => tr(i)), seq(n, i requires 0 <= i < n => acts(i));
    forall i | 0 <= i < n
      ensures Enabled(states[i], actions[i]) && states[i + 1] == Step(policy, states[i], actions[i])
      ensures !IoError(states[i], actions[i]) && actions[i] != OfEnv(CloseQuit)
    {
      TakesStep(policy, tr, acts, i);
    }
    assert IsRun(policy, states, actions);
  }

  /**
    TCP, without I/O errors and without quitting: every weakly fair execution in which both peers have
    ended their streams and go on reading returns, with every byte of both directions delivered.
   */
  lemma TcpExecutionsDeliver(tr: nat -> State, acts: nat -> Action, n: nat)
    requires IsExecution(INIT, NextOf(HalfClose), tr, acts) && WeaklyFair(By, CanStep, tr, acts)
    requires tr(n).ends.client.fin && tr(n).ends.backend.fin && WritesGoThrough(tr, acts, n)
    requires Undisturbed(HalfClose, tr, acts)
    ensures exists m: nat :: n <= m && tr(m).main.Returned? && Complete(tr(m), Client) && Complete(tr(m), Backend)
  {
    var m := SettledLoopEnds(HalfClose, tr, acts, n);
    var states, actions := BeginningIsCleanRun(HalfClose, tr, acts, m);
    RunsKeepClean(HalfClose, states, actions, m);
    TcpDeliversEverything(states, actions, m, Client);
    TcpDeliversEverything(states, actions, m, Backend);
  }

  // ----- full closes -----

  lemma {:induction false} EndedCopyOnlyAdvances(
    policy: Policy, tr: nat -> State, acts: nat -> Action, i: nat, j: nat, x: Side)
    requires IsExecution(INIT, NextOf(policy), tr, acts) && i <= j && Ended(tr(i).brokers.At(x).pc)
    ensures Ended(tr(j).brokers.At(x).pc) && BrokerRank(tr(j).brokers.At(x).pc) <= BrokerRank(tr(i).brokers.At(x).pc)
    decreases j
  {
    if i < j {
      EndedCopyOnlyAdvances(policy, tr, acts, i, j - 1, x);
      ExecutionKeepsInv(policy, tr, acts, j - 1);
      TakesStep(policy, tr, acts, j - 1);
      EndedCopyAdvances(policy, tr(j - 1), acts(j - 1), x);
    }
  }

  lemma EndedCopyAdvances(policy: Policy, s: State, a: Action, x: Side)
    requires SyncInv(s) && Enabled(s, a) && Ended(s.brokers.At(x).pc)
    ensures var pc, pc' := s.brokers.At(x).pc, Step(policy, s, a).brokers.At(x).pc;
      && Ended(pc') && BrokerRank(pc') <= BrokerRank(pc)
      && (By(a, BrokerFrom(x)) ==> BrokerRank(pc') < BrokerRank(pc))
  {
    if By(a, BrokerFrom(x)) {
      EndedBrokerStep(policy, s, x, a.broker);
    } else if a.OfBroker? {
      BrokerLeavesOther(policy, s, a.x, a.broker);
    } else if a.OfMain? {
      assert !a.main.SpawnDown? || x == Client;
    }
  }

  lemma EndedBrokerStep(policy: Policy, s: State, x: Side, a: BrokerAction)
    requires BrokerEnabled(s, x, a) && Ended(s.brokers.At(x).pc)
    ensures var pc, pc' := s.brokers.At(x).pc, BrokerStep(policy, s, x, a).brokers.At(x).pc;
      Ended(pc') && BrokerRank(pc') < BrokerRank(pc)
  {
  }

  lemma BrokerLeavesOther(policy: Policy, s: State, x: Side, a: BrokerAction)
    requires BrokerEnabled(s, x, a)
    ensures BrokerStep(policy, s, x, a).brokers.At(Other(x)) == s.brokers.At(Other(x))
  {
  }

  lemma {:induction false} EndedCopyClosesBoth(tr: nat -> State, acts: nat -> Action, n: nat, x: Side) returns (m: nat)
    requires IsExecution(INIT, NextOf(FullClose), tr, acts) && WeaklyFair(By, CanStep, tr, acts)
    requires Ended(tr(n).brokers.At(x).pc)
    ensures n <= m && PastDest(tr(m).brokers.At(x).pc)
    decreases BrokerRank(tr(n).brokers.At(x).pc)
  {
    if PastDest(tr(n).brokers.At(x).pc) {
      return n;
    }
    assert Served(By, CanStep, tr, acts, BrokerFrom(x), n);
    var j: nat :| n <= j && (By(acts(j), BrokerFrom(x)) || !CanStep(tr(j), BrokerFrom(x)));
    EndedCopyOnlyAdvances(FullClose, tr, acts, n, j, x);
    if PastDest(tr(j).brokers.At(x).pc) {
      m := j;
    } else {
      ExecutionKeepsInv(FullClose, tr, acts, j);
      TakesStep(FullClose, tr, acts, j);
      EndedCopyAdvances(FullClose, tr(j), acts(j), x);
      m := EndedCopyClosesBoth(tr, acts, j + 1, x);
    }
  }

  /**
    SCTP: once either copy has ended, every weakly fair execution closes both connections and takes
    the loop to its return, without quitting and whatever the peers do or fail to read.
   */
  lemma SctpEndedCopyEndsLoop(tr: nat -> State, acts: nat -> Action, n: nat, x: Side)
    requires IsExecution(INIT, NextOf(FullClose), tr, acts) && WeaklyFair(By, CanStep, tr, acts)
    requires Ended(tr(n).brokers.At(x).pc)
    ensures exists m: nat :: n <= m && Over(tr(m)) && Closed(tr(m).ends.client) && Closed(tr(m).ends.backend)
  {
    var i := EndedCopyClosesBoth(tr, acts, n, x);
    ExecutionKeepsInv(FullClose, tr, acts, i);
    assert Closed(tr(i).ends.client) && Closed(tr(i).ends.backend);
    ClosedNeverBlocks(FullClose, tr, acts, i);
    var m := SettledLoopEnds(FullClose, tr, acts, i);
    EndedCopyOnlyAdvances(FullClose, tr, acts, n, m, x);
    ExecutionKeepsInv(FullClose, tr, acts, m);
  }
}
