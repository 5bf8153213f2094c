/**
  What the expiry of flows needs of the mutex. If every goroutine is scheduled fairly but the mutex goes to
  whoever comes first, a loop whose deadline has passed can wait for it forever while its own client keeps
  `Run` busy; with a fair mutex, as `IdleFlowExpires` shows, it cannot.
 */
module UdpStarvation {
  import opened ConnTrack
  import opened Executions
  import opened UdpProtocol
  import opened UdpInvariant
  import opened UdpDrain
  import opened UdpExpiry
  import opened UdpWindows
  import opened UdpRefill

  /** One client, whose loop waits for the lock while `Run` is at step `i % 6` of serving its next datagram. */
  ghost predicate Starved(s: State, i: nat) {
    && s.listenerOpen && s.closer.NotCalled? && |s.conns| == 1 && s.conns[0].open && s.conns[0].pc.Exiting?
    && s.table == map[s.conns[0].key := 0] && s.conns[0].key == NewConnTrackKey(s.conns[0].client)
    && (s.lock == if i % 6 == 2 || i % 6 == 3 then ByRun else Free)
    && match i % 6
       case 0 => s.run.Waiting?
       case 1 => s.run.Got? && s.run.d.key == s.conns[0].key && s.run.d.payload == [1]
       case 2 => s.run.Locked? && s.run.d.key == s.conns[0].key && s.run.d.payload == [1]
       case 3 => s.run.Found? && s.run.c == 0 && s.run.d.payload == [1]
       case 4 => s.run.Sending? && s.run.c == 0 && s.run.d.payload == [1] && s.run.i == 0
       case _ => s.run.Waiting?
  }

  function Busy(from: Addr): nat -> Action {
    (i: nat) =>
      match i % 6
      case 0 => OfRun(Receive(from, [1]))
      case 1 => OfRun(AcquireRun)
      case 2 => OfRun(Lookup)
      case 3 => OfRun(ReleaseRun)
      case 4 => OfRun(Send(1))
      case _ => OfEnv(Tick)
  }

  /** The client that is starved, as part of the shape. */
  ghost predicate StarvedOf(from: Addr, s: State, i: nat) {
    Starved(s, i) && s.conns[0].client == from
  }

  lemma BusyStarves(from: Addr, s: State, i: nat)
    requires StarvedOf(from, s, i)
    ensures Enabled(s, Busy(from)(i)) && StarvedOf(from, Step(s, Busy(from)(i)), i + 1)
  {
    assert i % 6 == 5 ==> (i + 1) % 6 == 0;
    assert i % 6 < 5 ==> (i + 1) % 6 == i % 6 + 1;
  }

  /** A client's datagram has been served; its loop has left its read and waits for the lock. */
  lemma LoopComesToWait(from: Addr) returns (tr: seq<State>, acts: seq<Action>)
    ensures IsRun(tr, acts) && StarvedOf(from, tr[|acts|], 0)
  {
    tr, acts := [INIT], [];
    tr, acts := Extend(tr, acts, OfRun(Receive(from, [1])));
    tr, acts := Extend(tr, acts, OfRun(AcquireRun));
    tr, acts := ServeNew(tr, acts);
    tr, acts := Extend(tr, acts, OfRun(Send(1)));
    tr, acts := Extend(tr, acts, OfLoop(0, Arm));
    tr, acts := Extend(tr, acts, OfLoop(0, ReadError(Other)));
  }

  ghost predicate StarvesFrom(from: Addr, tr: nat -> State, acts: nat -> Action, p: nat) {
    forall i: nat :: p <= i ==> StarvedOf(from, tr(i), i - p) && acts(i) == Busy(from)(i - p)
  }

  lemma StarvingIsFair(from: Addr, tr: nat -> State, acts: nat -> Action, p: nat)
    requires StarvesFrom(from, tr, acts, p)
    ensures WeaklyFair(By, CanStep, tr, acts) && TimePasses(acts)
  {
    forall w, i: nat
      ensures Served(By, CanStep, tr, acts, w, i)
    {
      var j := p + 6 * i + 2;
      assert (j - p) % 6 == 2;
      assert StarvedOf(from, tr(j), j - p) && acts(j) == Busy(from)(j - p);
      assert By(acts(j), w) || !CanStep(tr(j), w);
    }
    forall i: nat
      ensures TicksAfter(acts, i)
    {
      var j := p + 6 * i + 5;
      assert (j - p) % 6 == 5;
      assert acts(j) == Busy(from)(j - p);
    }
  }

  /**
    An execution in which every goroutine is scheduled fairly and time passes, but a loop that has left its
    read, and reads nothing more, waits for the lock forever.
   */
  lemma UnfairMutexStarvesLoop(from: Addr) returns (tr: nat -> State, acts: nat -> Action, n: nat)
    ensures IsExecution(INIT, Next, tr, acts) && WeaklyFair(By, CanStep, tr, acts) && TimePasses(acts)
    ensures NoReplyFrom(tr, acts, 0, n)
    ensures forall i: nat :: n <= i ==> |tr(i).conns| == 1 && tr(i).conns[0].pc.Exiting? && tr(i).conns[0].open
    ensures !FairLock(tr, acts)
  {
    var pre, steps := LoopComesToWait(from);
    n := |steps|;
    var ready := (s: State, i: nat) => StarvedOf(from, s, i);
    var step := (s: State, i: nat) => if Enabled(s, Busy(from)(i)) then Step(s, Busy(from)(i)) else s;
    forall s: State, i: nat | ready(s, i)
      ensures Next(s, Busy(from)(i), step(s, i)) && ready(step(s, i), i + 1)
    {
      BusyStarves(from, s, i);
    }
    tr, acts := Lasso(Next, pre, steps, ready, Busy(from), step);
    forall i: nat | n <= i
      ensures StarvedOf(from, tr(i), i - n)
    {
      assert ready(tr(i), i - n);
    }
    assert StarvesFrom(from, tr, acts, n);
    StarvingIsFair(from, tr, acts, n);
    StarvedForever(from, tr, acts, n);
    StarvingIsUnfair(from, tr, acts, n);
  }

  lemma StarvedForever(from: Addr, tr: nat -> State, acts: nat -> Action, p: nat)
    requires StarvesFrom(from, tr, acts, p)
    ensures NoReplyFrom(tr, acts, 0, p)
    ensures forall i: nat :: p <= i ==> |tr(i).conns| == 1 && tr(i).conns[0].pc.Exiting? && tr(i).conns[0].open
  {
    forall i: nat | p <= i
      ensures !ReadsReply(tr(i), acts(i), 0)
      ensures |tr(i).conns| == 1 && tr(i).conns[0].pc.Exiting? && tr(i).conns[0].open
    {
      assert StarvedOf(from, tr(i), i - p) && acts(i) == Busy(from)(i - p);
    }
  }

  lemma StarvingIsUnfair(from: Addr, tr: nat -> State, acts: nat -> Action, p: nat)
    requires StarvesFrom(from, tr, acts, p)
    ensures !FairLock(tr, acts)
  {
    forall i: nat | p <= i
      ensures !By(acts(i), Replier(0)) && !HeldFrom(tr, i)
    {
      assert acts(i) == Busy(from)(i - p);
      LockIsFreeAgain(from, tr, acts, p, i);
    }
    assert StarvedOf(from, tr(p), 0) && Waits(tr(p), Replier(0));
    assert !Granted(tr, acts, Replier(0), p);
  }

  lemma LockIsFreeAgain(from: Addr, tr: nat -> State, acts: nat -> Action, p: nat, i: nat)
    requires StarvesFrom(from, tr, acts, p)
    ensures !HeldFrom(tr, i)
  {
    var j := p + 6 * i;
    assert (j - p) % 6 == 0;
    assert StarvedOf(from, tr(j), j - p) && tr(j).lock.Free?;
  }

  // ----- executions with a fair mutex -----

  /** Waiting for the lock ends with a step of one's own. */
  lemma {:induction false} WaitEndsByStep(tr: nat -> State, acts: nat -> Action, w: Who, i: nat, j: nat)
    requires IsExecution(INIT, Next, tr, acts) && i <= j && Waits(tr(i), w) && !Waits(tr(j), w)
    ensures exists k: nat :: i <= k < j && By(acts(k), w)
    decreases j
  {
    if Waits(tr(j - 1), w) {
      ExecutionKeepsInv(tr, acts, j - 1);
      assert StepsAt(Next, tr, acts, j - 1);
      if !By(acts(j - 1), w) {
        OthersLeaveWaiter(tr(j - 1), acts(j - 1), w);
      }
    } else {
      WaitEndsByStep(tr, acts, w, i, j - 1);
    }
  }

  lemma OthersLeaveWaiter(s: State, a: Action, w: Who)
    requires RunInv(s) && Enabled(s, a) && Waits(s, w) && !By(a, w)
    ensures Waits(Step(s, a), w)
  {
    if a.OfLoop? {
      LoopMovesOnlyItself(s, a.c, a.loop);
    }
  }

  /** If nobody waits from some point on, the mutex was fair. */
  lemma StillnessIsFair(tr: nat -> State, acts: nat -> Action, p: nat)
    requires IsExecution(INIT, Next, tr, acts) && forall i: nat :: p <= i ==> Still(tr(i), 0)
    ensures FairLock(tr, acts)
  {
    forall w, i: nat | Waits(tr(i), w)
      ensures Granted(tr, acts, w, i)
    {
      var j := if i < p then p else i;
      assert Still(tr(j), 0);
      WaitEndsByStep(tr, acts, w, i, j);
    }
  }

  /** With a fair mutex: the loop in the same situation retires, the proxy goes on. */
  lemma FairMutexExpiresLoop(from: Addr) returns (tr: nat -> State, acts: nat -> Action, n: nat)
    ensures IsExecution(INIT, Next, tr, acts) && WeaklyFair(By, CanStep, tr, acts) && FairLock(tr, acts)
    ensures TimePasses(acts) && |tr(n).conns| == 1 && tr(n).conns[0].pc.Exiting? && NoReplyFrom(tr, acts, 0, n)
    ensures forall i: nat :: n <= i ==> tr(i).listenerOpen
  {
    var pre, steps := LoopComesToWait(from);
    n := |steps|;
    var waiting := pre[n];
    var pre', steps' := Retires(pre, steps);
    tr, acts := StillRunGoesOn(pre', steps');
    StillnessIsFair(tr, acts, |steps'|);
    assert tr(n) == pre'[n] == waiting;
    forall i: nat | n <= i
      ensures !ReadsReply(tr(i), acts(i), 0)
    {
      assert i < |steps'| ==> acts(i) == steps'[i];
    }
    forall i: nat | n <= i
      ensures tr(i).listenerOpen
    {
      StaysOpen(tr, acts, n, i);
    }
  }

  lemma {:induction false} StaysOpen(tr: nat -> State, acts: nat -> Action, n: nat, i: nat)
    requires IsExecution(INIT, Next, tr, acts) && n <= i && tr(n).listenerOpen
    requires forall j: nat :: n <= j ==> !acts(j).OfClose?
    ensures tr(i).listenerOpen
    decreases i
  {
    if n < i {
      StaysOpen(tr, acts, n, i - 1);
      assert StepsAt(Next, tr, acts, i - 1);
      OnlyCloseCloses(tr(i - 1), acts(i - 1));
    }
  }

  lemma OnlyCloseCloses(s: State, a: Action)
    requires Enabled(s, a) && !a.OfClose?
    ensures Step(s, a).listenerOpen == s.listenerOpen
  {
  }

  lemma Retires(pre: seq<State>, acts: seq<Action>) returns (pre': seq<State>, acts': seq<Action>)
    requires IsRun(pre, acts)
    requires var s := pre[|acts|];
      && s.run.Waiting? && s.listenerOpen && s.closer.NotCalled? && s.lock.Free?
      && |s.conns| == 1 && s.conns[0].pc.Exiting?
    ensures IsRun(pre', acts') && pre <= pre' && Still(pre'[|acts'|], 0) && |acts'| == |acts| + 4
    ensures forall i :: |acts| <= i < |acts'| ==> acts'[i].OfLoop? && !acts'[i].loop.ReadItem?
  {
    pre', acts' := Extend(pre, acts, OfLoop(0, AcquireLoop));
    pre', acts' := Extend(pre', acts', OfLoop(0, Delete));
    pre', acts' := Extend(pre', acts', OfLoop(0, ReleaseLoop));
    pre', acts' := Extend(pre', acts', OfLoop(0, CloseConn));
  }
}
