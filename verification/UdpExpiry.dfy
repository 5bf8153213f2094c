/**
  While the UDP proxy is running, every datagram is dealt with and every flow without replies expires:
  its loop ends, its entry goes and its connection is closed, whether `Close` is ever called or not.

  Expiry needs the mutex to be fair to those who wait for it, as `sync.Mutex` is; see `UdpStarvation`.
 */
module UdpExpiry {
  import opened Executions
  import opened UdpProtocol
  import opened UdpInvariant
  import opened UdpSafety
  import opened UdpDrain

  // ----- a fair mutex -----

  /** Goroutine `w` is waiting for the lock. */
  predicate Waits(s: State, w: Who) {
    match w
    case Runner => s.run.Got?
    case Replier(c) => c < |s.conns| && s.conns[c].pc.Exiting?
    case Closer => s.closer.ListenerClosed?
  }

  ghost predicate HeldFrom(tr: nat -> State, i: nat) {
    forall j: nat :: i <= j ==> !tr(j).lock.Free?
  }

  /** At step `i` or later goroutine `w` takes a step, or the lock is held and never free again. */
  ghost predicate Granted(tr: nat -> State, acts: nat -> Action, w: Who, i: nat) {
    exists j: nat :: i <= j && (By(acts(j), w) || HeldFrom(tr, j))
  }

  /** Whoever waits for the lock gets it, if it keeps being released. */
  ghost predicate FairLock(tr: nat -> State, acts: nat -> Action) {
    forall w, i: nat :: Waits(tr(i), w) ==> Granted(tr, acts, w, i)
  }

  // ----- the lock keeps being released -----

  function HolderOf(lock: Holder): Who
    requires !lock.Free?
  {
    match lock
    case ByRun => Runner
    case ByLoop(c) => Replier(c)
    case ByClose => Closer
  }

  /** How many steps the holder still has to take in its critical section. */
  function HolderRank(s: State): nat {
    match s.lock
    case Free => 0
    case ByRun =>
      (match s.run
       case Locked(_) => 5
       case Missed(_) => 4
       case Dialled(_, _) => 3
       case Inserted(_, _) => 2
       case _ => 1)
    case ByLoop(c) => if c < |s.conns| && s.conns[c].pc.Holding? then 2 else 1
    case ByClose => if s.closer.Sweeping? then 1 + |s.closer.pending| else 0
  }

  lemma OtherLeavesHolder(s: State, a: Action)
    requires Inv(s) && Enabled(s, a) && !s.lock.Free? && !By(a, HolderOf(s.lock))
    ensures Step(s, a).lock == s.lock && HolderRank(Step(s, a)) == HolderRank(s)
  {
    match a
    case OfRun(r) => RunLeavesHolder(s, r);
    case OfLoop(c, l) =>
      LoopMovesOnlyItself(s, c, l);
      LoopLeavesHolder(s, c, l);
    case OfClose(x) => CloseLeavesHolder(s, x);
    case OfEnv(_) =>
  }

  lemma RunLeavesHolder(s: State, a: RunAction)
    requires LockInv(s) && RunEnabled(s, a) && !s.lock.Free? && !s.lock.ByRun?
    ensures RunStep(s, a).lock == s.lock && RunStep(s, a).conns == s.conns && RunStep(s, a).closer == s.closer
  {
  }

  lemma LoopLeavesHolder(s: State, c: nat, a: LoopAction)
    requires LockInv(s) && LoopEnabled(s, c, a) && !s.lock.Free? && s.lock != ByLoop(c)
    ensures LoopStep(s, c, a).lock == s.lock
  {
  }

  lemma CloseLeavesHolder(s: State, a: CloseAction)
    requires LockInv(s) && CloseEnabled(s, a) && !s.lock.Free? && !s.lock.ByClose?
    ensures CloseStep(s, a).lock == s.lock && CloseStep(s, a).conns == s.conns && CloseStep(s, a).run == s.run
  {
  }

  lemma HolderAdvances(s: State, a: Action)
    requires Inv(s) && Enabled(s, a) && !s.lock.Free? && By(a, HolderOf(s.lock))
    ensures var s' := Step(s, a); s'.lock.Free? || (s'.lock == s.lock && HolderRank(s') < HolderRank(s))
  {
    match a
    case OfRun(r) => RunHolds(s, r);
    case OfLoop(c, l) => LoopHolds(s, c, l);
    case OfClose(x) => CloseHolds(s, x);
    case OfEnv(_) =>
  }

  lemma RunHolds(s: State, a: RunAction)
    requires LockInv(s) && RunEnabled(s, a) && s.lock.ByRun?
    ensures var s' := RunStep(s, a); s'.lock.Free? || (s'.lock == s.lock && HolderRank(s') < HolderRank(s))
  {
  }

  lemma LoopHolds(s: State, c: nat, a: LoopAction)
    requires LockInv(s) && LoopEnabled(s, c, a) && s.lock == ByLoop(c)
    ensures var s' := LoopStep(s, c, a); s'.lock.Free? || (s'.lock == s.lock && HolderRank(s') < HolderRank(s))
  {
  }

  lemma CloseHolds(s: State, a: CloseAction)
    requires LockInv(s) && CloseEnabled(s, a) && s.lock.ByClose?
    ensures var s' := CloseStep(s, a); s'.lock.Free? || (s'.lock == s.lock && HolderRank(s') < HolderRank(s))
  {
  }

  lemma HolderCanStep(s: State)
    requires Inv(s) && !s.lock.Free?
    ensures CanStep(s, HolderOf(s.lock))
  {
  }

  /** From `n` to `j` the lock is released, at `k`, or its holder has stayed and not fallen back. */
  lemma {:induction false} HolderStays(tr: nat -> State, acts: nat -> Action, n: nat, j: nat) returns (k: nat)
    requires IsExecution(INIT, Next, tr, acts) && n <= j && !tr(n).lock.Free?
    ensures n <= k <= j
    ensures tr(k).lock.Free? || (k == j && tr(j).lock == tr(n).lock && HolderRank(tr(j)) <= HolderRank(tr(n)))
    decreases j
  {
    if n == j {
      return j;
    }
    k := HolderStays(tr, acts, n, j - 1);
    if !tr(k).lock.Free? {
      k := j;
      ExecutionKeepsInv(tr, acts, j - 1);
      assert StepsAt(Next, tr, acts, j - 1);
      if By(acts(j - 1), HolderOf(tr(n).lock)) {
        HolderAdvances(tr(j - 1), acts(j - 1));
      } else {
        OtherLeavesHolder(tr(j - 1), acts(j - 1));
      }
    }
  }

  /** Every critical section ends. */
  lemma {:induction false} LockIsFreed(tr: nat -> State, acts: nat -> Action, n: nat) returns (m: nat)
    requires IsExecution(INIT, Next, tr, acts) && WeaklyFair(By, CanStep, tr, acts)
    ensures n <= m && tr(m).lock.Free?
    decreases HolderRank(tr(n))
  {
    if tr(n).lock.Free? {
      return n;
    }
    var w := HolderOf(tr(n).lock);
    assert Served(By, CanStep, tr, acts, w, n);
    var j: nat :| n <= j && (By(acts(j), w) || !CanStep(tr(j), w));
    m := HolderStays(tr, acts, n, j);
    if !tr(m).lock.Free? {
      ExecutionKeepsInv(tr, acts, j);
      HolderCanStep(tr(j));
      assert StepsAt(Next, tr, acts, j);
      HolderAdvances(tr(j), acts(j));
      m := LockIsFreed(tr, acts, j + 1);
    }
  }

  /** Whoever waits for the lock takes a step. */
  lemma WaiterSteps(tr: nat -> State, acts: nat -> Action, w: Who, n: nat) returns (j: nat)
    requires IsExecution(INIT, Next, tr, acts) && WeaklyFair(By, CanStep, tr, acts) && FairLock(tr, acts)
    requires Waits(tr(n), w)
    ensures n <= j && By(acts(j), w)
  {
    assert Granted(tr, acts, w, n);
    j :| n <= j && (By(acts(j), w) || HeldFrom(tr, j));
    if !By(acts(j), w) {
      var m := LockIsFreed(tr, acts, j);
      assert false;
    }
  }

  // ----- every datagram is dealt with -----

  /** A step of `Run` while it has a datagram in hand brings it closer to the next. */
  lemma RunAdvances(s: State, a: RunAction)
    requires RunInv(s) && RunEnabled(s, a) && !s.run.Waiting?
    ensures RunRank(RunStep(s, a).run) < RunRank(s.run)
  {
  }

  lemma {:induction false} RunStaysOrAdvances(tr: nat -> State, acts: nat -> Action, n: nat, j: nat) returns (k: nat)
    requires IsExecution(INIT, Next, tr, acts) && n <= j
    ensures n <= k <= j
    ensures tr(k).run.Waiting? || (k == j && (tr(j).run == tr(n).run || RunRank(tr(j).run) < RunRank(tr(n).run)))
    decreases j
  {
    if n == j {
      return j;
    }
    k := RunStaysOrAdvances(tr, acts, n, j - 1);
    if !tr(k).run.Waiting? {
      k := j;
      ExecutionKeepsInv(tr, acts, j - 1);
      assert StepsAt(Next, tr, acts, j - 1);
      if acts(j - 1).OfRun? {
        RunAdvances(tr(j - 1), acts(j - 1).run);
      } else {
        OthersLeaveRun(tr(j - 1), acts(j - 1));
      }
    }
  }

  /** Whatever `Run` has in hand, it gets to the next datagram, unless it has ended. */
  lemma {:induction false} RunGetsToNext(tr: nat -> State, acts: nat -> Action, n: nat) returns (m: nat)
    requires IsExecution(INIT, Next, tr, acts) && WeaklyFair(By, CanStep, tr, acts) && FairLock(tr, acts)
    ensures n <= m && (tr(m).run.Waiting? || tr(m).run.Stopped?)
    decreases RunRank(tr(n).run)
  {
    if tr(n).run.Waiting? || tr(n).run.Stopped? {
      return n;
    }
    var j: nat;
    if tr(n).run.Got? {
      j := WaiterSteps(tr, acts, Runner, n);
    } else {
      assert Served(By, CanStep, tr, acts, Runner, n);
      j :| n <= j && (By(acts(j), Runner) || !CanStep(tr(j), Runner));
    }
    m := RunStaysOrAdvances(tr, acts, n, j);
    if !tr(m).run.Waiting? {
      if tr(j).run == tr(n).run {
        ExecutionKeepsInv(tr, acts, j);
        assert StepsAt(Next, tr, acts, j);
        RunAdvances(tr(j), acts(j).run);
        m := RunGetsToNext(tr, acts, j + 1);
      } else {
        m := RunGetsToNext(tr, acts, j);
      }
    }
  }

  // ----- a flow without replies expires -----

  /** From step `n` on, loop `c` reads no reply; it may be refused any number of times. */
  ghost predicate NoReplyFrom(tr: nat -> State, acts: nat -> Action, c: nat, n: nat) {
    forall i: nat :: n <= i ==> !ReadsReply(tr(i), acts(i), c)
  }

  predicate ReadsReply(s: State, a: Action, c: nat) {
    && a == OfLoop(c, ReadItem) && c < |s.conns|
    && s.conns[c].inbox != [] && s.conns[c].inbox[0].Reply?
  }

  function ExpiryRank(pc: LoopPc): nat {
    match pc
    case Replying(reply, i) => 20 + if i < |reply| then |reply| - i else 0
    case Unspawned => 9
    case Arming => 8
    case Reading(_) => 7
    case Exiting => 4
    case Holding => 3
    case Deleted => 2
    case Closing => 1
    case Done => 0
  }

  lemma LoopExpires(s: State, c: nat, a: LoopAction)
    requires LoopEnabled(s, c, a) && ConnTimerInv(s.conns[c], s.now) && !ReadsReply(s, OfLoop(c, a), c)
    ensures var pc, pc' := s.conns[c].pc, LoopStep(s, c, a).conns[c].pc;
      if a.ReadItem? then pc' == pc else ExpiryRank(pc') < ExpiryRank(pc)
  {
  }

  lemma OthersLeaveLoop(s: State, a: Action, c: nat)
    requires RunInv(s) && Enabled(s, a) && c < |s.conns| && !By(a, Replier(c))
    ensures c < |Step(s, a).conns|
    ensures var pc, pc' := s.conns[c].pc, Step(s, a).conns[c].pc; pc' == pc || (pc.Unspawned? && pc'.Arming?)
  {
    if a.OfLoop? {
      LoopMovesOnlyItself(s, a.c, a.loop);
    }
  }

  lemma {:induction false} LoopStaysOrExpires(tr: nat -> State, acts: nat -> Action, c: nat, n: nat, j: nat)
    requires IsExecution(INIT, Next, tr, acts) && n <= j && c < |tr(n).conns| && NoReplyFrom(tr, acts, c, n)
    ensures c < |tr(j).conns|
    ensures var pc, pc' := tr(n).conns[c].pc, tr(j).conns[c].pc; pc' == pc || ExpiryRank(pc') < ExpiryRank(pc)
    ensures tr(n).now <= tr(j).now
    decreases j
  {
    if n < j {
      LoopStaysOrExpires(tr, acts, c, n, j - 1);
      ExecutionKeepsInv(tr, acts, j - 1);
      assert StepsAt(Next, tr, acts, j - 1);
      StepIsLater(tr(j - 1), acts(j - 1));
      if By(acts(j - 1), Replier(c)) {
        LoopExpires(tr(j - 1), c, acts(j - 1).loop);
      } else {
        OthersLeaveLoop(tr(j - 1), acts(j - 1), c);
      }
    }
  }

  lemma {:induction false} TimeReaches(tr: nat -> State, acts: nat -> Action, n: nat, deadline: nat) returns (t: nat)
    requires IsExecution(INIT, Next, tr, acts) && TimePasses(acts)
    ensures n <= t && deadline <= tr(t).now
    decreases if tr(n).now < deadline then deadline - tr(n).now else 0
  {
    if deadline <= tr(n).now {
      return n;
    }
    assert TicksAfter(acts, n);
    var j: nat :| n <= j && acts(j) == OfEnv(Tick);
    TimeGoesOn(tr, acts, n, j);
    assert StepsAt(Next, tr, acts, j);
    t := TimeReaches(tr, acts, j + 1, deadline);
  }

  lemma {:induction false} TimeGoesOn(tr: nat -> State, acts: nat -> Action, n: nat, j: nat)
    requires IsExecution(INIT, Next, tr, acts) && n <= j
    ensures tr(n).now <= tr(j).now
    decreases j
  {
    if n < j {
      TimeGoesOn(tr, acts, n, j - 1);
      ExecutionKeepsInv(tr, acts, j - 1);
      assert StepsAt(Next, tr, acts, j - 1);
      StepIsLater(tr(j - 1), acts(j - 1));
    }
  }

  /** Loop `c`, where it is not waiting for anything, is served before it moves, or has moved. */
  lemma ServedOrMoved(tr: nat -> State, acts: nat -> Action, c: nat, n: nat) returns (j: nat)
    requires IsExecution(INIT, Next, tr, acts) && WeaklyFair(By, CanStep, tr, acts)
    requires c < |tr(n).conns| && NoReplyFrom(tr, acts, c, n)
    requires var pc := tr(n).conns[c].pc;
      !pc.Unspawned? && !pc.Exiting? && !pc.Done? && (pc.Reading? ==> pc.deadline <= tr(n).now)
    ensures n <= j && c < |tr(j).conns|
    ensures By(acts(j), Replier(c)) || tr(j).conns[c].pc != tr(n).conns[c].pc
  {
    assert Served(By, CanStep, tr, acts, Replier(c), n);
    j :| n <= j && (By(acts(j), Replier(c)) || !CanStep(tr(j), Replier(c)));
    LoopStaysOrExpires(tr, acts, c, n, j);
  }

  /** A step of loop `c` at `j`, unless it is a read before the deadline, brings it closer to its end. */
  lemma StepExpires(tr: nat -> State, acts: nat -> Action, c: nat, n: nat, j: nat) returns (k: nat)
    requires IsExecution(INIT, Next, tr, acts) && n <= j
    requires c < |tr(n).conns| && NoReplyFrom(tr, acts, c, n) && c < |tr(j).conns|
    requires By(acts(j), Replier(c)) || tr(j).conns[c].pc != tr(n).conns[c].pc
    requires tr(n).conns[c].pc.Reading? ==> tr(n).conns[c].pc.deadline <= tr(n).now
    ensures n <= k && c < |tr(k).conns| && ExpiryRank(tr(k).conns[c].pc) < ExpiryRank(tr(n).conns[c].pc)
  {
    LoopStaysOrExpires(tr, acts, c, n, j);
    k := j;
    if tr(j).conns[c].pc == tr(n).conns[c].pc {
      k := j + 1;
      ExecutionKeepsInv(tr, acts, j);
      assert StepsAt(Next, tr, acts, j);
      LoopExpires(tr(j), c, acts(j).loop);
    }
  }

  /** From step `i` on, loop `c` does nothing but wait for the lock. */
  ghost predicate WaitsFrom(tr: nat -> State, c: nat, i: nat) {
    forall j: nat :: i <= j ==> c < |tr(j).conns| && tr(j).conns[c].pc.Exiting?
  }

  /** Loop `c` gets one step closer to its end. */
  lemma NextExpiry(tr: nat -> State, acts: nat -> Action, c: nat, n: nat) returns (k: nat)
    requires IsExecution(INIT, Next, tr, acts) && WeaklyFair(By, CanStep, tr, acts) && !WaitsFrom(tr, c, n)
    requires TimePasses(acts) && c < |tr(n).conns| && NoReplyFrom(tr, acts, c, n) && !tr(n).conns[c].pc.Done?
    ensures n <= k && c < |tr(k).conns| && ExpiryRank(tr(k).conns[c].pc) < ExpiryRank(tr(n).conns[c].pc)
  {
    var pc := tr(n).conns[c].pc;
    if pc.Unspawned? {
      k := LockIsFreed(tr, acts, n);
      LoopStaysOrExpires(tr, acts, c, n, k);
      ExecutionKeepsInv(tr, acts, k);
    } else if pc.Exiting? {
      k :| n <= k && !(c < |tr(k).conns| && tr(k).conns[c].pc.Exiting?);
      LoopStaysOrExpires(tr, acts, c, n, k);
    } else {
      var t := n;
      if pc.Reading? {
        t := TimeReaches(tr, acts, n, pc.deadline);
      }
      LoopStaysOrExpires(tr, acts, c, n, t);
      k := t;
      if tr(t).conns[c].pc == pc {
        var j := ServedOrMoved(tr, acts, c, t);
        k := StepExpires(tr, acts, c, t, j);
      }
    }
  }

  lemma {:induction false} ExpireFrom(tr: nat -> State, acts: nat -> Action, c: nat, n: nat) returns (m: nat)
    requires IsExecution(INIT, Next, tr, acts) && WeaklyFair(By, CanStep, tr, acts)
    requires TimePasses(acts) && c < |tr(n).conns| && NoReplyFrom(tr, acts, c, n)
    requires forall i: nat :: n <= i ==> !WaitsFrom(tr, c, i)
    ensures n <= m && c < |tr(m).conns| && tr(m).conns[c].pc.Done?
    decreases ExpiryRank(tr(n).conns[c].pc)
  {
    if tr(n).conns[c].pc.Done? {
      return n;
    }
    var k := NextExpiry(tr, acts, c, n);
    m := ExpireFrom(tr, acts, c, k);
  }

  /** From step `m` on the loop has ended, nothing in the table leads to its connection, and that is closed. */
  ghost predicate ExpiredFrom(tr: nat -> State, c: nat, m: nat) {
    forall i: nat :: m <= i ==>
      c < |tr(i).conns| && tr(i).conns[c].pc.Done? && !tr(i).conns[c].open && c !in tr(i).table.Values
  }

  lemma DoneMeansExpired(tr: nat -> State, acts: nat -> Action, c: nat, m: nat)
    requires IsExecution(INIT, Next, tr, acts) && c < |tr(m).conns| && NoReplyFrom(tr, acts, c, m)
    requires tr(m).conns[c].pc.Done?
    ensures ExpiredFrom(tr, c, m)
  {
    forall i: nat | m <= i
      ensures c < |tr(i).conns| && tr(i).conns[c].pc.Done? && !tr(i).conns[c].open && c !in tr(i).table.Values
    {
      LoopStaysOrExpires(tr, acts, c, m, i);
      ExecutionKeepsInv(tr, acts, i);
    }
  }

  /**
    In every weakly fair execution in which time passes, a flow whose loop reads no reply from some point on
    expires for good, exactly unless its loop ends up waiting for the lock forever: however many datagrams
    its client sends, however many reads are refused, and whether `Close` is called or not.
   */
  lemma IdleFlowExpiresExactly(tr: nat -> State, acts: nat -> Action, c: nat, n: nat)
    requires IsExecution(INIT, Next, tr, acts) && WeaklyFair(By, CanStep, tr, acts)
    requires TimePasses(acts) && c < |tr(n).conns| && NoReplyFrom(tr, acts, c, n)
    ensures (exists m: nat :: n <= m && ExpiredFrom(tr, c, m)) <==> !exists i: nat :: n <= i && WaitsFrom(tr, c, i)
  {
    if i: nat :| n <= i && WaitsFrom(tr, c, i) {
      forall m: nat | n <= m
        ensures !ExpiredFrom(tr, c, m)
      {
        var j := if i < m then m else i;
        assert tr(j).conns[c].pc.Exiting?;
      }
    } else {
      var m := ExpireFrom(tr, acts, c, n);
      DoneMeansExpired(tr, acts, c, m);
    }
  }

  /** With a fair mutex no loop waits forever, so every such flow expires. */
  lemma IdleFlowExpires(tr: nat -> State, acts: nat -> Action, c: nat, n: nat)
    requires IsExecution(INIT, Next, tr, acts) && WeaklyFair(By, CanStep, tr, acts) && FairLock(tr, acts)
    requires TimePasses(acts) && c < |tr(n).conns| && NoReplyFrom(tr, acts, c, n)
    ensures exists m: nat :: n <= m && ExpiredFrom(tr, c, m)
  {
    forall i: nat | n <= i
      ensures !WaitsFrom(tr, c, i)
    {
      var k := FairLockEndsWaiting(tr, acts, c, n, i);
    }
    IdleFlowExpiresExactly(tr, acts, c, n);
  }

  lemma FairLockEndsWaiting(tr: nat -> State, acts: nat -> Action, c: nat, n: nat, i: nat) returns (k: nat)
    requires IsExecution(INIT, Next, tr, acts) && WeaklyFair(By, CanStep, tr, acts) && FairLock(tr, acts)
    requires n <= i && c < |tr(n).conns| && NoReplyFrom(tr, acts, c, n)
    ensures i <= k && c < |tr(k).conns| && !tr(k).conns[c].pc.Exiting?
  {
    k := i;
    LoopStaysOrExpires(tr, acts, c, n, i);
    if tr(i).conns[c].pc.Exiting? {
      var j := WaiterSteps(tr, acts, Replier(c), i);
      LoopStaysOrExpires(tr, acts, c, i, j);
      k := StepExpires(tr, acts, c, i, j);
    }
  }
}
