/**
  After `Close` the UDP proxy drains: under every fair schedule `Run`, every reply loop and `Close`
  itself end, exactly unless the backend keeps a loop alive with replies of length zero. Any number of
  other replies and of refused-connection errors makes no difference.
 */
module UdpDrain {
  import opened Executions
  import opened UdpProtocol
  import opened UdpInvariant

  /** Everything has ended. */
  ghost predicate Drained(s: State) {
    && s.run.Stopped? && s.closer.Returned?
    && forall c :: 0 <= c < |s.conns| ==> s.conns[c].pc.Done?
  }

  /** Some reply loop is waiting for a deadline that has not passed. */
  ghost predicate SomeoneWaits(s: State) {
    exists c :: 0 <= c < |s.conns| && s.conns[c].pc.Reading? && s.now < s.conns[c].pc.deadline
  }

  predicate Reads(s: State, a: Action, item: Item) {
    a.OfLoop? && a.loop.ReadItem? && a.c < |s.conns| && s.conns[a.c].inbox != [] && s.conns[a.c].inbox[0] == item
  }

  /** A loop reads a reply of length zero: nothing to write, so it goes straight to arming its deadline. */
  predicate Rearms(s: State, a: Action) {
    Reads(s, a, Reply([]))
  }

  /** Every step of a goroutine but a read of nothing, and every tick that brings an awaited deadline closer. */
  ghost predicate Useful(s: State, a: Action) {
    match a
    case OfEnv(Tick) => SomeoneWaits(s)
    case OfEnv(Deliver(_, _)) => false
    case _ => !Rearms(s, a) && !Reads(s, a, Refused)
  }

  // ----- a measure that every useful step after `Close` decreases -----

  function LoopRank(pc: LoopPc, now: nat): nat {
    match pc
    case Unspawned => 97
    case Arming => 96
    case Reading(deadline) => 5 + (if now < deadline then deadline - now else 0)
    case Replying(_, _) => 5
    case Exiting => 4
    case Holding => 3
    case Deleted => 2
    case Closing => 1
    case Done => 0
  }

  function RankAt(now: nat): Conn -> nat {
    (conn: Conn) => LoopRank(conn.pc, now)
  }

  function Sum(conns: seq<Conn>, f: Conn -> nat): nat {
    if conns == [] then 0 else Sum(conns[..|conns| - 1], f) + f(conns[|conns| - 1])
  }

  /** Up to the dial, the rank includes that of the reply loop about to be created. */
  function RunRank(run: RunPc): nat {
    match run
    case Waiting => 1
    case Got(d) => 107 + |d.payload|
    case Locked(d) => 106 + |d.payload|
    case Missed(d) => 105 + |d.payload|
    case Dialled(d, _) => 5 + |d.payload|
    case Inserted(d, _) => 4 + |d.payload|
    case Found(d, _) => 3 + |d.payload|
    case Sending(d, _, i) => 2 + (if i < |d.payload| then |d.payload| - i else 0)
    case Stopped => 0
  }

  function CloseRank(s: State): nat {
    match s.closer
    case NotCalled => 0
    case ListenerClosed => 3 + |s.conns|
    case Sweeping(pending) => 1 + |pending|
    case Returned => 0
  }

  function Measure(s: State): nat {
    RunRank(s.run) + CloseRank(s) + Sum(s.conns, RankAt(s.now))
  }

  lemma {:induction false} SumUpdate(conns: seq<Conn>, c: nat, conn: Conn, f: Conn -> nat)
    requires c < |conns|
    ensures Sum(conns[c := conn], f) + f(conns[c]) == Sum(conns, f) + f(conn)
  {
    var n := |conns| - 1;
    if c == n {
      assert conns[c := conn][..n] == conns[..n];
    } else {
      assert conns[c := conn][..n] == conns[..n][c := conn];
      SumUpdate(conns[..n], c, conn, f);
    }
  }

  lemma {:induction false} RankTick(conns: seq<Conn>, now: nat)
    ensures Sum(conns, RankAt(now + 1)) <= Sum(conns, RankAt(now))
    ensures (exists c :: 0 <= c < |conns| && conns[c].pc.Reading? && now < conns[c].pc.deadline) ==>
              Sum(conns, RankAt(now + 1)) < Sum(conns, RankAt(now))
  {
    if conns != [] {
      var front, last := conns[..|conns| - 1], conns[|conns| - 1];
      RankTick(front, now);
      if c :| 0 <= c < |conns| && conns[c].pc.Reading? && now < conns[c].pc.deadline {
        if c < |front| {
          assert front[c] == conns[c];
        }
      }
    }
  }

  lemma {:induction false} BoundedSetSize(s: set<nat>, n: nat)
    requires forall c :: c in s ==> c < n
    ensures |s| <= n
  {
    if n == 0 {
      assert s == {};
    } else {
      BoundedSetSize(s - {n - 1}, n - 1);
    }
  }

  lemma LoopConnDecreases(s: State, c: nat, a: LoopAction)
    requires c < |s.conns| && ConnTimerInv(s.conns[c], s.now) && !s.listenerOpen && LoopEnabled(s, c, a)
    ensures var rank, rank' := LoopRank(s.conns[c].pc, s.now), LoopRank(LoopStep(s, c, a).conns[c].pc, s.now);
      && (Useful(s, OfLoop(c, a)) ==> rank' < rank)
      && (Reads(s, OfLoop(c, a), Refused) ==> rank' == rank)
  {
  }

  lemma LoopDecreases(s: State, c: nat, a: LoopAction)
    requires TimerInv(s) && !s.listenerOpen && LoopEnabled(s, c, a)
    ensures Useful(s, OfLoop(c, a)) ==> Measure(LoopStep(s, c, a)) < Measure(s)
    ensures Reads(s, OfLoop(c, a), Refused) ==> Measure(LoopStep(s, c, a)) == Measure(s)
  {
    LoopConnDecreases(s, c, a);
    LoopMovesOnlyItself(s, c, a);
    SumUpdate(s.conns, c, LoopStep(s, c, a).conns[c], RankAt(s.now));
  }

  /** `Run` changes the connections only by dialling one and by spawning its loop. */
  lemma RunSum(s: State, a: RunAction, f: Conn -> nat)
    requires RunInv(s) && RunEnabled(s, a)
    ensures var before, after := Sum(s.conns, f), Sum(RunStep(s, a).conns, f);
      if a.Dial? then after == before + f(NewConn(s.run.d, !s.listenerOpen))
      else if a.Spawn? then
        s.conns[s.run.c].pc.Unspawned? && after + f(s.conns[s.run.c]) == before + f(s.conns[s.run.c].(pc := Arming))
      else after == before
  {
    var s' := RunStep(s, a);
    if a.Dial? {
      assert s'.conns[..|s.conns|] == s.conns;
    } else if a.Spawn? {
      SumUpdate(s.conns, s.run.c, s'.conns[s.run.c], f);
    } else {
      assert s'.conns == s.conns;
    }
  }

  /** A dial adds a loop to come to an end, and possibly a connection to sweep. */
  lemma RunRanks(s: State, a: RunAction)
    requires RunInv(s) && RunEnabled(s, a) && !s.listenerOpen
    ensures var s' := RunStep(s, a);
      && RunRank(s'.run) + (if a.Dial? then 98 else 0) < RunRank(s.run)
      && CloseRank(s') <= CloseRank(s) + (if a.Dial? then 1 else 0) && s'.now == s.now
  {
  }

  lemma RunDecreases(s: State, a: RunAction)
    requires RunInv(s) && !s.listenerOpen && RunEnabled(s, a)
    ensures Measure(RunStep(s, a)) < Measure(s)
  {
    RunSum(s, a, RankAt(s.now));
    RunRanks(s, a);
  }

  lemma CloseDecreases(s: State, a: CloseAction)
    requires OpenInv(s) && TableInv(s) && !s.listenerOpen && CloseEnabled(s, a)
    ensures Measure(CloseStep(s, a)) < Measure(s)
  {
    match a
    case AcquireClose => BoundedSetSize(s.table.Values, |s.conns|);
    case Sweep(c) => SumUpdate(s.conns, c, CloseStep(s, a).conns[c], RankAt(s.now));
    case _ =>
  }

  /** Useful steps decrease the measure, and only a reply of length zero can increase it. */
  lemma UsefulStepDecreases(s: State, a: Action)
    requires Inv(s) && !s.listenerOpen && Enabled(s, a) && !Rearms(s, a)
    ensures Measure(Step(s, a)) <= Measure(s)
    ensures Useful(s, a) ==> Measure(Step(s, a)) < Measure(s)
  {
    match a
    case OfRun(r) => RunDecreases(s, r);
    case OfLoop(c, l) => LoopDecreases(s, c, l);
    case OfClose(x) => CloseDecreases(s, x);
    case OfEnv(Tick) => RankTick(s.conns, s.now);
    case OfEnv(Deliver(c, _)) => SumUpdate(s.conns, c, Step(s, a).conns[c], RankAt(s.now));
  }

  // ----- goroutines that can go on without a spontaneous failure -----

  datatype Who = Runner | Replier(c: nat) | Closer

  predicate By(a: Action, w: Who) {
    match a
    case OfRun(_) => w == Runner
    case OfLoop(c, _) => w == Replier(c)
    case OfClose(_) => w == Closer
    case OfEnv(_) => false
  }

  /** A failure of which the proxy's own closes and deadlines are not the cause. */
  predicate Spontaneous(s: State, a: Action) {
    match a
    case OfRun(ReceiveError) => s.listenerOpen
    case OfRun(DialError) => true
    case OfRun(SendError) => s.run.Sending? && s.run.c < |s.conns| && s.conns[s.run.c].open
    case OfLoop(_, ReadError(why)) => why == Other
    case OfLoop(_, AnswerError) => s.listenerOpen
    case _ => false
  }

  predicate CanStep(s: State, w: Who) {
    match w
    case Runner =>
      (match s.run
       case Waiting => !s.listenerOpen
       case Got(_) => s.lock == Free
       case Stopped => false
       case _ => true)
    case Replier(c) =>
      c < |s.conns| &&
      (match s.conns[c].pc
       case Unspawned => false
       case Reading(deadline) => deadline <= s.now || !s.conns[c].open || s.conns[c].inbox != []
       case Exiting => s.lock == Free
       case Done => false
       case _ => true)
    case Closer =>
      (match s.closer
       case NotCalled => false
       case ListenerClosed => s.lock == Free
       case Sweeping(_) => true
       case Returned => false)
  }

  /** `CanStep` is honest: it names a goroutine with an enabled step that is not a spontaneous failure. */
  lemma CanStepMeansEnabled(s: State, w: Who) returns (a: Action)
    requires Inv(s) && CanStep(s, w)
    ensures By(a, w) && Enabled(s, a) && !Spontaneous(s, a)
  {
    match w
    case Runner =>
      a := OfRun(match s.run
        case Waiting => ReceiveError
        case Got(_) => AcquireRun
        case Locked(_) => Lookup
        case Missed(_) => Dial
        case Dialled(_, _) => Insert
        case Inserted(_, _) => Spawn
        case Found(_, _) => ReleaseRun
        case Sending(d, c, i) => if s.conns[c].open then Send(|d.payload| - i) else SendError
        case Stopped => ReceiveError);
    case Replier(c) =>
      var conn := s.conns[c];
      a := OfLoop(c, match conn.pc
        case Arming => Arm
        case Reading(deadline) =>
          if deadline <= s.now then ReadError(Timeout) else if !conn.open then ReadError(ClosedConn) else ReadItem
        case Replying(reply, i) => if s.listenerOpen then Answer(|reply| - i) else AnswerError
        case Exiting => AcquireLoop
        case Holding => Delete
        case Deleted => ReleaseLoop
        case _ => CloseConn);
    case Closer =>
      if s.closer.Sweeping? {
        if pending: nat :| pending in s.closer.pending {
          a := OfClose(Sweep(pending));
        } else {
          a := OfClose(ReleaseClose);
        }
      } else {
        a := OfClose(AcquireClose);
      }
  }

  /** Once nobody waits for a deadline, someone can go on until everything has ended: no deadlock on the lock. */
  lemma SomeoneCanStep(s: State) returns (w: Who)
    requires Inv(s) && !s.listenerOpen && !Drained(s) && !SomeoneWaits(s)
    ensures CanStep(s, w)
  {
    if !s.lock.Free? {
      w := match s.lock case ByLoop(c) => Replier(c) case ByClose => Closer case _ => Runner;
    } else if !s.closer.Returned? {
      w := Closer;
    } else if !s.run.Stopped? {
      w := Runner;
    } else {
      var c :| 0 <= c < |s.conns| && !s.conns[c].pc.Done?;
      w := Replier(c);
    }
  }

  /** Until everything has ended some useful step is possible, and none needs a spontaneous failure. */
  lemma SomeUsefulStep(s: State) returns (a: Action)
    requires Inv(s) && !s.listenerOpen && !Drained(s)
    ensures Enabled(s, a) && Useful(s, a) && !Spontaneous(s, a)
  {
    if SomeoneWaits(s) {
      a := OfEnv(Tick);
    } else {
      var w := SomeoneCanStep(s);
      a := CanStepMeansEnabled(s, w);
    }
  }

  // ----- infinite executions -----

  predicate Next(s: State, a: Action, s': State) {
    Enabled(s, a) && s' == Step(s, a)
  }

  ghost predicate TicksAfter(acts: nat -> Action, i: nat) {
    exists j: nat :: i <= j && acts(j) == OfEnv(Tick)
  }

  ghost predicate TimePasses(acts: nat -> Action) {
    forall i: nat :: TicksAfter(acts, i)
  }

  /** From step `n` on, no loop reads a reply of length zero. */
  ghost predicate NoRearmFrom(tr: nat -> State, acts: nat -> Action, n: nat) {
    forall i: nat :: n <= i ==> !Rearms(tr(i), acts(i))
  }

  lemma {:induction false} ExecutionKeepsInv(tr: nat -> State, acts: nat -> Action, i: nat)
    requires IsExecution(INIT, Next, tr, acts)
    ensures Inv(tr(i))
  {
    if i > 0 {
      ExecutionKeepsInv(tr, acts, i - 1);
      assert StepsAt(Next, tr, acts, i - 1);
      NextKeepsInv(tr(i - 1), acts(i - 1), tr(i));
    }
  }

  lemma {:induction false} StaysClosed(tr: nat -> State, acts: nat -> Action, i: nat, j: nat)
    requires IsExecution(INIT, Next, tr, acts) && i <= j && !tr(i).listenerOpen
    ensures !tr(j).listenerOpen
    decreases j
  {
    if i < j {
      StaysClosed(tr, acts, i, j - 1);
      assert StepsAt(Next, tr, acts, j - 1);
      ListenerStaysClosed(tr(j - 1), acts(j - 1));
    }
  }

  lemma ListenerStaysClosed(s: State, a: Action)
    requires Enabled(s, a) && !s.listenerOpen
    ensures !Step(s, a).listenerOpen
  {
  }

  /** After `Close` began, the measure never grows again, unless a loop reads a reply of length zero. */
  lemma {:induction false} MeasureShrinks(tr: nat -> State, acts: nat -> Action, i: nat, j: nat)
    requires IsExecution(INIT, Next, tr, acts) && i <= j && !tr(i).listenerOpen && NoRearmFrom(tr, acts, i)
    ensures Measure(tr(j)) <= Measure(tr(i))
    decreases j
  {
    if i < j {
      MeasureShrinks(tr, acts, i, j - 1);
      ExecutionKeepsInv(tr, acts, j - 1);
      StaysClosed(tr, acts, i, j - 1);
      assert StepsAt(Next, tr, acts, j - 1);
      UsefulStepDecreases(tr(j - 1), acts(j - 1));
    }
  }

  /** What a step that is of no use leaves as it was. */
  lemma IdleStep(s: State, a: Action)
    requires Enabled(s, a) && !Useful(s, a) && !Rearms(s, a)
    ensures Drained(Step(s, a)) ==> Drained(s)
    ensures !SomeoneWaits(s) ==> !SomeoneWaits(Step(s, a)) && forall w :: CanStep(s, w) ==> CanStep(Step(s, a), w)
  {
    var s' := Step(s, a);
    assert s'.run == s.run && s'.closer == s.closer && s'.lock == s.lock && s'.listenerOpen == s.listenerOpen;
    assert |s'.conns| == |s.conns|;
    assert forall c :: 0 <= c < |s.conns| ==> s'.conns[c].pc == s.conns[c].pc && s'.conns[c].open == s.conns[c].open;
    if !SomeoneWaits(s) {
      assert a.OfEnv?;
      assert forall c :: 0 <= c < |s.conns| && s.conns[c].inbox != [] ==> s'.conns[c].inbox != [];
    }
  }

  ghost predicate IdleFrom(tr: nat -> State, acts: nat -> Action, n: nat) {
    forall i: nat :: n <= i ==> !Useful(tr(i), acts(i))
  }

  lemma {:induction false} IdleStays(tr: nat -> State, acts: nat -> Action, i: nat, j: nat, w: Who)
    requires IsExecution(INIT, Next, tr, acts) && i <= j && IdleFrom(tr, acts, i) && NoRearmFrom(tr, acts, i)
    ensures Drained(tr(j)) ==> Drained(tr(i))
    ensures !SomeoneWaits(tr(i)) ==> !SomeoneWaits(tr(j)) && (CanStep(tr(i), w) ==> CanStep(tr(j), w))
    decreases j
  {
    if i < j {
      IdleStays(tr, acts, i, j - 1, w);
      assert StepsAt(Next, tr, acts, j - 1);
      IdleStep(tr(j - 1), acts(j - 1));
    }
  }

  /** Fairness and time suffice for useful steps to go on until everything has ended. */
  lemma UsefulStepsGoOn(tr: nat -> State, acts: nat -> Action, n: nat) returns (j: nat)
    requires IsExecution(INIT, Next, tr, acts) && WeaklyFair(By, CanStep, tr, acts) && TimePasses(acts)
    requires !tr(n).listenerOpen && NoRearmFrom(tr, acts, n) && !Drained(tr(n))
    ensures n <= j && Useful(tr(j), acts(j))
  {
    if i: nat :| n <= i && Useful(tr(i), acts(i)) {
      return i;
    }
    assert TicksAfter(acts, n);
    var t: nat :| n <= t && acts(t) == OfEnv(Tick);
    assert !SomeoneWaits(tr(t)) by {
      assert !Useful(tr(t), acts(t));
    }
    IdleStays(tr, acts, n, t, Runner);
    ExecutionKeepsInv(tr, acts, t);
    StaysClosed(tr, acts, n, t);
    var w := SomeoneCanStep(tr(t));
    assert Served(By, CanStep, tr, acts, w, t);
    j :| t <= j && (By(acts(j), w) || !CanStep(tr(j), w));
    assert StepsAt(Next, tr, acts, j);
    IdleStays(tr, acts, t, j, w);
  }

  lemma {:induction false} FairSchedulesDrainFrom(tr: nat -> State, acts: nat -> Action, n: nat) returns (m: nat)
    requires IsExecution(INIT, Next, tr, acts) && WeaklyFair(By, CanStep, tr, acts) && TimePasses(acts)
    requires !tr(n).listenerOpen && NoRearmFrom(tr, acts, n)
    ensures n <= m && Drained(tr(m))
    decreases Measure(tr(n))
  {
    if Drained(tr(n)) {
      m := n;
    } else {
      var j := UsefulStepsGoOn(tr, acts, n);
      MeasureShrinks(tr, acts, n, j);
      ExecutionKeepsInv(tr, acts, j);
      StaysClosed(tr, acts, n, j);
      assert StepsAt(Next, tr, acts, j);
      UsefulStepDecreases(tr(j), acts(j));
      StaysClosed(tr, acts, j, j + 1);
      m := FairSchedulesDrainFrom(tr, acts, j + 1);
    }
  }

  lemma DrainedStep(s: State, a: Action)
    requires Drained(s) && Enabled(s, a)
    ensures Drained(Step(s, a))
  {
    if a.OfLoop? {
      assert false;
    }
  }

  lemma {:induction false} DrainedForGood(tr: nat -> State, acts: nat -> Action, m: nat, i: nat)
    requires IsExecution(INIT, Next, tr, acts) && Drained(tr(m)) && m <= i
    ensures Drained(tr(i))
    decreases i
  {
    if m < i {
      DrainedForGood(tr, acts, m, i - 1);
      assert StepsAt(Next, tr, acts, i - 1);
      DrainedStep(tr(i - 1), acts(i - 1));
    }
  }

  /** From step `m` on everything has ended, the table is empty and every connection is closed. */
  ghost predicate ReleasedFrom(tr: nat -> State, m: nat) {
    forall i: nat :: m <= i ==>
      && Drained(tr(i)) && tr(i).table == map[]
      && forall c :: 0 <= c < |tr(i).conns| ==> !tr(i).conns[c].open
  }

  lemma DrainedMeansReleased(tr: nat -> State, acts: nat -> Action, m: nat)
    requires IsExecution(INIT, Next, tr, acts) && Drained(tr(m))
    ensures ReleasedFrom(tr, m)
  {
    forall i: nat | m <= i
      ensures Drained(tr(i)) && tr(i).table == map[]
      ensures forall c :: 0 <= c < |tr(i).conns| ==> !tr(i).conns[c].open
    {
      DrainedForGood(tr, acts, m, i);
      ExecutionKeepsInv(tr, acts, i);
      if k :| k in tr(i).table {
        assert false;
      }
    }
  }

  /**
    A fair execution in which `Close` has been called reaches a point after which `Run`, `Close` and all
    reply loops have ended, the table is empty and every backend connection ever dialled is closed,
    exactly if its loops read only finitely many replies of length zero.
   */
  lemma FairSchedulesDrain(tr: nat -> State, acts: nat -> Action, n: nat)
    requires IsExecution(INIT, Next, tr, acts) && WeaklyFair(By, CanStep, tr, acts)
    requires TimePasses(acts) && !tr(n).listenerOpen
    ensures (exists m: nat :: n <= m && ReleasedFrom(tr, m)) <==> (exists m: nat :: n <= m && NoRearmFrom(tr, acts, m))
  {
    if m: nat :| n <= m && NoRearmFrom(tr, acts, m) {
      StaysClosed(tr, acts, n, m);
      var k := FairSchedulesDrainFrom(tr, acts, m);
      DrainedMeansReleased(tr, acts, k);
    }
    if m: nat :| n <= m && ReleasedFrom(tr, m) {
      forall i: nat | m <= i
        ensures !Rearms(tr(i), acts(i))
      {
        assert Drained(tr(i)) && StepsAt(Next, tr, acts, i);
      }
      assert NoRearmFrom(tr, acts, m);
    }
  }

  // ----- backends that send no reply of length zero -----

  function EmptyReplies(inbox: seq<Item>): nat {
    if inbox == [] then 0 else EmptyReplies(inbox[1..]) + (if inbox[0] == Reply([]) then 1 else 0)
  }

  function Empties(): Conn -> nat {
    (conn: Conn) => EmptyReplies(conn.inbox)
  }

  predicate DeliversEmpty(a: Action) {
    a.OfEnv? && a.env.Deliver? && a.env.item == Reply([])
  }

  /** From step `n` on, the backend sends no reply of length zero; it may send anything else. */
  ghost predicate NoEmptyReplyFrom(acts: nat -> Action, n: nat) {
    forall i: nat :: n <= i ==> !DeliversEmpty(acts(i))
  }

  lemma {:induction false} EmptyRepliesSnoc(inbox: seq<Item>, item: Item)
    ensures EmptyReplies(inbox + [item]) == EmptyReplies(inbox) + (if item == Reply([]) then 1 else 0)
  {
    if inbox != [] {
      EmptyRepliesSnoc(inbox[1..], item);
      assert (inbox + [item])[1..] == inbox[1..] + [item];
    }
  }

  lemma LoopUsesEmpties(s: State, c: nat, a: LoopAction)
    requires LoopEnabled(s, c, a)
    ensures Sum(LoopStep(s, c, a).conns, Empties()) <= Sum(s.conns, Empties())
    ensures Rearms(s, OfLoop(c, a)) ==> Sum(LoopStep(s, c, a).conns, Empties()) < Sum(s.conns, Empties())
  {
    LoopMovesOnlyItself(s, c, a);
    SumUpdate(s.conns, c, LoopStep(s, c, a).conns[c], Empties());
  }

  /** Pending replies of length zero are used up by reading them. */
  lemma EmptiesUsedUp(s: State, a: Action, s': State)
    requires RunInv(s) && Enabled(s, a) && !DeliversEmpty(a) && s' == Step(s, a)
    ensures Sum(s'.conns, Empties()) <= Sum(s.conns, Empties())
    ensures Rearms(s, a) ==> Sum(s'.conns, Empties()) < Sum(s.conns, Empties())
  {
    match a
    case OfRun(r) => RunSum(s, r, Empties());
    case OfLoop(c, l) => LoopUsesEmpties(s, c, l);
    case OfClose(Sweep(c)) => SumUpdate(s.conns, c, s'.conns[c], Empties());
    case OfClose(_) =>
    case OfEnv(Tick) =>
    case OfEnv(Deliver(c, item)) =>
      EmptyRepliesSnoc(s.conns[c].inbox, item);
      SumUpdate(s.conns, c, s'.conns[c], Empties());
  }

  lemma {:induction false} EmptiesShrink(tr: nat -> State, acts: nat -> Action, i: nat, j: nat)
    requires IsExecution(INIT, Next, tr, acts) && i <= j && NoEmptyReplyFrom(acts, i)
    ensures Sum(tr(j).conns, Empties()) <= Sum(tr(i).conns, Empties())
    decreases j
  {
    if i < j {
      EmptiesShrink(tr, acts, i, j - 1);
      assert StepsAt(Next, tr, acts, j - 1);
      ExecutionKeepsInv(tr, acts, j - 1);
      EmptiesUsedUp(tr(j - 1), acts(j - 1), tr(j));
    }
  }

  lemma {:induction false} EmptyRepliesRunOut(tr: nat -> State, acts: nat -> Action, n: nat) returns (m: nat)
    requires IsExecution(INIT, Next, tr, acts) && NoEmptyReplyFrom(acts, n)
    ensures n <= m && NoRearmFrom(tr, acts, m)
    decreases Sum(tr(n).conns, Empties())
  {
    if i: nat :| n <= i && Rearms(tr(i), acts(i)) {
      EmptiesShrink(tr, acts, n, i);
      assert StepsAt(Next, tr, acts, i);
      ExecutionKeepsInv(tr, acts, i);
      EmptiesUsedUp(tr(i), acts(i), tr(i + 1));
      m := EmptyRepliesRunOut(tr, acts, i + 1);
    } else {
      m := n;
    }
  }

  /**
    However many non-empty replies and refused-connection errors the backend keeps producing: if from
    some point on it sends no reply of length zero, every fair execution drains.
   */
  lemma TalkingBackendDrains(tr: nat -> State, acts: nat -> Action, n: nat)
    requires IsExecution(INIT, Next, tr, acts) && WeaklyFair(By, CanStep, tr, acts)
    requires TimePasses(acts) && !tr(n).listenerOpen
    requires NoEmptyReplyFrom(acts, n)
    ensures exists m: nat :: n <= m && ReleasedFrom(tr, m)
  {
    var m := EmptyRepliesRunOut(tr, acts, n);
    FairSchedulesDrain(tr, acts, n);
  }
}
