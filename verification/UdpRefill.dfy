/**
  The exception to draining is real: a backend that answers with a reply of length zero in every wait
  keeps a reply loop, its table entry and its connection alive forever, however fair the schedule.
 */
module UdpRefill {
  import opened ConnTrack
  import opened Executions
  import opened UdpProtocol
  import opened UdpDrain
  import opened UdpWindows

  /** Everything has ended but one reply loop, which `Close` has not seen and which has round `i % 4` to do. */
  ghost predicate Refilled(s: State, i: nat) {
    && s.run.Stopped? && s.closer.Returned? && s.lock.Free? && !s.listenerOpen && |s.conns| == 1 && s.conns[0].open
    && var conn := s.conns[0];
    match i % 4
    case 0 => conn.pc.Arming? && conn.inbox == []
    case 1 => conn.pc.Reading? && conn.pc.deadline == s.now + 90 && conn.inbox == []
    case 2 => conn.pc.Reading? && conn.pc.deadline == s.now + 89 && conn.inbox == []
    case _ => conn.pc.Reading? && conn.pc.deadline == s.now + 89 && conn.inbox == [Reply([])]
  }

  /** Arm, let a second pass, receive a reply of length zero, read it. */
  function Round(i: nat): Action {
    match i % 4
    case 0 => OfLoop(0, Arm)
    case 1 => OfEnv(Tick)
    case 2 => OfEnv(Deliver(0, Reply([])))
    case _ => OfLoop(0, ReadItem)
  }

  lemma RoundRefills(s: State, i: nat)
    requires Refilled(s, i)
    ensures Enabled(s, Round(i)) && Refilled(Step(s, Round(i)), i + 1)
  {
    assert i % 4 == 3 ==> (i + 1) % 4 == 0;
    assert i % 4 < 3 ==> (i + 1) % 4 == i % 4 + 1;
  }

  function RoundStep(s: State, i: nat): State {
    if Enabled(s, Round(i)) then Step(s, Round(i)) else s
  }

  /** A dial that `Close` missed, with `Run` and `Close` ended. */
  lemma LateLoopIsLeft(from: Addr) returns (tr: seq<State>, acts: seq<Action>)
    ensures IsRun(tr, acts) && Refilled(tr[|acts|], 0)
  {
    tr, acts := CloseCanMissADial(from);
    tr, acts := Extend(tr, acts, OfRun(Send(1)));
    tr, acts := Extend(tr, acts, OfRun(ReceiveError));
  }

  /** From step `p` on, `Run` and `Close` have ended and the one loop goes through its rounds. */
  ghost predicate RefillsFrom(tr: nat -> State, acts: nat -> Action, p: nat) {
    forall i: nat :: p <= i ==> Refilled(tr(i), i - p) && acts(i) == Round(i - p)
  }

  lemma RefillIsFair(tr: nat -> State, acts: nat -> Action, p: nat)
    requires RefillsFrom(tr, acts, p)
    ensures WeaklyFair(By, CanStep, tr, acts) && TimePasses(acts)
  {
    forall w, i: nat
      ensures Served(By, CanStep, tr, acts, w, i)
    {
      var j := p + 4 * i;
      assert (j - p) % 4 == 0;
      assert Refilled(tr(j), j - p) && acts(j) == Round(j - p);
      assert By(acts(j), w) || !CanStep(tr(j), w);
    }
    forall i: nat
      ensures TicksAfter(acts, i)
    {
      var j := p + 4 * i + 1;
      assert (j - p) % 4 == 1;
      assert Refilled(tr(j), j - p) && acts(j) == Round(j - p);
    }
  }

  lemma RefillNeverDrains(tr: nat -> State, acts: nat -> Action, p: nat, m: nat)
    requires IsExecution(INIT, Next, tr, acts) && RefillsFrom(tr, acts, p)
    ensures !Drained(tr(m)) && !ReleasedFrom(tr, m)
  {
    var i := if m < p then p else m;
    assert Refilled(tr(i), i - p);
    if Drained(tr(m)) {
      DrainedForGood(tr, acts, m, i);
    }
  }

  lemma BackendSendsOnlyEmpties(tr: nat -> State, acts: nat -> Action, p: nat, i: nat)
    requires RefillsFrom(tr, acts, p) && p <= i && acts(i).OfEnv? && acts(i).env.Deliver?
    ensures DeliversEmpty(acts(i))
  {
    assert acts(i) == Round(i - p);
  }

  /**
    A fair execution in which `Close` has returned and the backend sends nothing but replies of length
    zero, and which never drains.
   */
  lemma EmptyRepliesKeepLoopAlive(from: Addr) returns (tr: nat -> State, acts: nat -> Action, n: nat)
    ensures IsExecution(INIT, Next, tr, acts) && WeaklyFair(By, CanStep, tr, acts) && TimePasses(acts)
    ensures tr(n).closer.Returned? && !tr(n).listenerOpen
    ensures forall i: nat :: n <= i && acts(i).OfEnv? && acts(i).env.Deliver? ==> DeliversEmpty(acts(i))
    ensures forall m: nat :: !Drained(tr(m))
    ensures forall m: nat :: !ReleasedFrom(tr, m)
  {
    var pre, steps := LateLoopIsLeft(from);
    n := |steps|;
    forall s: State, i: nat | Refilled(s, i)
      ensures Next(s, Round(i), RoundStep(s, i)) && Refilled(RoundStep(s, i), i + 1)
    {
      RoundRefills(s, i);
    }
    tr, acts := Lasso(Next, pre, steps, Refilled, Round, RoundStep);
    assert RefillsFrom(tr, acts, n);
    RefillIsFair(tr, acts, n);
    forall m: nat
      ensures !Drained(tr(m)) && !ReleasedFrom(tr, m)
    {
      RefillNeverDrains(tr, acts, n, m);
    }
    forall i: nat | n <= i && acts(i).OfEnv? && acts(i).env.Deliver?
      ensures DeliversEmpty(acts(i))
    {
      BackendSendsOnlyEmpties(tr, acts, n, i);
    }
    assert Refilled(tr(n), 0);
  }

  // ----- and fair executions that do drain -----

  /** Nobody has anything left to do: everything has ended, or an open proxy waits for a first datagram. */
  ghost predicate Still(s: State, i: nat) {
    && (forall c :: 0 <= c < |s.conns| ==> s.conns[c].pc.Done?)
    && (s.run.Stopped? || (s.run.Waiting? && s.listenerOpen)) && (s.closer.NotCalled? || s.closer.Returned?)
  }

  /** After a run that ended so, time passes. */
  lemma StillRunGoesOn(pre: seq<State>, steps: seq<Action>) returns (tr: nat -> State, acts: nat -> Action)
    requires IsRun(pre, steps) && Still(pre[|steps|], 0)
    ensures IsExecution(INIT, Next, tr, acts) && WeaklyFair(By, CanStep, tr, acts) && TimePasses(acts)
    ensures forall i: nat :: i <= |steps| ==> tr(i) == pre[i]
    ensures forall i: nat :: i < |steps| ==> acts(i) == steps[i]
    ensures forall i: nat :: |steps| <= i ==> Still(tr(i), 0) && acts(i) == OfEnv(Tick)
  {
    var p := |steps|;
    tr, acts := Lasso(Next, pre, steps, Still, (i: nat) => OfEnv(Tick), (s: State, i: nat) => Step(s, OfEnv(Tick)));
    forall i: nat | p <= i
      ensures Still(tr(i), 0)
    {
      assert Still(tr(i), i - p);
    }
    forall w, i: nat
      ensures Served(By, CanStep, tr, acts, w, i)
    {
      var j := if i < p then p else i;
      assert Still(tr(j), 0);
      assert !CanStep(tr(j), w);
    }
    forall i: nat
      ensures TicksAfter(acts, i)
    {
      assert acts(i + p) == OfEnv(Tick);
    }
  }

  /** The late loop reads a non-empty reply, cannot pass it on, and leaves. */
  lemma LateLoopLeaves(pre: seq<State>, acts: seq<Action>) returns (pre': seq<State>, acts': seq<Action>)
    requires IsRun(pre, acts) && Refilled(pre[|acts|], 0)
    ensures IsRun(pre', acts') && Drained(pre'[|acts'|]) && pre <= pre'
  {
    pre', acts' := Extend(pre, acts, OfLoop(0, Arm));
    pre', acts' := Extend(pre', acts', OfEnv(Deliver(0, Reply([7]))));
    pre', acts' := Extend(pre', acts', OfLoop(0, ReadItem));
    pre', acts' := Extend(pre', acts', OfLoop(0, AnswerError));
    pre', acts' := LeaveFromExit(pre', acts');
  }

  lemma LeaveFromExit(pre: seq<State>, acts: seq<Action>) returns (pre': seq<State>, acts': seq<Action>)
    requires IsRun(pre, acts)
    requires var s := pre[|acts|];
      s.run.Stopped? && s.closer.Returned? && s.lock.Free? && |s.conns| == 1 && s.conns[0].pc.Exiting?
    ensures IsRun(pre', acts') && Drained(pre'[|acts'|]) && pre <= pre'
  {
    pre', acts' := Extend(pre, acts, OfLoop(0, AcquireLoop));
    pre', acts' := Extend(pre', acts', OfLoop(0, Delete));
    pre', acts' := Extend(pre', acts', OfLoop(0, ReleaseLoop));
    pre', acts' := Extend(pre', acts', OfLoop(0, CloseConn));
  }

  /** A fair execution in which the same late loop ends, as the backend sends it a non-empty reply. */
  lemma NonEmptyReplyEndsLoop(from: Addr) returns (tr: nat -> State, acts: nat -> Action, n: nat)
    ensures IsExecution(INIT, Next, tr, acts) && WeaklyFair(By, CanStep, tr, acts) && TimePasses(acts)
    ensures tr(n).closer.Returned? && !tr(n).listenerOpen && !Drained(tr(n))
    ensures exists m: nat :: n <= m && ReleasedFrom(tr, m)
  {
    var pre, steps := LateLoopIsLeft(from);
    n := |steps|;
    var late := pre[n];
    var pre', steps' := LateLoopLeaves(pre, steps);
    tr, acts := StillRunGoesOn(pre', steps');
    assert tr(n) == pre'[n] == late;
    DrainedMeansReleased(tr, acts, |steps'|);
  }
}
