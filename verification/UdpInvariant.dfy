/** The inductive invariant of the UDP proxy, and what it says about every reachable state. */
module UdpInvariant {
  import opened UdpProtocol

  /** The loop has not deleted its table entry yet. */
  predicate Live(pc: LoopPc) {
    !pc.Deleted? && !pc.Closing? && !pc.Done?
  }

  /** Connection `c` has been dialled but `Run` has not yet put it in the table. */
  predicate Unregistered(s: State, c: nat) {
    s.run.Dialled? && s.run.c == c
  }

  /** The table maps each key to its live connection, and every live connection is in the table. */
  ghost predicate TableInv(s: State) {
    && (forall k :: k in s.table ==>
          s.table[k] < |s.conns| && s.conns[s.table[k]].key == k
          && Live(s.conns[s.table[k]].pc) && !Unregistered(s, s.table[k]))
    && (forall c :: 0 <= c < |s.conns| && Live(s.conns[c].pc) && !Unregistered(s, c) ==>
          s.conns[c].key in s.table && s.table[s.conns[c].key] == c)
  }

  ghost predicate RunInv(s: State) {
    && (match s.run
        case Missed(d) => d.key !in s.table
        case Dialled(d, c) => c < |s.conns| && s.conns[c].key == d.key && d.key !in s.table
        case Inserted(d, c) => c < |s.conns| && s.conns[c].key == d.key
        case Found(d, c) => d.key in s.table && s.table[d.key] == c
        case Sending(d, c, i) => c < |s.conns| && s.conns[c].key == d.key && i < |d.payload|
        case _ => true)
    && (forall c :: 0 <= c < |s.conns| ==>
          (s.conns[c].pc.Unspawned? <==> (s.run.Dialled? || s.run.Inserted?) && s.run.c == c))
  }

  predicate RunInside(run: RunPc) {
    run.Locked? || run.Missed? || run.Dialled? || run.Inserted? || run.Found?
  }

  predicate LoopInside(pc: LoopPc) {
    pc.Holding? || pc.Deleted?
  }

  /** Mutual exclusion: whoever is inside a critical section is the lock holder, and conversely. */
  ghost predicate LockInv(s: State) {
    && (RunInside(s.run) <==> s.lock.ByRun?)
    && (s.closer.Sweeping? <==> s.lock.ByClose?)
    && (s.lock.ByLoop? ==> s.lock.c < |s.conns| && LoopInside(s.conns[s.lock.c].pc))
    && (forall c :: 0 <= c < |s.conns| && LoopInside(s.conns[c].pc) ==> s.lock == ByLoop(c))
  }

  /** Which connections are open: all that have not finished, until `Close` sweeps the table. */
  ghost predicate OpenInv(s: State) {
    && (s.listenerOpen <==> s.closer.NotCalled?)
    && (forall c :: 0 <= c < |s.conns| && s.conns[c].pc.Done? ==> !s.conns[c].open)
    && (match s.closer
        case NotCalled => forall c :: 0 <= c < |s.conns| && !s.conns[c].pc.Done? ==> s.conns[c].open
        case ListenerClosed => forall c :: 0 <= c < |s.conns| && !s.conns[c].pc.Done? ==> s.conns[c].open
        case Sweeping(pending) =>
          && (forall c :: c in pending ==> c < |s.conns|)
          && (forall c :: 0 <= c < |s.conns| && Live(s.conns[c].pc) && s.conns[c].open ==> c in pending)
        case Returned =>
          forall c :: 0 <= c < |s.conns| && Live(s.conns[c].pc) && s.conns[c].open ==> s.conns[c].late)
  }

  /** At most one connection is dialled after the listener closed, in the last round of `Run`. */
  ghost predicate LateInv(s: State) {
    && (forall c :: 0 <= c < |s.conns| && s.conns[c].late ==>
          !s.listenerOpen && !s.run.Got? && !s.run.Locked? && !s.run.Missed?)
    && (forall c, e :: 0 <= c < |s.conns| && 0 <= e < |s.conns| && s.conns[c].late && s.conns[e].late ==> c == e)
  }

  /** A live connection is the newest of its client. */
  ghost predicate NewestInv(s: State) {
    forall c, e :: 0 <= c < e < |s.conns| && Live(s.conns[c].pc) ==> s.conns[c].key != s.conns[e].key
  }

  /** The deadline is armed once at the start and once after each reply that was fully processed. */
  ghost predicate TimerInv(s: State) {
    forall c :: 0 <= c < |s.conns| ==> ConnTimerInv(s.conns[c], s.now)
  }

  predicate ConnTimerInv(conn: Conn, now: nat) {
    && conn.armedAt <= now
    && (match conn.pc
        case Unspawned => conn.armings == |conn.replies| == 0
        case Arming => conn.armings == |conn.replies|
        case Reading(deadline) =>
          deadline == conn.armedAt + CONN_TRACK_TIMEOUT && conn.armings == |conn.replies| + 1
        case Replying(reply, i) =>
          && i < |reply| && conn.replies != [] && conn.replies[|conn.replies| - 1] == reply
          && conn.armings == |conn.replies|
        case _ => true)
  }

  ghost predicate Inv(s: State) {
    TableInv(s) && RunInv(s) && LockInv(s) && OpenInv(s) && LateInv(s) && NewestInv(s) && TimerInv(s)
  }

  // ----- preservation, one clause at a time -----

  lemma RunKeepsTable(s: State, a: RunAction)
    requires TableInv(s) && RunInv(s) && LockInv(s) && RunEnabled(s, a)
    ensures TableInv(RunStep(s, a))
  {
    match a
    case Dial => DialKeepsTable(s);
    case Insert => InsertKeepsTable(s);
    case Spawn => SpawnKeepsTable(s);
    case _ => assert RunStep(s, a).table == s.table && RunStep(s, a).conns == s.conns;
  }

  lemma DialKeepsTable(s: State)
    requires TableInv(s) && RunInv(s) && RunEnabled(s, Dial)
    ensures TableInv(RunStep(s, Dial))
  {
  }

  lemma InsertKeepsTable(s: State)
    requires TableInv(s) && RunInv(s) && RunEnabled(s, Insert)
    ensures TableInv(RunStep(s, Insert))
  {
  }

  lemma SpawnKeepsTable(s: State)
    requires TableInv(s) && RunInv(s) && RunEnabled(s, Spawn)
    ensures TableInv(RunStep(s, Spawn))
  {
  }

  lemma RunKeepsRun(s: State, a: RunAction)
    requires TableInv(s) && RunInv(s) && LockInv(s) && RunEnabled(s, a)
    ensures RunInv(RunStep(s, a))
  {
  }

  lemma RunKeepsLock(s: State, a: RunAction)
    requires LockInv(s) && RunEnabled(s, a)
    ensures LockInv(RunStep(s, a))
  {
  }

  lemma RunKeepsOpen(s: State, a: RunAction)
    requires OpenInv(s) && LockInv(s) && RunInv(s) && TableInv(s) && RunEnabled(s, a)
    ensures OpenInv(RunStep(s, a))
  {
  }

  lemma RunKeepsLate(s: State, a: RunAction)
    requires LateInv(s) && OpenInv(s) && RunInv(s) && RunEnabled(s, a)
    ensures LateInv(RunStep(s, a))
  {
  }

  lemma RunKeepsNewest(s: State, a: RunAction)
    requires NewestInv(s) && TableInv(s) && RunInv(s) && RunEnabled(s, a)
    ensures NewestInv(RunStep(s, a))
  {
  }

  lemma RunKeepsTimer(s: State, a: RunAction)
    requires TimerInv(s) && RunInv(s) && RunEnabled(s, a)
    ensures TimerInv(RunStep(s, a))
  {
  }

  ghost predicate OnlyLoopMoved(s: State, c: nat, s': State) {
    && c < |s.conns| == |s'.conns| && s'.conns == s.conns[c := s'.conns[c]]
    && s'.run == s.run && s'.closer == s.closer && s'.listenerOpen == s.listenerOpen
    && s'.now == s.now && s'.received == s.received && s'.toBackend == s.toBackend
    && s.toClient <= s'.toClient
  }

  lemma LoopMovesOnlyItself(s: State, c: nat, a: LoopAction)
    requires LoopEnabled(s, c, a)
    ensures OnlyLoopMoved(s, c, LoopStep(s, c, a))
  {
  }

  /** What a step of reply loop `c` can do to the shared state. */
  ghost predicate LoopFrame(s: State, c: nat, s': State) {
    && OnlyLoopMoved(s, c, s')
    && var before, after := s.conns[c], s'.conns[c];
    && after.key == before.key && after.late == before.late
    && !before.pc.Unspawned? && !after.pc.Unspawned?
    && (Live(after.pc) ==> Live(before.pc))
    && (if Live(before.pc) && !Live(after.pc) then before.pc.Holding? && s'.table == s.table - {before.key}
        else s'.table == s.table)
    && (if LoopInside(after.pc) && !LoopInside(before.pc) then s.lock == Free && s'.lock == ByLoop(c)
        else if !LoopInside(after.pc) && LoopInside(before.pc) then s'.lock == Free
        else s'.lock == s.lock)
    && (if after.pc.Done? then !after.open && !Live(before.pc) else after.open == before.open && !before.pc.Done?)
  }

  lemma LoopStepFrame(s: State, c: nat, a: LoopAction)
    requires RunInv(s) && LoopEnabled(s, c, a)
    ensures LoopFrame(s, c, LoopStep(s, c, a))
  {
    LoopMovesOnlyItself(s, c, a);
  }

  lemma LoopKeepsTable(s: State, c: nat, s': State)
    requires TableInv(s) && RunInv(s) && LoopFrame(s, c, s')
    ensures TableInv(s')
  {
  }

  lemma LoopKeepsRun(s: State, c: nat, s': State)
    requires TableInv(s) && RunInv(s) && LockInv(s) && LoopFrame(s, c, s')
    ensures RunInv(s')
  {
  }

  lemma LoopKeepsLock(s: State, c: nat, s': State)
    requires LockInv(s) && LoopFrame(s, c, s')
    ensures LockInv(s')
  {
  }

  lemma LoopKeepsOpen(s: State, c: nat, s': State)
    requires OpenInv(s) && LoopFrame(s, c, s')
    ensures OpenInv(s')
  {
  }

  lemma LoopKeepsLateAndNewest(s: State, c: nat, s': State)
    requires LateInv(s) && NewestInv(s) && LoopFrame(s, c, s')
    ensures LateInv(s') && NewestInv(s')
  {
  }

  lemma LoopKeepsTimer(s: State, c: nat, a: LoopAction)
    requires TimerInv(s) && RunInv(s) && LoopEnabled(s, c, a)
    ensures TimerInv(LoopStep(s, c, a))
  {
  }

  lemma CloseKeepsTableAndRun(s: State, a: CloseAction)
    requires TableInv(s) && RunInv(s) && CloseEnabled(s, a)
    ensures TableInv(CloseStep(s, a)) && RunInv(CloseStep(s, a))
  {
  }

  lemma CloseKeepsOpen(s: State, a: CloseAction)
    requires OpenInv(s) && LockInv(s) && RunInv(s) && TableInv(s) && CloseEnabled(s, a)
    ensures OpenInv(CloseStep(s, a))
  {
  }

  lemma CloseKeepsRest(s: State, a: CloseAction)
    requires LockInv(s) && LateInv(s) && OpenInv(s) && NewestInv(s) && TimerInv(s) && CloseEnabled(s, a)
    ensures LockInv(CloseStep(s, a)) && LateInv(CloseStep(s, a))
    ensures NewestInv(CloseStep(s, a)) && TimerInv(CloseStep(s, a))
  {
  }

  lemma EnvKeepsTableAndRun(s: State, a: EnvAction)
    requires TableInv(s) && RunInv(s) && EnvEnabled(s, a)
    ensures TableInv(EnvStep(s, a)) && RunInv(EnvStep(s, a))
  {
  }

  lemma EnvKeepsOpen(s: State, a: EnvAction)
    requires OpenInv(s) && LateInv(s) && EnvEnabled(s, a)
    ensures OpenInv(EnvStep(s, a)) && LateInv(EnvStep(s, a))
  {
  }

  lemma EnvKeepsRest(s: State, a: EnvAction)
    requires LockInv(s) && NewestInv(s) && TimerInv(s) && EnvEnabled(s, a)
    ensures LockInv(EnvStep(s, a)) && NewestInv(EnvStep(s, a)) && TimerInv(EnvStep(s, a))
  {
  }

  /** Every step of every goroutine keeps the invariant. */
  lemma StepKeepsInv(s: State, a: Action)
    requires Inv(s) && Enabled(s, a)
    ensures Inv(Step(s, a))
  {
    match a
    case OfRun(r) =>
      RunKeepsTable(s, r);
      RunKeepsRun(s, r);
      RunKeepsLock(s, r);
      RunKeepsOpen(s, r);
      RunKeepsLate(s, r);
      RunKeepsNewest(s, r);
      RunKeepsTimer(s, r);
    case OfLoop(c, l) =>
      var s' := LoopStep(s, c, l);
      LoopStepFrame(s, c, l);
      LoopKeepsTable(s, c, s');
      LoopKeepsRun(s, c, s');
      LoopKeepsLock(s, c, s');
      LoopKeepsOpen(s, c, s');
      LoopKeepsLateAndNewest(s, c, s');
      LoopKeepsTimer(s, c, l);
    case OfClose(x) =>
      CloseKeepsTableAndRun(s, x);
      CloseKeepsOpen(s, x);
      CloseKeepsRest(s, x);
    case OfEnv(e) =>
      EnvKeepsTableAndRun(s, e);
      EnvKeepsOpen(s, e);
      EnvKeepsRest(s, e);
  }

  /** The same, as a rule for consecutive states. */
  lemma NextKeepsInv(s: State, a: Action, s': State)
    requires Inv(s) && Enabled(s, a) && s' == Step(s, a)
    ensures Inv(s')
  {
    StepKeepsInv(s, a);
  }

  /** The invariant holds in every state of every run. */
  lemma {:induction false} RunsKeepInv(tr: seq<State>, acts: seq<Action>, i: nat)
    requires IsRun(tr, acts) && i < |tr|
    ensures Inv(tr[i])
  {
    if i > 0 {
      RunsKeepInv(tr, acts, i - 1);
      NextKeepsInv(tr[i - 1], acts[i - 1], tr[i]);
    }
  }
}
