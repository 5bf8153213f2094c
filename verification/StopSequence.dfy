/**
  Stopping and removing a machine (mct/cmd/mct/cmd/stop.go, mct/cmd/mct/cmd/utils.go and
  mct/pkg/libmachine/host/host.go). The driver is an arbitrary oracle; the log records every question
  put to it, every action asked of it and the removal from the store.
 */
module StopSequence {

  datatype MachineState = Running | Stopped | OtherState

  datatype Answer = StateIs(s: MachineState) | StateError

  datatype Action = StopAction | KillAction

  datatype Event = Asked(a: Answer) | Invoked(action: Action, ok: bool) | Removal(ok: bool)

  /**
    What the driver and the clock decide: the answer to the n-th question, whether an action succeeds,
    how many times a retry and a wait may ask before they time out, and whether a retry goes on after
    an error. `removeOk` is the outcome of removing the store entry.
   */
  datatype World = World(
    answers: nat -> Answer, actionOk: Action -> bool,
    retryLimit: nat, waitLimit: nat, retryErrors: bool, removeOk: bool)

  /** How often the driver has been asked for its state. */
  function Questions(log: seq<Event>): nat {
    if log == [] then 0
    else Questions(log[..|log| - 1]) + (if log[|log| - 1].Asked? then 1 else 0)
  }

  datatype End = NotRunning | CannotStop | LeftStopped | NotConfirmed | RemoveFailed | Removed

  const SAW_STOPPED := Asked(StateIs(Stopped))

  /** How many questions a wait asks, from question `n` on: until the desired state, a stopping error or the limit. */
  function Asks(w: World, desired: MachineState, limit: nat, errorsStop: bool, n: nat): nat
    decreases limit
  {
    if limit == 0 then 0
    else if w.answers(n) == StateIs(desired) || (w.answers(n).StateError? && errorsStop) then 1
    else 1 + Asks(w, desired, limit - 1, errorsStop, n + 1)
  }

  /** The questions of a wait. */
  function AskUntil(w: World, desired: MachineState, limit: nat, errorsStop: bool, n: nat): seq<Event> {
    seq(Asks(w, desired, limit, errorsStop, n), i requires 0 <= i => Asked(w.answers(n + i)))
  }

  predicate Saw(log: seq<Event>, desired: MachineState) {
    log != [] && log[|log| - 1] == Asked(StateIs(desired))
  }

  /** What an attempt to stop or kill adds to the log when question `n` is next. */
  function AttemptLog(w: World, action: Action, n: nat): seq<Event> {
    if w.answers(n) == StateIs(Stopped) then [Asked(w.answers(n))]
    else
      [Asked(w.answers(n)), Invoked(action, w.actionOk(action))]
      + (if w.actionOk(action) then AskUntil(w, Stopped, w.retryLimit, !w.retryErrors, n + 1) else [])
  }

  predicate AttemptOk(w: World, action: Action, n: nat) {
    w.answers(n) != StateIs(Stopped) && w.actionOk(action)
    && Saw(AskUntil(w, Stopped, w.retryLimit, !w.retryErrors, n + 1), Stopped)
  }

  /** What stopping adds to the log: one attempt to stop and, only if that fails, one to kill. */
  function StopOrKillLog(w: World, n: nat): seq<Event> {
    var stop := AttemptLog(w, StopAction, n);
    if AttemptOk(w, StopAction, n) then stop else stop + AttemptLog(w, KillAction, n + Questions(stop))
  }

  predicate StopOrKillOk(w: World, n: nat) {
    AttemptOk(w, StopAction, n) || AttemptOk(w, KillAction, n + Questions(AttemptLog(w, StopAction, n)))
  }

  /** The questions a removal waits for, after stopping. */
  function WaitLog(w: World): seq<Event> {
    AskUntil(w, Stopped, w.waitLimit, true, 1 + Questions(StopOrKillLog(w, 1)))
  }

  function StopEnd(w: World, remove: bool): End {
    if w.answers(0) != StateIs(Running) then NotRunning
    else if !StopOrKillOk(w, 1) then CannotStop
    else if !remove then LeftStopped
    else if !Saw(WaitLog(w), Stopped) then NotConfirmed
    else if w.removeOk then Removed else RemoveFailed
  }

  /** The log of a stop command that ended with `end`. */
  function LogOf(end: End, first: seq<Event>, tried: seq<Event>, wait: seq<Event>): seq<Event> {
    match end
    case NotRunning => first
    case CannotStop => tried
    case LeftStopped => tried
    case NotConfirmed => tried + wait
    case Removed => tried + wait + [Removal(true)]
    case RemoveFailed => tried + wait + [Removal(false)]
  }

  /** The whole log of a stop command. */
  function StopLog(w: World, remove: bool): seq<Event> {
    LogOf(StopEnd(w, remove), [Asked(w.answers(0))], Tried(w), WaitLog(w))
  }

  /** The log up to where stopping succeeded or was given up. */
  function Tried(w: World): seq<Event> {
    [Asked(w.answers(0))] + StopOrKillLog(w, 1)
  }

  // ----- the operations, each returning what it adds to the log -----

  /** `crcerrors.Retry(..., MachineInState(h.Driver, desired), ...)`, the next question being question `n`. */
  method RetryUntil(w: World, desired: MachineState, n: nat) returns (ok: bool, log: seq<Event>)
    ensures log == AskUntil(w, desired, w.retryLimit, !w.retryErrors, n) && ok == Saw(log, desired)
  {
    log := [];
    var tries := 0;
    while tries < w.retryLimit
      invariant tries == |log| <= w.retryLimit && !Saw(log, desired)
      invariant forall i :: 0 <= i < tries ==> log[i] == Asked(w.answers(n + i))
      invariant tries + Asks(w, desired, w.retryLimit - tries, !w.retryErrors, n + tries)
             == Asks(w, desired, w.retryLimit, !w.retryErrors, n)
    {
      var a := w.answers(n + tries);
      log := log + [Asked(a)];
      if a == StateIs(desired) {
        return true, log;
      }
      if a.StateError? && !w.retryErrors {
        return false, log;
      }
      tries := tries + 1;
    }
    return false, log;
  }

  /** `waitForMachineState`: an error ends the wait, any other state is asked again until the timeout. */
  method WaitForMachineState(w: World, desired: MachineState, n: nat) returns (ok: bool, log: seq<Event>)
    ensures log == AskUntil(w, desired, w.waitLimit, true, n) && ok == Saw(log, desired)
  {
    log := [];
    var tries := 0;
    while tries < w.waitLimit
      invariant tries == |log| <= w.waitLimit && !Saw(log, desired)
      invariant forall i :: 0 <= i < tries ==> log[i] == Asked(w.answers(n + i))
      invariant tries + Asks(w, desired, w.waitLimit - tries, true, n + tries) == Asks(w, desired, w.waitLimit, true, n)
    {
      var a := w.answers(n + tries);
      log := log + [Asked(a)];
      if a == StateIs(desired) {
        return true, log;
      }
      if a.StateError? {
        return false, log;
      }
      tries := tries + 1;
    }
    return false, log;
  }

  /** `Host.runActionForState` for the state Stopped. */
  method RunActionForStopped(w: World, action: Action, n: nat) returns (ok: bool, log: seq<Event>)
    ensures log == AttemptLog(w, action, n) && ok == AttemptOk(w, action, n)
  {
    if w.answers(n) == StateIs(Stopped) {
      return false, [Asked(w.answers(n))];
    }
    log := [Asked(w.answers(n)), Invoked(action, w.actionOk(action))];
    if !w.actionOk(action) {
      return false, log;
    }
    var questions;
    ok, questions := RetryUntil(w, Stopped, n + 1);
    log := log + questions;
  }

  /** `host.Stop()` and, if that fails, `host.Kill()`. */
  method StopOrKill(w: World, n: nat) returns (ok: bool, log: seq<Event>)
    ensures log == StopOrKillLog(w, n) && ok == StopOrKillOk(w, n)
  {
    ok, log := RunActionForStopped(w, StopAction, n);
    if !ok {
      var killing;
      ok, killing := RunActionForStopped(w, KillAction, n + Questions(log));
      log := log + killing;
    }
  }

  /** The stop command on an existing machine that could be loaded, with or without `--remove`. */
  method StopCommand(w: World, remove: bool) returns (end: End, log: seq<Event>)
    ensures log == StopLog(w, remove) && end == StopEnd(w, remove)
  {
    log := [Asked(w.answers(0))];
    if w.answers(0) != StateIs(Running) {
      return NotRunning, log;
    }
    var ok, more := StopOrKill(w, 1);
    log := log + more;
    if !ok {
      return CannotStop, log;
    }
    if !remove {
      return LeftStopped, log;
    }
    ok, more := WaitForMachineState(w, Stopped, 1 + Questions(more));
    log := log + more;
    if !ok {
      return NotConfirmed, log;
    }
    log := log + [Removal(w.removeOk)];
    return if w.removeOk then Removed else RemoveFailed, log;
  }

  // ----- what the log of a stop command must look like -----

  ghost predicate OnlyQuestions(log: seq<Event>, from: nat) {
    forall i :: from <= i < |log| ==> log[i].Asked?
  }

  /** An action at `i` comes right after a question that was not answered with Stopped. */
  ghost predicate CheckedBefore(log: seq<Event>, i: nat) {
    i < |log| && log[i].Invoked? ==> i > 0 && log[i - 1].Asked? && log[i - 1] != SAW_STOPPED
  }

  /** Stopped was seen between a successful action and position `k`. */
  ghost predicate StoppedByUsBefore(log: seq<Event>, k: nat) {
    exists i, j :: 0 <= i < j < k <= |log| && log[i].Invoked? && log[i].ok && log[j] == SAW_STOPPED
  }

  /** A kill is attempted only after a stop attempt that failed, and nothing is attempted twice. */
  ghost predicate InOrder(log: seq<Event>) {
    && (forall i, j :: 0 <= i < j < |log| && log[i].Invoked? && log[j].Invoked? ==>
          log[i].action == StopAction && log[j].action == KillAction)
    && (forall i :: 0 <= i < |log| && log[i].Removal? ==> i == |log| - 1)
  }

  ghost predicate NoRemoval(log: seq<Event>) {
    forall i :: 0 <= i < |log| ==> !log[i].Removal?
  }

  ghost predicate Safe(log: seq<Event>) {
    InOrder(log) && forall i: nat :: CheckedBefore(log, i)
  }

  /** A wait asks in turn, stops at the first answer it wants, and sees it only if a question got it. */
  lemma {:induction false} WaitStopsWhenSeen(w: World, desired: MachineState, limit: nat, errorsStop: bool, n: nat)
    ensures var log := AskUntil(w, desired, limit, errorsStop, n);
      && |log| <= limit
      && (forall i :: 0 <= i < |log| ==> log[i] == Asked(w.answers(n + i)))
      && (forall i :: 0 <= i < |log| - 1 ==> log[i] != Asked(StateIs(desired)))
      && (|log| < limit ==>
            log != [] && (Saw(log, desired) || (errorsStop && w.answers(n + |log| - 1).StateError?)))
    decreases limit
  {
    if limit > 0 && w.answers(n) != StateIs(desired) && !(w.answers(n).StateError? && errorsStop) {
      WaitStopsWhenSeen(w, desired, limit - 1, errorsStop, n + 1);
      var log, rest := AskUntil(w, desired, limit, errorsStop, n), AskUntil(w, desired, limit - 1, errorsStop, n + 1);
      assert forall i :: 1 <= i < |log| ==> log[i] == rest[i - 1];
    }
  }

  /**
    An attempt asks first. If it sees Stopped it does nothing more and fails; otherwise it invokes the
    action, and after that only asks. It succeeds exactly when the driver carried the action out and
    Stopped was seen afterwards.
  */
  lemma AttemptChecksFirst(w: World, action: Action, n: nat)
    ensures var log := AttemptLog(w, action, n);
      && log != [] && log[0] == Asked(w.answers(n))
      && (log[0] == SAW_STOPPED <==> |log| == 1)
      && (|log| > 1 ==> log[1] == Invoked(action, w.actionOk(action)) && OnlyQuestions(log, 2))
      && (AttemptOk(w, action, n) <==>
            exists j :: 2 <= j < |log| && log[j] == SAW_STOPPED && log[1] == Invoked(action, true))
  {
    var questions := AskUntil(w, Stopped, w.retryLimit, !w.retryErrors, n + 1);
    var log := AttemptLog(w, action, n);
    WaitStopsWhenSeen(w, Stopped, w.retryLimit, !w.retryErrors, n + 1);
    if w.answers(n) != StateIs(Stopped) && w.actionOk(action) {
      assert forall j :: 2 <= j < |log| ==> log[j] == questions[j - 2];
      if Saw(questions, Stopped) {
        assert log[|log| - 1] == SAW_STOPPED;
      }
    }
  }

  lemma MoreQuestions(log: seq<Event>, more: seq<Event>)
    requires OnlyQuestions(more, 0) && NoRemoval(log) && Safe(log)
    ensures NoRemoval(log + more) && Safe(log + more)
    ensures forall k: nat :: StoppedByUsBefore(log, k) ==> StoppedByUsBefore(log + more, k)
  {
    forall i: nat
      ensures CheckedBefore(log + more, i)
    {
      assert CheckedBefore(log, i);
    }
    forall k: nat | StoppedByUsBefore(log, k)
      ensures StoppedByUsBefore(log + more, k)
    {
      var i, j :| 0 <= i < j < k <= |log| && log[i].Invoked? && log[i].ok && log[j] == SAW_STOPPED;
      assert (log + more)[i].Invoked? && (log + more)[i].ok && (log + more)[j] == SAW_STOPPED;
    }
  }

  lemma RemovalComesLast(log: seq<Event>, ok: bool)
    requires log != [] && NoRemoval(log) && Safe(log)
    ensures Safe(log + [Removal(ok)])
    ensures forall k: nat :: StoppedByUsBefore(log, k) ==> StoppedByUsBefore(log + [Removal(ok)], k)
  {
    var log' := log + [Removal(ok)];
    forall i: nat
      ensures CheckedBefore(log', i)
    {
      assert CheckedBefore(log, i);
    }
    forall k: nat | StoppedByUsBefore(log, k)
      ensures StoppedByUsBefore(log', k)
    {
      var i, j :| 0 <= i < j < k <= |log| && log[i].Invoked? && log[i].ok && log[j] == SAW_STOPPED;
      assert log'[i].Invoked? && log'[i].ok && log'[j] == SAW_STOPPED;
    }
  }

  /** Adding an attempt to a log, the second one being a kill. */
  lemma AttemptIsSafe(log: seq<Event>, w: World, action: Action, n: nat)
    requires NoRemoval(log) && Safe(log)
    requires forall i :: 0 <= i < |log| && log[i].Invoked? ==> log[i].action == StopAction && action == KillAction
    ensures var log' := log + AttemptLog(w, action, n);
      && NoRemoval(log') && Safe(log')
      && (AttemptOk(w, action, n) ==> StoppedByUsBefore(log', |log'|))
      && (forall i :: |log| <= i < |log'| && log'[i].Invoked? ==> log'[i].action == action)
      && (forall i :: 0 <= i < |log| ==> log'[i] == log[i])
  {
    var attempt := AttemptLog(w, action, n);
    var log' := log + attempt;
    AttemptChecksFirst(w, action, n);
    assert forall i :: 0 <= i < |attempt| ==> log'[|log| + i] == attempt[i];
    assert forall i :: |log| <= i < |log'| ==> log'[i] == attempt[i - |log|];
    forall i: nat
      ensures CheckedBefore(log', i)
    {
      assert CheckedBefore(log, i);
      if i == |log| + 1 < |log'| {
        assert log'[i - 1] == attempt[0];
      }
    }
    if AttemptOk(w, action, n) {
      var j :| 2 <= j < |attempt| && attempt[j] == SAW_STOPPED && attempt[1] == Invoked(action, true);
      assert log'[|log| + 1] == attempt[1] && log'[|log| + j] == SAW_STOPPED;
    }
  }

  lemma TriedSplits(w: World)
    ensures var stopped := [Asked(w.answers(0))] + AttemptLog(w, StopAction, 1);
      Tried(w) ==
        if AttemptOk(w, StopAction, 1) then stopped
        else stopped + AttemptLog(w, KillAction, 1 + Questions(AttemptLog(w, StopAction, 1)))
  {
    var start, stop := [Asked(w.answers(0))], AttemptLog(w, StopAction, 1);
    var kill := AttemptLog(w, KillAction, 1 + Questions(stop));
    assert start + (stop + kill) == start + stop + kill;
  }

  /** A stop attempt after a question, and a kill attempt after that. */
  lemma StopThenKillIsSafe(w: World, start: seq<Event>, n: nat, k: nat)
    requires OnlyQuestions(start, 0)
    ensures var stopped := start + AttemptLog(w, StopAction, n);
      && NoRemoval(stopped) && Safe(stopped)
      && (AttemptOk(w, StopAction, n) ==> StoppedByUsBefore(stopped, |stopped|))
      && var killed := stopped + AttemptLog(w, KillAction, k);
      && NoRemoval(killed) && Safe(killed)
      && (AttemptOk(w, KillAction, k) ==> StoppedByUsBefore(killed, |killed|))
  {
    AttemptIsSafe(start, w, StopAction, n);
    var stopped := start + AttemptLog(w, StopAction, n);
    assert forall i :: 0 <= i < |stopped| && stopped[i].Invoked? ==> i >= |start|;
    AttemptIsSafe(stopped, w, KillAction, k);
  }

  lemma TriedIsSafe(w: World)
    ensures NoRemoval(Tried(w)) && Safe(Tried(w))
    ensures StopOrKillOk(w, 1) ==> StoppedByUsBefore(Tried(w), |Tried(w)|)
  {
    var k := 1 + Questions(AttemptLog(w, StopAction, 1));
    TriedSplits(w);
    StopThenKillIsSafe(w, [Asked(w.answers(0))], 1, k);
  }

  lemma Later(log: seq<Event>, k: nat, k': nat)
    requires StoppedByUsBefore(log, k) && k <= k' <= |log|
    ensures StoppedByUsBefore(log, k')
  {
  }

  /** The removal that follows stopping and a wait that saw Stopped. */
  lemma RemovalIsSafe(tried: seq<Event>, wait: seq<Event>, ok: bool)
    requires NoRemoval(tried) && Safe(tried) && StoppedByUsBefore(tried, |tried|)
    requires OnlyQuestions(wait, 0) && Saw(wait, Stopped)
    ensures var log := tried + wait + [Removal(ok)];
      && Safe(log) && |log| >= 2 && log[|log| - 1] == Removal(ok) && log[|log| - 2] == SAW_STOPPED
      && StoppedByUsBefore(log, |log| - 2) && !NoRemoval(log)
  {
    MoreQuestions(tried, wait);
    RemovalComesLast(tried + wait, ok);
    var log := tried + wait + [Removal(ok)];
    Later(log, |tried|, |log| - 2);
    assert log[|log| - 1].Removal?;
  }

  /** Stopped was seen after a successful action, and once more right before the last event. */
  ghost predicate Confirmed(log: seq<Event>) {
    |log| >= 2 && log[|log| - 2] == SAW_STOPPED && StoppedByUsBefore(log, |log| - 2)
  }

  /** The log is safe, and a removal in it is its last event, with Stopped seen twice before. */
  ghost predicate SafeEnd(log: seq<Event>, end: End) {
    && Safe(log)
    && (NoRemoval(log) <==> !end.Removed? && !end.RemoveFailed?)
    && (end.Removed? || end.RemoveFailed? ==>
          Confirmed(log) && log[|log| - 1] == Removal(end.Removed?))
    && (end.LeftStopped? ==> StoppedByUsBefore(log, |log|))
  }

  lemma LogIsSafe(end: End, first: seq<Event>, tried: seq<Event>, wait: seq<Event>)
    requires OnlyQuestions(first, 0) && NoRemoval(tried) && Safe(tried) && OnlyQuestions(wait, 0)
    requires !end.NotRunning? && !end.CannotStop? ==> StoppedByUsBefore(tried, |tried|)
    requires end.Removed? || end.RemoveFailed? ==> Saw(wait, Stopped)
    ensures SafeEnd(LogOf(end, first, tried, wait), end)
  {
    if end.NotConfirmed? {
      MoreQuestions(tried, wait);
    } else if end.Removed? || end.RemoveFailed? {
      RemovalIsSafe(tried, wait, end.Removed?);
    }
  }

  /**
    Whatever the driver answers and whichever actions fail: no action is asked of a driver just seen to
    be stopped, at most one stop is followed by at most one kill, and the store entry is removed only
    as the last thing, if that was asked for, after a stop or a kill that the driver carried out and
    after which Stopped was seen, with Stopped seen once more right before.
   */
  lemma RemovedOnlyWhenStopped(w: World, remove: bool)
    ensures SafeEnd(StopLog(w, remove), StopEnd(w, remove))
    ensures StopEnd(w, remove).Removed? || StopEnd(w, remove).RemoveFailed? ==> remove
  {
    TriedIsSafe(w);
    assert OnlyQuestions(WaitLog(w), 0);
    LogIsSafe(StopEnd(w, remove), [Asked(w.answers(0))], Tried(w), WaitLog(w));
  }

  /** Only a machine found running is acted upon: any other answer, or none, ends the command at once. */
  lemma OnlyRunningIsStopped(w: World, remove: bool)
    ensures StopEnd(w, remove).NotRunning? <==> w.answers(0) != StateIs(Running)
    ensures w.answers(0) != StateIs(Running) ==> StopLog(w, remove) == [Asked(w.answers(0))]
  {
  }

  /** A machine that stops by itself after it was seen running cannot be removed by this command. */
  lemma StoppedMeanwhileIsAnError(w: World, remove: bool)
    requires w.answers(0) == StateIs(Running) && w.answers(1) == StateIs(Stopped) && w.answers(2) == StateIs(Stopped)
    ensures StopEnd(w, remove) == CannotStop
    ensures StopLog(w, remove) == [Asked(StateIs(Running)), SAW_STOPPED, SAW_STOPPED]
  {
    assert AttemptLog(w, StopAction, 1) == [] + [SAW_STOPPED];
    assert Questions([]) == 0 && Questions(AttemptLog(w, StopAction, 1)) == 1;
  }

  /** A driver that stays stopped once a stop was carried out lets the removal be reached. */
  lemma ObedientDriverIsRemoved(w: World)
    requires w.answers(0) == StateIs(Running) && w.answers(1) != StateIs(Stopped) && w.actionOk(StopAction)
    requires forall n: nat :: n >= 2 ==> w.answers(n) == StateIs(Stopped)
    requires w.retryLimit > 0 && w.waitLimit > 0
    ensures StopEnd(w, true) == if w.removeOk then Removed else RemoveFailed
  {
    assert Asks(w, Stopped, w.retryLimit, !w.retryErrors, 2) == 1;
    var n := 1 + Questions(StopOrKillLog(w, 1));
    assert StopOrKillLog(w, 1) == AttemptLog(w, StopAction, 1);
    assert AttemptLog(w, StopAction, 1)[..2] == [Asked(w.answers(1)), Invoked(StopAction, true)];
    assert Asks(w, Stopped, w.waitLimit, true, n) == 1;
  }

  ghost predicate NoErrorBetween(w: World, n: nat, k: nat) {
    forall j :: n <= j < k ==> !w.answers(j).StateError?
  }

  /** Among `limit` questions from `n` on, one is answered as awaited before an answer that ends the wait. */
  ghost predicate Comes(w: World, desired: MachineState, limit: nat, errorsStop: bool, n: nat) {
    exists k :: n <= k < n + limit && w.answers(k) == StateIs(desired) && (errorsStop ==> NoErrorBetween(w, n, k))
  }

  /** A wait succeeds exactly if what it waits for comes. */
  lemma {:induction false} WaitSucceedsExactly(w: World, desired: MachineState, limit: nat, errorsStop: bool, n: nat)
    ensures Saw(AskUntil(w, desired, limit, errorsStop, n), desired) <==> Comes(w, desired, limit, errorsStop, n)
    decreases limit
  {
    if limit > 0 && w.answers(n) != StateIs(desired) && !(w.answers(n).StateError? && errorsStop) {
      WaitSucceedsExactly(w, desired, limit - 1, errorsStop, n + 1);
      SeenLater(w, desired, limit, errorsStop, n);
      ComesLater(w, desired, limit, errorsStop, n);
    } else if limit > 0 {
      FirstAnswerDecides(w, desired, limit, errorsStop, n);
    }
  }

  lemma SeenLater(w: World, desired: MachineState, limit: nat, errorsStop: bool, n: nat)
    requires limit > 0 && w.answers(n) != StateIs(desired) && !(w.answers(n).StateError? && errorsStop)
    ensures Saw(AskUntil(w, desired, limit, errorsStop, n), desired)
       <==> Saw(AskUntil(w, desired, limit - 1, errorsStop, n + 1), desired)
  {
    var k := Asks(w, desired, limit - 1, errorsStop, n + 1);
    assert Asks(w, desired, limit, errorsStop, n) == 1 + k;
    if k > 0 {
      assert n + (1 + k - 1) == n + 1 + (k - 1);
    }
  }

  lemma FirstAnswerDecides(w: World, desired: MachineState, limit: nat, errorsStop: bool, n: nat)
    requires limit > 0 && (w.answers(n) == StateIs(desired) || (w.answers(n).StateError? && errorsStop))
    ensures Saw(AskUntil(w, desired, limit, errorsStop, n), desired) <==> w.answers(n) == StateIs(desired)
    ensures Comes(w, desired, limit, errorsStop, n) <==> w.answers(n) == StateIs(desired)
  {
    assert AskUntil(w, desired, limit, errorsStop, n) == [Asked(w.answers(n))];
    assert NoErrorBetween(w, n, n);
    if k :| n <= k < n + limit && w.answers(k) == StateIs(desired) && (errorsStop ==> NoErrorBetween(w, n, k)) {
      assert n < k ==> !errorsStop || !w.answers(n).StateError?;
    }
  }

  lemma ComesLater(w: World, desired: MachineState, limit: nat, errorsStop: bool, n: nat)
    requires limit > 0 && w.answers(n) != StateIs(desired) && !(w.answers(n).StateError? && errorsStop)
    ensures Comes(w, desired, limit, errorsStop, n) <==> Comes(w, desired, limit - 1, errorsStop, n + 1)
  {
    if k :| n <= k < n + limit && w.answers(k) == StateIs(desired) && (errorsStop ==> NoErrorBetween(w, n, k)) {
      assert n + 1 <= k && (errorsStop ==> NoErrorBetween(w, n + 1, k));
    }
    if k :| n + 1 <= k < n + limit && w.answers(k) == StateIs(desired) && (errorsStop ==> NoErrorBetween(w, n + 1, k)) {
      assert errorsStop ==> NoErrorBetween(w, n, k);
    }
  }

  /** Stopped was seen in this attempt, after its action had been carried out. */
  ghost predicate StoppedWithin(attempt: seq<Event>) {
    exists j :: 2 <= j < |attempt| && attempt[j] == SAW_STOPPED && attempt[1].Invoked? && attempt[1].ok
  }

  /**
    A running machine counts as stopped exactly if Stopped was seen within the attempt to stop it, or,
    failing that, within the attempt to kill it, after the driver had carried the attempt out. The attempts
    follow each other in the log after the question whether it is running.
   */
  lemma StoppedExactly(w: World, remove: bool)
    requires w.answers(0) == StateIs(Running)
    ensures var stop := AttemptLog(w, StopAction, 1);
      var kill := AttemptLog(w, KillAction, 1 + Questions(stop));
      var tried := [Asked(w.answers(0))] + stop + (if StoppedWithin(stop) then [] else kill);
      && tried <= StopLog(w, remove)
      && (StopEnd(w, remove) != CannotStop <==> StoppedWithin(stop) || StoppedWithin(kill))
      && (StopEnd(w, remove).CannotStop? ==> StopLog(w, remove) == tried)
  {
    var stop := AttemptLog(w, StopAction, 1);
    var kill := AttemptLog(w, KillAction, 1 + Questions(stop));
    AttemptChecksFirst(w, StopAction, 1);
    AttemptChecksFirst(w, KillAction, 1 + Questions(stop));
    TriedSplits(w);
    assert AttemptOk(w, StopAction, 1) <==> StoppedWithin(stop);
    assert AttemptOk(w, KillAction, 1 + Questions(stop)) <==> StoppedWithin(kill);
    assert [Asked(w.answers(0))] + stop + [] == [Asked(w.answers(0))] + stop;
    TriedComesFirst(w, remove);
  }

  lemma TriedComesFirst(w: World, remove: bool)
    requires w.answers(0) == StateIs(Running)
    ensures Tried(w) <= StopLog(w, remove) && (StopEnd(w, remove).CannotStop? ==> StopLog(w, remove) == Tried(w))
    ensures StopEnd(w, remove).CannotStop? <==> !StopOrKillOk(w, 1)
  {
  }

  /**
    For a machine that counts as stopped: it is left so unless its removal was asked for; otherwise the
    removal is tried exactly if a last wait sees Stopped before an error and before its limit.
   */
  lemma RemovedExactly(w: World, remove: bool)
    requires !StopEnd(w, remove).NotRunning? && !StopEnd(w, remove).CannotStop?
    ensures var end, n := StopEnd(w, remove), Questions(Tried(w));
      && (end.LeftStopped? <==> !remove)
      && (end.Removed? || end.RemoveFailed? <==> remove && Comes(w, Stopped, w.waitLimit, true, n))
      && (end.Removed? ==> w.removeOk) && (end.RemoveFailed? ==> !w.removeOk)
  {
    QuestionsAfterFirst(w);
    WaitSucceedsExactly(w, Stopped, w.waitLimit, true, Questions(Tried(w)));
  }

  lemma {:induction false} QuestionsConcat(a: seq<Event>, b: seq<Event>)
    ensures Questions(a + b) == Questions(a) + Questions(b)
    decreases |b|
  {
    if b == [] {
      assert a + b == a;
    } else {
      QuestionsConcat(a, b[..|b| - 1]);
      assert (a + b)[..|a + b| - 1] == a + b[..|b| - 1];
    }
  }

  lemma QuestionsAfterFirst(w: World)
    ensures Questions(Tried(w)) == 1 + Questions(StopOrKillLog(w, 1))
  {
    var first := [Asked(w.answers(0))];
    assert first[..0] == [];
    QuestionsConcat(first, StopOrKillLog(w, 1));
  }

  /** A driver that refuses to stop but carries out the kill and then stays stopped lets `stop` succeed. */
  lemma KilledDriverIsRemoved(w: World, remove: bool)
    requires w.answers(0) == StateIs(Running) && w.answers(1) != StateIs(Stopped) && w.answers(2) != StateIs(Stopped)
    requires !w.actionOk(StopAction) && w.actionOk(KillAction)
    requires forall n: nat :: n >= 3 ==> w.answers(n) == StateIs(Stopped)
    requires w.retryLimit > 0 && w.waitLimit > 0
    ensures StopEnd(w, remove) == if !remove then LeftStopped else if w.removeOk then Removed else RemoveFailed
    ensures [Asked(w.answers(0)), Asked(w.answers(1)), Invoked(StopAction, false), Asked(w.answers(2)),
             Invoked(KillAction, true), SAW_STOPPED] <= StopLog(w, remove)
  {
    var stop := AttemptLog(w, StopAction, 1);
    assert stop == [Asked(w.answers(1)), Invoked(StopAction, false)];
    assert stop[..1][..0] == [] && Questions(stop[..1]) == 1 && Questions(stop) == 1;
    assert Asks(w, Stopped, w.retryLimit, !w.retryErrors, 3) == 1;
    var kill := AttemptLog(w, KillAction, 2);
    assert kill == [Asked(w.answers(2)), Invoked(KillAction, true), SAW_STOPPED];
    assert kill[2] == SAW_STOPPED && kill[1].ok && StoppedWithin(kill);
    AttemptChecksFirst(w, StopAction, 1);
    StoppedExactly(w, remove);
    if remove {
      QuestionsAfterFirst(w);
      ThreeQuestions(w);
      assert w.answers(Questions(Tried(w))) == StateIs(Stopped);
      assert NoErrorBetween(w, Questions(Tried(w)), Questions(Tried(w)));
      RemovedExactly(w, remove);
    }
  }

  lemma ThreeQuestions(w: World)
    requires AttemptLog(w, StopAction, 1) == [Asked(w.answers(1)), Invoked(StopAction, false)]
    requires AttemptLog(w, KillAction, 2) == [Asked(w.answers(2)), Invoked(KillAction, true), SAW_STOPPED]
    requires Questions(AttemptLog(w, StopAction, 1)) == 1 && !AttemptOk(w, StopAction, 1)
    ensures Questions(Tried(w)) >= 3
  {
    TriedSplits(w);
    var kill, before := AttemptLog(w, KillAction, 2), [Asked(w.answers(0))] + AttemptLog(w, StopAction, 1);
    QuestionsConcat(before, kill);
    QuestionsConcat([Asked(w.answers(0))], AttemptLog(w, StopAction, 1));
    assert [Asked(w.answers(0))][..0] == [];
    assert kill[..2] + [SAW_STOPPED] == kill;
    QuestionsConcat(kill[..2], [SAW_STOPPED]);
    assert [SAW_STOPPED][..0] == [];
  }

  /**
    Stopped seen after a stop that the driver carried out is not enough: if the retry has given up by then,
    it is the check before the kill that sees it, and takes it for an error.
   */
  lemma LateStopIsAnError(w: World, remove: bool)
    requires w.answers(0) == StateIs(Running) && w.answers(1) == StateIs(Running)
    requires w.actionOk(StopAction) && w.retryLimit == 1
    requires w.answers(2) == StateIs(OtherState) && w.answers(3) == StateIs(Stopped)
    ensures StopEnd(w, remove) == CannotStop
    ensures StoppedByUsBefore(StopLog(w, remove), |StopLog(w, remove)|)
  {
    var stop := AttemptLog(w, StopAction, 1);
    assert Asks(w, Stopped, 0, !w.retryErrors, 3) == 0;
    assert Asks(w, Stopped, 1, !w.retryErrors, 2) == 1;
    assert stop == [Asked(w.answers(1)), Invoked(StopAction, true), Asked(w.answers(2))];
    QuestionsConcat(stop[..2], [Asked(w.answers(2))]);
    QuestionsConcat(stop[..1], [Invoked(StopAction, true)]);
    assert stop == stop[..2] + [Asked(w.answers(2))] && stop[..2] == stop[..1] + [Invoked(StopAction, true)];
    assert [Asked(w.answers(2))][..0] == [] && stop[..1][..0] == [] && [Invoked(StopAction, true)][..0] == [];
    assert Questions(stop) == 2;
    assert AttemptLog(w, KillAction, 3) == [SAW_STOPPED];
    StoppedExactly(w, remove);
    var log := StopLog(w, remove);
    assert log == [Asked(w.answers(0))] + stop + [SAW_STOPPED];
    assert log[2].Invoked? && log[2].ok && log[4] == SAW_STOPPED;
  }
}
