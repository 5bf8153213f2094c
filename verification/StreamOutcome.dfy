/** What the peers of a TCP or SCTP client loop end up with. */
module StreamOutcome {
  import opened StreamLoop
  import opened StreamSafety

  /** Direction `x` is complete: its peer ended the stream and every byte of it was delivered. */
  predicate Complete(s: State, x: Side) {
    s.ends.At(x).fin && s.ends.At(Other(x)).got == s.ends.At(x).sent
  }

  // ----- every run -----

  /** In every run of either policy, what is delivered is a prefix of what was sent. */
  lemma DeliversPrefix(policy: Policy, tr: seq<State>, acts: seq<Action>, n: nat, x: Side)
    requires IsRun(policy, tr, acts) && n < |tr|
    ensures tr[n].brokers.At(x).taken <= |tr[n].ends.At(x).sent|
    ensures tr[n].ends.At(Other(x)).got <= tr[n].ends.At(x).sent[..tr[n].brokers.At(x).taken]
  {
    RunsKeepInv(policy, tr, acts, n);
  }

  /** A copy that ended at the end of the stream has delivered all of it, and nothing is added later. */
  lemma EofMeansComplete(policy: Policy, tr: seq<State>, acts: seq<Action>, n: nat, x: Side)
    requires IsRun(policy, tr, acts) && n < |tr|
    requires Ended(tr[n].brokers.At(x).pc) && tr[n].brokers.At(x).pc.how.Eof?
    ensures Complete(tr[n], x)
  {
    RunsKeepInv(policy, tr, acts, n);
  }

  /**
    The wait group counts exactly the unfinished brokers and never goes negative, `finish` is closed
    at most once and only at zero, and a loop that returns past the dial has joined both brokers.
   */
  lemma GoroutinesAreJoined(policy: Policy, tr: seq<State>, acts: seq<Action>, n: nat)
    requires IsRun(policy, tr, acts) && n < |tr|
    ensures tr[n].wg >= 0
    ensures Waited(tr[n].main) ==>
      tr[n].wg == Unfinished(tr[n].brokers.client) + Unfinished(tr[n].brokers.backend)
    ensures tr[n].finishCloses <= 1
    ensures tr[n].finishCloses == 1 || tr[n].main.Returned? ==>
      tr[n].brokers.client.pc.Finished? && tr[n].brokers.backend.pc.Finished?
    ensures tr[n].main.Returned? ==> tr[n].finishCloses == 1
  {
    RunsKeepInv(policy, tr, acts, n);
  }

  /**
    TCP: one direction's broker finishing leaves the opposite direction usable. Until the main
    goroutine closes both connections, a direction can be read as long as its own broker has not
    closed its source, and written as long as its own broker has not closed its destination.
   */
  lemma TcpOppositeStaysUsable(tr: seq<State>, acts: seq<Action>, n: nat, x: Side)
    requires IsRun(HalfClose, tr, acts) && n < |tr| && !MainCloses(tr[n].main)
    ensures tr[n].ends.At(x).readOpen <==> !PastSource(tr[n].brokers.At(x).pc)
    ensures tr[n].ends.At(Other(x)).writeOpen <==> !PastDest(tr[n].brokers.At(x).pc)
  {
    RunsKeepInv(HalfClose, tr, acts, n);
  }

  // ----- clean runs -----

  /** In a clean TCP run no copy ever fails; in a clean SCTP run the first copy to end does not. */
  predicate CleanInv(policy: Policy, s: State) {
    && !s.quit && !s.main.DialFailed? && !s.main.Abandoned?
    && forall x :: Ended(s.brokers.At(x).pc) && (policy.HalfClose? || x in s.first) ==> s.brokers.At(x).pc.how.Eof?
  }

  lemma TcpCopiesEndAtEof(s: State, x: Side, a: BrokerAction)
    requires Inv(HalfClose, s) && CleanInv(HalfClose, s)
    requires BrokerEnabled(s, x, a) && !IoError(s, OfBroker(x, a))
    ensures CleanInv(HalfClose, BrokerStep(HalfClose, s, x, a))
  {
    assert MainCloses(s.main) ==> s.brokers.At(x).pc.Finished?;
  }

  lemma SctpFirstCopyEndsAtEof(s: State, x: Side, a: BrokerAction)
    requires Inv(FullClose, s) && CleanInv(FullClose, s)
    requires BrokerEnabled(s, x, a) && !IoError(s, OfBroker(x, a))
    ensures CleanInv(FullClose, BrokerStep(FullClose, s, x, a))
  {
    assert MainCloses(s.main) ==> s.brokers.At(x).pc.Finished?;
  }

  lemma StepKeepsClean(policy: Policy, s: State, a: Action)
    requires Inv(policy, s) && CleanInv(policy, s) && Enabled(s, a) && !IoError(s, a) && a != OfEnv(CloseQuit)
    ensures CleanInv(policy, Step(policy, s, a))
  {
    if a.OfBroker? {
      if policy.HalfClose? {
        TcpCopiesEndAtEof(s, a.x, a.broker);
      } else {
        SctpFirstCopyEndsAtEof(s, a.x, a.broker);
      }
    }
  }

  lemma {:induction false} RunsKeepClean(policy: Policy, tr: seq<State>, acts: seq<Action>, n: nat)
    requires IsCleanRun(policy, tr, acts) && n < |tr|
    ensures CleanInv(policy, tr[n])
  {
    if n > 0 {
      RunsKeepClean(policy, tr, acts, n - 1);
      RunsKeepInv(policy, tr, acts, n - 1);
      StepKeepsClean(policy, tr[n - 1], acts[n - 1]);
    }
  }

  /**
    TCP without I/O errors and without quitting: the end of a stream is passed on only after its last
    byte, and the connections are closed, and the loop returns, only after both directions are complete.
   */
  lemma TcpDeliversEverything(tr: seq<State>, acts: seq<Action>, n: nat, x: Side)
    requires IsCleanRun(HalfClose, tr, acts) && n < |tr|
    ensures !tr[n].ends.At(Other(x)).writeOpen ==> Complete(tr[n], x)
    ensures MainCloses(tr[n].main) ==> Complete(tr[n], x) && tr[n].brokers.At(x).pc == Finished(Eof)
  {
    RunsKeepInv(HalfClose, tr, acts, n);
    RunsKeepClean(HalfClose, tr, acts, n);
  }

  /** Hence the outcome of such a run depends on what the peers sent, and not on the schedule. */
  lemma TcpOutcomeIsScheduleFree(tr: seq<State>, acts: seq<Action>, tr': seq<State>, acts': seq<Action>)
    requires IsCleanRun(HalfClose, tr, acts) && IsCleanRun(HalfClose, tr', acts')
    requires tr[|acts|].main.Returned? && tr'[|acts'|].main.Returned?
    requires forall x :: tr[|acts|].ends.At(x).sent == tr'[|acts'|].ends.At(x).sent
    ensures tr[|acts|].ends == tr'[|acts'|].ends
  {
    var s, s' := tr[|acts|], tr'[|acts'|];
    RunsKeepInv(HalfClose, tr, acts, |acts|);
    RunsKeepInv(HalfClose, tr', acts', |acts'|);
    forall x: Side
      ensures s.ends.At(x) == s'.ends.At(x)
    {
      assert x == Other(Other(x));
      assert s.ends.At(Other(x)).sent == s'.ends.At(Other(x)).sent && s.ends.At(x).sent == s'.ends.At(x).sent;
      TcpDeliversEverything(tr, acts, |acts|, Other(x));
      TcpDeliversEverything(tr', acts', |acts'|, Other(x));
      TcpDeliversEverything(tr, acts, |acts|, x);
      TcpDeliversEverything(tr', acts', |acts'|, x);
    }
    assert s.ends == Pair(s.ends.At(Client), s.ends.At(Backend));
    assert s'.ends == Pair(s'.ends.At(Client), s'.ends.At(Backend));
  }

  /** SCTP without I/O errors and without quitting: the direction that ends first is complete. */
  lemma SctpFirstDirectionIsComplete(tr: seq<State>, acts: seq<Action>, n: nat, x: Side)
    requires IsCleanRun(FullClose, tr, acts) && n < |tr| && x in tr[n].first
    ensures Complete(tr[n], x)
  {
    RunsKeepInv(FullClose, tr, acts, n);
    RunsKeepClean(FullClose, tr, acts, n);
  }

  // ----- the other direction of SCTP -----

  lemma Extend(policy: Policy, tr: seq<State>, acts: seq<Action>, a: Action)
    returns (tr': seq<State>, acts': seq<Action>)
    requires IsCleanRun(policy, tr, acts) && Enabled(tr[|acts|], a)
    requires !IoError(tr[|acts|], a) && a != OfEnv(CloseQuit)
    ensures IsCleanRun(policy, tr', acts') && tr'[|acts'|] == Step(policy, tr[|acts|], a)
    ensures tr <= tr' && acts <= acts'
  {
    tr', acts' := tr + [Step(policy, tr[|acts|], a)], acts + [a];
    assert acts'[..|acts|] == acts && tr'[..|tr|] == tr;
  }

  /** The loop is set up and both peers have acted: the client sent one byte, both ended their streams. */
  lemma SctpPrelude() returns (tr: seq<State>, acts: seq<Action>)
    ensures IsCleanRun(FullClose, tr, acts)
    ensures tr[|acts|] == State(
      Pair(Endpoint([1], true, true, true, []), Endpoint([], true, true, true, [])),
      Pair(Broker(Copying, 0), Broker(Copying, 0)), 2, 0, false, Selecting, {})
  {
    tr, acts := [INIT], [];
    tr, acts := Extend(FullClose, tr, acts, OfMain(Dial));
    tr, acts := Extend(FullClose, tr, acts, OfMain(WgAdd));
    tr, acts := Extend(FullClose, tr, acts, OfMain(SpawnDown));
    tr, acts := Extend(FullClose, tr, acts, OfMain(SpawnUp));
    tr, acts := Extend(FullClose, tr, acts, OfMain(SpawnWaiter));
    tr, acts := Extend(FullClose, tr, acts, OfEnv(PeerSends(Client, [1])));
    assert tr[|acts|].ends.client.sent == [1];
    tr, acts := Extend(FullClose, tr, acts, OfEnv(PeerEnds(Client)));
    tr, acts := Extend(FullClose, tr, acts, OfEnv(PeerEnds(Backend)));
  }

  /** With full closes, a broker whose copy has ended closes both connections. */
  lemma CloseBoth(tr: seq<State>, acts: seq<Action>, x: Side) returns (tr': seq<State>, acts': seq<Action>)
    requires IsCleanRun(FullClose, tr, acts) && tr[|acts|].brokers.At(x).pc.Copied?
    ensures IsCleanRun(FullClose, tr', acts') && tr <= tr' && acts <= acts'
    ensures BrokerIsOut(tr[|acts|], tr'[|acts'|], x)
  {
    tr', acts' := Extend(FullClose, tr, acts, OfBroker(x, CloseSource));
    tr', acts' := Extend(FullClose, tr', acts', OfBroker(x, CloseDest));
    tr', acts' := Extend(FullClose, tr', acts', OfBroker(x, WgDone));
  }

  predicate BrokerIsOut(s: State, s': State, x: Side) {
    && Closed(s'.ends.client) && Closed(s'.ends.backend)
    && s'.ends.client.got == s.ends.client.got && s'.ends.backend.got == s.ends.backend.got
    && s'.ends.client.sent == s.ends.client.sent && s'.ends.backend.sent == s.ends.backend.sent
    && s'.brokers.At(x).pc.Finished? && s'.brokers.At(Other(x)) == s.brokers.At(Other(x))
    && s'.wg == s.wg - 1 && s'.main == s.main && s'.finishCloses == s.finishCloses
  }

  /** Broker `x` ends its copy by step `a` and runs to its end. */
  lemma RunBrokerOut(tr: seq<State>, acts: seq<Action>, x: Side, a: BrokerAction)
    returns (tr': seq<State>, acts': seq<Action>)
    requires IsCleanRun(FullClose, tr, acts) && (a.ReadEof? || a.ReadError? || a.WriteError?)
    requires BrokerEnabled(tr[|acts|], x, a) && !IoError(tr[|acts|], OfBroker(x, a))
    ensures IsCleanRun(FullClose, tr', acts') && tr <= tr' && acts <= acts'
    ensures BrokerIsOut(tr[|acts|], tr'[|acts'|], x)
  {
    tr', acts' := Extend(FullClose, tr, acts, OfBroker(x, a));
    tr', acts' := CloseBoth(tr', acts', x);
  }

  /** Once both brokers have finished, the loop joins them and returns. */
  lemma JoinBrokers(policy: Policy, tr: seq<State>, acts: seq<Action>) returns (tr': seq<State>, acts': seq<Action>)
    requires IsCleanRun(policy, tr, acts)
    requires var s := tr[|acts|]; s.main.Selecting? && s.wg == 0 && s.finishCloses == 0
    ensures IsCleanRun(policy, tr', acts') && tr <= tr' && acts <= acts' && tr'[|acts'|].main.Returned?
    ensures forall x: Side ::
      && tr'[|acts'|].ends.At(x).got == tr[|acts|].ends.At(x).got
      && tr'[|acts'|].ends.At(x).sent == tr[|acts|].ends.At(x).sent
      && tr'[|acts'|].ends.At(x).fin == tr[|acts|].ends.At(x).fin
  {
    tr', acts' := Extend(policy, tr, acts, OfWaiter);
    tr', acts' := Extend(policy, tr', acts', OfMain(SelectFinish));
    tr', acts' := Extend(policy, tr', acts', OfMain(CloseClient));
    tr', acts' := Extend(policy, tr', acts', OfMain(CloseBackend));
    tr', acts' := Extend(policy, tr', acts', OfMain(Join));
  }

  /**
    The run that separates the policies: with full closes the backend's end of stream cuts off the
    client's byte, although nothing failed; the loop returns with that direction incomplete. By
    `TcpDeliversEverything` no clean TCP run can end so.
   */
  lemma SctpMayCutOtherDirection() returns (tr: seq<State>, acts: seq<Action>)
    ensures IsCleanRun(FullClose, tr, acts) && tr[|acts|].main.Returned?
    ensures tr[|acts|].ends.client.sent == [1] && tr[|acts|].ends.backend.got == []
  {
    tr, acts := SctpPrelude();
    tr, acts := RunBrokerOut(tr, acts, Backend, ReadEof);
    tr, acts := RunBrokerOut(tr, acts, Client, ReadError);
    assert tr[|acts|].ends.backend == tr[|acts|].ends.At(Backend);
    assert tr[|acts|].ends.client == tr[|acts|].ends.At(Client);
    tr, acts := JoinBrokers(FullClose, tr, acts);
    assert tr[|acts|].ends.backend == tr[|acts|].ends.At(Backend);
    assert tr[|acts|].ends.client == tr[|acts|].ends.At(Client);
  }
}
