/**
  When an SCTP client loop delivers both directions. A broker whose copy has ended closes both
  connections, so what the other direction still owes at that moment is lost.
 */
module SctpOutcome {
  import opened StreamLoop
  import opened StreamSafety
  import opened StreamOutcome

  predicate BothComplete(s: State) {
    Complete(s, Client) && Complete(s, Backend)
  }

  /** A clean run that goes on from the given one until the loop returns. */
  ghost predicate ReturnsFrom(tr: seq<State>, acts: seq<Action>, tr': seq<State>, acts': seq<Action>) {
    tr <= tr' && acts <= acts' && IsCleanRun(FullClose, tr', acts') && tr'[|acts'|].main.Returned?
  }

  // ----- what is delivered stays delivered -----

  lemma StepKeepsComplete(policy: Policy, s: State, a: Action, x: Side)
    requires Inv(policy, s) && Enabled(s, a) && Complete(s, x)
    ensures Complete(Step(policy, s, a), x)
  {
    match a
    case OfBroker(y, b) => BrokerKeepsComplete(policy, s, y, b, x);
    case OfMain(m) => MainKeepsComplete(s, m, x);
    case _ =>
  }

  lemma MainKeepsComplete(s: State, a: MainAction, x: Side)
    requires MainEnabled(s, a) && Complete(s, x)
    ensures Complete(MainStep(s, a), x)
  {
  }

  lemma BrokerKeepsComplete(policy: Policy, s: State, y: Side, a: BrokerAction, x: Side)
    requires Inv(policy, s) && BrokerEnabled(s, y, a) && Complete(s, x)
    ensures Complete(BrokerStep(policy, s, y, a), x)
  {
    if a.Write? && y == x {
      var got, buf := s.ends.At(Other(x)).got, s.brokers.At(x).pc.buf;
      assert |got + buf| == s.brokers.At(x).taken <= |got|;
      assert got + buf[..a.n] == got;
    }
  }

  lemma {:induction false} CompleteStays(policy: Policy, tr: seq<State>, acts: seq<Action>, i: nat, j: nat, x: Side)
    requires IsRun(policy, tr, acts) && i <= j < |tr| && Complete(tr[i], x)
    ensures Complete(tr[j], x)
    decreases j
  {
    if i < j {
      CompleteStays(policy, tr, acts, i, j - 1, x);
      RunsKeepInv(policy, tr, acts, j - 1);
      StepKeepsComplete(policy, tr[j - 1], acts[j - 1], x);
    }
  }

  // ----- what is still owed can be lost -----

  /** Both brokers are copying, both peers have ended their streams, and nothing has been closed. */
  predicate Racing(s: State) {
    s.main.Selecting? && s.first == {} && s.ends.client.fin && s.ends.backend.fin
  }

  lemma RacingIsOpen(s: State, x: Side)
    requires Inv(FullClose, s) && Racing(s)
    ensures s.ends.At(x).readOpen && s.ends.At(x).writeOpen && s.ends.At(x).fin && !Ended(s.brokers.At(x).pc)
    ensures s.brokers.At(x).pc.Copying? || s.brokers.At(x).pc.Writing?
    ensures s.wg == 2 && s.finishCloses == 0 && DataInv(s, x)
  {
    assert x == Client || x == Backend;
    assert !PastSource(s.brokers.At(x).pc) && !PastDest(s.brokers.At(Other(x)).pc);
  }

  /** Broker `x` writes out what it holds. */
  lemma WriteOut(tr: seq<State>, acts: seq<Action>, x: Side) returns (tr': seq<State>, acts': seq<Action>)
    requires IsCleanRun(FullClose, tr, acts) && Racing(tr[|acts|])
    ensures IsCleanRun(FullClose, tr', acts') && tr <= tr' && acts <= acts' && Racing(tr'[|acts'|])
    ensures var s, s' := tr[|acts|], tr'[|acts'|];
      && s'.brokers.At(x) == Broker(Copying, s.brokers.At(x).taken)
      && s'.brokers.At(Other(x)) == s.brokers.At(Other(x))
      && s'.ends.At(x) == s.ends.At(x) && s'.ends.At(Other(x)).sent == s.ends.At(Other(x)).sent
  {
    RunsKeepInv(FullClose, tr, acts, |acts|);
    RacingIsOpen(tr[|acts|], x);
    RacingIsOpen(tr[|acts|], Other(x));
    tr', acts' := tr, acts;
    if tr[|acts|].brokers.At(x).pc.Writing? {
      tr', acts' := Extend(FullClose, tr, acts, OfBroker(x, Write(|tr[|acts|].brokers.At(x).pc.buf|)));
    }
  }

  /** Broker `x` copies all that its peer has sent. */
  lemma CopyOut(tr: seq<State>, acts: seq<Action>, x: Side) returns (tr': seq<State>, acts': seq<Action>)
    requires IsCleanRun(FullClose, tr, acts) && Racing(tr[|acts|])
    ensures IsCleanRun(FullClose, tr', acts') && tr <= tr' && acts <= acts' && Racing(tr'[|acts'|])
    ensures var s, s' := tr[|acts|], tr'[|acts'|];
      && s'.brokers.At(x).pc.Copying? && s'.brokers.At(x).taken == |s'.ends.At(x).sent|
      && s'.brokers.At(Other(x)) == s.brokers.At(Other(x))
      && s'.ends.At(x) == s.ends.At(x) && s'.ends.At(Other(x)).sent == s.ends.At(Other(x)).sent
  {
    tr', acts' := WriteOut(tr, acts, x);
    var s := tr'[|acts'|];
    RunsKeepInv(FullClose, tr', acts', |acts'|);
    RacingIsOpen(s, x);
    var rest := |s.ends.At(x).sent| - s.brokers.At(x).taken;
    if rest > 0 {
      tr', acts' := Extend(FullClose, tr', acts', OfBroker(x, Read(rest)));
      tr', acts' := WriteOut(tr', acts', x);
    }
  }

  /** Direction `y` still owes bytes: the other direction ends first, and they are lost. */
  lemma OwedBytesCanBeLost(tr: seq<State>, acts: seq<Action>, y: Side) returns (tr': seq<State>, acts': seq<Action>)
    requires IsCleanRun(FullClose, tr, acts) && Racing(tr[|acts|]) && !Complete(tr[|acts|], y)
    ensures ReturnsFrom(tr, acts, tr', acts') && !Complete(tr'[|acts'|], y)
  {
    var x := Other(y);
    tr', acts' := CopyOut(tr, acts, x);
    RunsKeepInv(FullClose, tr', acts', |acts'|);
    RacingIsOpen(tr'[|acts'|], x);
    RacingIsOpen(tr'[|acts'|], y);
    RacingIsOpen(tr[|acts|], y) by { RunsKeepInv(FullClose, tr, acts, |acts|); }
    tr', acts' := RunBrokerOut(tr', acts', x, ReadEof);
    var s := tr'[|acts'|];
    assert !s.ends.At(x).writeOpen && !s.ends.At(y).readOpen;
    tr', acts' := RunBrokerOut(tr', acts', y, if s.brokers.At(y).pc.Copying? then ReadError else WriteError);
    assert tr'[|acts'|].ends.At(x).got == tr[|acts|].ends.At(x).got;
    tr', acts' := JoinBrokers(FullClose, tr', acts');
  }

  /**
    SCTP without I/O errors and without quitting, both streams ended and both copies still going on:
    every way in which the loop can return delivers both directions exactly if both have already been
    delivered in full.
   */
  lemma BothDeliveredExactly(tr: seq<State>, acts: seq<Action>)
    requires IsCleanRun(FullClose, tr, acts) && Racing(tr[|acts|])
    ensures (forall tr', acts' :: ReturnsFrom(tr, acts, tr', acts') ==> BothComplete(tr'[|acts'|]))
       <==> BothComplete(tr[|acts|])
  {
    if BothComplete(tr[|acts|]) {
      forall tr', acts' | ReturnsFrom(tr, acts, tr', acts')
        ensures BothComplete(tr'[|acts'|])
      {
        CompleteStays(FullClose, tr', acts', |acts|, |acts'|, Client);
        CompleteStays(FullClose, tr', acts', |acts|, |acts'|, Backend);
      }
    } else {
      var y := if Complete(tr[|acts|], Client) then Backend else Client;
      var tr', acts' := OwedBytesCanBeLost(tr, acts, y);
      assert ReturnsFrom(tr, acts, tr', acts') && !BothComplete(tr'[|acts'|]);
    }
  }

  // ----- single runs -----

  /** A connection is closed and the copy out of it has ended: nothing more can be delivered either way. */
  predicate Cut(s: State, x: Side) {
    Closed(s.ends.At(x)) && Ended(s.brokers.At(x).pc)
  }

  lemma CutStays(s: State, a: Action, x: Side)
    requires SyncInv(s) && Cut(s, x) && Enabled(s, a)
    ensures var s' := Step(FullClose, s, a);
      Cut(s', x) && s'.ends.client.got == s.ends.client.got && s'.ends.backend.got == s.ends.backend.got
  {
    match a
    case OfBroker(y, b) => CutStaysUnderBroker(s, y, b, x);
    case _ =>
  }

  lemma CutStaysUnderBroker(s: State, y: Side, a: BrokerAction, x: Side)
    requires Cut(s, x) && BrokerEnabled(s, y, a)
    ensures var s' := BrokerStep(FullClose, s, y, a);
      Cut(s', x) && s'.ends.client.got == s.ends.client.got && s'.ends.backend.got == s.ends.backend.got
  {
  }

  lemma {:induction false} NothingAfterCut(tr: seq<State>, acts: seq<Action>, i: nat, j: nat, x: Side)
    requires IsRun(FullClose, tr, acts) && i <= j < |tr| && Cut(tr[i], x)
    ensures Cut(tr[j], x)
    ensures tr[j].ends.client.got == tr[i].ends.client.got && tr[j].ends.backend.got == tr[i].ends.backend.got
    decreases j
  {
    if i < j {
      NothingAfterCut(tr, acts, i, j - 1, x);
      RunsKeepInv(FullClose, tr, acts, j - 1);
      CutStays(tr[j - 1], acts[j - 1], x);
    }
  }

  /**
    In any SCTP run, failures and quitting included, the first close of a source by its broker freezes
    both directions: a direction is complete at any later point exactly if all that its peer has sent by
    then, and the end of its stream, had been delivered before that close.
   */
  lemma FirstCloseDecides(tr: seq<State>, acts: seq<Action>, i: nat, j: nat, x: Side, y: Side)
    requires IsRun(FullClose, tr, acts) && i < j < |tr| && acts[i] == OfBroker(x, CloseSource)
    ensures Complete(tr[j], y) <==> tr[j].ends.At(y).fin && tr[i].ends.At(Other(y)).got == tr[j].ends.At(y).sent
  {
    NothingAfterCut(tr, acts, i + 1, j, x);
    assert tr[i + 1].ends.At(Other(y)).got == tr[i].ends.At(Other(y)).got;
  }
}
