/**
  What a client loop's state says about its environment is what happened: told by the actions alone, what
  the peers sent, whether they ended their streams, whether the backend could be dialled and who quit.
 */
module StreamHistory {
  import opened Octets
  import opened StreamLoop
  import opened StreamSafety

  /** The bytes that peer `x` sent, in order. */
  ghost function SentBy(acts: seq<Action>, x: Side): seq<byte> {
    if acts == [] then [] else
      SentBy(acts[..|acts| - 1], x) +
      match acts[|acts| - 1]
      case OfEnv(PeerSends(y, bytes)) => if y == x then bytes else []
      case _ => []
  }

  /** In every run, whatever it did with them, these are the bytes the proxy was sent and the ends it was told. */
  lemma {:induction false} StateIsWhatHappened(policy: Policy, tr: seq<State>, acts: seq<Action>, n: nat, x: Side)
    requires IsRun(policy, tr, acts) && n < |tr|
    ensures tr[n].ends.At(x).sent == SentBy(acts[..n], x)
    ensures tr[n].ends.At(x).fin <==> OfEnv(PeerEnds(x)) in acts[..n]
    ensures tr[n].quit <==> OfEnv(CloseQuit) in acts[..n]
  {
    if n > 0 {
      StateIsWhatHappened(policy, tr, acts, n - 1, x);
      assert acts[..n] == acts[..n - 1] + [acts[n - 1]];
      StepIsWhatHappens(policy, tr[n - 1], acts[n - 1], x);
    }
  }

  lemma StepIsWhatHappens(policy: Policy, s: State, a: Action, x: Side)
    requires Enabled(s, a)
    ensures var e, e' := s.ends.At(x), Step(policy, s, a).ends.At(x);
      && e'.sent == e.sent + (match a case OfEnv(PeerSends(y, bytes)) => if y == x then bytes else [] case _ => [])
      && (e'.fin <==> e.fin || a == OfEnv(PeerEnds(x)))
    ensures Step(policy, s, a).quit <==> s.quit || a == OfEnv(CloseQuit)
  {
    if a.OfBroker? {
      BrokerHearsNothing(policy, s, a.x, a.broker, x);
    }
  }

  lemma BrokerHearsNothing(policy: Policy, s: State, y: Side, a: BrokerAction, x: Side)
    requires BrokerEnabled(s, y, a)
    ensures var e, e', s' := s.ends.At(x), BrokerStep(policy, s, y, a).ends.At(x), BrokerStep(policy, s, y, a);
      e'.sent == e.sent && e'.fin == e.fin && s'.quit == s.quit && s'.main == s.main
  {
  }

  // ----- a backend that cannot be dialled -----

  predicate GivenUp(s: State) {
    s.main.DialFailed? || s.main.Abandoned?
  }

  lemma StepGivesUp(policy: Policy, s: State, a: Action)
    requires Enabled(s, a)
    ensures GivenUp(Step(policy, s, a)) <==> GivenUp(s) || a == OfMain(DialError)
  {
    if a.OfBroker? {
      BrokerHearsNothing(policy, s, a.x, a.broker, a.x);
    }
  }

  /**
    The loop gives up exactly when the dial failed. Then no broker ever starts, so that nothing is read from
    the client or delivered to anyone, and all it still does is to close the client's connection.
   */
  lemma {:induction false} FailedDialGivesUp(policy: Policy, tr: seq<State>, acts: seq<Action>, n: nat)
    requires IsRun(policy, tr, acts) && n < |tr|
    ensures GivenUp(tr[n]) <==> OfMain(DialError) in acts[..n]
    ensures GivenUp(tr[n]) ==> forall x :: tr[n].brokers.At(x).pc.NotStarted? && tr[n].ends.At(x).got == []
    ensures tr[n].main.Abandoned? ==> Closed(tr[n].ends.client)
  {
    RunsKeepInv(policy, tr, acts, n);
    if GivenUp(tr[n]) {
      forall x: Side
        ensures tr[n].brokers.At(x).pc.NotStarted? && tr[n].ends.At(x).got == []
      {
        NotStartedDeliversNothing(policy, tr[n], x);
      }
    }
    if n > 0 {
      FailedDialGivesUp(policy, tr, acts, n - 1);
      assert acts[..n] == acts[..n - 1] + [acts[n - 1]];
      StepGivesUp(policy, tr[n - 1], acts[n - 1]);
    }
  }

  lemma NotStartedDeliversNothing(policy: Policy, s: State, x: Side)
    requires Inv(policy, s) && GivenUp(s)
    ensures s.brokers.At(x).pc.NotStarted? && s.ends.At(x).got == []
  {
    assert DataInv(s, Other(x)) by {
      assert Other(x) == Client || Other(x) == Backend;
    }
  }

  // ----- how a copy ends -----

  predicate EndsCopy(s: State, a: Action, x: Side)
    requires Enabled(s, a)
  {
    a.OfBroker? && a.x == x &&
    match a.broker
    case ReadEof => true
    case ReadError => true
    case WriteError => true
    case Write(n) => n < |s.brokers.At(x).pc.buf|
    case _ => false
  }

  /** A copy goes on until a read or write fails, a write is cut short or the stream ends, and no longer. */
  lemma StepEndsCopy(policy: Policy, s: State, a: Action, x: Side)
    requires SyncInv(s) && Enabled(s, a)
    ensures var pc, pc' := s.brokers.At(x).pc, Step(policy, s, a).brokers.At(x).pc;
      && (Ended(pc') <==> Ended(pc) || EndsCopy(s, a, x))
      && (EndsCopy(s, a, x) ==> pc' == Copied(if a.broker.ReadEof? then Eof else Failed))
      && (Ended(pc) ==> pc'.how == pc.how)
  {
    if a.OfBroker? {
      if a.x == x {
        OwnStepEndsCopy(policy, s, x, a.broker);
      } else {
        assert x == Other(a.x);
        OtherStepLeavesCopy(policy, s, a.x, a.broker);
      }
    } else if a.OfMain? {
      MainStartsCopies(s, a.main, x);
    }
  }

  lemma OwnStepEndsCopy(policy: Policy, s: State, x: Side, a: BrokerAction)
    requires BrokerEnabled(s, x, a)
    ensures var pc, pc' := s.brokers.At(x).pc, BrokerStep(policy, s, x, a).brokers.At(x).pc;
      var ends := EndsCopy(s, OfBroker(x, a), x);
      && (Ended(pc') <==> Ended(pc) || ends)
      && (ends ==> pc' == Copied(if a.ReadEof? then Eof else Failed))
      && (Ended(pc) ==> pc'.how == pc.how)
  {
  }

  lemma OtherStepLeavesCopy(policy: Policy, s: State, y: Side, a: BrokerAction)
    requires BrokerEnabled(s, y, a)
    ensures BrokerStep(policy, s, y, a).brokers.At(Other(y)) == s.brokers.At(Other(y))
  {
  }

  lemma MainStartsCopies(s: State, a: MainAction, x: Side)
    requires SyncInv(s) && MainEnabled(s, a)
    ensures var pc, pc' := s.brokers.At(x).pc, MainStep(s, a).brokers.At(x).pc;
      pc' == pc || (pc.NotStarted? && pc'.Copying?)
  {
    assert x == Client || x == Backend;
  }

  /** Of a copy that has ended, the actions say whether it ended at the end of its stream. */
  predicate EndIsTold(s: State, acts: seq<Action>, x: Side) {
    && (Ended(s.brokers.At(x).pc) ==> (s.brokers.At(x).pc.how.Eof? <==> OfBroker(x, ReadEof) in acts))
    && (OfBroker(x, ReadEof) in acts ==> Ended(s.brokers.At(x).pc))
  }

  lemma NextEndIsTold(policy: Policy, s: State, a: Action, s': State, acts: seq<Action>, x: Side)
    requires SyncInv(s) && Enabled(s, a) && s' == Step(policy, s, a) && EndIsTold(s, acts, x)
    ensures EndIsTold(s', acts + [a], x)
  {
    StepEndsCopy(policy, s, a, x);
    assert EndsCopy(s, a, x) ==> !Ended(s.brokers.At(x).pc);
  }

  lemma EndStaysTold(policy: Policy, tr: seq<State>, acts: seq<Action>, i: nat, x: Side)
    requires IsRun(policy, tr, acts) && i < |acts| && EndIsTold(tr[i], acts[..i], x)
    ensures EndIsTold(tr[i + 1], acts[..i + 1], x)
  {
    RunsKeepInv(policy, tr, acts, i);
    assert acts[..i + 1] == acts[..i] + [acts[i]];
    NextEndIsTold(policy, tr[i], acts[i], tr[i + 1], acts[..i], x);
  }

  /** So they say of every copy in every run. */
  lemma {:induction false} CopiesEndAsTheyDid(policy: Policy, tr: seq<State>, acts: seq<Action>, n: nat, x: Side)
    requires IsRun(policy, tr, acts) && n < |tr|
    ensures EndIsTold(tr[n], acts[..n], x)
  {
    if n > 0 {
      CopiesEndAsTheyDid(policy, tr, acts, n - 1, x);
      EndStaysTold(policy, tr, acts, n - 1, x);
    }
  }
}
