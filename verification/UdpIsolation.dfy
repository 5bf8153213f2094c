/** On a listener of one address family, tracking by key is tracking by client address. */
module UdpIsolation {
  import opened ConnTrack
  import opened UdpProtocol
  import opened UdpInvariant
  import opened UdpSafety
  import opened UdpRelay

  /** Every address met so far has length `len`: the listener serves one address family. */
  ghost predicate OneFamily(s: State, len: nat) {
    forall i :: 0 <= i < |s.received| ==> |s.received[i].from.ip| == len
  }

  ghost predicate KeyedBy(from: Addr, key: Key, len: nat) {
    key == NewConnTrackKey(from) && |from.ip| == len
  }

  /** Keys and addresses recorded in the histories belong together. */
  ghost predicate AddrInv(s: State, len: nat) {
    && (forall i :: 0 <= i < |s.received| ==> KeyedBy(s.received[i].from, s.received[i].key, len))
    && (InHand(s.run) ==> KeyedBy(s.run.d.from, s.run.d.key, len))
    && (forall c :: 0 <= c < |s.conns| ==> KeyedBy(s.conns[c].client, s.conns[c].key, len))
    && (forall j :: 0 <= j < |s.toBackend| ==> SentInv(s, s.toBackend[j], len))
    && (forall j :: 0 <= j < |s.toClient| ==> AnsweredInv(s, s.toClient[j]))
  }

  ghost predicate SentInv(s: State, x: Sent, len: nat) {
    KeyedBy(x.d.from, x.d.key, len) && x.c < |s.conns| && s.conns[x.c].key == x.d.key
  }

  ghost predicate AnsweredInv(s: State, x: Answered) {
    x.c < |s.conns| && s.conns[x.c].client == x.client && s.conns[x.c].key == x.key
  }

  lemma RunKeepsAddr(s: State, a: RunAction, len: nat)
    requires RunInv(s) && AddrInv(s, len) && RunEnabled(s, a)
    requires a.Receive? ==> |a.from.ip| == len
    ensures AddrInv(RunStep(s, a), len)
  {
    RunStepIsLater(s, a);
    HistoriesStayAddressed(s, RunStep(s, a), len);
  }

  /** What was recorded before a step stays right after it. */
  lemma HistoriesStayAddressed(s: State, s': State, len: nat)
    requires AddrInv(s, len) && Later(s, s')
    ensures forall j :: 0 <= j < |s.toBackend| ==>
      s'.toBackend[j] == s.toBackend[j] && SentInv(s', s'.toBackend[j], len)
    ensures forall j :: 0 <= j < |s.toClient| ==> s'.toClient[j] == s.toClient[j] && AnsweredInv(s', s'.toClient[j])
  {
    forall j | 0 <= j < |s.toBackend|
      ensures s'.toBackend[j] == s.toBackend[j] && SentInv(s', s'.toBackend[j], len)
    {
      assert SentInv(s, s.toBackend[j], len);
    }
    forall j | 0 <= j < |s.toClient|
      ensures s'.toClient[j] == s.toClient[j] && AnsweredInv(s', s'.toClient[j])
    {
      assert AnsweredInv(s, s.toClient[j]);
    }
  }

  lemma LoopKeepsAddr(s: State, c: nat, a: LoopAction, len: nat)
    requires AddrInv(s, len) && LoopEnabled(s, c, a)
    ensures AddrInv(LoopStep(s, c, a), len)
  {
    LoopStepIsLater(s, c, a);
    HistoriesStayAddressed(s, LoopStep(s, c, a), len);
  }

  lemma StepKeepsAddr(s: State, a: Action, len: nat)
    requires RunInv(s) && AddrInv(s, len) && Enabled(s, a) && OneFamily(Step(s, a), len)
    ensures AddrInv(Step(s, a), len)
  {
    match a
    case OfRun(r) =>
      if r.Receive? {
        assert Step(s, a).received[|s.received|].from == r.from;
      }
      RunKeepsAddr(s, r, len);
    case OfLoop(c, l) => LoopKeepsAddr(s, c, l, len);
    case OfClose(_) => StepIsLater(s, a); SameAddr(s, Step(s, a), len);
    case OfEnv(_) => StepIsLater(s, a); SameAddr(s, Step(s, a), len);
  }

  lemma SameAddr(s: State, s': State, len: nat)
    requires AddrInv(s, len) && Later(s, s') && |s'.conns| == |s.conns|
    requires s'.received == s.received && s'.toBackend == s.toBackend && s'.toClient == s.toClient && s'.run == s.run
    ensures AddrInv(s', len)
  {
    HistoriesStayAddressed(s, s', len);
  }

  lemma {:induction false} RunKeepsAddrs(tr: seq<State>, acts: seq<Action>, n: nat, len: nat)
    requires IsRun(tr, acts) && n < |tr| && OneFamily(tr[n], len)
    ensures AddrInv(tr[n], len)
  {
    if n > 0 {
      RunsKeepInv(tr, acts, n - 1);
      StepIsLater(tr[n - 1], acts[n - 1]);
      assert forall i :: 0 <= i < |tr[n - 1].received| ==> tr[n - 1].received[i] == tr[n].received[i];
      RunKeepsAddrs(tr, acts, n - 1, len);
      StepKeepsAddr(tr[n - 1], acts[n - 1], len);
    }
  }

  /**
    With one address family, a datagram goes out on a connection dialled for its own sender, a reply
    goes back to the client whose connection it was read on, and the traffic kept under a client's
    key - the traffic that the relay theorems speak of - is exactly that client's traffic.
   */
  lemma ClientsAreIsolated(tr: seq<State>, acts: seq<Action>, n: nat, len: nat)
    requires IsRun(tr, acts) && n < |tr| && OneFamily(tr[n], len)
    ensures forall j :: 0 <= j < |tr[n].toBackend| ==>
      && tr[n].toBackend[j].c < |tr[n].conns|
      && tr[n].conns[tr[n].toBackend[j].c].client == tr[n].toBackend[j].d.from
    ensures forall j :: 0 <= j < |tr[n].toClient| ==>
      && tr[n].toClient[j].c < |tr[n].conns|
      && tr[n].conns[tr[n].toClient[j].c].client == tr[n].toClient[j].client
    ensures forall a: Addr, i :: |a.ip| == len && 0 <= i < |tr[n].received| ==>
      (tr[n].received[i].key == NewConnTrackKey(a) <==> tr[n].received[i].from == a)
    ensures forall a: Addr, c :: |a.ip| == len && 0 <= c < |tr[n].conns| ==>
      (tr[n].conns[c].key == NewConnTrackKey(a) <==> tr[n].conns[c].client == a)
  {
    RunKeepsAddrs(tr, acts, n, len);
    var s := tr[n];
    forall j | 0 <= j < |s.toBackend|
      ensures s.toBackend[j].c < |s.conns| && s.conns[s.toBackend[j].c].client == s.toBackend[j].d.from
    {
      assert SentInv(s, s.toBackend[j], len);
      SameFamilyKeysAreInjective(s.conns[s.toBackend[j].c].client, s.toBackend[j].d.from);
    }
    forall j | 0 <= j < |s.toClient|
      ensures s.toClient[j].c < |s.conns| && s.conns[s.toClient[j].c].client == s.toClient[j].client
    {
      assert AnsweredInv(s, s.toClient[j]);
    }
    forall a: Addr, i | |a.ip| == len && 0 <= i < |s.received|
      ensures s.received[i].key == NewConnTrackKey(a) <==> s.received[i].from == a
    {
      assert KeyedBy(s.received[i].from, s.received[i].key, len);
      SameFamilyKeysAreInjective(a, s.received[i].from);
    }
    forall a: Addr, c | |a.ip| == len && 0 <= c < |s.conns|
      ensures s.conns[c].key == NewConnTrackKey(a) <==> s.conns[c].client == a
    {
      assert KeyedBy(s.conns[c].client, s.conns[c].key, len);
      SameFamilyKeysAreInjective(a, s.conns[c].client);
    }
  }
}
