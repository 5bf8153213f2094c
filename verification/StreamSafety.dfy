/** What holds in every state of every run of a TCP or SCTP client loop. */
module StreamSafety {
  import opened Octets
  import opened StreamLoop

  predicate Ended(pc: BrokerPc) {
    pc.Copied? || pc.SourceClosed? || pc.DestClosed? || pc.Finished?
  }

  predicate PastSource(pc: BrokerPc) {
    pc.SourceClosed? || pc.DestClosed? || pc.Finished?
  }

  predicate PastDest(pc: BrokerPc) {
    pc.DestClosed? || pc.Finished?
  }

  function Unfinished(b: Broker): int {
    if b.pc.Finished? then 0 else 1
  }

  /** The main goroutine has decided to close both connections, or given up before starting. */
  predicate MainCloses(m: MainPc) {
    m.Chosen? || m.ClientClosed? || m.Joining? || m.Returned? || m.DialFailed? || m.Abandoned?
  }

  // ----- goroutines, wait group and channels -----

  predicate Waited(m: MainPc) {
    !m.Dialling? && !m.DialFailed? && !m.Abandoned? && !m.Dialled?
  }

  predicate SyncInv(s: State) {
    && s.wg == (if Waited(s.main) then Unfinished(s.brokers.client) + Unfinished(s.brokers.backend) else 0)
    && (s.brokers.backend.pc.NotStarted? <==> !Waited(s.main) || s.main.Added?)
    && (s.brokers.client.pc.NotStarted? <==> !Waited(s.main) || s.main.Added? || s.main.DownSpawned?)
    && s.finishCloses <= 1
    && (Finish(s) ==> WaiterStarted(s) && s.wg == 0)
    && (s.main.Returned? ==> Finish(s))
    && (s.main.Chosen? || s.main.ClientClosed? || s.main.Joining? || s.main.Returned? ==> s.quit || Finish(s))
  }

  // ----- bytes -----

  /** What a broker has read from `sent`, delivered into `got`, and still holds. */
  predicate Carried(sent: seq<byte>, fin: bool, got: seq<byte>, b: Broker) {
    && b.taken <= |sent|
    && got <= sent[..b.taken]
    && (b.pc.NotStarted? ==> b.taken == 0)
    && (b.pc.Copying? ==> got == sent[..b.taken])
    && (b.pc.Writing? ==> got + b.pc.buf == sent[..b.taken])
    && (Ended(b.pc) && b.pc.how.Eof? ==> fin && got == sent)
  }

  predicate DataInv(s: State, x: Side) {
    Carried(s.ends.At(x).sent, s.ends.At(x).fin, s.ends.At(Other(x)).got, s.brokers.At(x))
  }

  // ----- who closes what -----

  /** Until the main goroutine closes both connections, each half is closed by one broker only. */
  predicate HalfCloseInv(s: State, x: Side) {
    !MainCloses(s.main) ==>
      && (s.ends.At(x).readOpen <==> !PastSource(s.brokers.At(x).pc))
      && (s.ends.At(Other(x)).writeOpen <==> !PastDest(s.brokers.At(x).pc))
  }

  /** With full closes a connection is open until some broker, or the main goroutine, closes it. */
  predicate FullCloseInv(s: State, x: Side) {
    && (s.ends.At(x).readOpen == s.ends.At(x).writeOpen)
    && (PastSource(s.brokers.At(x).pc) ==> Closed(s.ends.At(x)))
    && (PastDest(s.brokers.At(x).pc) ==> Closed(s.ends.At(Other(x))))
    && (!MainCloses(s.main) && !s.ends.At(x).readOpen ==>
          PastSource(s.brokers.At(x).pc) || PastDest(s.brokers.At(Other(x)).pc))
  }

  predicate MainClosesInv(s: State) {
    && (s.main.ClientClosed? || s.main.Joining? || s.main.Returned? ==> Closed(s.ends.client))
    && (s.main.Joining? || s.main.Returned? ==> Closed(s.ends.backend))
    && (s.main.Abandoned? ==> Closed(s.ends.client))
  }

  predicate FirstInv(s: State) {
    && (s.first == {} <==> !Ended(s.brokers.client.pc) && !Ended(s.brokers.backend.pc))
    && (s.first == {} || s.first == {Client} || s.first == {Backend})
    && forall x :: x in s.first ==> Ended(s.brokers.At(x).pc)
  }

  predicate PolicyInv(policy: Policy, s: State) {
    match policy
    case HalfClose => HalfCloseInv(s, Client) && HalfCloseInv(s, Backend)
    case FullClose => FullCloseInv(s, Client) && FullCloseInv(s, Backend)
  }

  predicate Inv(policy: Policy, s: State) {
    && SyncInv(s) && DataInv(s, Client) && DataInv(s, Backend)
    && PolicyInv(policy, s) && MainClosesInv(s) && FirstInv(s)
  }

  lemma BrokerKeepsSync(policy: Policy, s: State, x: Side, a: BrokerAction)
    requires SyncInv(s) && BrokerEnabled(s, x, a)
    ensures SyncInv(BrokerStep(policy, s, x, a))
  {
  }

  lemma ReadCarries(sent: seq<byte>, fin: bool, got: seq<byte>, b: Broker, n: nat)
    requires Carried(sent, fin, got, b) && b.pc.Copying? && b.taken + n <= |sent|
    ensures Carried(sent, fin, got, Broker(Writing(sent[b.taken..b.taken + n]), b.taken + n))
  {
    assert sent[..b.taken] + sent[b.taken..b.taken + n] == sent[..b.taken + n];
  }

  lemma WriteCarries(sent: seq<byte>, fin: bool, got: seq<byte>, b: Broker, n: nat)
    requires Carried(sent, fin, got, b) && b.pc.Writing? && n <= |b.pc.buf|
    ensures Carried(sent, fin, got + b.pc.buf[..n], b.(pc := Copied(Failed)))
    ensures n == |b.pc.buf| ==> Carried(sent, fin, got + b.pc.buf[..n], b.(pc := Copying))
  {
    assert (got + b.pc.buf[..n]) + b.pc.buf[n..] == sent[..b.taken] by {
      assert b.pc.buf[..n] + b.pc.buf[n..] == b.pc.buf;
    }
  }

  lemma CopyKeepsOwnData(policy: Policy, s: State, x: Side, a: BrokerAction)
    requires DataInv(s, x) && BrokerEnabled(s, x, a) && (a.Read? || a.Write?)
    ensures DataInv(BrokerStep(policy, s, x, a), x)
  {
    var from, to, b := s.ends.At(x), s.ends.At(Other(x)), s.brokers.At(x);
    if a.Read? {
      ReadCarries(from.sent, from.fin, to.got, b, a.n);
    } else {
      WriteCarries(from.sent, from.fin, to.got, b, a.n);
    }
  }

  lemma EndingKeepsOwnData(policy: Policy, s: State, x: Side, a: BrokerAction)
    requires DataInv(s, x) && BrokerEnabled(s, x, a) && !a.Read? && !a.Write?
    ensures DataInv(BrokerStep(policy, s, x, a), x)
  {
    assert s.ends.At(x).sent[..|s.ends.At(x).sent|] == s.ends.At(x).sent;
  }

  lemma BrokerKeepsOtherData(policy: Policy, s: State, x: Side, a: BrokerAction)
    requires DataInv(s, Other(x)) && BrokerEnabled(s, x, a)
    ensures DataInv(BrokerStep(policy, s, x, a), Other(x))
  {
  }

  lemma BrokerKeepsPolicy(policy: Policy, s: State, x: Side, a: BrokerAction)
    requires PolicyInv(policy, s) && BrokerEnabled(s, x, a)
    ensures PolicyInv(policy, BrokerStep(policy, s, x, a))
  {
  }

  lemma BrokerKeepsRest(policy: Policy, s: State, x: Side, a: BrokerAction)
    requires MainClosesInv(s) && FirstInv(s) && BrokerEnabled(s, x, a)
    ensures MainClosesInv(BrokerStep(policy, s, x, a)) && FirstInv(BrokerStep(policy, s, x, a))
  {
  }

  lemma MainKeepsSync(s: State, a: MainAction)
    requires SyncInv(s) && MainEnabled(s, a)
    ensures SyncInv(MainStep(s, a))
  {
  }

  lemma MainKeepsData(s: State, a: MainAction, x: Side)
    requires SyncInv(s) && DataInv(s, x) && MainEnabled(s, a)
    ensures DataInv(MainStep(s, a), x)
  {
    assert s.ends.At(x).sent[..0] == [];
  }

  lemma MainKeepsPolicy(policy: Policy, s: State, a: MainAction)
    requires SyncInv(s) && PolicyInv(policy, s) && MainClosesInv(s) && MainEnabled(s, a)
    ensures PolicyInv(policy, MainStep(s, a)) && MainClosesInv(MainStep(s, a))
  {
  }

  lemma MainKeepsFirst(s: State, a: MainAction)
    requires SyncInv(s) && FirstInv(s) && MainEnabled(s, a)
    ensures FirstInv(MainStep(s, a))
  {
  }

  lemma EnvKeepsData(s: State, a: EnvAction, x: Side)
    requires DataInv(s, x) && EnvEnabled(s, a)
    ensures DataInv(EnvStep(s, a), x)
  {
  }

  lemma EnvKeepsSync(s: State, a: EnvAction)
    requires SyncInv(s) && FirstInv(s) && EnvEnabled(s, a)
    ensures SyncInv(EnvStep(s, a)) && FirstInv(EnvStep(s, a))
  {
  }

  lemma EnvKeepsPolicy(policy: Policy, s: State, a: EnvAction)
    requires PolicyInv(policy, s) && MainClosesInv(s) && EnvEnabled(s, a)
    ensures PolicyInv(policy, EnvStep(s, a)) && MainClosesInv(EnvStep(s, a))
  {
  }

  /** Every step of every goroutine keeps the invariant of its policy. */
  lemma StepKeepsInv(policy: Policy, s: State, a: Action)
    requires Inv(policy, s) && Enabled(s, a)
    ensures Inv(policy, Step(policy, s, a))
  {
    match a
    case OfBroker(x, b) =>
      BrokerKeepsSync(policy, s, x, b);
      if b.Read? || b.Write? {
        CopyKeepsOwnData(policy, s, x, b);
      } else {
        EndingKeepsOwnData(policy, s, x, b);
      }
      BrokerKeepsOtherData(policy, s, x, b);
      BrokerKeepsPolicy(policy, s, x, b);
      BrokerKeepsRest(policy, s, x, b);
    case OfMain(m) =>
      MainKeepsSync(s, m);
      MainKeepsData(s, m, Client);
      MainKeepsData(s, m, Backend);
      MainKeepsPolicy(policy, s, m);
      MainKeepsFirst(s, m);
    case OfWaiter =>
    case OfEnv(e) =>
      EnvKeepsData(s, e, Client);
      EnvKeepsData(s, e, Backend);
      EnvKeepsSync(s, e);
      EnvKeepsPolicy(policy, s, e);
  }

  lemma {:induction false} RunsKeepInv(policy: Policy, tr: seq<State>, acts: seq<Action>, n: nat)
    requires IsRun(policy, tr, acts) && n < |tr|
    ensures Inv(policy, tr[n])
  {
    if n > 0 {
      RunsKeepInv(policy, tr, acts, n - 1);
      StepKeepsInv(policy, tr[n - 1], acts[n - 1]);
    }
  }
}
