/**
  One client loop as an object shared by its goroutines (`clientLoop` in
  mct/cmd/mct-docker-proxy/tcp_proxy.go and sctp_proxy.go), proved to take the steps of the state machine.
 */
module ClientLoop {
  import opened StreamLoop
  import opened StreamSafety

  class Loop {
    const policy: Policy
    var ends: Pair<Endpoint>
    var brokers: Pair<Broker>
    var wg: int
    var finishCloses: nat
    var quit: bool
    var main: MainPc
    var first: set<Side>

    function Abs(): State
      reads this
    {
      State(ends, brokers, wg, finishCloses, quit, main, first)
    }

    /** `clientLoop` as it is entered: the client is connected and the backend about to be dialled. */
    constructor (policy: Policy)
      ensures this.policy == policy && Abs() == INIT
    {
      this.policy := policy;
      ends := Pair(FRESH_END, FRESH_END);
      brokers := Pair(Broker(NotStarted, 0), Broker(NotStarted, 0));
      wg, finishCloses, quit, main, first := 0, 0, false, Dialling, {};
    }

    /** `from.CloseRead()` under TCP, `from.Close()` under SCTP. */
    method CloseFrom(x: Side)
      modifies this`ends
      ensures ends == old(ends).With(x,
        if policy.HalfClose? then old(ends).At(x).(readOpen := false) else CloseEnd(old(ends).At(x)))
    {
      var e := ends.At(x);
      ends := ends.With(x, if policy.HalfClose? then e.(readOpen := false) else CloseEnd(e));
    }

    /** `to.CloseWrite()` under TCP, `to.Close()` under SCTP. */
    method CloseTo(x: Side)
      modifies this`ends
      ensures ends == old(ends).With(x,
        if policy.HalfClose? then old(ends).At(x).(writeOpen := false) else CloseEnd(old(ends).At(x)))
    {
      var e := ends.At(x);
      ends := ends.With(x, if policy.HalfClose? then e.(writeOpen := false) else CloseEnd(e));
    }

    method SetPc(x: Side, pc: BrokerPc)
      modifies this`brokers
      ensures brokers == old(brokers).With(x, old(brokers).At(x).(pc := pc))
    {
      brokers := brokers.With(x, brokers.At(x).(pc := pc));
    }

    /** `io.Copy` returns. */
    method EndOfCopy(x: Side, how: CopyEnd)
      modifies this`brokers, this`first
      ensures brokers == old(brokers).With(x, old(brokers).At(x).(pc := Copied(how)))
      ensures first == if old(first) == {} then {x} else old(first)
    {
      SetPc(x, Copied(how));
      if first == {} {
        first := {x};
      }
    }

    /** One step of the broker that reads from side `x`. */
    method StepBroker(x: Side, a: BrokerAction)
      requires BrokerEnabled(Abs(), x, a)
      modifies this
      ensures Abs() == BrokerStep(policy, old(Abs()), x, a)
    {
      var b := brokers.At(x);
      match a
      case Read(n) =>
        var buf := ends.At(x).sent[b.taken..b.taken + n];
        brokers := brokers.With(x, Broker(Writing(buf), b.taken + n));
      case ReadEof => EndOfCopy(x, Eof);
      case ReadError => EndOfCopy(x, Failed);
      case Write(n) =>
        var to := ends.At(Other(x));
        ends := ends.With(Other(x), to.(got := to.got + b.pc.buf[..n]));
        if n == |b.pc.buf| {
          SetPc(x, Copying);
        } else {
          EndOfCopy(x, Failed);
        }
      case WriteError => EndOfCopy(x, Failed);
      case CloseSource =>
        CloseFrom(x);
        SetPc(x, SourceClosed(b.pc.how));
      case CloseDest =>
        CloseTo(Other(x));
        SetPc(x, DestClosed(b.pc.how));
      case WgDone =>
        wg := wg - 1;
        SetPc(x, Finished(b.pc.how));
    }

    /** One step of the main goroutine. */
    method StepMain(a: MainAction)
      requires MainEnabled(Abs(), a)
      modifies this
      ensures Abs() == MainStep(old(Abs()), a)
    {
      match a
      case Dial => main := Dialled;
      case DialError => main := DialFailed;
      case CloseUnserved =>
        ends := ends.With(Client, CloseEnd(ends.client));
        main := Abandoned;
      case WgAdd =>
        wg := wg + 2;
        main := Added;
      case SpawnDown =>
        brokers := brokers.With(Backend, Broker(Copying, 0));
        main := DownSpawned;
      case SpawnUp =>
        brokers := brokers.With(Client, Broker(Copying, 0));
        main := UpSpawned;
      case SpawnWaiter => main := Selecting;
      case SelectQuit => main := Chosen;
      case SelectFinish => main := Chosen;
      case CloseClient =>
        ends := ends.With(Client, CloseEnd(ends.client));
        main := ClientClosed;
      case CloseBackend =>
        ends := ends.With(Backend, CloseEnd(ends.backend));
        main := Joining;
      case Join => main := Returned;
    }

    /** The goroutine that waits for the wait group closes `finish`. */
    method StepWaiter()
      requires WaiterEnabled(Abs())
      modifies this
      ensures Abs() == WaiterStep(old(Abs()))
    {
      finishCloses := finishCloses + 1;
    }

    method StepEnv(a: EnvAction)
      requires EnvEnabled(Abs(), a)
      modifies this
      ensures Abs() == EnvStep(old(Abs()), a)
    {
      match a
      case PeerSends(x, bytes) => ends := ends.With(x, ends.At(x).(sent := ends.At(x).sent + bytes));
      case PeerEnds(x) => ends := ends.With(x, ends.At(x).(fin := true));
      case CloseQuit => quit := true;
      case Idle =>
    }

    method Perform(a: Action)
      requires Enabled(Abs(), a)
      modifies this
      ensures Abs() == Step(policy, old(Abs()), a)
    {
      match a
      case OfBroker(x, b) => StepBroker(x, b);
      case OfMain(m) => StepMain(m);
      case OfWaiter => StepWaiter();
      case OfEnv(e) => StepEnv(e);
    }

    /** A fresh loop under any schedule, for as long as its steps are possible, goes through a run. */
    method Execute(acts: seq<Action>) returns (n: nat, ghost tr: seq<State>)
      requires Abs() == INIT
      modifies this
      ensures n <= |acts| && IsRun(policy, tr, acts[..n]) && tr[n] == Abs()
      ensures n < |acts| ==> !Enabled(Abs(), acts[n])
      ensures Inv(policy, Abs())
    {
      n, tr := 0, [Abs()];
      while n < |acts| && Enabled(Abs(), acts[n])
        invariant n <= |acts| && IsRun(policy, tr, acts[..n]) && tr[n] == Abs()
      {
        ghost var before, done := tr, acts[..n];
        Perform(acts[n]);
        tr := tr + [Abs()];
        n := n + 1;
        assert acts[..n] == done + [acts[n - 1]];
        assert forall i :: 0 <= i < n ==> tr[i] == before[i];
      }
      RunsKeepInv(policy, tr, acts[..n], n);
    }

    /** One round of `io.Copy` in which the read returns `n` bytes and the write accepts them. */
    method CopyChunk(x: Side, n: nat)
      requires brokers.At(x).pc.Copying? && ends.At(x).readOpen && ends.At(Other(x)).writeOpen
      requires 0 < n && brokers.At(x).taken + n <= |ends.At(x).sent|
      requires ends.At(Other(x)).got == ends.At(x).sent[..brokers.At(x).taken]
      modifies this
      ensures var to, taken := old(ends).At(Other(x)), old(brokers).At(x).taken + n;
        Abs() == old(Abs()).(
          ends := old(ends).With(Other(x), to.(got := old(ends).At(x).sent[..taken])),
          brokers := old(brokers).With(x, Broker(Copying, taken)))
    {
      ghost var sent, taken := ends.At(x).sent, brokers.At(x).taken;
      StepBroker(x, Read(n));
      assert brokers.At(x).pc.buf[..n] == sent[taken..taken + n];
      assert sent[..taken] + sent[taken..taken + n] == sent[..taken + n];
      StepBroker(x, Write(n));
    }

    /**
      `io.Copy` when nothing else happens in between: it reads what its source has sent, in chunks of its
      own choosing, delivers every byte and ends with the stream.
     */
    method Copy(x: Side, chunk: nat -> nat)
      requires brokers.At(x).pc.Copying? && DataInv(Abs(), x)
      requires ends.At(x).readOpen && ends.At(x).fin && ends.At(Other(x)).writeOpen
      requires forall o: nat :: o < |ends.At(x).sent| ==> 0 < chunk(o) <= |ends.At(x).sent| - o
      modifies this
      ensures Abs() == old(Abs()).(
        brokers := old(brokers).With(x, Broker(Copied(Eof), |old(ends).At(x).sent|)),
        ends := old(ends).With(Other(x), old(ends).At(Other(x)).(got := old(ends).At(x).sent)),
        first := if old(first) == {} then {x} else old(first))
    {
      ghost var from, to := ends.At(x), ends.At(Other(x));
      while brokers.At(x).taken < |ends.At(x).sent|
        invariant brokers.At(x).taken <= |from.sent|
        invariant Abs() == old(Abs()).(
          brokers := old(brokers).With(x, Broker(Copying, brokers.At(x).taken)),
          ends := old(ends).With(Other(x), to.(got := from.sent[..brokers.At(x).taken])))
        decreases |from.sent| - brokers.At(x).taken
      {
        CopyChunk(x, chunk(brokers.At(x).taken));
      }
      assert from.sent[..|from.sent|] == from.sent;
      StepBroker(x, ReadEof);
    }

    /** What a broker does after its copy: under TCP it closes one half of each connection, under SCTP both. */
    method EndBroker(x: Side)
      requires brokers.At(x).pc.Copied?
      modifies this
      ensures brokers == old(brokers).With(x, old(brokers).At(x).(pc := Finished(old(brokers).At(x).pc.how)))
      ensures wg == old(wg) - 1 && main == old(main) && quit == old(quit)
      ensures finishCloses == old(finishCloses) && first == old(first)
      ensures ends.At(x) ==
        (if policy.HalfClose? then old(ends).At(x).(readOpen := false) else CloseEnd(old(ends).At(x)))
      ensures ends.At(Other(x)) ==
        if policy.HalfClose? then old(ends).At(Other(x)).(writeOpen := false) else CloseEnd(old(ends).At(Other(x)))
    {
      StepBroker(x, CloseSource);
      StepBroker(x, CloseDest);
      StepBroker(x, WgDone);
    }
  }
}
