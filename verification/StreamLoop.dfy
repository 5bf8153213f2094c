/**
  One `clientLoop` of the TCP proxy and of the SCTP proxy (mct/cmd/mct-docker-proxy/tcp_proxy.go and
  sctp_proxy.go) as a state machine over atomic steps.

  The two share one skeleton: a broker per direction, a wait group, a goroutine that closes `finish`
  once the wait group is empty, and the main goroutine that waits for `quit` or `finish`, closes both
  connections and joins. They differ in what a broker closes when its copy has ended.
 */
module StreamLoop {
  import opened Octets

  /** TCP half-closes (section 3.6 of RFC 9293); SCTP has no half-open state (section 9 of RFC 9260). */
  datatype Policy = HalfClose | FullClose

  datatype Side = Client | Backend

  function Other(x: Side): Side {
    if x == Client then Backend else Client
  }

  datatype Pair<T> = Pair(client: T, backend: T) {
    function At(x: Side): T {
      if x == Client then client else backend
    }

    function With(x: Side, v: T): Pair<T> {
      if x == Client then Pair(v, backend) else Pair(client, v)
    }
  }

  /**
    The proxy's connection to one peer: what the peer has sent and whether it ended its stream, which
    halves of the connection the proxy still has open, and what has been delivered to the peer.
   */
  datatype Endpoint = Endpoint(sent: seq<byte>, fin: bool, readOpen: bool, writeOpen: bool, got: seq<byte>)

  /** How a copy ended: at the end of its source's stream, or by a failing read or write. */
  datatype CopyEnd = Eof | Failed

  datatype BrokerPc =
    | NotStarted
    | Copying
    | Writing(buf: seq<byte>)
    | Copied(how: CopyEnd)
    | SourceClosed(how: CopyEnd)
    | DestClosed(how: CopyEnd)
    | Finished(how: CopyEnd)

  /** A broker is named after its source; `taken` counts the bytes it has read. */
  datatype Broker = Broker(pc: BrokerPc, taken: nat)

  datatype MainPc =
    | Dialling
    | DialFailed
    | Abandoned
    | Dialled
    | Added
    | DownSpawned
    | UpSpawned
    | Selecting
    | Chosen
    | ClientClosed
    | Joining
    | Returned

  /** `finishCloses` counts the closes of the channel `finish`; `first` is the first copy to have ended. */
  datatype State = State(
    ends: Pair<Endpoint>,
    brokers: Pair<Broker>,
    wg: int,
    finishCloses: nat,
    quit: bool,
    main: MainPc,
    first: set<Side>)

  const FRESH_END := Endpoint([], false, true, true, [])

  const INIT: State :=
    State(Pair(FRESH_END, FRESH_END), Pair(Broker(NotStarted, 0), Broker(NotStarted, 0)), 0, 0, false, Dialling, {})

  predicate Closed(e: Endpoint) {
    !e.readOpen && !e.writeOpen
  }

  function CloseEnd(e: Endpoint): Endpoint {
    e.(readOpen := false, writeOpen := false)
  }

  // ----- a broker: io.Copy, then the closes of its policy -----

  datatype BrokerAction =
    | Read(n: nat)
    | ReadEof
    | ReadError
    | Write(n: nat)
    | WriteError
    | CloseSource
    | CloseDest
    | WgDone

  predicate BrokerEnabled(s: State, x: Side, a: BrokerAction) {
    var from, to, b := s.ends.At(x), s.ends.At(Other(x)), s.brokers.At(x);
    match a
    case Read(n) => b.pc.Copying? && from.readOpen && 0 < n && b.taken + n <= |from.sent|
    case ReadEof => b.pc.Copying? && from.readOpen && from.fin && b.taken == |from.sent|
    case ReadError => b.pc.Copying?
    case Write(n) => b.pc.Writing? && to.writeOpen && n <= |b.pc.buf|
    case WriteError => b.pc.Writing?
    case CloseSource => b.pc.Copied?
    case CloseDest => b.pc.SourceClosed?
    case WgDone => b.pc.DestClosed?
  }

  function SetBroker(s: State, x: Side, b: Broker): State {
    s.(brokers := s.brokers.With(x, b))
  }

  function SetEnd(s: State, x: Side, e: Endpoint): State {
    s.(ends := s.ends.With(x, e))
  }

  function EndCopy(s: State, x: Side, how: CopyEnd): State {
    SetBroker(s, x, s.brokers.At(x).(pc := Copied(how))).(first := if s.first == {} then {x} else s.first)
  }

  function BrokerStep(policy: Policy, s: State, x: Side, a: BrokerAction): State
    requires BrokerEnabled(s, x, a)
  {
    var from, to, b := s.ends.At(x), s.ends.At(Other(x)), s.brokers.At(x);
    match a
    case Read(n) => SetBroker(s, x, Broker(Writing(from.sent[b.taken..b.taken + n]), b.taken + n))
    case ReadEof => EndCopy(s, x, Eof)
    case ReadError => EndCopy(s, x, Failed)
    case Write(n) =>
      var s' := SetEnd(s, Other(x), to.(got := to.got + b.pc.buf[..n]));
      if n == |b.pc.buf| then SetBroker(s', x, b.(pc := Copying)) else EndCopy(s', x, Failed)
    case WriteError => EndCopy(s, x, Failed)
    case CloseSource =>
      SetBroker(SetEnd(s, x, if policy.HalfClose? then from.(readOpen := false) else CloseEnd(from)),
                x, b.(pc := SourceClosed(b.pc.how)))
    case CloseDest =>
      SetBroker(SetEnd(s, Other(x), if policy.HalfClose? then to.(writeOpen := false) else CloseEnd(to)),
                x, b.(pc := DestClosed(b.pc.how)))
    case WgDone => SetBroker(s, x, b.(pc := Finished(b.pc.how))).(wg := s.wg - 1)
  }

  // ----- the main goroutine, and the one that waits for the wait group -----

  datatype MainAction =
    | Dial
    | DialError
    | CloseUnserved
    | WgAdd
    | SpawnDown
    | SpawnUp
    | SpawnWaiter
    | SelectQuit
    | SelectFinish
    | CloseClient
    | CloseBackend
    | Join

  predicate Finish(s: State) {
    s.finishCloses > 0
  }

  predicate MainEnabled(s: State, a: MainAction) {
    match a
    case Dial => s.main.Dialling?
    case DialError => s.main.Dialling?
    case CloseUnserved => s.main.DialFailed?
    case WgAdd => s.main.Dialled?
    case SpawnDown => s.main.Added?
    case SpawnUp => s.main.DownSpawned?
    case SpawnWaiter => s.main.UpSpawned?
    case SelectQuit => s.main.Selecting? && s.quit
    case SelectFinish => s.main.Selecting? && Finish(s)
    case CloseClient => s.main.Chosen?
    case CloseBackend => s.main.ClientClosed?
    case Join => s.main.Joining? && Finish(s)
  }

  function MainStep(s: State, a: MainAction): State
    requires MainEnabled(s, a)
  {
    match a
    case Dial => s.(main := Dialled)
    case DialError => s.(main := DialFailed)
    case CloseUnserved => SetEnd(s, Client, CloseEnd(s.ends.client)).(main := Abandoned)
    case WgAdd => s.(main := Added, wg := s.wg + 2)
    case SpawnDown => SetBroker(s, Backend, Broker(Copying, 0)).(main := DownSpawned)
    case SpawnUp => SetBroker(s, Client, Broker(Copying, 0)).(main := UpSpawned)
    case SpawnWaiter => s.(main := Selecting)
    case SelectQuit => s.(main := Chosen)
    case SelectFinish => s.(main := Chosen)
    case CloseClient => SetEnd(s, Client, CloseEnd(s.ends.client)).(main := ClientClosed)
    case CloseBackend => SetEnd(s, Backend, CloseEnd(s.ends.backend)).(main := Joining)
    case Join => s.(main := Returned)
  }

  /** The waiter has been spawned. */
  predicate WaiterStarted(s: State) {
    s.main.Selecting? || s.main.Chosen? || s.main.ClientClosed? || s.main.Joining? || s.main.Returned?
  }

  predicate WaiterEnabled(s: State) {
    WaiterStarted(s) && s.wg == 0 && !Finish(s)
  }

  function WaiterStep(s: State): State {
    s.(finishCloses := s.finishCloses + 1)
  }

  // ----- peers and proxy -----

  /** Besides the peers acting and the proxy closing `quit`, time can pass with nothing happening here. */
  datatype EnvAction = PeerSends(x: Side, bytes: seq<byte>) | PeerEnds(x: Side) | CloseQuit | Idle

  predicate EnvEnabled(s: State, a: EnvAction) {
    match a
    case PeerSends(x, _) => !s.ends.At(x).fin
    case PeerEnds(x) => !s.ends.At(x).fin
    case CloseQuit => !s.quit
    case Idle => true
  }

  function EnvStep(s: State, a: EnvAction): State {
    match a
    case PeerSends(x, bytes) => SetEnd(s, x, s.ends.At(x).(sent := s.ends.At(x).sent + bytes))
    case PeerEnds(x) => SetEnd(s, x, s.ends.At(x).(fin := true))
    case CloseQuit => s.(quit := true)
    case Idle => s
  }

  datatype Action =
    | OfBroker(x: Side, broker: BrokerAction)
    | OfMain(main: MainAction)
    | OfWaiter
    | OfEnv(env: EnvAction)

  predicate Enabled(s: State, a: Action) {
    match a
    case OfBroker(x, b) => BrokerEnabled(s, x, b)
    case OfMain(m) => MainEnabled(s, m)
    case OfWaiter => WaiterEnabled(s)
    case OfEnv(e) => EnvEnabled(s, e)
  }

  function Step(policy: Policy, s: State, a: Action): State
    requires Enabled(s, a)
  {
    match a
    case OfBroker(x, b) => BrokerStep(policy, s, x, b)
    case OfMain(m) => MainStep(s, m)
    case OfWaiter => WaiterStep(s)
    case OfEnv(e) => EnvStep(s, e)
  }

  /** A failure that the proxy did not cause by closing the connection itself. */
  predicate IoError(s: State, a: Action)
    requires Enabled(s, a)
  {
    match a
    case OfBroker(x, ReadError) => s.ends.At(x).readOpen
    case OfBroker(x, Write(n)) => n < |s.brokers.At(x).pc.buf|
    case OfBroker(x, WriteError) => s.ends.At(Other(x)).writeOpen
    case OfMain(DialError) => true
    case _ => false
  }

  ghost predicate IsRun(policy: Policy, tr: seq<State>, acts: seq<Action>) {
    && |tr| == |acts| + 1
    && tr[0] == INIT
    && forall i :: 0 <= i < |acts| ==> Enabled(tr[i], acts[i]) && tr[i + 1] == Step(policy, tr[i], acts[i])
  }

  /** A run in which nothing failed by itself and the proxy did not quit. */
  ghost predicate IsCleanRun(policy: Policy, tr: seq<State>, acts: seq<Action>) {
    && IsRun(policy, tr, acts)
    && forall i :: 0 <= i < |acts| ==> !IoError(tr[i], acts[i]) && acts[i] != OfEnv(CloseQuit)
  }
}
