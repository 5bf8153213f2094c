/**
  The UDP proxy as a state machine over atomic steps (mct/cmd/mct-docker-proxy/udp_proxy.go).

  One `Run` goroutine, one reply loop for every backend connection ever dialled, and one caller of
  `Close` share the connection-tracking table under a mutex. A step is either a step of one of these
  goroutines or of their environment (time passing, the backend answering). Everything the code does
  not decide - which datagram arrives, how much a write accepts, whether a call fails - is part of
  the action, so a run over arbitrary actions is a run under an arbitrary schedule and environment.
 */
module UdpProtocol {
  import opened Octets
  import opened ConnTrack

  /** `UDPConnTrackTimeout`, in seconds. */
  const CONN_TRACK_TIMEOUT: nat := 90

  type Payload = seq<byte>

  /** What `ReadFromUDP` returned, with the key computed from the sender. */
  datatype Datagram = Datagram(from: Addr, key: Key, payload: Payload)

  /** What a read on a backend connection can return next: a reply or a refused-connection error. */
  datatype Item = Reply(payload: Payload) | Refused

  /** Where a reply loop stands. `Holding` and `Deleted` are inside its deferred critical section. */
  datatype LoopPc =
    | Unspawned
    | Arming
    | Reading(deadline: nat)
    | Replying(reply: Payload, i: nat)
    | Exiting
    | Holding
    | Deleted
    | Closing
    | Done

  /**
    A dialled backend connection together with its reply loop. Its index in `State.conns` is never
    reused. `replies`, `armings`, `armedAt` and `late` are history: the replies read so far, how
    often and when last the deadline was armed, and whether it was dialled after the listener closed.
   */
  datatype Conn = Conn(
    client: Addr, key: Key, open: bool, pc: LoopPc, inbox: seq<Item>,
    replies: seq<Payload>, armings: nat, armedAt: nat, late: bool)

  /** Where `Run` stands; `Locked` to `Found` are inside its critical section. */
  datatype RunPc =
    | Waiting
    | Got(d: Datagram)
    | Locked(d: Datagram)
    | Missed(d: Datagram)
    | Dialled(d: Datagram, c: nat)
    | Inserted(d: Datagram, c: nat)
    | Found(d: Datagram, c: nat)
    | Sending(d: Datagram, c: nat, i: nat)
    | Stopped

  /** Where the caller of `Close` stands; `Sweeping` ranges over the table in any order. */
  datatype ClosePc = NotCalled | ListenerClosed | Sweeping(pending: set<nat>) | Returned

  datatype Holder = Free | ByRun | ByLoop(c: nat) | ByClose

  /** A successful write on a backend connection, and one towards a client. */
  datatype Sent = Sent(c: nat, d: Datagram, bytes: Payload)
  datatype Answered = Answered(c: nat, client: Addr, key: Key, bytes: Payload)

  datatype State = State(
    listenerOpen: bool,
    table: map<Key, nat>,
    lock: Holder,
    now: nat,
    conns: seq<Conn>,
    run: RunPc,
    closer: ClosePc,
    received: seq<Datagram>,
    toBackend: seq<Sent>,
    toClient: seq<Answered>)

  const INIT: State := State(true, map[], Free, 0, [], Waiting, NotCalled, [], [], [])

  // ----- Run -----

  datatype RunAction =
    | Receive(from: Addr, payload: Payload)
    | ReceiveError
    | AcquireRun
    | Lookup
    | Dial
    | DialError
    | Insert
    | Spawn
    | ReleaseRun
    | Send(n: nat)
    | SendError

  predicate RunEnabled(s: State, a: RunAction) {
    match a
    case Receive(_, _) => s.run.Waiting? && s.listenerOpen
    case ReceiveError => s.run.Waiting?
    case AcquireRun => s.run.Got? && s.lock == Free
    case Lookup => s.run.Locked?
    case Dial => s.run.Missed?
    case DialError => s.run.Missed?
    case Insert => s.run.Dialled?
    case Spawn => s.run.Inserted? && s.run.c < |s.conns|
    case ReleaseRun => s.run.Found?
    case Send(n) =>
      && s.run.Sending? && s.run.c < |s.conns| && s.conns[s.run.c].open
      && 0 < n <= |s.run.d.payload| - s.run.i
    case SendError => s.run.Sending?
  }

  function NewConn(d: Datagram, late: bool): Conn {
    Conn(d.from, d.key, true, Unspawned, [], [], 0, 0, late)
  }

  /** The loop test `i != read` after `i` bytes of the datagram have been written. */
  function SendFrom(d: Datagram, c: nat, i: nat): RunPc {
    if i == |d.payload| then Waiting else Sending(d, c, i)
  }

  function RunStep(s: State, a: RunAction): State
    requires RunEnabled(s, a)
  {
    match a
    case Receive(from, payload) =>
      var d := Datagram(from, NewConnTrackKey(from), payload);
      s.(run := Got(d), received := s.received + [d])
    case ReceiveError => s.(run := Stopped)
    case AcquireRun => s.(run := Locked(s.run.d), lock := ByRun)
    case Lookup =>
      var d := s.run.d;
      s.(run := if d.key in s.table then Found(d, s.table[d.key]) else Missed(d))
    case Dial =>
      s.(run := Dialled(s.run.d, |s.conns|), conns := s.conns + [NewConn(s.run.d, !s.listenerOpen)])
    case DialError => s.(run := Waiting, lock := Free)
    case Insert => s.(run := Inserted(s.run.d, s.run.c), table := s.table[s.run.d.key := s.run.c])
    case Spawn =>
      s.(run := Found(s.run.d, s.run.c),
         conns := s.conns[s.run.c := s.conns[s.run.c].(pc := Arming)])
    case ReleaseRun => s.(run := SendFrom(s.run.d, s.run.c, 0), lock := Free)
    case Send(n) =>
      var d, c, i := s.run.d, s.run.c, s.run.i;
      s.(run := SendFrom(d, c, i + n), toBackend := s.toBackend + [Sent(c, d, d.payload[i..i + n])])
    case SendError => s.(run := Waiting)
  }

  // ----- replyLoop -----

  datatype ReadFailure = Timeout | ClosedConn | Other

  datatype LoopAction =
    | Arm
    | ReadItem
    | ReadError(why: ReadFailure)
    | Answer(n: nat)
    | AnswerError
    | AcquireLoop
    | Delete
    | ReleaseLoop
    | CloseConn

  predicate LoopEnabled(s: State, c: nat, a: LoopAction) {
    c < |s.conns| &&
    var conn := s.conns[c];
    match a
    case Arm => conn.pc.Arming?
    case ReadItem => conn.pc.Reading? && conn.open && s.now < conn.pc.deadline && conn.inbox != []
    case ReadError(why) =>
      conn.pc.Reading? &&
      (match why
       case Timeout => conn.pc.deadline <= s.now
       case ClosedConn => !conn.open
       case Other => true)
    case Answer(n) =>
      && conn.pc.Replying? && s.listenerOpen && conn.pc.i <= |conn.pc.reply|
      && 0 < n <= |conn.pc.reply| - conn.pc.i
    case AnswerError => conn.pc.Replying?
    case AcquireLoop => conn.pc.Exiting? && s.lock == Free
    case Delete => conn.pc.Holding?
    case ReleaseLoop => conn.pc.Deleted?
    case CloseConn => conn.pc.Closing?
  }

  /** The loop test `i != read` after `i` bytes of the reply have been written. */
  function AnswerFrom(reply: Payload, i: nat): LoopPc {
    if i == |reply| then Arming else Replying(reply, i)
  }

  function WithConn(s: State, c: nat, conn: Conn): State
    requires c < |s.conns|
  {
    s.(conns := s.conns[c := conn])
  }

  function LoopStep(s: State, c: nat, a: LoopAction): State
    requires LoopEnabled(s, c, a)
  {
    var conn := s.conns[c];
    match a
    case Arm =>
      WithConn(s, c, conn.(pc := Reading(s.now + CONN_TRACK_TIMEOUT),
                          armings := conn.armings + 1, armedAt := s.now))
    case ReadItem =>
      (match conn.inbox[0]
       case Refused => WithConn(s, c, conn.(inbox := conn.inbox[1..]))
       case Reply(p) =>
         WithConn(s, c, conn.(pc := AnswerFrom(p, 0), inbox := conn.inbox[1..],
                             replies := conn.replies + [p])))
    case ReadError(_) => WithConn(s, c, conn.(pc := Exiting))
    case Answer(n) =>
      var reply, i := conn.pc.reply, conn.pc.i;
      WithConn(s, c, conn.(pc := AnswerFrom(reply, i + n))).(
        toClient := s.toClient + [Answered(c, conn.client, conn.key, reply[i..i + n])])
    case AnswerError => WithConn(s, c, conn.(pc := Exiting))
    case AcquireLoop => WithConn(s, c, conn.(pc := Holding)).(lock := ByLoop(c))
    case Delete => WithConn(s, c, conn.(pc := Deleted)).(table := s.table - {conn.key})
    case ReleaseLoop => WithConn(s, c, conn.(pc := Closing)).(lock := Free)
    case CloseConn => WithConn(s, c, conn.(pc := Done, open := false))
  }

  // ----- Close -----

  datatype CloseAction = CloseListener | AcquireClose | Sweep(c: nat) | ReleaseClose

  predicate CloseEnabled(s: State, a: CloseAction) {
    match a
    case CloseListener => s.closer.NotCalled?
    case AcquireClose => s.closer.ListenerClosed? && s.lock == Free
    case Sweep(c) => s.closer.Sweeping? && c in s.closer.pending && c < |s.conns|
    case ReleaseClose => s.closer.Sweeping? && s.closer.pending == {}
  }

  function CloseStep(s: State, a: CloseAction): State
    requires CloseEnabled(s, a)
  {
    match a
    case CloseListener => s.(closer := ListenerClosed, listenerOpen := false)
    case AcquireClose => s.(closer := Sweeping(s.table.Values), lock := ByClose)
    case Sweep(c) =>
      WithConn(s, c, s.conns[c].(open := false)).(closer := Sweeping(s.closer.pending - {c}))
    case ReleaseClose => s.(closer := Returned, lock := Free)
  }

  // ----- the environment and whole runs -----

  datatype EnvAction = Tick | Deliver(c: nat, item: Item)

  predicate EnvEnabled(s: State, a: EnvAction) {
    match a
    case Tick => true
    case Deliver(c, _) => c < |s.conns|
  }

  function EnvStep(s: State, a: EnvAction): State
    requires EnvEnabled(s, a)
  {
    match a
    case Tick => s.(now := s.now + 1)
    case Deliver(c, item) => WithConn(s, c, s.conns[c].(inbox := s.conns[c].inbox + [item]))
  }

  datatype Action =
    | OfRun(run: RunAction)
    | OfLoop(c: nat, loop: LoopAction)
    | OfClose(close: CloseAction)
    | OfEnv(env: EnvAction)

  predicate Enabled(s: State, a: Action) {
    match a
    case OfRun(r) => RunEnabled(s, r)
    case OfLoop(c, l) => LoopEnabled(s, c, l)
    case OfClose(x) => CloseEnabled(s, x)
    case OfEnv(e) => EnvEnabled(s, e)
  }

  function Step(s: State, a: Action): State
    requires Enabled(s, a)
  {
    match a
    case OfRun(r) => RunStep(s, r)
    case OfLoop(c, l) => LoopStep(s, c, l)
    case OfClose(x) => CloseStep(s, x)
    case OfEnv(e) => EnvStep(s, e)
  }

  /** A run: the states passed through under the given schedule, from a freshly made proxy. */
  ghost predicate IsRun(tr: seq<State>, acts: seq<Action>) {
    && |tr| == |acts| + 1
    && tr[0] == INIT
    && forall i :: 0 <= i < |acts| ==> Enabled(tr[i], acts[i]) && tr[i + 1] == Step(tr[i], acts[i])
  }
}
