/**
  The `UDPProxy` object (mct/cmd/mct-docker-proxy/udp_proxy.go): its fields, the atomic steps of the
  goroutines that share it, and its forwarding loops, proved to be the steps of the state machine.
 */
module UdpProxy {
  import opened ConnTrack
  import opened UdpProtocol
  import opened UdpInvariant

  /** What one write returns: the number of bytes taken, or an error. */
  datatype WriteResult = Written(n: nat) | WriteFailed

  /** A write at offset `o` never takes more than it is given and, on success, takes something. */
  ghost predicate Fits(write: nat -> WriteResult, len: nat) {
    forall o: nat :: o < len && write(o).Written? ==> 0 < write(o).n <= len - o
  }

  /** Where the forwarding loop stops: at the end, or at the offset whose write fails. */
  function WriteEnd(write: nat -> WriteResult, p: Payload, i: nat): nat
    requires i <= |p| && Fits(write, |p|)
    decreases |p| - i
  {
    if i == |p| || write(i).WriteFailed? then i else WriteEnd(write, p, i + write(i).n)
  }

  /** What the forwarding loop writes from offset `i` on. */
  function Pieces(write: nat -> WriteResult, p: Payload, i: nat): seq<Payload>
    requires i <= |p| && Fits(write, |p|)
    decreases |p| - i
  {
    if i == |p| || write(i).WriteFailed? then []
    else [p[i..i + write(i).n]] + Pieces(write, p, i + write(i).n)
  }

  /** What the forwarding loop of `Run` adds to the writes on connection `c`, from offset `i` on. */
  function SentFrom(write: nat -> WriteResult, c: nat, d: Datagram, i: nat): seq<Sent>
    requires i <= |d.payload| && Fits(write, |d.payload|)
    decreases |d.payload| - i
  {
    if i == |d.payload| || write(i).WriteFailed? then []
    else
      var j := i + write(i).n;
      [Sent(c, d, d.payload[i..j])] + SentFrom(write, c, d, j)
  }

  lemma SendNext(h: seq<Sent>, write: nat -> WriteResult, c: nat, d: Datagram, i: nat)
    requires i < |d.payload| && Fits(write, |d.payload|) && write(i).Written?
    ensures var j := i + write(i).n;
      h + SentFrom(write, c, d, i) == h + [Sent(c, d, d.payload[i..j])] + SentFrom(write, c, d, j)
  {
  }

  /** They are the pieces, written on `c`. */
  lemma {:induction false} SentFromIsPieces(write: nat -> WriteResult, c: nat, d: Datagram, i: nat)
    requires i <= |d.payload| && Fits(write, |d.payload|)
    ensures var sent, pieces := SentFrom(write, c, d, i), Pieces(write, d.payload, i);
      |sent| == |pieces| && forall k :: 0 <= k < |sent| ==> sent[k] == Sent(c, d, pieces[k])
    decreases |d.payload| - i
  {
    if i < |d.payload| && write(i).Written? {
      SentFromIsPieces(write, c, d, i + write(i).n);
    }
  }

  /** What the forwarding loop of a reply loop adds to the writes towards the client of `conn`. */
  function AnsweredFrom(write: nat -> WriteResult, c: nat, conn: Conn, p: Payload, i: nat): seq<Answered>
    requires i <= |p| && Fits(write, |p|)
    decreases |p| - i
  {
    if i == |p| || write(i).WriteFailed? then []
    else
      var j := i + write(i).n;
      [Answered(c, conn.client, conn.key, p[i..j])] + AnsweredFrom(write, c, conn, p, j)
  }

  lemma AnswerNext(h: seq<Answered>, write: nat -> WriteResult, c: nat, conn: Conn, p: Payload, i: nat)
    requires i < |p| && Fits(write, |p|) && write(i).Written?
    ensures var j := i + write(i).n;
      h + AnsweredFrom(write, c, conn, p, i)
      == h + [Answered(c, conn.client, conn.key, p[i..j])] + AnsweredFrom(write, c, conn, p, j)
  {
  }

  /** They are the pieces, written to that client. */
  lemma {:induction false} AnsweredFromIsPieces(write: nat -> WriteResult, c: nat, conn: Conn, p: Payload, i: nat)
    requires i <= |p| && Fits(write, |p|)
    ensures var answered, pieces := AnsweredFrom(write, c, conn, p, i), Pieces(write, p, i);
      |answered| == |pieces|
      && forall k :: 0 <= k < |answered| ==> answered[k] == Answered(c, conn.client, conn.key, pieces[k])
    decreases |p| - i
  {
    if i < |p| && write(i).Written? {
      AnsweredFromIsPieces(write, c, conn, p, i + write(i).n);
    }
  }

  // ----- the object -----

  /** The connections after some of them have been closed. */
  function Swept(conns: seq<Conn>, closed: set<nat>): seq<Conn> {
    seq(|conns|, c requires 0 <= c < |conns| => if c in closed then conns[c].(open := false) else conns[c])
  }

  lemma SweepOne(conns: seq<Conn>, all: set<nat>, pending: set<nat>, c: nat)
    requires c in pending && pending <= all && c < |conns|
    ensures Swept(conns, all - pending)[c].(open := false) == conns[c].(open := false)
    ensures Swept(conns, all - (pending - {c})) == Swept(conns, all - pending)[c := conns[c].(open := false)]
  {
  }

  class UDPProxy {
    var listenerOpen: bool
    var connTrackTable: map<Key, nat>
    var connTrackLock: Holder
    var now: nat
    var conns: seq<Conn>
    var run: RunPc
    var closer: ClosePc
    var received: seq<Datagram>
    var toBackend: seq<Sent>
    var toClient: seq<Answered>

    function Abs(): State
      reads this
    {
      State(listenerOpen, connTrackTable, connTrackLock, now, conns, run, closer, received, toBackend, toClient)
    }

    /** `NewUDPProxy`, once its listener is open. */
    constructor ()
      ensures Abs() == INIT
    {
      listenerOpen, connTrackTable, connTrackLock, now, conns := true, map[], Free, 0, [];
      run, closer, received, toBackend, toClient := Waiting, NotCalled, [], [], [];
    }

    /** One step of `Run`. */
    method StepRun(a: RunAction)
      requires RunEnabled(Abs(), a)
      modifies this
      ensures Abs() == RunStep(old(Abs()), a)
    {
      match a
      case Receive(from, payload) =>
        var d := Datagram(from, NewConnTrackKey(from), payload);
        received := received + [d];
        run := Got(d);
      case ReceiveError =>
        run := Stopped;
      case AcquireRun =>
        connTrackLock := ByRun;
        run := Locked(run.d);
      case Lookup =>
        if run.d.key in connTrackTable {
          run := Found(run.d, connTrackTable[run.d.key]);
        } else {
          run := Missed(run.d);
        }
      case Dial =>
        conns := conns + [NewConn(run.d, !listenerOpen)];
        run := Dialled(run.d, |conns| - 1);
      case DialError =>
        connTrackLock := Free;
        run := Waiting;
      case Insert =>
        connTrackTable := connTrackTable[run.d.key := run.c];
        run := Inserted(run.d, run.c);
      case Spawn =>
        conns := conns[run.c := conns[run.c].(pc := Arming)];
        run := Found(run.d, run.c);
      case ReleaseRun =>
        connTrackLock := Free;
        run := SendFrom(run.d, run.c, 0);
      case Send(n) =>
        toBackend := toBackend + [Sent(run.c, run.d, run.d.payload[run.i..run.i + n])];
        run := SendFrom(run.d, run.c, run.i + n);
      case SendError =>
        run := Waiting;
    }

    /** One step of the reply loop of connection `c`. */
    method StepLoop(c: nat, a: LoopAction)
      requires LoopEnabled(Abs(), c, a)
      modifies this
      ensures Abs() == LoopStep(old(Abs()), c, a)
    {
      var conn := conns[c];
      match a
      case Arm =>
        conn := conn.(pc := Reading(now + CONN_TRACK_TIMEOUT), armings := conn.armings + 1, armedAt := now);
        conns := conns[c := conn];
      case ReadItem =>
        var item := conn.inbox[0];
        conn := conn.(inbox := conn.inbox[1..]);
        if item.Reply? {
          conn := conn.(pc := AnswerFrom(item.payload, 0), replies := conn.replies + [item.payload]);
        }
        conns := conns[c := conn];
      case ReadError(_) =>
        conns := conns[c := conn.(pc := Exiting)];
      case Answer(n) =>
        var reply, i := conn.pc.reply, conn.pc.i;
        toClient := toClient + [Answered(c, conn.client, conn.key, reply[i..i + n])];
        conns := conns[c := conn.(pc := AnswerFrom(reply, i + n))];
      case AnswerError =>
        conns := conns[c := conn.(pc := Exiting)];
      case AcquireLoop =>
        connTrackLock := ByLoop(c);
        conns := conns[c := conn.(pc := Holding)];
      case Delete =>
        connTrackTable := connTrackTable - {conn.key};
        conns := conns[c := conn.(pc := Deleted)];
      case ReleaseLoop =>
        connTrackLock := Free;
        conns := conns[c := conn.(pc := Closing)];
      case CloseConn =>
        conns := conns[c := conn.(pc := Done, open := false)];
    }

    /** One step of the caller of `Close`. */
    method StepClose(a: CloseAction)
      requires CloseEnabled(Abs(), a)
      modifies this
      ensures Abs() == CloseStep(old(Abs()), a)
    {
      match a
      case CloseListener =>
        listenerOpen := false;
        closer := ListenerClosed;
      case AcquireClose =>
        connTrackLock := ByClose;
        closer := Sweeping(connTrackTable.Values);
      case Sweep(c) =>
        conns := conns[c := conns[c].(open := false)];
        closer := Sweeping(closer.pending - {c});
      case ReleaseClose =>
        connTrackLock := Free;
        closer := Returned;
    }

    method StepEnv(a: EnvAction)
      requires EnvEnabled(Abs(), a)
      modifies this
      ensures Abs() == EnvStep(old(Abs()), a)
    {
      match a
      case Tick => now := now + 1;
      case Deliver(c, item) => conns := conns[c := conns[c].(inbox := conns[c].inbox + [item])];
    }

    method Perform(a: Action)
      requires Enabled(Abs(), a)
      modifies this
      ensures Abs() == Step(old(Abs()), a)
    {
      match a
      case OfRun(r) => StepRun(r);
      case OfLoop(c, l) => StepLoop(c, l);
      case OfClose(x) => StepClose(x);
      case OfEnv(e) => StepEnv(e);
    }

    /**
      A fresh proxy under any schedule, for as long as its steps are possible: the states it passes
      through form a run, so everything proved of runs holds of the object.
     */
    method Execute(acts: seq<Action>) returns (n: nat, ghost tr: seq<State>)
      requires Abs() == INIT
      modifies this
      ensures n <= |acts| && IsRun(tr, acts[..n]) && tr[n] == Abs()
      ensures n < |acts| ==> !Enabled(Abs(), acts[n])
      ensures Inv(Abs())
    {
      n, tr := 0, [Abs()];
      while n < |acts| && Enabled(Abs(), acts[n])
        invariant n <= |acts| && IsRun(tr, acts[..n]) && tr[n] == Abs()
      {
        ghost var before, done := tr, acts[..n];
        Perform(acts[n]);
        tr := tr + [Abs()];
        n := n + 1;
        assert acts[..n] == done + [acts[n - 1]];
        assert forall i :: 0 <= i < n ==> tr[i] == before[i];
      }
      RunsKeepInv(tr, acts[..n], n);
    }

    /** `Run` between receiving a datagram and writing it, when nothing else happens in between. */
    method TrackClient(dialOk: bool)
      requires run.Got? && connTrackLock.Free?
      modifies this
      ensures var d, hit := old(run.d), old(run.d.key in connTrackTable);
        Abs() == (
          if hit then old(Abs()).(run := SendFrom(d, old(connTrackTable)[d.key], 0))
          else if !dialOk then old(Abs()).(run := Waiting)
          else old(Abs()).(
            run := SendFrom(d, |old(conns)|, 0),
            table := old(connTrackTable)[d.key := |old(conns)|],
            conns := old(conns) + [NewConn(d, !old(listenerOpen)).(pc := Arming)]))
    {
      StepRun(AcquireRun);
      StepRun(Lookup);
      if run.Missed? {
        if !dialOk {
          StepRun(DialError);
          return;
        }
        StepRun(Dial);
        StepRun(Insert);
        StepRun(Spawn);
      }
      StepRun(ReleaseRun);
    }

    /** The deferred end of reply loop `c`: only its own entry goes, and only then is its socket closed. */
    method Retire(c: nat)
      requires Inv(Abs()) && c < |conns| && conns[c].pc.Exiting? && connTrackLock.Free?
      modifies this
      ensures old(conns[c].key in connTrackTable && connTrackTable[conns[c].key] == c)
      ensures Abs() == old(Abs()).(
        table := old(connTrackTable) - {old(conns[c].key)},
        conns := old(conns)[c := old(conns[c]).(pc := Done, open := false)])
    {
      StepLoop(c, AcquireLoop);
      StepLoop(c, Delete);
      StepLoop(c, ReleaseLoop);
      StepLoop(c, CloseConn);
    }

    /** `Close`, when nothing else happens in between: it closes every connection in the table and no other. */
    method Close()
      requires TableInv(Abs()) && closer.NotCalled? && connTrackLock.Free?
      modifies this
      ensures Abs() == old(Abs()).(
        listenerOpen := false, closer := Returned, conns := Swept(old(conns), old(connTrackTable).Values))
    {
      ghost var s := Abs();
      StepClose(CloseListener);
      StepClose(AcquireClose);
      assert conns == Swept(s.conns, {});
      while closer.pending != {}
        invariant closer.Sweeping? && closer.pending <= s.table.Values
        invariant forall c :: c in s.table.Values ==> c < |s.conns|
        invariant Abs() == s.(
          listenerOpen := false, lock := ByClose, closer := closer,
          conns := Swept(s.conns, s.table.Values - closer.pending))
        decreases closer.pending
      {
        var c :| c in closer.pending;
        SweepOne(s.conns, s.table.Values, closer.pending, c);
        StepClose(Sweep(c));
      }
      StepClose(ReleaseClose);
      assert s.table.Values - {} == s.table.Values;
    }

    /**
      The loop of `Run` that writes a datagram to the backend, when nothing happens in between. A write
      on a connection that was closed since the lookup fails.
     */
    method ForwardDatagram(write: nat -> WriteResult) returns (i: nat)
      requires run.Sending? && run.i == 0 < |run.d.payload| && run.c < |conns| && Fits(write, |run.d.payload|)
      requires conns[run.c].open || write(0).WriteFailed?
      modifies this
      ensures i == WriteEnd(write, old(run.d.payload), 0)
      ensures Abs() == old(Abs()).(
        run := Waiting,
        toBackend := old(toBackend) + SentFrom(write, old(run.c), old(run.d), 0))
    {
      ghost var s, d, c := Abs(), run.d, run.c;
      i := 0;
      while run.Sending?
        invariant i <= |d.payload| && (i > 0 ==> s.conns[c].open)
        invariant WriteEnd(write, d.payload, i) == WriteEnd(write, d.payload, 0)
        invariant toBackend + SentFrom(write, c, d, i) == s.toBackend + SentFrom(write, c, d, 0)
        invariant Abs() == s.(run := SendFrom(d, c, i), toBackend := toBackend)
        decreases |d.payload| - i
      {
        var w := write(i);
        if w.WriteFailed? {
          StepRun(SendError);
          return;
        }
        SendNext(toBackend, write, c, d, i);
        StepRun(Send(w.n));
        i := i + w.n;
      }
    }

    /**
      The loop of `replyLoop` that writes a reply to its client, when nothing happens in between. A write
      on the closed listener fails.
     */
    method AnswerReply(c: nat, write: nat -> WriteResult) returns (i: nat)
      requires c < |conns| && conns[c].pc.Replying? && conns[c].pc.i == 0 < |conns[c].pc.reply|
      requires Fits(write, |conns[c].pc.reply|) && (listenerOpen || write(0).WriteFailed?)
      modifies this
      ensures var conn := old(conns[c]);
        && i == WriteEnd(write, conn.pc.reply, 0)
        && Abs() == old(Abs()).(
             conns := old(conns)[c := conn.(pc := if i == |conn.pc.reply| then Arming else Exiting)],
             toClient := old(toClient) + AnsweredFrom(write, c, conn, conn.pc.reply, 0))
    {
      ghost var s, conn, p := Abs(), conns[c], conns[c].pc.reply;
      i := 0;
      while conns[c].pc.Replying?
        invariant i <= |p| && (i > 0 ==> s.listenerOpen)
        invariant WriteEnd(write, p, i) == WriteEnd(write, p, 0)
        invariant toClient + AnsweredFrom(write, c, conn, p, i) == s.toClient + AnsweredFrom(write, c, conn, p, 0)
        invariant Abs() == s.(conns := s.conns[c := conn.(pc := AnswerFrom(p, i))], toClient := toClient)
        decreases |p| - i
      {
        var w := write(i);
        if w.WriteFailed? {
          StepLoop(c, AnswerError);
          return;
        }
        AnswerNext(toClient, write, c, conn, p, i);
        StepLoop(c, Answer(w.n));
        i := i + w.n;
      }
    }
  }

  /** The bytes of all the pieces, front to back. */
  function Bytes(pieces: seq<Payload>): Payload {
    if pieces == [] then [] else pieces[0] + Bytes(pieces[1..])
  }

  /** Whatever the writes accept, the pieces are the payload up to the first failing write, each byte once. */
  lemma {:induction false} PiecesAreAPrefix(write: nat -> WriteResult, p: Payload, i: nat)
    requires i <= |p| && Fits(write, |p|)
    ensures i <= WriteEnd(write, p, i) <= |p|
    ensures WriteEnd(write, p, i) < |p| ==> write(WriteEnd(write, p, i)).WriteFailed?
    ensures Bytes(Pieces(write, p, i)) == p[i..WriteEnd(write, p, i)]
    decreases |p| - i
  {
    if i < |p| && write(i).Written? {
      var j := i + write(i).n;
      PiecesAreAPrefix(write, p, j);
      assert Pieces(write, p, i)[1..] == Pieces(write, p, j);
      assert p[i..j] + p[j..WriteEnd(write, p, j)] == p[i..WriteEnd(write, p, i)];
    }
  }

  /** If every write is all or nothing, a datagram goes out whole in one piece or not at all. */
  lemma AllOrNothingIsOnePiece(write: nat -> WriteResult, p: Payload)
    requires p != [] && Fits(write, |p|)
    requires forall o: nat :: o < |p| && write(o).Written? ==> write(o).n == |p| - o
    ensures Pieces(write, p, 0) == if write(0).Written? then [p] else []
  {
    if write(0).Written? {
      assert p[0..|p|] == p;
      assert Pieces(write, p, |p|) == [];
    }
  }
}
