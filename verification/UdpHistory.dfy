/**
  What the UDP proxy keeps in its histories is what came in from outside, told by the actions alone: the
  datagrams that arrived, and the replies and errors that the backend delivered.
 */
module UdpHistory {
  import opened ConnTrack
  import opened UdpProtocol
  import opened UdpInvariant

  // ----- what came in -----

  /** The datagrams that arrived, each whole and with the key of its sender. */
  ghost function Arrived(acts: seq<Action>): seq<Datagram> {
    if acts == [] then [] else
      Arrived(acts[..|acts| - 1]) +
      match acts[|acts| - 1]
      case OfRun(Receive(from, payload)) => [Datagram(from, NewConnTrackKey(from), payload)]
      case _ => []
  }

  /** What the backend delivered on connection `c`. */
  ghost function Delivered(acts: seq<Action>, c: nat): seq<Item> {
    if acts == [] then [] else
      Delivered(acts[..|acts| - 1], c) +
      match acts[|acts| - 1]
      case OfEnv(Deliver(e, item)) => if e == c then [item] else []
      case _ => []
  }

  /** How often loop `c` read something. */
  ghost function ReadCount(acts: seq<Action>, c: nat): nat {
    if acts == [] then 0 else
      ReadCount(acts[..|acts| - 1], c) + (if acts[|acts| - 1] == OfLoop(c, ReadItem) then 1 else 0)
  }

  /** The replies among some items, each whole. */
  ghost function RepliesAmong(items: seq<Item>): seq<Payload> {
    if items == [] then [] else
      RepliesAmong(items[..|items| - 1]) +
      match items[|items| - 1]
      case Reply(p) => [p]
      case Refused => []
  }

  /** The replies that loop `c` has read. */
  ghost function RepliesRead(acts: seq<Action>, c: nat): seq<Payload> {
    var items, n := Delivered(acts, c), ReadCount(acts, c);
    if n <= |items| then RepliesAmong(items[..n]) else []
  }

  // ----- the histories -----

  /** Every arriving datagram is taken whole, in order, and nothing else is. */
  lemma {:induction false} ReceivedIsWhatArrived(tr: seq<State>, acts: seq<Action>, n: nat)
    requires IsRun(tr, acts) && n < |tr|
    ensures tr[n].received == Arrived(acts[..n])
  {
    if n > 0 {
      ReceivedIsWhatArrived(tr, acts, n - 1);
      assert acts[..n][..n - 1] == acts[..n - 1];
      StepReceives(tr[n - 1], acts[n - 1]);
    }
  }

  lemma StepReceives(s: State, a: Action)
    requires Enabled(s, a)
    ensures Step(s, a).received == s.received +
      match a
      case OfRun(Receive(from, payload)) => [Datagram(from, NewConnTrackKey(from), payload)]
      case _ => []
  {
    if a.OfLoop? {
      LoopMovesOnlyItself(s, a.c, a.loop);
    }
  }

  /** Connection `c` still holds what was delivered and not read, and `replies` are the replies that were read. */
  ghost predicate Faithful(s: State, acts: seq<Action>, c: nat) {
    var items, n := Delivered(acts, c), ReadCount(acts, c);
    if c < |s.conns| then
      n <= |items| && s.conns[c].inbox == items[n..] && s.conns[c].replies == RepliesAmong(items[..n])
    else items == [] && n == 0
  }

  lemma ReadingIsFaithful(s: State, acts: seq<Action>, c: nat, a: LoopAction)
    requires Faithful(s, acts, c) && LoopEnabled(s, c, a)
    ensures Faithful(LoopStep(s, c, a), acts + [OfLoop(c, a)], c)
  {
    var items, n := Delivered(acts, c), ReadCount(acts, c);
    assert (acts + [OfLoop(c, a)])[..|acts|] == acts;
    assert items + [] == items;
    if a.ReadItem? {
      assert s.conns[c].inbox[0] == items[n] && s.conns[c].inbox[1..] == items[n + 1..];
      NextReply(items, n);
    } else {
      OnlyReadingTakes(s, c, a);
    }
  }

  lemma OnlyReadingTakes(s: State, c: nat, a: LoopAction)
    requires LoopEnabled(s, c, a) && !a.ReadItem?
    ensures LoopStep(s, c, a).conns[c].inbox == s.conns[c].inbox
    ensures LoopStep(s, c, a).conns[c].replies == s.conns[c].replies
  {
  }

  lemma NextReply(items: seq<Item>, n: nat)
    requires n < |items|
    ensures RepliesAmong(items[..n + 1]) ==
      RepliesAmong(items[..n]) + match items[n] case Reply(p) => [p] case Refused => []
  {
    assert items[..n + 1][..n] == items[..n];
  }

  lemma DeliveringIsFaithful(s: State, acts: seq<Action>, c: nat, item: Item)
    requires Faithful(s, acts, c) && c < |s.conns|
    ensures Faithful(EnvStep(s, Deliver(c, item)), acts + [OfEnv(Deliver(c, item))], c)
  {
    var items, n := Delivered(acts, c), ReadCount(acts, c);
    assert (acts + [OfEnv(Deliver(c, item))])[..|acts|] == acts;
    assert (items + [item])[n..] == items[n..] + [item] && (items + [item])[..n] == items[..n];
  }

  /** Any other step leaves what connection `c` has read and still holds as it was. */
  lemma OtherStepsAreFaithful(s: State, acts: seq<Action>, c: nat, a: Action)
    requires RunInv(s) && Faithful(s, acts, c) && Enabled(s, a)
    requires !(a.OfLoop? && a.c == c) && !(a.OfEnv? && a.env.Deliver? && a.env.c == c)
    ensures Faithful(Step(s, a), acts + [a], c)
  {
    assert (acts + [a])[..|acts|] == acts;
    assert Delivered(acts, c) + [] == Delivered(acts, c);
    OthersKeepConn(s, a, c);
  }

  lemma OthersKeepConn(s: State, a: Action, c: nat)
    requires RunInv(s) && Enabled(s, a)
    requires !(a.OfLoop? && a.c == c) && !(a.OfEnv? && a.env.Deliver? && a.env.c == c)
    ensures var s' := Step(s, a);
      if c < |s.conns| then
        c < |s'.conns| && s'.conns[c].inbox == s.conns[c].inbox && s'.conns[c].replies == s.conns[c].replies
      else c < |s'.conns| ==> s'.conns[c].inbox == [] && s'.conns[c].replies == []
  {
    if a.OfLoop? {
      LoopMovesOnlyItself(s, a.c, a.loop);
    }
  }

  /** What loop `c` has read, followed by what it has not, is what the backend delivered to it. */
  lemma {:induction false} ReadsAreFaithful(tr: seq<State>, acts: seq<Action>, n: nat, c: nat)
    requires IsRun(tr, acts) && n < |tr|
    ensures Faithful(tr[n], acts[..n], c)
  {
    if n > 0 {
      var s, a := tr[n - 1], acts[n - 1];
      ReadsAreFaithful(tr, acts, n - 1, c);
      RunsKeepInv(tr, acts, n - 1);
      assert acts[..n] == acts[..n - 1] + [a];
      if a.OfLoop? && a.c == c {
        ReadingIsFaithful(s, acts[..n - 1], c, a.loop);
      } else if a.OfEnv? && a.env.Deliver? && a.env.c == c {
        DeliveringIsFaithful(s, acts[..n - 1], c, a.env.item);
      } else {
        OtherStepsAreFaithful(s, acts[..n - 1], c, a);
      }
    }
  }

  // ----- what makes goroutines stop -----

  /** Loop `c` leaves its reading loop only after a failed read or a failed answer, and after every one of them. */
  predicate HasLeft(pc: LoopPc) {
    pc.Exiting? || pc.Holding? || pc.Deleted? || pc.Closing? || pc.Done?
  }

  predicate Fails(a: Action, c: nat) {
    a.OfLoop? && a.c == c && (a.loop.ReadError? || a.loop.AnswerError?)
  }

  lemma StepLeaves(s: State, a: Action, c: nat)
    requires RunInv(s) && Enabled(s, a) && c < |Step(s, a).conns|
    ensures HasLeft(Step(s, a).conns[c].pc) <==> (c < |s.conns| && HasLeft(s.conns[c].pc)) || Fails(a, c)
    ensures Fails(a, c) ==> Step(s, a).conns[c].pc.Exiting?
  {
    if a.OfLoop? {
      LoopMovesOnlyItself(s, a.c, a.loop);
      if a.c == c {
        LoopStepLeaves(s, c, a.loop);
      }
    } else if a.OfRun? {
      RunStepLeaves(s, a.run, c);
    }
  }

  lemma LoopStepLeaves(s: State, c: nat, a: LoopAction)
    requires LoopEnabled(s, c, a)
    ensures var pc := LoopStep(s, c, a).conns[c].pc;
      if a.ReadError? || a.AnswerError? then pc.Exiting? else HasLeft(pc) <==> HasLeft(s.conns[c].pc)
  {
  }

  lemma RunStepLeaves(s: State, a: RunAction, c: nat)
    requires RunInv(s) && RunEnabled(s, a) && c < |RunStep(s, a).conns|
    ensures HasLeft(RunStep(s, a).conns[c].pc) <==> c < |s.conns| && HasLeft(s.conns[c].pc)
  {
  }

  lemma {:induction false} LoopLeavesExactlyOnFailure(tr: seq<State>, acts: seq<Action>, n: nat, c: nat)
    requires IsRun(tr, acts) && n < |tr| && c < |tr[n].conns|
    ensures HasLeft(tr[n].conns[c].pc) <==> exists i :: 0 <= i < n && Fails(acts[i], c)
    ensures n > 0 && Fails(acts[n - 1], c) ==> tr[n].conns[c].pc.Exiting?
  {
    RunsKeepInv(tr, acts, n - 1);
    StepLeaves(tr[n - 1], acts[n - 1], c);
    if c < |tr[n - 1].conns| {
      LoopLeavesExactlyOnFailure(tr, acts, n - 1, c);
    } else if i :| 0 <= i < n - 1 && Fails(acts[i], c) {
      ConnsOnlyGrow(tr, acts, i, n - 1);
    }
  }

  lemma {:induction false} ConnsOnlyGrow(tr: seq<State>, acts: seq<Action>, i: nat, j: nat)
    requires IsRun(tr, acts) && i <= j < |tr|
    ensures |tr[i].conns| <= |tr[j].conns|
    decreases j
  {
    if i < j {
      ConnsOnlyGrow(tr, acts, i, j - 1);
      StepKeepsConns(tr[j - 1], acts[j - 1]);
    }
  }

  lemma StepKeepsConns(s: State, a: Action)
    requires Enabled(s, a)
    ensures |s.conns| <= |Step(s, a).conns|
  {
    if a.OfLoop? {
      LoopMovesOnlyItself(s, a.c, a.loop);
    }
  }

  /** `Run` stops exactly when a receive fails. */
  lemma {:induction false} RunStopsExactlyOnFailure(tr: seq<State>, acts: seq<Action>, n: nat)
    requires IsRun(tr, acts) && n < |tr|
    ensures tr[n].run.Stopped? <==> exists i :: 0 <= i < n && acts[i] == OfRun(ReceiveError)
  {
    if n > 0 {
      RunStopsExactlyOnFailure(tr, acts, n - 1);
      StepStops(tr[n - 1], acts[n - 1]);
    }
  }

  lemma StepStops(s: State, a: Action)
    requires Enabled(s, a)
    ensures Step(s, a).run.Stopped? <==> s.run.Stopped? || a == OfRun(ReceiveError)
  {
    if a.OfLoop? {
      LoopMovesOnlyItself(s, a.c, a.loop);
    }
  }

  predicate CloseIsTold(s: State, acts: seq<Action>) {
    && (!s.listenerOpen <==> OfClose(CloseListener) in acts)
    && (s.closer.NotCalled? <==> s.listenerOpen)
    && (s.closer.Returned? <==> OfClose(ReleaseClose) in acts)
  }

  /** The listener is closed exactly if `Close` has closed it, and `Close` has returned exactly if it has let go. */
  lemma {:induction false} CloseFollowsItsSteps(tr: seq<State>, acts: seq<Action>, n: nat)
    requires IsRun(tr, acts) && n < |tr|
    ensures CloseIsTold(tr[n], acts[..n])
  {
    if n > 0 {
      CloseFollowsItsSteps(tr, acts, n - 1);
      CloseStaysTold(tr, acts, n - 1);
    }
  }

  lemma CloseStaysTold(tr: seq<State>, acts: seq<Action>, i: nat)
    requires IsRun(tr, acts) && i < |acts| && CloseIsTold(tr[i], acts[..i])
    ensures CloseIsTold(tr[i + 1], acts[..i + 1])
  {
    assert acts[..i + 1] == acts[..i] + [acts[i]];
    StepCloses(tr[i], acts[i]);
  }

  lemma StepCloses(s: State, a: Action)
    requires Enabled(s, a)
    ensures var s' := Step(s, a);
      && s'.listenerOpen == (s.listenerOpen && a != OfClose(CloseListener))
      && (s'.closer.NotCalled? <==> s.closer.NotCalled? && a != OfClose(CloseListener))
      && (s'.closer.Returned? <==> s.closer.Returned? || a == OfClose(ReleaseClose))
  {
    if a.OfLoop? {
      LoopMovesOnlyItself(s, a.c, a.loop);
    }
  }

  /** A failing dial or write costs the datagram in hand and nothing else: `Run` is ready for the next. */
  lemma FailureCostsOneDatagram(tr: seq<State>, acts: seq<Action>, i: nat)
    requires IsRun(tr, acts) && i < |acts| && (acts[i] == OfRun(DialError) || acts[i] == OfRun(SendError))
    ensures tr[i + 1].run.Waiting? && tr[i + 1].table == tr[i].table && tr[i + 1].conns == tr[i].conns
    ensures tr[i + 1].toBackend == tr[i].toBackend && !tr[i + 1].lock.ByRun?
  {
    RunsKeepInv(tr, acts, i);
  }

  // ----- every datagram opens its client's flow -----

  /** `Run` holds the datagram and has not yet found or made a connection for it. */
  predicate Tracking(s: State, d: Datagram) {
    (s.run.Got? || s.run.Locked? || s.run.Missed? || s.run.Dialled?) && s.run.d == d
  }

  lemma StepTracks(s: State, a: Action, d: Datagram, s': State)
    requires Inv(s) && Enabled(s, a) && Tracking(s, d) && a != OfRun(DialError) && s' == Step(s, a)
    ensures Tracking(s', d) || d.key in s'.table
  {
    if a.OfLoop? {
      LoopMovesOnlyItself(s, a.c, a.loop);
    }
  }

  lemma ReceiveTracks(s: State, from: Addr, payload: Payload, s': State)
    requires Enabled(s, OfRun(Receive(from, payload))) && s' == Step(s, OfRun(Receive(from, payload)))
    ensures Tracking(s', Datagram(from, NewConnTrackKey(from), payload))
  {
  }

  lemma NextTracks(tr: seq<State>, acts: seq<Action>, i: nat, d: Datagram)
    requires IsRun(tr, acts) && i < |acts| && Tracking(tr[i], d) && acts[i] != OfRun(DialError)
    ensures Tracking(tr[i + 1], d) || d.key in tr[i + 1].table
  {
    RunsKeepInv(tr, acts, i);
    StepTracks(tr[i], acts[i], d, tr[i + 1]);
  }

  lemma {:induction false} TrackedOnward(tr: seq<State>, acts: seq<Action>, i: nat, j: nat, d: Datagram)
    requires IsRun(tr, acts) && i <= j < |tr| && Tracking(tr[i], d)
    requires forall k :: i <= k < j ==> acts[k] != OfRun(DialError)
    requires forall k :: i < k <= j ==> d.key !in tr[k].table
    ensures Tracking(tr[j], d)
    decreases j
  {
    if i < j {
      TrackedOnward(tr, acts, i, j - 1, d);
      NextTracks(tr, acts, j - 1, d);
    }
  }

  /**
    Unless the dial fails, an entry for the sender of every datagram that arrives, empty ones included, is in
    the table before `Run` is ready for the next: as long as there has been none, `Run` still holds it.
   */
  lemma EveryDatagramIsTracked(tr: seq<State>, acts: seq<Action>, i: nat, j: nat, from: Addr, payload: Payload)
    requires IsRun(tr, acts) && i < j < |tr| && acts[i] == OfRun(Receive(from, payload))
    requires forall k :: i < k < j ==> acts[k] != OfRun(DialError)
    requires forall k :: i < k <= j ==> NewConnTrackKey(from) !in tr[k].table
    ensures Tracking(tr[j], Datagram(from, NewConnTrackKey(from), payload))
  {
    ReceiveTracks(tr[i], from, payload, tr[i + 1]);
    TrackedOnward(tr, acts, i + 1, j, Datagram(from, NewConnTrackKey(from), payload));
  }
}
