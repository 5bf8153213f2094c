/** The UDP relay loses nothing but what a failing dial or write makes it give up. */
module UdpDelivery {
  import opened ConnTrack
  import opened Subsequence
  import opened UdpProtocol
  import opened UdpInvariant
  import opened UdpHistory
  import opened UdpRelay

  /** `Run` gives up the datagram it holds. */
  predicate GivesUpRequest(a: Action) {
    a == OfRun(DialError) || a == OfRun(SendError)
  }

  /** A reply loop gives up the reply it holds. */
  predicate GivesUpReply(a: Action) {
    a.OfLoop? && a.loop.AnswerError?
  }

  // ----- requests -----

  ghost predicate AllForwarded(s: State, k: Key) {
    HandInv(s) && Concat(Forwarded(s.toBackend, k)) == TakenBytes(s, k)
  }

  lemma SendKeepsAllForwarded(s: State, s': State, j: nat, k: Key)
    requires AllForwarded(s, k) && s.run.Sending? && s.run.i <= j <= |s.run.d.payload|
    requires s'.run == SendFrom(s.run.d, s.run.c, j) && s'.received == s.received
    requires s'.toBackend == s.toBackend + [Sent(s.run.c, s.run.d, s.run.d.payload[s.run.i..j])]
    ensures AllForwarded(s', k)
  {
    ForwardedBytesSnoc(s.toBackend, Sent(s.run.c, s.run.d, s.run.d.payload[s.run.i..j]), k);
    TakenBytesAdvance(s, s', j, k);
  }

  lemma RunKeepsAllForwarded(s: State, a: RunAction, k: Key)
    requires RunInv(s) && AllForwarded(s, k) && RunEnabled(s, a) && !GivesUpRequest(OfRun(a))
    ensures AllForwarded(RunStep(s, a), k)
  {
    var s' := RunStep(s, a);
    if a.Receive? {
      ReceiveKeepsRequests(s, a, k);
    } else if a.Send? {
      SendKeepsAllForwarded(s, s', s.run.i + a.n, k);
    } else if InHand(s.run) && !InHand(s'.run) {
      assert s.run.d.payload == [];
      TakenBytesAdvance(s, s', 0, k);
    } else {
      assert InHand(s.run) ==> TakenBytes(s', k) == TakenBytes(s, k);
    }
  }

  lemma {:induction false} RunForwardsAll(tr: seq<State>, acts: seq<Action>, n: nat, k: Key)
    requires IsRun(tr, acts) && n < |tr| && forall i :: 0 <= i < |acts| ==> !GivesUpRequest(acts[i])
    ensures AllForwarded(tr[n], k)
  {
    if n > 0 {
      RunForwardsAll(tr, acts, n - 1, k);
      RunsKeepInv(tr, acts, n - 1);
      StepForwardsAll(tr[n - 1], acts[n - 1], tr[n], k);
    }
  }

  lemma StepForwardsAll(s: State, a: Action, s': State, k: Key)
    requires RunInv(s) && AllForwarded(s, k) && Enabled(s, a) && s' == Step(s, a) && !GivesUpRequest(a)
    ensures AllForwarded(s', k)
  {
    if a.OfRun? {
      RunKeepsAllForwarded(s, a.run, k);
    } else {
      OtherStepsLeaveRequests(s, a);
      SameForwarded(s, s', k);
    }
  }

  lemma SameForwarded(s: State, s': State, k: Key)
    requires s'.run == s.run && s'.received == s.received && s'.toBackend == s.toBackend && AllForwarded(s, k)
    ensures AllForwarded(s', k)
  {
  }

  /** Between datagrams, and without a failing dial or write, every byte that arrived has been forwarded. */
  lemma NoRequestIsLost(tr: seq<State>, acts: seq<Action>, n: nat, k: Key)
    requires IsRun(tr, acts) && n < |tr| && forall i :: 0 <= i < |acts| ==> !GivesUpRequest(acts[i])
    requires !InHand(tr[n].run)
    ensures Concat(Forwarded(tr[n].toBackend, k)) == Concat(Requests(Arrived(acts[..n]), k))
  {
    RunForwardsAll(tr, acts, n, k);
    ReceivedIsWhatArrived(tr, acts, n);
    assert Concat(Requests(tr[n].received, k)) + [] == Concat(Requests(tr[n].received, k));
  }

  /** A selection that carries as many bytes leaves out nothing, if there is nothing empty to leave out. */
  lemma {:induction false} FullSelection(a: seq<Payload>, b: seq<Payload>)
    requires IsSubsequence(a, b) && forall p :: p in b ==> p != []
    ensures |Concat(a)| <= |Concat(b)|
    ensures |Concat(a)| == |Concat(b)| ==> a == b
    decreases |b|
  {
    if b != [] {
      var b' := b[..|b| - 1];
      assert b[|b| - 1] in b && forall p :: p in b' ==> p in b;
      if a != [] && a[|a| - 1] == b[|b| - 1] && IsSubsequence(a[..|a| - 1], b') {
        FullSelection(a[..|a| - 1], b');
        assert a == a[..|a| - 1] + [a[|a| - 1]] && b == b' + [b[|b| - 1]];
      } else if a != [] {
        FullSelection(a, b');
      }
    }
  }

  lemma {:induction false} RequestsAreNonEmpty(h: seq<Datagram>, k: Key)
    ensures forall p :: p in Requests(h, k) ==> p != []
  {
    if h != [] {
      RequestsAreNonEmpty(h[..|h| - 1], k);
    }
  }

  /** If moreover every write is all or nothing, the backend got exactly the client's non-empty datagrams. */
  lemma EveryDatagramArrives(tr: seq<State>, acts: seq<Action>, n: nat, k: Key)
    requires IsRun(tr, acts) && n < |tr| && !InHand(tr[n].run)
    requires forall i :: 0 <= i < |acts| ==> !GivesUpRequest(acts[i]) && AllOrNothing(tr[i], acts[i])
    ensures Forwarded(tr[n].toBackend, k) == Requests(Arrived(acts[..n]), k)
  {
    NoRequestIsLost(tr, acts, n, k);
    RelaysDatagrams(tr, acts, n, k);
    RequestsAreNonEmpty(Arrived(acts[..n]), k);
    FullSelection(Forwarded(tr[n].toBackend, k), Requests(Arrived(acts[..n]), k));
  }

  // ----- replies -----

  ghost predicate AllAnswered(s: State, k: Key) {
    Concat(Answers(s.toClient, k)) == TakenReplyBytes(s, k)
  }

  lemma AnswerKeepsAllAnswered(s: State, s': State, c: nat, j: nat)
    requires TableInv(s) && RunInv(s) && NewestInv(s) && TimerInv(s)
    requires c < |s.conns| && s.conns[c].pc.Replying? && s.conns[c].pc.i <= j <= |s.conns[c].pc.reply|
    requires AllAnswered(s, s.conns[c].key)
    requires s'.conns == s.conns[c := s.conns[c].(pc := AnswerFrom(s.conns[c].pc.reply, j))] && s'.table == s.table
    requires var conn := s.conns[c];
      s'.toClient == s.toClient + [Answered(c, conn.client, conn.key, conn.pc.reply[conn.pc.i..j])]
    ensures AllAnswered(s', s.conns[c].key)
  {
    var k, more := s.conns[c].key, s.conns[c].pc.reply[s.conns[c].pc.i..j];
    AnswersBytesSnoc(s.toClient, Answered(c, s.conns[c].client, k, more), k);
    TakenReplyBytesAdvance(s, s', c, j);
  }

  lemma AnsweringKeepsAllAnswered(s: State, c: nat, n: nat)
    requires Inv(s) && LoopEnabled(s, c, Answer(n)) && AllAnswered(s, s.conns[c].key)
    ensures AllAnswered(LoopStep(s, c, Answer(n)), s.conns[c].key)
  {
    AnswerKeepsAllAnswered(s, LoopStep(s, c, Answer(n)), c, s.conns[c].pc.i + n);
  }

  lemma LoopKeepsAllAnswered(s: State, c: nat, a: LoopAction, k: Key)
    requires Inv(s) && LoopEnabled(s, c, a) && AllAnswered(s, k) && !a.AnswerError?
    ensures AllAnswered(LoopStep(s, c, a), k)
  {
    var s' := LoopStep(s, c, a);
    if s.conns[c].key == k && a.Answer? {
      AnsweringKeepsAllAnswered(s, c, a.n);
    } else if s.conns[c].key == k && a.ReadItem? && s.conns[c].inbox[0].Reply? {
      ReadReplyKeepsAnswers(s, s', c, s.conns[c].inbox[0].payload);
    } else {
      OtherLoopStepsLeaveReplies(s, c, a, k);
    }
  }

  lemma {:induction false} RunAnswersAll(tr: seq<State>, acts: seq<Action>, n: nat, k: Key)
    requires IsRun(tr, acts) && n < |tr| && forall i :: 0 <= i < |acts| ==> !GivesUpReply(acts[i])
    ensures AllAnswered(tr[n], k)
  {
    if n > 0 {
      RunAnswersAll(tr, acts, n - 1, k);
      RunsKeepInv(tr, acts, n - 1);
      StepAnswersAll(tr[n - 1], acts[n - 1], tr[n], k);
    }
  }

  lemma StepAnswersAll(s: State, a: Action, s': State, k: Key)
    requires Inv(s) && AllAnswered(s, k) && Enabled(s, a) && s' == Step(s, a) && !GivesUpReply(a)
    ensures AllAnswered(s', k)
  {
    if a.OfLoop? {
      LoopKeepsAllAnswered(s, a.c, a.loop, k);
    } else {
      OtherStepsLeaveReplies(s, a, k);
    }
  }

  /** Between replies, and without a failing write, every byte read for a client has been written to it. */
  lemma NoReplyIsLost(tr: seq<State>, acts: seq<Action>, n: nat, k: Key)
    requires IsRun(tr, acts) && n < |tr| && forall i :: 0 <= i < |acts| ==> !GivesUpReply(acts[i])
    requires !Busy(tr[n], k)
    ensures Concat(Answers(tr[n].toClient, k)) == Concat(ReadFor(tr[n].conns, acts[..n], k))
  {
    RunAnswersAll(tr, acts, n, k);
    HistoriesAreFaithful(tr, acts, n, k);
  }
}
