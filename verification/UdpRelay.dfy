/**
  The UDP proxy refines a relay that, for each client, forwards an ordered and duplicate-free
  selection of what it was given: requests towards the backend, replies towards the client.
 */
module UdpRelay {
  import opened ConnTrack
  import opened Subsequence
  import opened UdpProtocol
  import opened UdpInvariant
  import opened UdpHistory

  // ----- the traffic of one client, read off the histories -----

  /** The non-empty datagrams received from the client with key `k`. */
  ghost function Requests(h: seq<Datagram>, k: Key): seq<Payload> {
    if h == [] then [] else
      var d := h[|h| - 1];
      Requests(h[..|h| - 1], k) + (if d.key == k && d.payload != [] then [d.payload] else [])
  }

  /** What was written to the backend for that client. */
  ghost function Forwarded(h: seq<Sent>, k: Key): seq<Payload> {
    if h == [] then [] else
      var x := h[|h| - 1];
      Forwarded(h[..|h| - 1], k) + (if x.d.key == k then [x.bytes] else [])
  }

  /** The replies read on the client's own connections, oldest connection first. */
  ghost function Replies(conns: seq<Conn>, k: Key): seq<Payload> {
    if conns == [] then [] else
      var conn := conns[|conns| - 1];
      Replies(conns[..|conns| - 1], k) + (if conn.key == k then conn.replies else [])
  }

  /** What was written to the client. */
  ghost function Answers(h: seq<Answered>, k: Key): seq<Payload> {
    if h == [] then [] else
      var x := h[|h| - 1];
      Answers(h[..|h| - 1], k) + (if x.key == k then [x.bytes] else [])
  }

  ghost function Concat(ps: seq<Payload>): Payload {
    if ps == [] then [] else Concat(ps[..|ps| - 1]) + ps[|ps| - 1]
  }

  lemma ConcatSnoc(ps: seq<Payload>, p: Payload)
    ensures Concat(ps + [p]) == Concat(ps) + p
  {
    assert (ps + [p])[..|ps|] == ps;
  }

  lemma ForwardedSnoc(h: seq<Sent>, x: Sent, k: Key)
    ensures Forwarded(h + [x], k) == Forwarded(h, k) + (if x.d.key == k then [x.bytes] else [])
  {
    assert (h + [x])[..|h|] == h;
  }

  lemma AnswersSnoc(h: seq<Answered>, x: Answered, k: Key)
    ensures Answers(h + [x], k) == Answers(h, k) + (if x.key == k then [x.bytes] else [])
  {
    assert (h + [x])[..|h|] == h;
  }

  /** A reply read on the newest connection of its client comes last in the client's replies. */
  lemma {:induction false} RepliesUpdate(conns: seq<Conn>, c: nat, conn: Conn, more: seq<Payload>, k: Key)
    requires c < |conns| && conn.key == conns[c].key && conn.replies == conns[c].replies + more
    requires more == [] || forall e :: c < e < |conns| ==> conns[e].key != conn.key
    ensures Replies(conns[c := conn], k) == Replies(conns, k) + (if conn.key == k then more else [])
  {
    var n := |conns| - 1;
    if c == n {
      assert conns[c := conn][..n] == conns[..n];
    } else {
      assert conns[c := conn][..n] == conns[..n][c := conn];
      RepliesUpdate(conns[..n], c, conn, more, k);
      assert conns[c := conn][n] == conns[n];
    }
  }

  // ----- requests -----

  /** `Run` holds a datagram it has not finished with. */
  predicate InHand(run: RunPc) {
    !run.Waiting? && !run.Stopped?
  }

  function HandOffset(run: RunPc): nat {
    if run.Sending? then run.i else 0
  }

  ghost predicate HandInv(s: State) {
    InHand(s.run) ==>
      && s.received != [] && s.received[|s.received| - 1] == s.run.d
      && HandOffset(s.run) <= |s.run.d.payload|
  }

  /** The datagrams of client `k` that `Run` has dealt with. */
  ghost function TakenRequests(s: State, k: Key): seq<Payload>
    requires HandInv(s)
  {
    Requests(if InHand(s.run) then s.received[..|s.received| - 1] else s.received, k)
  }

  /** The bytes of client `k` that `Run` has dealt with. */
  ghost function TakenBytes(s: State, k: Key): Payload
    requires HandInv(s)
  {
    Concat(TakenRequests(s, k))
    + (if InHand(s.run) && s.run.d.key == k then s.run.d.payload[..HandOffset(s.run)] else [])
  }

  ghost predicate RequestInv(s: State, k: Key) {
    HandInv(s) && IsSubsequence(Concat(Forwarded(s.toBackend, k)), TakenBytes(s, k))
  }

  ghost predicate WholeRequestInv(s: State, k: Key) {
    HandInv(s) && HandOffset(s.run) == 0 && IsSubsequence(Forwarded(s.toBackend, k), TakenRequests(s, k))
  }

  /** The datagram in hand, counted as one of the received ones. */
  lemma HandIsLast(s: State, k: Key)
    requires HandInv(s) && InHand(s.run)
    ensures Requests(s.received, k)
         == TakenRequests(s, k) + (if s.run.d.key == k && s.run.d.payload != [] then [s.run.d.payload] else [])
    ensures Concat(Requests(s.received, k))
         == Concat(TakenRequests(s, k)) + (if s.run.d.key == k then s.run.d.payload else [])
  {
    var d := s.run.d;
    if d.key == k && d.payload != [] {
      ConcatSnoc(TakenRequests(s, k), d.payload);
    } else {
      assert Requests(s.received, k) == TakenRequests(s, k);
      assert Concat(TakenRequests(s, k)) + [] == Concat(TakenRequests(s, k));
    }
  }

  lemma ReceiveKeepsRequests(s: State, a: RunAction, k: Key)
    requires HandInv(s) && a.Receive? && RunEnabled(s, a)
    ensures HandInv(RunStep(s, a)) && TakenBytes(RunStep(s, a), k) == TakenBytes(s, k)
    ensures RequestInv(s, k) ==> RequestInv(RunStep(s, a), k)
  {
    var s' := RunStep(s, a);
    assert s'.received[..|s'.received| - 1] == s.received;
    assert TakenBytes(s', k) == TakenBytes(s, k);
  }

  lemma Extend(base: Payload, p: Payload, i: nat, j: nat)
    requires i <= j <= |p|
    ensures (base + p[..i]) + p[i..j] == base + p[..j]
    ensures j == |p| ==> base + p[..j] == base + p
  {
    assert p[..i] + p[i..j] == p[..j];
    assert j == |p| ==> p[..j] == p;
  }

  /** `Run` moving on within its datagram, or past its end, to offset `j`. */
  lemma TakenBytesAdvance(s: State, s': State, j: nat, k: Key)
    requires HandInv(s) && HandInv(s') && InHand(s.run) && s'.received == s.received
    requires HandOffset(s.run) <= j <= |s.run.d.payload|
    requires if InHand(s'.run) then HandOffset(s'.run) == j else j == |s.run.d.payload|
    ensures TakenBytes(s', k)
         == TakenBytes(s, k) + (if s.run.d.key == k then s.run.d.payload[HandOffset(s.run)..j] else [])
  {
    var d := s.run.d;
    var base := Concat(TakenRequests(s, k));
    HandIsLast(s, k);
    if d.key == k {
      Extend(base, d.payload, HandOffset(s.run), j);
      assert TakenBytes(s', k) == base + d.payload[..j];
    } else {
      assert TakenBytes(s', k) == base + [];
    }
  }

  lemma ForwardedBytesSnoc(h: seq<Sent>, x: Sent, k: Key)
    ensures Concat(Forwarded(h + [x], k)) == Concat(Forwarded(h, k)) + (if x.d.key == k then x.bytes else [])
  {
    ForwardedSnoc(h, x, k);
    if x.d.key == k {
      ConcatSnoc(Forwarded(h, k), x.bytes);
    } else {
      assert Forwarded(h, k) + [] == Forwarded(h, k);
    }
  }

  lemma SendKeepsRequests(s: State, s': State, j: nat, k: Key)
    requires RequestInv(s, k) && s.run.Sending? && s.run.i <= j <= |s.run.d.payload|
    requires s'.run == SendFrom(s.run.d, s.run.c, j) && s'.received == s.received
    requires s'.toBackend == s.toBackend + [Sent(s.run.c, s.run.d, s.run.d.payload[s.run.i..j])]
    ensures RequestInv(s', k)
  {
    var d, i := s.run.d, s.run.i;
    var more := if d.key == k then d.payload[i..j] else [];
    ForwardedBytesSnoc(s.toBackend, Sent(s.run.c, d, d.payload[i..j]), k);
    TakenBytesAdvance(s, s', j, k);
    Take(Concat(Forwarded(s.toBackend, k)), TakenBytes(s, k), more);
  }

  /** Giving up the datagram in hand, wherever its writing stands. */
  lemma DropKeepsRequests(s: State, s': State, k: Key)
    requires RequestInv(s, k) && InHand(s.run) && !InHand(s'.run)
    requires s'.received == s.received && s'.toBackend == s.toBackend
    ensures RequestInv(s', k)
  {
    var d := s.run.d;
    TakenBytesAdvance(s, s', |d.payload|, k);
    Skip(Concat(Forwarded(s.toBackend, k)), TakenBytes(s, k),
         if d.key == k then d.payload[HandOffset(s.run)..|d.payload|] else []);
  }

  lemma RunKeepsRequests(s: State, a: RunAction, k: Key)
    requires RequestInv(s, k) && RunEnabled(s, a)
    ensures RequestInv(RunStep(s, a), k)
  {
    if a.Receive? {
      ReceiveKeepsRequests(s, a, k);
    } else if a.Send? {
      SendKeepsRequests(s, RunStep(s, a), s.run.i + a.n, k);
    } else if InHand(s.run) && !InHand(RunStep(s, a).run) {
      DropKeepsRequests(s, RunStep(s, a), k);
    } else {
      assert InHand(s.run) ==> TakenBytes(RunStep(s, a), k) == TakenBytes(s, k);
    }
  }

  /** Every write of datagram data is all or nothing, as the kernel's are. */
  predicate AllOrNothing(s: State, a: Action)
    requires Enabled(s, a)
  {
    match a
    case OfRun(Send(n)) => n == |s.run.d.payload| - s.run.i
    case OfLoop(c, Answer(n)) => n == |s.conns[c].pc.reply| - s.conns[c].pc.i
    case _ => true
  }

  lemma RunKeepsWholeRequests(s: State, a: RunAction, k: Key)
    requires RunInv(s) && WholeRequestInv(s, k) && RunEnabled(s, a) && AllOrNothing(s, OfRun(a))
    ensures WholeRequestInv(RunStep(s, a), k)
  {
    var s' := RunStep(s, a);
    if a.Receive? {
      assert s'.received[..|s'.received| - 1] == s.received;
    } else if a.Send? {
      HandIsLast(s, k);
      SendKeepsWholeRequests(s, s', k);
    } else if InHand(s.run) && !InHand(s'.run) {
      HandIsLast(s, k);
      Skip(Forwarded(s.toBackend, k), TakenRequests(s, k),
           if s.run.d.key == k && s.run.d.payload != [] then [s.run.d.payload] else []);
    }
  }

  lemma SendKeepsWholeRequests(s: State, s': State, k: Key)
    requires WholeRequestInv(s, k) && s.run.Sending? && s.run.d.payload != []
    requires s'.run == Waiting && s'.received == s.received
    requires s'.toBackend == s.toBackend + [Sent(s.run.c, s.run.d, s.run.d.payload[0..|s.run.d.payload|])]
    ensures WholeRequestInv(s', k)
  {
    var d := s.run.d;
    assert d.payload[0..|d.payload|] == d.payload;
    HandIsLast(s, k);
    ForwardedSnoc(s.toBackend, Sent(s.run.c, d, d.payload), k);
    Take(Forwarded(s.toBackend, k), TakenRequests(s, k), if d.key == k then [d.payload] else []);
  }

  // ----- replies -----

  /** The live connection of client `k` is in the middle of handing a reply to the client. */
  predicate Busy(s: State, k: Key) {
    k in s.table && s.table[k] < |s.conns| && s.conns[s.table[k]].pc.Replying?
  }

  /** The bytes of client `k`'s replies that its loops have dealt with. */
  ghost function TakenReplyBytes(s: State, k: Key): Payload {
    var all := Replies(s.conns, k);
    if Busy(s, k) && all != [] && s.conns[s.table[k]].pc.i <= |s.conns[s.table[k]].pc.reply| then
      Concat(all[..|all| - 1]) + s.conns[s.table[k]].pc.reply[..s.conns[s.table[k]].pc.i]
    else
      Concat(all)
  }

  ghost function TakenReplies(s: State, k: Key): seq<Payload> {
    var all := Replies(s.conns, k);
    if Busy(s, k) && all != [] then all[..|all| - 1] else all
  }

  ghost predicate AnswerInv(s: State, k: Key) {
    IsSubsequence(Concat(Answers(s.toClient, k)), TakenReplyBytes(s, k))
  }

  ghost predicate WholeAnswerInv(s: State, k: Key) {
    IsSubsequence(Answers(s.toClient, k), TakenReplies(s, k))
  }

  /** No reply is partly written. */
  ghost predicate RepliesUnbroken(s: State) {
    forall c :: 0 <= c < |s.conns| && s.conns[c].pc.Replying? ==> s.conns[c].pc.i == 0
  }

  /** The last reply of a client's newest connection is the client's last reply. */
  lemma {:induction false} RepliesEnd(conns: seq<Conn>, c: nat)
    requires c < |conns| && conns[c].replies != []
    requires forall e :: c < e < |conns| ==> conns[e].key != conns[c].key
    ensures var all := Replies(conns, conns[c].key);
      all != [] && all[|all| - 1] == conns[c].replies[|conns[c].replies| - 1]
  {
    if c < |conns| - 1 {
      RepliesEnd(conns[..|conns| - 1], c);
    }
  }

  /** While a loop hands over a reply, that reply is the last one read for its client. */
  lemma BusyReplyIsLast(s: State, c: nat)
    requires TableInv(s) && RunInv(s) && NewestInv(s) && TimerInv(s)
    requires c < |s.conns| && s.conns[c].pc.Replying?
    ensures var k, all := s.conns[c].key, Replies(s.conns, s.conns[c].key);
      && Busy(s, k) && s.table[k] == c && all != [] && all[|all| - 1] == s.conns[c].pc.reply
      && s.conns[c].pc.i < |s.conns[c].pc.reply|
  {
    assert ConnTimerInv(s.conns[c], s.now);
    RepliesEnd(s.conns, c);
  }

  lemma AnswersBytesSnoc(h: seq<Answered>, x: Answered, k: Key)
    ensures Concat(Answers(h + [x], k)) == Concat(Answers(h, k)) + (if x.key == k then x.bytes else [])
  {
    AnswersSnoc(h, x, k);
    if x.key == k {
      ConcatSnoc(Answers(h, k), x.bytes);
    } else {
      assert Answers(h, k) + [] == Answers(h, k);
    }
  }

  /** A step that leaves client `k`'s replies, answers and reply in progress alone. */
  ghost predicate Untouched(s: State, s': State, k: Key) {
    && Replies(s'.conns, k) == Replies(s.conns, k)
    && Answers(s'.toClient, k) == Answers(s.toClient, k)
    && Busy(s', k) == Busy(s, k)
    && (Busy(s, k) ==> s'.conns[s'.table[k]].pc == s.conns[s.table[k]].pc)
  }

  lemma UntouchedKeepsAnswers(s: State, s': State, k: Key)
    requires Untouched(s, s', k) && AnswerInv(s, k)
    ensures AnswerInv(s', k)
  {
  }

  lemma RunLeavesReplies(s: State, a: RunAction, k: Key)
    requires TableInv(s) && RunInv(s) && RunEnabled(s, a)
    ensures Untouched(s, RunStep(s, a), k)
  {
    var s' := RunStep(s, a);
    match a
    case Dial =>
      assert s'.conns[..|s.conns|] == s.conns;
      assert Replies(s.conns, k) + [] == Replies(s.conns, k);
    case Spawn => RepliesUpdate(s.conns, s.run.c, s'.conns[s.run.c], [], k);
    case _ =>
  }

  lemma CloseLeavesReplies(s: State, a: CloseAction, k: Key)
    requires CloseEnabled(s, a)
    ensures Untouched(s, CloseStep(s, a), k)
  {
    if a.Sweep? {
      RepliesUpdate(s.conns, a.c, CloseStep(s, a).conns[a.c], [], k);
    }
  }

  lemma EnvLeavesReplies(s: State, a: EnvAction, k: Key)
    requires EnvEnabled(s, a)
    ensures Untouched(s, EnvStep(s, a), k)
  {
    if a.Deliver? {
      RepliesUpdate(s.conns, a.c, EnvStep(s, a).conns[a.c], [], k);
    }
  }

  /** A loop step that neither reads, writes nor gives up a reply of client `k`. */
  lemma LoopLeavesReplies(s: State, c: nat, s': State, k: Key)
    requires TableInv(s) && RunInv(s) && LoopFrame(s, c, s')
    requires Answers(s'.toClient, k) == Answers(s.toClient, k)
    requires s.conns[c].key == k ==>
      s'.conns[c].replies == s.conns[c].replies && !s.conns[c].pc.Replying? && !s'.conns[c].pc.Replying?
    ensures Untouched(s, s', k)
  {
    var after := s'.conns[c];
    assert s'.conns == s.conns[c := after];
    if after.key != k {
      RepliesElsewhere(s.conns, c, after, k);
    } else {
      RepliesUpdate(s.conns, c, after, [], k);
    }
  }

  lemma {:induction false} RepliesElsewhere(conns: seq<Conn>, c: nat, conn: Conn, k: Key)
    requires c < |conns| && conn.key == conns[c].key && conn.key != k
    ensures Replies(conns[c := conn], k) == Replies(conns, k)
  {
    var n := |conns| - 1;
    if c == n {
      assert conns[c := conn][..n] == conns[..n];
    } else {
      assert conns[c := conn][..n] == conns[..n][c := conn];
      RepliesElsewhere(conns[..n], c, conn, k);
    }
  }

  /** Reading a reply: it joins the client's replies and is now the one being handed over. */
  lemma ReadReplyKeepsAnswers(s: State, s': State, c: nat, p: Payload)
    requires NewestInv(s) && TableInv(s) && RunInv(s)
    requires c < |s.conns| && s.conns[c].pc.Reading? && s'.table == s.table && s'.toClient == s.toClient
    requires |s'.conns| == |s.conns| && s'.conns == s.conns[c := s'.conns[c]] && s'.conns[c].key == s.conns[c].key
    requires s'.conns[c].replies == s.conns[c].replies + [p] && s'.conns[c].pc == AnswerFrom(p, 0)
    ensures TakenReplyBytes(s', s.conns[c].key) == TakenReplyBytes(s, s.conns[c].key)
    ensures WholeAnswerInv(s, s.conns[c].key) ==> WholeAnswerInv(s', s.conns[c].key)
  {
    var k := s.conns[c].key;
    var all := Replies(s.conns, k);
    assert s.table[k] == c && !Busy(s, k);
    assert Replies(s'.conns, k) == all + [p] by {
      RepliesUpdate(s.conns, c, s'.conns[c], [p], k);
    }
    if p == [] {
      ConcatSnoc(all, p);
      assert Concat(all) + [] == Concat(all);
      if WholeAnswerInv(s, k) {
        Skip(Answers(s.toClient, k), all, [p]);
      }
    } else {
      assert Busy(s', k) && (all + [p])[..|all|] == all;
      assert Concat(all) + p[..0] == Concat(all);
    }
  }

  /** The loop of connection `c` moving on within its reply, or past its end, to offset `j`. */
  lemma TakenReplyBytesAdvance(s: State, s': State, c: nat, j: nat)
    requires TableInv(s) && RunInv(s) && NewestInv(s) && TimerInv(s)
    requires c < |s.conns| && s.conns[c].pc.Replying? && s.conns[c].pc.i <= j <= |s.conns[c].pc.reply|
    requires s'.conns == s.conns[c := s.conns[c].(pc := AnswerFrom(s.conns[c].pc.reply, j))] && s'.table == s.table
    ensures TakenReplyBytes(s', s.conns[c].key)
         == TakenReplyBytes(s, s.conns[c].key) + s.conns[c].pc.reply[s.conns[c].pc.i..j]
  {
    var k, i, reply := s.conns[c].key, s.conns[c].pc.i, s.conns[c].pc.reply;
    var all := Replies(s.conns, k);
    BusyReplyIsLast(s, c);
    assert Replies(s'.conns, k) == all by {
      RepliesUpdate(s.conns, c, s'.conns[c], [], k);
    }
    var base := Concat(all[..|all| - 1]);
    Extend(base, reply, i, j);
    assert TakenReplyBytes(s, k) == base + reply[..i];
    assert TakenReplyBytes(s', k) == base + reply[..j];
  }

  /** A write towards the client, of bytes `i` to `j` of the reply in progress. */
  lemma AnswerKeepsAnswers(s: State, s': State, c: nat, j: nat)
    requires TableInv(s) && RunInv(s) && NewestInv(s) && TimerInv(s)
    requires c < |s.conns| && s.conns[c].pc.Replying? && s.conns[c].pc.i <= j <= |s.conns[c].pc.reply|
    requires AnswerInv(s, s.conns[c].key)
    requires s'.conns == s.conns[c := s.conns[c].(pc := AnswerFrom(s.conns[c].pc.reply, j))] && s'.table == s.table
    requires var conn := s.conns[c];
      s'.toClient == s.toClient + [Answered(c, conn.client, conn.key, conn.pc.reply[conn.pc.i..j])]
    ensures AnswerInv(s', s.conns[c].key)
  {
    var k, more := s.conns[c].key, s.conns[c].pc.reply[s.conns[c].pc.i..j];
    AnswersBytesSnoc(s.toClient, Answered(c, s.conns[c].client, k, more), k);
    TakenReplyBytesAdvance(s, s', c, j);
    Take(Concat(Answers(s.toClient, k)), TakenReplyBytes(s, k), more);
  }

  lemma AnswerKeepsWholeAnswers(s: State, s': State, c: nat)
    requires TableInv(s) && RunInv(s) && NewestInv(s) && TimerInv(s)
    requires c < |s.conns| && s.conns[c].pc.Replying?
    requires WholeAnswerInv(s, s.conns[c].key)
    requires s'.conns == s.conns[c := s.conns[c].(pc := Arming)] && s'.table == s.table
    requires s'.toClient == s.toClient + [Answered(c, s.conns[c].client, s.conns[c].key, s.conns[c].pc.reply)]
    ensures WholeAnswerInv(s', s.conns[c].key)
  {
    var k, reply := s.conns[c].key, s.conns[c].pc.reply;
    var all := Replies(s.conns, k);
    BusyReplyIsLast(s, c);
    RepliesUpdate(s.conns, c, s'.conns[c], [], k);
    assert Replies(s'.conns, k) == all == all[..|all| - 1] + [reply];
    AnswersSnoc(s.toClient, Answered(c, s.conns[c].client, k, reply), k);
    Take(Answers(s.toClient, k), TakenReplies(s, k), [reply]);
  }

  /** Giving up the reply in progress. */
  lemma AnswerErrorKeepsAnswers(s: State, s': State, c: nat)
    requires TableInv(s) && RunInv(s) && NewestInv(s) && TimerInv(s)
    requires c < |s.conns| && s.conns[c].pc.Replying?
    requires s'.conns == s.conns[c := s.conns[c].(pc := Exiting)]
    requires s'.table == s.table && s'.toClient == s.toClient
    ensures AnswerInv(s, s.conns[c].key) ==> AnswerInv(s', s.conns[c].key)
    ensures WholeAnswerInv(s, s.conns[c].key) ==> WholeAnswerInv(s', s.conns[c].key)
  {
    var k, i, reply := s.conns[c].key, s.conns[c].pc.i, s.conns[c].pc.reply;
    var all := Replies(s.conns, k);
    BusyReplyIsLast(s, c);
    RepliesUpdate(s.conns, c, s'.conns[c], [], k);
    assert Replies(s'.conns, k) == all == all[..|all| - 1] + [reply];
    if AnswerInv(s, k) {
      Extend(Concat(all[..|all| - 1]), reply, i, |reply|);
      Skip(Concat(Answers(s.toClient, k)), TakenReplyBytes(s, k), reply[i..|reply|]);
    }
    if WholeAnswerInv(s, k) {
      Skip(Answers(s.toClient, k), TakenReplies(s, k), [reply]);
    }
  }

  lemma OtherLoopStepsLeaveReplies(s: State, c: nat, a: LoopAction, k: Key)
    requires TableInv(s) && RunInv(s) && LoopEnabled(s, c, a)
    requires s.conns[c].key == k ==> !a.Answer? && !a.AnswerError? && (a.ReadItem? ==> s.conns[c].inbox[0].Refused?)
    ensures Untouched(s, LoopStep(s, c, a), k)
  {
    LoopStepFrame(s, c, a);
    var s' := LoopStep(s, c, a);
    if a.Answer? {
      AnswersSnoc(s.toClient, s'.toClient[|s.toClient|], k);
    }
    LoopLeavesReplies(s, c, s', k);
  }

  lemma LoopKeepsAnswers(s: State, c: nat, a: LoopAction, k: Key)
    requires Inv(s) && LoopEnabled(s, c, a) && AnswerInv(s, k)
    ensures AnswerInv(LoopStep(s, c, a), k)
  {
    var s' := LoopStep(s, c, a);
    if s.conns[c].key == k && a.Answer? {
      AnswerKeepsAnswers(s, s', c, s.conns[c].pc.i + a.n);
    } else if s.conns[c].key == k && a.AnswerError? {
      AnswerErrorKeepsAnswers(s, s', c);
    } else if s.conns[c].key == k && a.ReadItem? && s.conns[c].inbox[0].Reply? {
      ReadReplyKeepsAnswers(s, s', c, s.conns[c].inbox[0].payload);
    } else {
      OtherLoopStepsLeaveReplies(s, c, a, k);
      UntouchedKeepsAnswers(s, s', k);
    }
  }

  lemma LoopKeepsWholeAnswers(s: State, c: nat, a: LoopAction, k: Key)
    requires Inv(s) && RepliesUnbroken(s) && WholeAnswerInv(s, k)
    requires LoopEnabled(s, c, a) && AllOrNothing(s, OfLoop(c, a))
    ensures WholeAnswerInv(LoopStep(s, c, a), k)
  {
    var s' := LoopStep(s, c, a);
    if s.conns[c].key == k && a.Answer? {
      var reply := s.conns[c].pc.reply;
      assert reply[0..|reply|] == reply;
      AnswerKeepsWholeAnswers(s, s', c);
    } else if s.conns[c].key == k && a.AnswerError? {
      AnswerErrorKeepsAnswers(s, s', c);
    } else if s.conns[c].key == k && a.ReadItem? && s.conns[c].inbox[0].Reply? {
      ReadReplyKeepsAnswers(s, s', c, s.conns[c].inbox[0].payload);
    } else {
      OtherLoopStepsLeaveReplies(s, c, a, k);
    }
  }

  lemma StepKeepsRepliesUnbroken(s: State, a: Action)
    requires Enabled(s, a) && AllOrNothing(s, a) && RepliesUnbroken(s)
    ensures RepliesUnbroken(Step(s, a))
  {
  }

  // ----- whole runs -----

  lemma StepKeepsRequests(s: State, a: Action, k: Key)
    requires RunInv(s) && Enabled(s, a) && RequestInv(s, k)
    ensures RequestInv(Step(s, a), k)
  {
    if a.OfRun? {
      RunKeepsRequests(s, a.run, k);
    } else {
      OtherStepsLeaveRequests(s, a);
      SameRequests(s, Step(s, a), k);
    }
  }

  lemma OtherStepsLeaveRequests(s: State, a: Action)
    requires Enabled(s, a) && !a.OfRun?
    ensures var s' := Step(s, a); s'.run == s.run && s'.received == s.received && s'.toBackend == s.toBackend
  {
  }

  lemma SameRequests(s: State, s': State, k: Key)
    requires s'.run == s.run && s'.received == s.received && s'.toBackend == s.toBackend
    ensures RequestInv(s, k) ==> RequestInv(s', k)
    ensures WholeRequestInv(s, k) ==> WholeRequestInv(s', k)
  {
  }

  lemma StepKeepsWholeRequests(s: State, a: Action, k: Key)
    requires RunInv(s) && Enabled(s, a) && AllOrNothing(s, a) && WholeRequestInv(s, k)
    ensures WholeRequestInv(Step(s, a), k)
  {
    if a.OfRun? {
      RunKeepsWholeRequests(s, a.run, k);
    } else {
      OtherStepsLeaveRequests(s, a);
      SameRequests(s, Step(s, a), k);
    }
  }

  lemma OtherStepsLeaveReplies(s: State, a: Action, k: Key)
    requires TableInv(s) && RunInv(s) && Enabled(s, a) && !a.OfLoop?
    ensures Untouched(s, Step(s, a), k)
  {
    match a
    case OfRun(r) => RunLeavesReplies(s, r, k);
    case OfClose(x) => CloseLeavesReplies(s, x, k);
    case OfEnv(e) => EnvLeavesReplies(s, e, k);
  }

  lemma StepKeepsAnswers(s: State, a: Action, k: Key)
    requires Inv(s) && Enabled(s, a) && AnswerInv(s, k)
    ensures AnswerInv(Step(s, a), k)
  {
    if a.OfLoop? {
      LoopKeepsAnswers(s, a.c, a.loop, k);
    } else {
      OtherStepsLeaveReplies(s, a, k);
      UntouchedKeepsAnswers(s, Step(s, a), k);
    }
  }

  lemma StepKeepsWholeAnswers(s: State, a: Action, k: Key)
    requires Inv(s) && Enabled(s, a) && AllOrNothing(s, a) && RepliesUnbroken(s) && WholeAnswerInv(s, k)
    ensures WholeAnswerInv(Step(s, a), k)
  {
    if a.OfLoop? {
      LoopKeepsWholeAnswers(s, a.c, a.loop, k);
    } else {
      OtherStepsLeaveReplies(s, a, k);
    }
  }

  lemma StepKeepsRelay(s: State, a: Action, k: Key)
    requires Inv(s) && Enabled(s, a) && RequestInv(s, k) && AnswerInv(s, k)
    ensures RequestInv(Step(s, a), k) && AnswerInv(Step(s, a), k)
  {
    StepKeepsRequests(s, a, k);
    StepKeepsAnswers(s, a, k);
  }

  lemma StepKeepsWholeRelay(s: State, a: Action, k: Key)
    requires Inv(s) && Enabled(s, a) && AllOrNothing(s, a)
    requires WholeRequestInv(s, k) && RepliesUnbroken(s) && WholeAnswerInv(s, k)
    ensures WholeRequestInv(Step(s, a), k) && RepliesUnbroken(Step(s, a)) && WholeAnswerInv(Step(s, a), k)
  {
    StepKeepsRepliesUnbroken(s, a);
    StepKeepsWholeRequests(s, a, k);
    StepKeepsWholeAnswers(s, a, k);
  }

  lemma {:induction false} RunKeepsRelay(tr: seq<State>, acts: seq<Action>, n: nat, k: Key)
    requires IsRun(tr, acts) && n < |tr|
    ensures RequestInv(tr[n], k) && AnswerInv(tr[n], k)
  {
    if n > 0 {
      RunKeepsRelay(tr, acts, n - 1, k);
      RunsKeepInv(tr, acts, n - 1);
      StepKeepsRelay(tr[n - 1], acts[n - 1], k);
    }
  }

  lemma {:induction false} RunKeepsWholeRelay(tr: seq<State>, acts: seq<Action>, n: nat, k: Key)
    requires IsRun(tr, acts) && n < |tr|
    requires forall i :: 0 <= i < |acts| ==> AllOrNothing(tr[i], acts[i])
    ensures WholeRequestInv(tr[n], k) && RepliesUnbroken(tr[n]) && WholeAnswerInv(tr[n], k)
  {
    if n > 0 {
      RunKeepsWholeRelay(tr, acts, n - 1, k);
      RunsKeepInv(tr, acts, n - 1);
      StepKeepsWholeRelay(tr[n - 1], acts[n - 1], k);
    }
  }

  /** What is still in hand only adds to what was received. */
  lemma TakenBytesAreRequested(s: State, k: Key)
    requires RequestInv(s, k)
    ensures IsSubsequence(Concat(Forwarded(s.toBackend, k)), Concat(Requests(s.received, k)))
  {
    var all := Concat(Requests(s.received, k));
    assert all + [] == all;
    if InHand(s.run) {
      var gone := s.(run := Waiting);
      DropKeepsRequests(s, gone, k);
      assert TakenBytes(gone, k) == all;
    } else {
      assert TakenBytes(s, k) == all;
    }
  }

  lemma GivingUpLeavesReplies(s: State, c: nat, k: Key)
    requires c < |s.conns|
    ensures Replies(s.conns[c := s.conns[c].(pc := Exiting)], k) == Replies(s.conns, k)
  {
    var conn := s.conns[c].(pc := Exiting);
    assert conn.replies == s.conns[c].replies + [];
    RepliesUpdate(s.conns, c, conn, [], k);
    assert Replies(s.conns, k) + [] == Replies(s.conns, k);
  }

  lemma TakenBytesAreReplied(s: State, k: Key)
    requires Inv(s) && AnswerInv(s, k)
    ensures IsSubsequence(Concat(Answers(s.toClient, k)), Concat(Replies(s.conns, k)))
  {
    if Busy(s, k) {
      var c := s.table[k];
      var gone := s.(conns := s.conns[c := s.conns[c].(pc := Exiting)]);
      AnswerErrorKeepsAnswers(s, gone, c);
      GivingUpLeavesReplies(s, c, k);
      assert !Busy(gone, k);
    }
  }

  // ----- told by what came in -----

  /** The replies delivered to and read on the client's own connections, oldest connection first. */
  ghost function ReadFor(conns: seq<Conn>, acts: seq<Action>, k: Key): seq<Payload> {
    if conns == [] then [] else
      var c := |conns| - 1;
      ReadFor(conns[..c], acts, k) + (if conns[c].key == k then RepliesRead(acts, c) else [])
  }

  lemma {:induction false} RepliesAreRead(conns: seq<Conn>, acts: seq<Action>, k: Key)
    requires forall c :: 0 <= c < |conns| ==> conns[c].replies == RepliesRead(acts, c)
    ensures Replies(conns, k) == ReadFor(conns, acts, k)
  {
    if conns != [] {
      RepliesAreRead(conns[..|conns| - 1], acts, k);
    }
  }

  /** The histories, told by the actions: whole datagrams as they arrived, whole replies as they were delivered. */
  lemma HistoriesAreFaithful(tr: seq<State>, acts: seq<Action>, n: nat, k: Key)
    requires IsRun(tr, acts) && n < |tr|
    ensures tr[n].received == Arrived(acts[..n])
    ensures Replies(tr[n].conns, k) == ReadFor(tr[n].conns, acts[..n], k)
  {
    ReceivedIsWhatArrived(tr, acts, n);
    forall c | 0 <= c < |tr[n].conns|
      ensures tr[n].conns[c].replies == RepliesRead(acts[..n], c)
    {
      ReadsAreFaithful(tr, acts, n, c);
    }
    RepliesAreRead(tr[n].conns, acts[..n], k);
  }

  /**
    Whatever the writes accept and wherever they fail, the backend receives for each client an
    ordered, duplicate-free selection of the bytes that arrived from that client, and the client an
    ordered, duplicate-free selection of the bytes of the replies delivered to its own connections.
   */
  lemma RelaysBytes(tr: seq<State>, acts: seq<Action>, n: nat, k: Key)
    requires IsRun(tr, acts) && n < |tr|
    ensures IsSubsequence(Concat(Forwarded(tr[n].toBackend, k)), Concat(Requests(Arrived(acts[..n]), k)))
    ensures IsSubsequence(Concat(Answers(tr[n].toClient, k)), Concat(ReadFor(tr[n].conns, acts[..n], k)))
  {
    HistoriesAreFaithful(tr, acts, n, k);
    RunKeepsRelay(tr, acts, n, k);
    RunsKeepInv(tr, acts, n);
    TakenBytesAreRequested(tr[n], k);
    TakenBytesAreReplied(tr[n], k);
  }

  /**
    When every write is all or nothing, the same holds datagram by datagram: no datagram is split,
    merged, reordered, repeated or delivered to another client, across all generations of connections.
   */
  lemma RelaysDatagrams(tr: seq<State>, acts: seq<Action>, n: nat, k: Key)
    requires IsRun(tr, acts) && n < |tr|
    requires forall i :: 0 <= i < |acts| ==> AllOrNothing(tr[i], acts[i])
    ensures IsSubsequence(Forwarded(tr[n].toBackend, k), Requests(Arrived(acts[..n]), k))
    ensures IsSubsequence(Answers(tr[n].toClient, k), ReadFor(tr[n].conns, acts[..n], k))
  {
    HistoriesAreFaithful(tr, acts, n, k);
    WholeHistoriesRelay(tr, acts, n, k);
  }

  lemma WholeHistoriesRelay(tr: seq<State>, acts: seq<Action>, n: nat, k: Key)
    requires IsRun(tr, acts) && n < |tr|
    requires forall i :: 0 <= i < |acts| ==> AllOrNothing(tr[i], acts[i])
    ensures IsSubsequence(Forwarded(tr[n].toBackend, k), Requests(tr[n].received, k))
    ensures IsSubsequence(Answers(tr[n].toClient, k), Replies(tr[n].conns, k))
  {
    var s := tr[n];
    RunKeepsWholeRelay(tr, acts, n, k);
    RunsKeepInv(tr, acts, n);
    if InHand(s.run) {
      HandIsLast(s, k);
      Skip(Forwarded(s.toBackend, k), TakenRequests(s, k),
           if s.run.d.key == k && s.run.d.payload != [] then [s.run.d.payload] else []);
    }
    if Busy(s, k) {
      var all := Replies(s.conns, k);
      BusyReplyIsLast(s, s.table[k]);
      Skip(Answers(s.toClient, k), TakenReplies(s, k), [all[|all| - 1]]);
      assert all == all[..|all| - 1] + [all[|all| - 1]];
    }
  }
}
