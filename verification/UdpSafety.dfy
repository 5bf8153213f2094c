/** What holds in, and between, the states of every run of the UDP proxy. */
module UdpSafety {
  import opened ConnTrack
  import opened UdpProtocol
  import opened UdpInvariant

  // ----- what never changes, or only grows -----

  ghost predicate ConnLater(conn: Conn, conn': Conn) {
    && conn'.client == conn.client && conn'.key == conn.key && conn'.late == conn.late
    && (!conn.open ==> !conn'.open)
    && (!Live(conn.pc) ==> !Live(conn'.pc))
    && conn.replies <= conn'.replies
    && conn.armings <= conn'.armings
    && (conn.armings == conn'.armings ==> conn.armedAt == conn'.armedAt)
  }

  /** `s'` can follow `s`: identities are stable, histories grow, ends are final. */
  ghost predicate Later(s: State, s': State) {
    && s.now <= s'.now
    && (s'.listenerOpen ==> s.listenerOpen)
    && s.received <= s'.received && s.toBackend <= s'.toBackend && s.toClient <= s'.toClient
    && |s.conns| <= |s'.conns|
    && (forall c :: 0 <= c < |s.conns| ==> ConnLater(s.conns[c], s'.conns[c]))
  }

  lemma RunStepIsLater(s: State, a: RunAction)
    requires RunInv(s) && RunEnabled(s, a)
    ensures Later(s, RunStep(s, a))
  {
  }

  lemma LoopConnIsLater(s: State, c: nat, a: LoopAction)
    requires LoopEnabled(s, c, a)
    ensures ConnLater(s.conns[c], LoopStep(s, c, a).conns[c])
  {
  }

  lemma LoopStepIsLater(s: State, c: nat, a: LoopAction)
    requires LoopEnabled(s, c, a)
    ensures Later(s, LoopStep(s, c, a))
  {
    LoopMovesOnlyItself(s, c, a);
    LoopConnIsLater(s, c, a);
  }

  /** Only `Run` receives, dials, and changes where it stands. */
  lemma OthersLeaveRun(s: State, a: Action)
    requires Enabled(s, a) && !a.OfRun?
    ensures Step(s, a).run == s.run && Step(s, a).received == s.received && |Step(s, a).conns| == |s.conns|
  {
    if a.OfLoop? {
      LoopMovesOnlyItself(s, a.c, a.loop);
    }
  }

  lemma StepIsLater(s: State, a: Action)
    requires RunInv(s) && Enabled(s, a)
    ensures Later(s, Step(s, a))
  {
    match a
    case OfRun(r) => RunStepIsLater(s, r);
    case OfLoop(c, l) => LoopStepIsLater(s, c, l);
    case OfClose(x) => CloseStepIsLater(s, x);
    case OfEnv(_) =>
  }

  lemma CloseStepIsLater(s: State, a: CloseAction)
    requires CloseEnabled(s, a)
    ensures Later(s, CloseStep(s, a))
  {
  }

  lemma {:induction false} RunIsLater(tr: seq<State>, acts: seq<Action>, i: nat, j: nat)
    requires IsRun(tr, acts) && i <= j < |tr|
    ensures Later(tr[i], tr[j])
    decreases j
  {
    if i < j {
      RunIsLater(tr, acts, i, j - 1);
      RunsKeepInv(tr, acts, j - 1);
      StepIsLater(tr[j - 1], acts[j - 1]);
    }
  }

  // ----- the table and the reply loops -----

  /** The reply loops that `Run` has registered and that have not deleted their entry yet. */
  ghost function LiveLoops(s: State): set<nat> {
    set c | 0 <= c < |s.conns| && Live(s.conns[c].pc) && !Unregistered(s, c)
  }

  lemma {:induction false} InjectiveMapSize<K, V>(m: map<K, V>)
    requires forall k, l :: k in m && l in m && m[k] == m[l] ==> k == l
    ensures |m.Values| == |m|
  {
    if m != map[] {
      var k :| k in m;
      var rest := m - {k};
      InjectiveMapSize(rest);
      assert m.Values == rest.Values + {m[k]};
      assert m.Keys == rest.Keys + {k};
      assert |m| == |rest| + 1;
    }
  }

  /** In every reachable state, table entries and live reply loops are in bijection. */
  lemma TableBijection(tr: seq<State>, acts: seq<Action>, i: nat)
    requires IsRun(tr, acts) && i < |tr|
    ensures tr[i].table.Values == LiveLoops(tr[i])
    ensures |tr[i].table| == |LiveLoops(tr[i])|
    ensures forall k :: k in tr[i].table ==> tr[i].table[k] < |tr[i].conns| && tr[i].conns[tr[i].table[k]].key == k
    ensures forall c :: c in LiveLoops(tr[i]) ==>
      tr[i].conns[c].key in tr[i].table && tr[i].table[tr[i].conns[c].key] == c
  {
    RunsKeepInv(tr, acts, i);
    var s := tr[i];
    forall c | c in LiveLoops(s)
      ensures c in s.table.Values
    {
      assert s.table[s.conns[c].key] == c;
    }
    InjectiveMapSize(s.table);
  }

  /** A reply loop deletes its own connection and nothing else: every other client keeps its entry. */
  lemma DeleteRemovesOwnEntry(tr: seq<State>, acts: seq<Action>, i: nat, c: nat)
    requires IsRun(tr, acts) && i < |acts| && acts[i] == OfLoop(c, Delete)
    ensures tr[i].conns[c].key in tr[i].table && tr[i].table[tr[i].conns[c].key] == c
    ensures tr[i + 1].table.Values == tr[i].table.Values - {c}
    ensures forall k :: k in tr[i].table && tr[i].table[k] != c ==>
      k in tr[i + 1].table && tr[i + 1].table[k] == tr[i].table[k]
  {
    RunsKeepInv(tr, acts, i);
    var s, s' := tr[i], tr[i + 1];
    var key := s.conns[c].key;
    forall d | d in s.table.Values && d != c
      ensures d in s'.table.Values
    {
      var k :| k in s.table && s.table[k] == d;
      assert k in s'.table && s'.table[k] == d;
    }
    assert s.table[key] == c;
  }

  /** A client is dialled only while it has no entry and no live connection. */
  lemma NoRedialWhilePresent(tr: seq<State>, acts: seq<Action>, i: nat)
    requires IsRun(tr, acts) && i < |acts| && acts[i] == OfRun(Dial)
    ensures var s := tr[i];
      s.run.d.key !in s.table && forall c :: 0 <= c < |s.conns| && Live(s.conns[c].pc) ==> s.conns[c].key != s.run.d.key
  {
    RunsKeepInv(tr, acts, i);
    var s := tr[i];
    forall c | 0 <= c < |s.conns| && Live(s.conns[c].pc)
      ensures s.conns[c].key != s.run.d.key
    {
      assert s.conns[c].key in s.table;
    }
  }

  // ----- open and closed connections -----

  /** Until `Close` is called every connection in the table is open. */
  lemma TableOpenUntilClose(tr: seq<State>, acts: seq<Action>, i: nat, k: Key)
    requires IsRun(tr, acts) && i < |tr| && tr[i].closer.NotCalled? && k in tr[i].table
    ensures tr[i].table[k] < |tr[i].conns| && tr[i].conns[tr[i].table[k]].open
  {
    RunsKeepInv(tr, acts, i);
  }

  /** Connection `c` is retired, and `Run` can still be writing to it for datagram `d` only. */
  ghost predicate RetiredBut(s: State, c: nat, d: Datagram, received: seq<Datagram>) {
    && c < |s.conns| && !Live(s.conns[c].pc)
    && (s.run.Sending? && s.run.c == c ==> s.run.d == d && s.received == received)
  }

  lemma StaysRetired(s: State, a: Action, c: nat, d: Datagram, received: seq<Datagram>)
    requires Inv(s) && Enabled(s, a) && RetiredBut(s, c, d, received)
    ensures RetiredBut(Step(s, a), c, d, received)
  {
    StepIsLater(s, a);
    if a.OfRun? {
      assert s.run.Found? ==> Live(s.conns[s.run.c].pc);
      SendsOnlyWhatItHolds(s, a.run);
    } else {
      OthersLeaveRun(s, a);
    }
  }

  /** `Run` starts writing only to the connection it has found, and writes on to the one it was writing to. */
  lemma SendsOnlyWhatItHolds(s: State, a: RunAction)
    requires RunEnabled(s, a)
    ensures var s' := RunStep(s, a);
      s'.run.Sending? ==>
        && (s.run.Sending? || s.run.Found?) && s'.run.c == s.run.c
        && (s.run.Sending? ==> s'.run.d == s.run.d && s'.received == s.received)
  {
  }

  lemma {:induction false} RunStaysRetired(tr: seq<State>, acts: seq<Action>, i: nat, j: nat, c: nat, d: Datagram)
    requires IsRun(tr, acts) && i <= j < |tr| && RetiredBut(tr[i], c, d, tr[i].received)
    ensures RetiredBut(tr[j], c, d, tr[i].received)
    decreases j
  {
    if i < j {
      RunStaysRetired(tr, acts, i, j - 1, c, d);
      RunsKeepInv(tr, acts, j - 1);
      StaysRetired(tr[j - 1], acts[j - 1], c, d, tr[i].received);
    }
  }

  /**
    Until `Close` is called, `Run` writes to a closed connection only when that connection's reply
    loop has retired it since the unlock; no later lookup returns it, so only this datagram is lost.
   */
  lemma WriteToRetiredConnection(tr: seq<State>, acts: seq<Action>, i: nat, j: nat)
    requires IsRun(tr, acts) && i <= j < |tr|
    requires tr[i].closer.NotCalled? && tr[i].run.Sending?
    requires tr[i].run.c < |tr[i].conns| && !tr[i].conns[tr[i].run.c].open
    ensures tr[i].conns[tr[i].run.c].pc.Done? && tr[i].run.c !in tr[i].table.Values
    ensures tr[j].run.Found? ==> tr[j].run.c != tr[i].run.c
    ensures tr[j].run.Sending? && tr[j].run.c == tr[i].run.c ==>
      tr[j].received == tr[i].received && tr[j].run.d == tr[i].run.d
  {
    RunsKeepInv(tr, acts, i);
    RunStaysRetired(tr, acts, i, j, tr[i].run.c, tr[i].run.d);
    RunsKeepInv(tr, acts, j);
  }

  // ----- Close -----

  /** Step `i` dials connection `c` although the listener is already closed. */
  ghost predicate DialsAfterClose(tr: seq<State>, acts: seq<Action>, i: nat, c: nat)
    requires IsRun(tr, acts)
  {
    i < |acts| && acts[i] == OfRun(Dial) && !tr[i].listenerOpen && |tr[i].conns| == c
  }

  lemma LateDialIsRecorded(tr: seq<State>, acts: seq<Action>, i: nat, c: nat, n: nat)
    requires IsRun(tr, acts) && DialsAfterClose(tr, acts, i, c) && i < n < |tr|
    ensures c < |tr[n].conns| && tr[n].conns[c].late
  {
    assert tr[i + 1].conns[c].late;
    RunIsLater(tr, acts, i + 1, n);
  }

  /** A connection is marked late only by the dial that makes it. */
  lemma LateAppearsByDialling(s: State, a: Action, c: nat)
    requires RunInv(s) && Enabled(s, a) && c < |Step(s, a).conns| && Step(s, a).conns[c].late
    ensures if c < |s.conns| then s.conns[c].late
            else a == OfRun(Dial) && !s.listenerOpen && |s.conns| == c
  {
    StepIsLater(s, a);
    if a.OfRun? {
      OnlyDialAddsConn(s, a.run);
    } else {
      OthersLeaveRun(s, a);
    }
  }

  lemma OnlyDialAddsConn(s: State, a: RunAction)
    requires RunEnabled(s, a)
    ensures |RunStep(s, a).conns| == |s.conns| + (if a.Dial? then 1 else 0)
    ensures a.Dial? ==> RunStep(s, a).conns[|s.conns|].late == !s.listenerOpen
  {
  }

  lemma {:induction false} LateConnWasDialledLate(tr: seq<State>, acts: seq<Action>, c: nat, n: nat) returns (i: nat)
    requires IsRun(tr, acts) && n < |tr| && c < |tr[n].conns| && tr[n].conns[c].late
    ensures i < n && DialsAfterClose(tr, acts, i, c)
  {
    RunsKeepInv(tr, acts, n - 1);
    LateAppearsByDialling(tr[n - 1], acts[n - 1], c);
    if c < |tr[n - 1].conns| {
      i := LateConnWasDialledLate(tr, acts, c, n - 1);
    } else {
      i := n - 1;
    }
  }

  /** At most one backend connection is dialled after the listener has been closed. */
  lemma OneDialAfterClose(tr: seq<State>, acts: seq<Action>, i: nat, c: nat, j: nat, e: nat)
    requires IsRun(tr, acts) && DialsAfterClose(tr, acts, i, c) && DialsAfterClose(tr, acts, j, e)
    ensures i == j && c == e
  {
    var n := |acts|;
    LateDialIsRecorded(tr, acts, i, c, n);
    LateDialIsRecorded(tr, acts, j, e, n);
    RunsKeepInv(tr, acts, n);
    if i < j {
      RunIsLater(tr, acts, i + 1, j);
    } else if j < i {
      RunIsLater(tr, acts, j + 1, i);
    }
  }

  /** Once `Close` has returned, an open connection in the table is the one dialled too late to be seen. */
  lemma CloseLeavesOnlyLateDial(tr: seq<State>, acts: seq<Action>, n: nat, k: Key)
    requires IsRun(tr, acts) && n < |tr| && tr[n].closer.Returned? && k in tr[n].table
    ensures tr[n].table[k] < |tr[n].conns|
    ensures tr[n].conns[tr[n].table[k]].open ==> exists i :: DialsAfterClose(tr, acts, i, tr[n].table[k])
  {
    RunsKeepInv(tr, acts, n);
    if tr[n].conns[tr[n].table[k]].open {
      var i := LateConnWasDialledLate(tr, acts, tr[n].table[k], n);
    }
  }

  /** When `Run` and every reply loop have ended, the table is empty and every connection is closed. */
  lemma EndedMeansReleased(tr: seq<State>, acts: seq<Action>, n: nat)
    requires IsRun(tr, acts) && n < |tr| && tr[n].run.Stopped?
    requires forall c :: 0 <= c < |tr[n].conns| ==> tr[n].conns[c].pc.Done?
    ensures tr[n].table == map[]
    ensures forall c :: 0 <= c < |tr[n].conns| ==> !tr[n].conns[c].open
  {
    RunsKeepInv(tr, acts, n);
    if k :| k in tr[n].table {
      assert false;
    }
  }

  // ----- the read deadline -----

  /**
    A waiting reply loop's deadline is its last arming plus ninety seconds, and it has been armed
    once at the start and once per fully processed reply.
   */
  lemma DeadlineIsLastArming(tr: seq<State>, acts: seq<Action>, n: nat, c: nat)
    requires IsRun(tr, acts) && n < |tr| && c < |tr[n].conns| && tr[n].conns[c].pc.Reading?
    ensures tr[n].conns[c].pc.deadline == tr[n].conns[c].armedAt + 90
    ensures tr[n].conns[c].armings == |tr[n].conns[c].replies| + 1
  {
    RunsKeepInv(tr, acts, n);
  }

  /**
    Only replies extend a flow: between two waits with no reply in between - whatever datagrams the
    client sent and however many reads were refused - the deadline is the same, and once it has
    passed the loop can only leave.
   */
  lemma ClientTrafficNeverExtendsFlow(tr: seq<State>, acts: seq<Action>, i: nat, j: nat, c: nat)
    requires IsRun(tr, acts) && i <= j < |tr| && c < |tr[i].conns| && tr[i].conns[c].pc.Reading?
    ensures c < |tr[j].conns|
    ensures tr[j].conns[c].replies == tr[i].conns[c].replies && tr[j].conns[c].pc.Reading? ==>
      && tr[j].conns[c].pc.deadline == tr[i].conns[c].pc.deadline
      && (tr[i].conns[c].pc.deadline <= tr[j].now ==> !LoopEnabled(tr[j], c, ReadItem))
  {
    RunsKeepInv(tr, acts, i);
    RunsKeepInv(tr, acts, j);
    RunIsLater(tr, acts, i, j);
  }
}
