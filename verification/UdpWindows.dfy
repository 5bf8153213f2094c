/** Runs showing that the windows the safety theorems allow for are really there. */
module UdpWindows {
  import opened ConnTrack
  import opened UdpProtocol
  import opened UdpSafety

  lemma Extend(tr: seq<State>, acts: seq<Action>, a: Action) returns (tr': seq<State>, acts': seq<Action>)
    requires IsRun(tr, acts) && Enabled(tr[|acts|], a)
    ensures IsRun(tr', acts') && acts' == acts + [a] && tr'[|acts'|] == Step(tr[|acts|], a)
    ensures tr <= tr'
  {
    tr', acts' := tr + [Step(tr[|acts|], a)], acts + [a];
  }

  /** `Run`, holding the lock on a client without an entry, dials, registers and serves it. */
  lemma ServeNew(tr: seq<State>, acts: seq<Action>) returns (tr': seq<State>, acts': seq<Action>)
    requires IsRun(tr, acts)
    requires var s := tr[|acts|]; s.run.Locked? && s.run.d.key !in s.table && s.run.d.payload != []
    ensures IsRun(tr', acts') && tr <= tr' && |acts| + 1 < |acts'|
    ensures acts'[|acts| + 1] == OfRun(Dial) && tr'[|acts| + 1] == tr[|acts|].(run := Missed(tr[|acts|].run.d))
    ensures var s := tr[|acts|];
      tr'[|acts'|] == s.(
        run := Sending(s.run.d, |s.conns|, 0), lock := Free, table := s.table[s.run.d.key := |s.conns|],
        conns := s.conns + [NewConn(s.run.d, !s.listenerOpen).(pc := Arming)])
  {
    tr', acts' := Extend(tr, acts, OfRun(Lookup));
    tr', acts' := Extend(tr', acts', OfRun(Dial));
    tr', acts' := Extend(tr', acts', OfRun(Insert));
    tr', acts' := Extend(tr', acts', OfRun(Spawn));
    tr', acts' := Extend(tr', acts', OfRun(ReleaseRun));
  }

  /** A datagram that `Run` holds when `Close` is called gets a connection that `Close` never sees. */
  lemma CloseCanMissADial(from: Addr) returns (tr: seq<State>, acts: seq<Action>)
    ensures IsRun(tr, acts) && exists i :: DialsAfterClose(tr, acts, i, 0)
    ensures var s := tr[|acts|];
      var key := NewConnTrackKey(from);
      && s.closer.Returned? && key in s.table && s.table[key] == 0 && |s.conns| == 1 && s.conns[0].open
      && s.lock.Free? && !s.listenerOpen && s.conns[0].pc.Arming? && s.conns[0].inbox == []
      && s.run.Sending? && s.run.d.payload == [1] && s.run.c == 0 && s.run.i == 0
  {
    tr, acts := [INIT], [];
    tr, acts := Extend(tr, acts, OfRun(Receive(from, [1])));
    tr, acts := Extend(tr, acts, OfClose(CloseListener));
    tr, acts := Extend(tr, acts, OfClose(AcquireClose));
    assert tr[|acts|].closer.pending == {};
    tr, acts := Extend(tr, acts, OfClose(ReleaseClose));
    tr, acts := Extend(tr, acts, OfRun(AcquireRun));
    ghost var i := |acts| + 1;
    tr, acts := ServeNew(tr, acts);
    assert DialsAfterClose(tr, acts, i, 0);
  }

  /** The first datagram of a client, served; its reply loop has left its entry but not closed its socket. */
  lemma FirstGeneration(from: Addr) returns (tr: seq<State>, acts: seq<Action>)
    ensures IsRun(tr, acts)
    ensures var s := tr[|acts|];
      s.run.Waiting? && s.listenerOpen && s.lock.Free? && s.table == map[] && s.closer.NotCalled?
      && |s.conns| == 1 && s.conns[0].open && s.conns[0].pc.Closing? && s.conns[0].key == NewConnTrackKey(from)
  {
    tr, acts := [INIT], [];
    tr, acts := Extend(tr, acts, OfRun(Receive(from, [1])));
    tr, acts := Extend(tr, acts, OfRun(AcquireRun));
    tr, acts := ServeNew(tr, acts);
    tr, acts := Extend(tr, acts, OfRun(Send(1)));
    tr, acts := LeaveEntry(tr, acts);
  }

  lemma LeaveEntry(tr: seq<State>, acts: seq<Action>) returns (tr': seq<State>, acts': seq<Action>)
    requires IsRun(tr, acts)
    requires var s := tr[|acts|]; |s.conns| == 1 && s.conns[0].pc.Arming? && s.lock.Free?
    ensures IsRun(tr', acts')
    ensures var s, s' := tr[|acts|], tr'[|acts'|];
      s'.table == s.table - {s.conns[0].key} && s'.run == s.run && s'.listenerOpen == s.listenerOpen
      && s'.closer == s.closer && s'.lock.Free? && |s'.conns| == 1
      && s'.conns[0].pc.Closing? && s'.conns[0].open == s.conns[0].open && s'.conns[0].key == s.conns[0].key
  {
    tr', acts' := Extend(tr, acts, OfLoop(0, Arm));
    tr', acts' := Extend(tr', acts', OfLoop(0, ReadError(Other)));
    tr', acts' := Extend(tr', acts', OfLoop(0, AcquireLoop));
    tr', acts' := Extend(tr', acts', OfLoop(0, Delete));
    tr', acts' := Extend(tr', acts', OfLoop(0, ReleaseLoop));
  }

  /** A client can be dialled again while its previous connection is still open. */
  lemma OldSocketCanOutliveRedial(from: Addr) returns (tr: seq<State>, acts: seq<Action>)
    ensures IsRun(tr, acts)
    ensures var s := tr[|acts|];
      var key := NewConnTrackKey(from);
      && |s.conns| == 2 && s.conns[0].key == s.conns[1].key == key
      && s.conns[0].open && s.conns[1].open && key in s.table && s.table[key] == 1
  {
    tr, acts := FirstGeneration(from);
    tr, acts := Extend(tr, acts, OfRun(Receive(from, [2])));
    tr, acts := Extend(tr, acts, OfRun(AcquireRun));
    tr, acts := ServeNew(tr, acts);
  }

  /** `Run` can be writing to a connection that its reply loop has retired since the unlock. */
  lemma LookupCanGoStale(from: Addr) returns (tr: seq<State>, acts: seq<Action>)
    ensures IsRun(tr, acts)
    ensures var s := tr[|acts|];
      s.closer.NotCalled? && s.run.Sending? && s.run.c == 0 && |s.conns| == 1 && !s.conns[0].open && s.table == map[]
  {
    tr, acts := [INIT], [];
    tr, acts := Extend(tr, acts, OfRun(Receive(from, [1])));
    tr, acts := Extend(tr, acts, OfRun(AcquireRun));
    tr, acts := ServeNew(tr, acts);
    tr, acts := LeaveEntry(tr, acts);
    tr, acts := Extend(tr, acts, OfLoop(0, CloseConn));
  }
}
