/**
  Machines that no `run` can load any more: marked as existing, with a configuration that is missing,
  truncated or of no use (mct/cmd/mct/cmd/run.go, mct/pkg/libmachine/persist/filestore.go).
 */
module StuckMachine {
  import opened SaveToFile
  import opened HostDoc
  import opened FileStore
  import opened Commands
  import L = Lifecycle
  import S = StopSequence

  predicate LoadsFrom(c: Codec, contents: Bytes) {
    c.decode(contents).Some? && MigrateHost(MACHINE, c.decode(contents).value).Ok?
  }

  predicate Loads(c: Codec, d: Dir) {
    ConfigJson in d && LoadsFrom(c, d[ConfigJson])
  }

  predicate Stuck(c: Codec, m: L.Disk) {
    m.Some? && Marker in m.value && !Loads(c, m.value)
  }

  lemma LoadsIsLoadHost(ms: Machines, c: Codec)
    ensures LoadHost(ms, c, MACHINE).Ok? <==> MACHINE in ms && Loads(c, ms[MACHINE])
  {
  }

  // ----- there is no way out -----

  datatype Invocation =
    | OfRun(io: RunInput)
    | OfStop(existsFails: bool, rpcOk: bool, remove: bool, end: S.End, order: seq<FileName>)

  predicate Allowed(ms: Machines, c: Codec, inv: Invocation) {
    inv.OfRun? ==> RunAllowed(ms, c, inv.io)
  }

  function CommandOf(ms: Machines, c: Codec, inv: Invocation): (r: L.Command)
    requires Allowed(ms, c, inv)
    ensures L.CommandPossible(DiskOf(ms), r)
  {
    match inv
    case OfRun(io) =>
      RunIsLifecycleRun(ms, c, io);
      L.Run(RunWorldOf(ms, c, io))
    case OfStop(existsFails, rpcOk, remove, end, order) =>
      L.Stop(StopWorldOf(ms, c, existsFails, rpcOk, remove, end, order))
  }

  /** No command, interrupted or not, changes a stuck machine, and no `run` starts it. */
  lemma StuckCommandFails(ms: Machines, c: Codec, inv: Invocation, m': L.Disk)
    requires Stuck(c, DiskOf(ms)) && Allowed(ms, c, inv) && L.CanLeave(DiskOf(ms), CommandOf(ms, c, inv), m')
    ensures m' == DiskOf(ms)
    ensures inv.OfRun? ==> RunResult(ms, c, inv.io).1 in {L.MkdirFailed, L.ExistsFailed, L.LoadFailed}
  {
    LoadsIsLoadHost(ms, c);
    if inv.OfRun? {
      assert HostToSave(ms, c, inv.io) == None;
      PreparedSeesTheSame(ms, c, inv.io);
      assert forall d :: d in L.RunSteps(DiskOf(ms), RunWorldOf(ms, c, inv.io)) ==> d == ms[MACHINE];
    }
  }

  /** The command, interrupted or not, can leave the machine as it is in `ms'`. */
  predicate LeadsTo(ms: Machines, c: Codec, inv: Invocation, ms': Machines) {
    Allowed(ms, c, inv) && L.CanLeave(DiskOf(ms), CommandOf(ms, c, inv), DiskOf(ms'))
  }

  /** Any number of commands, each interrupted anywhere or not at all, until someone else repairs the store. */
  lemma {:induction false} StuckForever(mss: seq<Machines>, c: Codec, invs: seq<Invocation>, n: nat)
    requires |mss| == |invs| + 1 && Stuck(c, DiskOf(mss[0])) && n < |mss|
    requires forall i :: 0 <= i < |invs| ==> LeadsTo(mss[i], c, invs[i], mss[i + 1])
    ensures DiskOf(mss[n]) == DiskOf(mss[0])
    ensures n < |invs| && invs[n].OfRun? ==>
      RunAllowed(mss[n], c, invs[n].io) && RunResult(mss[n], c, invs[n].io).1 != L.Started
  {
    if n > 0 {
      StuckForever(mss, c, invs, n - 1);
      assert LeadsTo(mss[n - 1], c, invs[n - 1], mss[n]);
      StuckCommandFails(mss[n - 1], c, invs[n - 1], DiskOf(mss[n]));
    }
    if n < |invs| {
      assert LeadsTo(mss[n], c, invs[n], mss[n + 1]);
      StuckCommandFails(mss[n], c, invs[n], DiskOf(mss[n + 1]));
    }
  }

  // ----- which crash points are stuck -----

  /** The crash point of an overwrite at which the old file has just been removed, if it gets that far. */
  function RemovedAt(io: Io): nat {
    if io.write.Wrote? then io.write.n + 2 else 1
  }

  /**
    Crash point `i` of a save to a marked directory is stuck. Overwriting: until the old file is removed
    if that is of no use, then, and afterwards unless the new one has taken its place and is of use.
    Creating: `i` bytes have been written. Replacing a file that could not be looked for: there is none.
   */
  predicate SaveSticks(c: Codec, dir: Dir, data: Bytes, io: Io, i: nat) {
    if ConfigJson in dir then
      if L.RemovesOld(dir, io) && RemovedAt(io) <= i then
        i == RemovedAt(io) || SaveOutcome(dir, io).RenameFailed? || !LoadsFrom(c, data)
      else !Loads(c, dir)
    else io.statFails || (i <= |data| && !LoadsFrom(c, data[..i]))
  }

  lemma SaveSticksExactly(c: Codec, dir: Dir, data: Bytes, io: Io, i: nat)
    requires Possible(dir, data, io) && Marker in dir && i < |SaveSteps(dir, data, io)|
    ensures Stuck(c, Some(SaveSteps(dir, data, io)[i])) <==> SaveSticks(c, dir, data, io, i)
  {
    SaveTouchesOnlyConfig(dir, data, io, i, Marker);
    if ConfigJson in dir {
      OverwriteConfigAt(dir, data, io, i);
    } else if io.statFails {
      UnstattedNeverCreates(dir, data, io, i);
    }
  }

  /** The configuration at each crash point of an overwrite: the old one, none, or the new one. */
  lemma OverwriteConfigAt(dir: Dir, data: Bytes, io: Io, i: nat)
    requires Possible(dir, data, io) && ConfigJson in dir && i < |SaveSteps(dir, data, io)|
    ensures var d, out := SaveSteps(dir, data, io)[i], SaveOutcome(dir, io);
      if !L.RemovesOld(dir, io) || i < RemovedAt(io) then ConfigJson in d && d[ConfigJson] == dir[ConfigJson]
      else if i == RemovedAt(io) || out.RenameFailed? then ConfigJson !in d
      else ConfigJson in d && d[ConfigJson] == data
  {
    var inner, steps := ReplaceSteps(dir, data, io), SaveSteps(dir, data, io);
    var j := if i < |inner| then i else |inner| - 1;
    var w := WriteSteps(dir, Temp(io.temp), data, io.write);
    assert |w| == RemovedAt(io) - 1;
    if 1 <= j <= |w| {
      assert inner[j] == w[j - 1];
    }
    assert ConfigJson in inner[j] <==> ConfigJson in steps[i];
  }

  lemma UnstattedNeverCreates(dir: Dir, data: Bytes, io: Io, i: nat)
    requires Possible(dir, data, io) && ConfigJson !in dir && io.statFails && i < |SaveSteps(dir, data, io)|
    ensures ConfigJson !in SaveSteps(dir, data, io)[i]
  {
    var inner, steps := ReplaceSteps(dir, data, io), SaveSteps(dir, data, io);
    var j := if i < |inner| then i else |inner| - 1;
    var w := WriteSteps(dir, Temp(io.temp), data, io.write);
    if 1 <= j <= |w| {
      assert inner[j] == w[j - 1];
    }
    assert ConfigJson !in inner[j];
  }

  /** The directory in state `i` of `run` is stuck. */
  predicate RunSticks(dir: Dir, c: Codec, w: L.RunWorld, i: nat) {
    if i == 0 then Marker in dir && !Loads(c, dir)
    else if Marker in dir then SaveSticks(c, dir, w.data, w.save, i - 1)
    else
      w.setExistsOk && if i == 1 then !Loads(c, dir) else SaveSticks(c, L.Marked(dir), w.data, w.save, i - 2)
  }

  /** Which of the states that `run` takes a machine through, any machine at all, are stuck. */
  lemma RunSticksExactly(m: L.Disk, c: Codec, w: L.RunWorld, i: nat)
    requires L.RunPossible(m, w) && i < |L.RunSteps(m, w)|
    ensures Stuck(c, Some(L.RunSteps(m, w)[i])) <==> RunSticks(L.DirOf(m), c, w, i)
  {
    var dir, steps := L.DirOf(m), L.RunSteps(m, w);
    if i > 0 && Marker in dir {
      assert steps[i] == SaveSteps(dir, w.data, w.save)[i - 1];
      SaveSticksExactly(c, dir, w.data, w.save, i - 1);
    } else if i > 0 && !w.setExistsOk {
      L.UnmarkedStaysUnmarked(dir, w, i - 1);
    } else if i > 1 {
      assert steps[i] == SaveSteps(L.Marked(dir), w.data, w.save)[i - 2];
      SaveSticksExactly(c, L.Marked(dir), w.data, w.save, i - 2);
    }
  }

  // ----- which interruptions can leave a machine stuck -----

  /**
    When an interruption of `run` can leave a machine stuck: when it already is; on the update branch once
    the old configuration is removed; on the create branch, once the marker is written, if there is no
    configuration of use or that gets removed.
   */
  predicate RunCanStick(m: L.Disk, c: Codec, w: L.RunWorld) {
    var dir := L.DirOf(m);
    Stuck(c, m) ||
    (!w.mkdirFails && !w.existsFails &&
     if Marker in dir then w.loads && w.prepares && L.RemovesOld(dir, w.save)
     else
       && w.newHostOk && w.createOk && w.setExistsOk
       && (Loads(c, dir) ==> w.prepares && L.RemovesOld(dir, w.save)))
  }

  lemma InterruptedRunCanStick(m: L.Disk, c: Codec, w: L.RunWorld)
    requires L.RunPossible(m, w)
    ensures (exists m' :: L.CanLeave(m, L.Run(w), m') && Stuck(c, m')) <==> RunCanStick(m, c, w)
  {
    var dir, steps := L.DirOf(m), L.RunSteps(m, w);
    assert |L.Steps(m, L.Run(w))| == |steps|;
    if Stuck(c, m) {
      assert L.CanLeave(m, L.Run(w), m);
    } else if RunCanStick(m, c, w) {
      var i := StuckAt(m, c, w);
      RunSticksExactly(m, c, w, i);
      assert L.Steps(m, L.Run(w))[i] == Some(steps[i]);
      assert L.CanLeave(m, L.Run(w), Some(steps[i]));
    } else {
      forall i | 0 <= i < |steps|
        ensures !Stuck(c, Some(steps[i]))
      {
        RunSticksExactly(m, c, w, i);
        NoStepSticks(m, c, w, i);
      }
    }
  }

  /** A state in which an interruption leaves it stuck. */
  lemma StuckAt(m: L.Disk, c: Codec, w: L.RunWorld) returns (i: nat)
    requires L.RunPossible(m, w) && !Stuck(c, m) && RunCanStick(m, c, w)
    ensures i < |L.RunSteps(m, w)| && RunSticks(L.DirOf(m), c, w, i)
  {
    var dir := L.DirOf(m);
    if Marker in dir {
      i := 1 + RemovedAt(w.save);
      assert |SaveSteps(dir, w.data, w.save)| > RemovedAt(w.save);
    } else if !Loads(c, dir) {
      i := 1;
    } else {
      i := 2 + RemovedAt(w.save);
      assert |SaveSteps(L.Marked(dir), w.data, w.save)| > RemovedAt(w.save);
    }
  }

  lemma NoStepSticks(m: L.Disk, c: Codec, w: L.RunWorld, i: nat)
    requires L.RunPossible(m, w) && !RunCanStick(m, c, w) && i < |L.RunSteps(m, w)|
    ensures !RunSticks(L.DirOf(m), c, w, i)
  {
  }

  /** If there is no configuration yet, these are the disks of the create branch that are stuck. */
  lemma InterruptedFirstSave(m: L.Disk, c: Codec, w: L.RunWorld, d: Dir)
    requires L.RunPossible(m, w) && !w.mkdirFails && !w.existsFails && w.newHostOk && w.createOk && w.setExistsOk
    requires Marker !in L.DirOf(m) && ConfigJson !in L.DirOf(m) && w.prepares && !w.save.statFails
    ensures var marked := L.Marked(L.DirOf(m));
      L.CanLeave(m, L.Run(w), Some(d)) && Stuck(c, Some(d)) <==>
        || d == marked
        || (w.save.write.Wrote? && exists i ::
              0 <= i <= w.save.write.n && d == marked[ConfigJson := w.data[..i]] && !LoadsFrom(c, w.data[..i]))
  {
    var dir, steps := L.DirOf(m), L.RunSteps(m, w);
    var marked := L.Marked(dir);
    var save := SaveSteps(marked, w.data, w.save);
    assert steps == [dir, marked] + save;
    assert L.CanLeave(m, L.Run(w), Some(d)) <==> m == Some(d) || d in steps by {
      StepsAreSome(m, w, d);
    }
    CreateLeavesPrefixes(marked, w.data, w.save, d);
    assert m == Some(d) ==> d == dir;
    assert d in steps <==> d == dir || d == marked || d in save;
  }

  lemma StepsAreSome(m: L.Disk, w: L.RunWorld, d: Dir)
    requires L.RunPossible(m, w)
    ensures Some(d) in L.Steps(m, L.Run(w)) <==> d in L.RunSteps(m, w)
  {
    var steps, disks := L.RunSteps(m, w), L.Steps(m, L.Run(w));
    if d in steps {
      var i :| 0 <= i < |steps| && steps[i] == d;
      assert disks[i] == Some(d);
    }
  }

  // ----- which failed writes leave a machine stuck -----

  /**
    After a save to a marked directory the machine is stuck. Overwriting: the rename failed, or the new
    configuration took the place of the old and is of no use, or the old one stayed and is of no use.
    Creating: nothing was written, or not far enough to be of use.
   */
  predicate SaveLeavesStuck(c: Codec, dir: Dir, data: Bytes, io: Io) {
    if ConfigJson in dir then
      match SaveOutcome(dir, io)
      case RenameFailed => true
      case Saved => !LoadsFrom(c, data)
      case _ => !Loads(c, dir)
    else
      io.statFails || io.write.OpenFailed? || (io.write.n <= |data| && !LoadsFrom(c, data[..io.write.n]))
  }

  /**
    `run` leaves a machine stuck without any interruption: it is, and nothing is written; or it gets to
    saving, marked, and that leaves it so.
   */
  predicate FailsStuck(m: L.Disk, c: Codec, w: L.RunWorld) {
    var dir := L.DirOf(m);
    if w.mkdirFails || w.existsFails then Stuck(c, m)
    else if Marker in dir then
      if ConfigJson in dir && w.loads && w.prepares then SaveLeavesStuck(c, dir, w.data, w.save) else !Loads(c, dir)
    else
      && w.newHostOk && w.createOk && w.setExistsOk
      && if w.prepares then SaveLeavesStuck(c, L.Marked(dir), w.data, w.save) else !Loads(c, dir)
  }

  lemma RunLeavesStuckExactly(m: L.Disk, c: Codec, w: L.RunWorld)
    requires L.RunPossible(m, w)
    ensures Stuck(c, L.After(m, L.Run(w))) <==> FailsStuck(m, c, w)
  {
    if !w.mkdirFails && !w.existsFails {
      var dir := L.DirOf(m);
      L.AfterRun(m, w);
      if Marker in dir || w.setExistsOk {
        SaveLeavesStuckExactly(c, L.Marked(dir), w.data, w.save);
      } else {
        L.ConfigAfterSave(dir, w.data, w.save);
      }
    }
  }

  lemma SaveLeavesStuckExactly(c: Codec, dir: Dir, data: Bytes, io: Io)
    requires Possible(dir, data, io) && Marker in dir
    ensures Stuck(c, Some(AfterSave(dir, data, io))) <==> SaveLeavesStuck(c, dir, data, io)
  {
    if ConfigJson in dir {
      OverwriteLeavesConfig(dir, data, io);
    } else {
      FirstSaveLeavesConfig(dir, data, io);
    }
  }

  lemma OverwriteLeavesConfig(dir: Dir, data: Bytes, io: Io)
    requires Possible(dir, data, io) && ConfigJson in dir
    ensures var d, out := AfterSave(dir, data, io), SaveOutcome(dir, io);
      && (Marker in d <==> Marker in dir)
      && (ConfigJson in d <==> !out.RenameFailed?)
      && (!out.RenameFailed? ==> d[ConfigJson] == if out.Saved? then data else dir[ConfigJson])
  {
    L.ConfigAfterSave(dir, data, io);
    if !io.tempFails {
      LastReplaceStep(dir, data, io);
    }
  }

  lemma FirstSaveLeavesConfig(dir: Dir, data: Bytes, io: Io)
    requires Possible(dir, data, io) && ConfigJson !in dir
    ensures var d := AfterSave(dir, data, io);
      && (Marker in d <==> Marker in dir)
      && (ConfigJson in d <==> !io.statFails && io.write.Wrote?)
      && (ConfigJson in d ==> d[ConfigJson] == data[..io.write.n])
  {
    L.ConfigAfterSave(dir, data, io);
  }

  /**
    A removal can leave a machine stuck exactly if the machine already is or the configuration goes
    before the marker.
   */
  lemma InterruptedStopCanStick(m: L.Disk, c: Codec, w: L.StopWorld)
    ensures (exists m' :: L.CanLeave(m, L.Stop(w), m') && Stuck(c, m'))
       <==> Stuck(c, m) || L.CanWedge(m, L.Stop(w))
  {
    L.InterruptedStopCanWedge(m, w);
    if m' :| L.CanLeave(m, L.Stop(w), m') && L.Wedged(m') {
      assert Stuck(c, m');
    }
    if Stuck(c, m) {
      assert L.CanLeave(m, L.Stop(w), m);
    } else if m' :| L.CanLeave(m, L.Stop(w), m') && Stuck(c, m') {
      assert L.Wedged(m') by {
        RemovalOnlyRemoves(m, w, m');
      }
    }
  }

  lemma RemovalOnlyRemoves(m: L.Disk, w: L.StopWorld, m': L.Disk)
    requires L.CanLeave(m, L.Stop(w), m')
    ensures m'.Some? ==> m.Some? && forall f :: f in m'.value ==> f in m.value && m'.value[f] == m.value[f]
  {
  }
}
