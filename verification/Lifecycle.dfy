/**
  The life of the machine in the store under the commands `run`, `stop` and `stop --remove`
  (mct/cmd/mct/cmd/run.go and stop.go): when its existence marker and its configuration are both there,
  and how an interruption or a failed write can separate them.
 */
module Lifecycle {
  import opened SaveToFile
  import opened HostDoc

  /** The machine's directory, if it has one. */
  type Disk = Option<Dir>

  /**
    What one `run` meets. `loads` says whether an existing configuration file can be decoded and its
    driver started, `prepares` whether `Save` gets as far as writing, `data` is the host it writes,
    `ignitionOk` whether the ignition file can be written after the first save, and `reloads` whether
    the saved configuration can be loaded again at the end.
   */
  datatype RunWorld = RunWorld(
    mkdirFails: bool, existsFails: bool, newHostOk: bool, createOk: bool, setExistsOk: bool,
    loads: bool, prepares: bool, data: Bytes, save: Io, ignitionOk: bool, reloads: bool)

  /**
    What one `stop` meets. `reachesRemoval` says whether the machine was found running, was stopped or
    killed and was seen stopped; `order` is the order in which its files are removed.
   */
  datatype StopWorld = StopWorld(
    existsFails: bool, loads: bool, remove: bool, reachesRemoval: bool, order: seq<FileName>, removeFails: bool)

  datatype Command = Run(run: RunWorld) | Stop(stop: StopWorld)

  // ----- run -----

  function DirOf(m: Disk): Dir {
    if m.Some? then m.value else map[]
  }

  /** Opening the marker with `O_CREATE` leaves an existing one alone. */
  function Marked(dir: Dir): Dir {
    if Marker in dir then dir else dir[Marker := []]
  }

  /** The directory when `run` saves on the create branch. */
  function BeforeFirstSave(dir: Dir, w: RunWorld): Dir {
    if w.setExistsOk then Marked(dir) else dir
  }

  predicate RunPossible(m: Disk, w: RunWorld) {
    Possible(DirOf(m), w.data, w.save)
  }

  function CreateSteps(dir: Dir, w: RunWorld): seq<Dir>
    requires Possible(dir, w.data, w.save)
  {
    if !w.newHostOk || !w.createOk then [] else
      var d := BeforeFirstSave(dir, w);
      (if w.setExistsOk then [d] else []) + (if w.prepares then SaveSteps(d, w.data, w.save) else [])
  }

  function UpdateSteps(dir: Dir, w: RunWorld): seq<Dir>
    requires Possible(dir, w.data, w.save)
  {
    if ConfigJson !in dir || !w.loads || !w.prepares then [] else SaveSteps(dir, w.data, w.save)
  }

  /** Every state of the directory during `run`, which first makes sure that the directory exists. */
  function RunSteps(m: Disk, w: RunWorld): seq<Dir>
    requires RunPossible(m, w)
  {
    var dir := DirOf(m);
    if w.mkdirFails then []
    else if w.existsFails then [dir]
    else [dir] + (if Marker in dir then UpdateSteps(dir, w) else CreateSteps(dir, w))
  }

  datatype RunEnd = MkdirFailed | ExistsFailed | HostFailed | SaveFailed | IgnitionFailed | LoadFailed | Started

  /** Whether `run` gets past its store operations to starting the machine, and where it stops if not. */
  function RunEnds(m: Disk, w: RunWorld): RunEnd
    requires RunPossible(m, w)
  {
    var dir := DirOf(m);
    if w.mkdirFails then MkdirFailed
    else if w.existsFails then ExistsFailed
    else if Marker !in dir then
      if !w.newHostOk || !w.createOk then HostFailed
      else if !w.prepares || !SaveOutcome(BeforeFirstSave(dir, w), w.save).Saved? then SaveFailed
      else if !w.ignitionOk then IgnitionFailed
      else if !w.reloads then LoadFailed
      else Started
    else if ConfigJson !in dir || !w.loads then LoadFailed
    else if !w.prepares || !SaveOutcome(dir, w.save).Saved? then SaveFailed
    else if !w.reloads then LoadFailed
    else Started
  }

  // ----- stop -----

  /** The directory loses its files one by one and, unless the removal fails, then disappears. */
  function DirRemoval(dir: Dir, order: seq<FileName>, fails: bool): seq<Disk> {
    var steps := RemovalSteps(dir, order);
    seq(|steps|, i requires 0 <= i < |steps| => Some(steps[i])) + (if fails then [] else [None])
  }

  predicate Removes(m: Disk, w: StopWorld) {
    && !w.existsFails && m.Some? && Marker in m.value && ConfigJson in m.value && w.loads
    && w.reachesRemoval && w.remove
  }

  function StopSteps(m: Disk, w: StopWorld): seq<Disk> {
    if Removes(m, w) then DirRemoval(m.value, w.order, w.removeFails) else []
  }

  // ----- commands -----

  predicate CommandPossible(m: Disk, c: Command) {
    c.Run? ==> RunPossible(m, c.run)
  }

  function Steps(m: Disk, c: Command): seq<Disk>
    requires CommandPossible(m, c)
  {
    match c
    case Run(w) => var s := RunSteps(m, w); seq(|s|, i requires 0 <= i < |s| => Some(s[i]))
    case Stop(w) => StopSteps(m, w)
  }

  /** The disk after an uninterrupted command. */
  function After(m: Disk, c: Command): Disk
    requires CommandPossible(m, c)
  {
    var s := Steps(m, c);
    if s == [] then m else s[|s| - 1]
  }

  /** The disk after a command that may have been interrupted anywhere. */
  predicate CanLeave(m: Disk, c: Command, m': Disk)
    requires CommandPossible(m, c)
  {
    m' == m || m' in Steps(m, c)
  }

  // ----- marker and configuration -----

  /** The existence marker is present exactly when the configuration file is. */
  predicate Matched(m: Disk) {
    m.Some? ==> (Marker in m.value <==> ConfigJson in m.value)
  }

  /** The machine is marked as existing but has no configuration file. */
  predicate Wedged(m: Disk) {
    m.Some? && Marker in m.value && ConfigJson !in m.value
  }

  /** The first save leaves a configuration file, complete or not. */
  predicate CreatesConfig(w: RunWorld) {
    w.prepares && !w.save.statFails && w.save.write.Wrote?
  }

  /** The create branch leaves a configuration file, be it the one that was there. */
  predicate LeavesConfig(dir: Dir, w: RunWorld) {
    if ConfigJson in dir then !(w.prepares && SaveOutcome(dir, w.save).RenameFailed?) else CreatesConfig(w)
  }

  /**
    When a command leaves marker and configuration separated: it does nothing about them being so; on
    the create branch one of them ends up there and the other not; on the update branch the rename failed
    after the old file was gone; a removal failed between the two.
   */
  predicate Separates(m: Disk, c: Command) {
    match c
    case Run(w) =>
      var dir := DirOf(m);
      if w.mkdirFails || w.existsFails then !Matched(m)
      else if Marker in dir then
        ConfigJson !in dir || (w.loads && w.prepares && SaveOutcome(dir, w.save).RenameFailed?)
      else if !w.newHostOk || !w.createOk then ConfigJson in dir
      else w.setExistsOk != LeavesConfig(dir, w)
    case Stop(w) =>
      if Removes(m, w) then w.removeFails && (Marker in w.order) != (ConfigJson in w.order) else !Matched(m)
  }

  /** Where the configuration ends up after `saveToFile`, success or not. */
  lemma ConfigAfterSave(dir: Dir, data: Bytes, io: Io)
    requires Possible(dir, data, io)
    ensures Marker in AfterSave(dir, data, io) <==> Marker in dir
    ensures ConfigJson in AfterSave(dir, data, io) <==>
      if ConfigJson in dir then !SaveOutcome(dir, io).RenameFailed? else Creates(dir, io) && io.write.Wrote?
  {
    var steps := SaveSteps(dir, data, io);
    if steps != [] {
      SaveTouchesOnlyConfig(dir, data, io, |steps| - 1, Marker);
    }
    if !Creates(dir, io) && !io.tempFails {
      LastReplaceStep(dir, data, io);
    }
  }

  /** What the create branch leaves in the directory, and where it ends. */
  function AfterCreate(dir: Dir, w: RunWorld): (Dir, RunEnd)
    requires Possible(dir, w.data, w.save)
  {
    var d := BeforeFirstSave(dir, w);
    if !w.newHostOk || !w.createOk then (dir, HostFailed)
    else if !w.prepares then (d, SaveFailed)
    else
      (AfterSave(d, w.data, w.save),
       if !SaveOutcome(d, w.save).Saved? then SaveFailed else if !w.ignitionOk then IgnitionFailed else Started)
  }

  /** What the update branch leaves in the directory, and where it ends. */
  function AfterUpdate(dir: Dir, w: RunWorld): (Dir, RunEnd)
    requires Possible(dir, w.data, w.save)
  {
    if ConfigJson !in dir || !w.loads then (dir, LoadFailed)
    else if !w.prepares then (dir, SaveFailed)
    else (AfterSave(dir, w.data, w.save), if SaveOutcome(dir, w.save).Saved? then Started else SaveFailed)
  }

  lemma AfterRun(m: Disk, w: RunWorld)
    requires RunPossible(m, w) && !w.mkdirFails && !w.existsFails
    ensures var dir := DirOf(m);
      var (d, end) := if Marker in dir then AfterUpdate(dir, w) else AfterCreate(dir, w);
      && After(m, Run(w)) == Some(d)
      && RunEnds(m, w) == if end.Started? && !w.reloads then LoadFailed else end
  {
    RunEndsAfterBranch(m, w);
    LastStepOfBranch(DirOf(m), w);
    var steps := RunSteps(m, w);
    assert steps != [] && |Steps(m, Run(w))| == |steps|;
    assert After(m, Run(w)) == Some(steps[|steps| - 1]);
  }

  /** The last state of the directory in either branch. */
  lemma LastStepOfBranch(dir: Dir, w: RunWorld)
    requires Possible(dir, w.data, w.save)
    ensures var steps := [dir] + (if Marker in dir then UpdateSteps(dir, w) else CreateSteps(dir, w));
      steps[|steps| - 1] == if Marker in dir then AfterUpdate(dir, w).0 else AfterCreate(dir, w).0
  {
  }

  lemma RunEndsAfterBranch(m: Disk, w: RunWorld)
    requires RunPossible(m, w) && !w.mkdirFails && !w.existsFails
    ensures var dir := DirOf(m);
      var end := if Marker in dir then AfterUpdate(dir, w).1 else AfterCreate(dir, w).1;
      RunEnds(m, w) == if end.Started? && !w.reloads then LoadFailed else end
  {
  }

  /** `run` starts by making the directory, so it does not matter whether that was done before. */
  lemma PreparedRunsTheSame(m: Disk, w: RunWorld)
    requires RunPossible(m, w) && !w.mkdirFails
    ensures After(Some(DirOf(m)), Run(w)) == After(m, Run(w))
    ensures RunEnds(Some(DirOf(m)), w) == RunEnds(m, w)
  {
    assert RunSteps(Some(DirOf(m)), w) == RunSteps(m, w);
  }

  lemma RunKeepsMatched(m: Disk, w: RunWorld)
    requires RunPossible(m, w)
    ensures Matched(After(m, Run(w))) <==> !Separates(m, Run(w))
  {
    if !w.mkdirFails && !w.existsFails {
      var dir := DirOf(m);
      AfterRun(m, w);
      if Marker in dir {
        ConfigAfterSave(dir, w.data, w.save);
      } else {
        ConfigAfterSave(BeforeFirstSave(dir, w), w.data, w.save);
      }
    }
  }

  lemma AfterStop(m: Disk, w: StopWorld)
    ensures After(m, Stop(w)) ==
      if !Removes(m, w) then m else if w.removeFails then Some(Without(m.value, w.order)) else None
  {
    if Removes(m, w) && w.removeFails {
      if w.order == [] {
        assert Without(m.value, w.order) == m.value;
      } else {
        assert w.order[..|w.order|] == w.order;
      }
    }
  }

  lemma StopKeepsMatched(m: Disk, w: StopWorld)
    ensures Matched(After(m, Stop(w))) <==> !Separates(m, Stop(w))
  {
    AfterStop(m, w);
  }

  /** An uninterrupted command leaves marker and configuration matched exactly when it does not separate them. */
  lemma CommandKeepsMatched(m: Disk, c: Command)
    requires CommandPossible(m, c)
    ensures Matched(After(m, c)) <==> !Separates(m, c)
  {
    match c
    case Run(w) => RunKeepsMatched(m, w);
    case Stop(w) => StopKeepsMatched(m, w);
  }

  /** Every write of the store that the command attempts succeeds. */
  predicate WritesSucceed(m: Disk, c: Command) {
    match c
    case Run(w) =>
      && w.setExistsOk && w.prepares
      && SaveOutcome(if Marker in DirOf(m) then DirOf(m) else BeforeFirstSave(DirOf(m), w), w.save).Saved?
    case Stop(w) => !w.removeFails
  }

  /** A history of uninterrupted commands on a machine that does not exist at first. */
  ghost predicate IsHistory(ms: seq<Disk>, cs: seq<Command>) {
    && |ms| == |cs| + 1
    && ms[0] == None
    && forall i :: 0 <= i < |cs| ==> CommandPossible(ms[i], cs[i]) && ms[i + 1] == After(ms[i], cs[i])
  }

  /** Between commands marker and configuration are matched throughout, exactly if nothing separates them. */
  lemma HistoryMatched(ms: seq<Disk>, cs: seq<Command>)
    requires IsHistory(ms, cs)
    ensures (forall i :: 0 <= i < |ms| ==> Matched(ms[i])) <==> (forall i :: 0 <= i < |cs| ==> !Separates(ms[i], cs[i]))
  {
    forall i | 0 <= i < |cs|
      ensures Matched(ms[i + 1]) <==> !Separates(ms[i], cs[i])
    {
      CommandKeepsMatched(ms[i], cs[i]);
    }
    if forall i :: 0 <= i < |ms| ==> Matched(ms[i]) {
      forall i | 0 <= i < |cs|
        ensures !Separates(ms[i], cs[i])
      {
        assert Matched(ms[i + 1]);
      }
    } else if forall i :: 0 <= i < |cs| ==> !Separates(ms[i], cs[i]) {
      forall i | 0 <= i < |ms|
        ensures Matched(ms[i])
      {
        assert i > 0 ==> !Separates(ms[i - 1], cs[i - 1]);
      }
    }
  }

  /** A failing `SetExists`, which `run` only reports, leaves a configuration without a marker. */
  lemma FailedMarkLeavesUnmarked(w: RunWorld)
    requires RunPossible(None, w) && !w.mkdirFails && !w.existsFails && w.newHostOk && w.createOk
    requires !w.setExistsOk && w.prepares && SaveOutcome(map[], w.save).Saved?
    ensures After(None, Run(w)) == Some(map[ConfigJson := w.data])
  {
    AfterRun(None, w);
    UnmarkedCreate(map[], w);
  }

  lemma UnmarkedCreate(dir: Dir, w: RunWorld)
    requires Possible(dir, w.data, w.save) && w.newHostOk && w.createOk && !w.setExistsOk && w.prepares
    requires SaveOutcome(dir, w.save).Saved?
    ensures AfterCreate(dir, w).0 == dir[ConfigJson := w.data]
  {
    SavedMeansReplaced(dir, w.data, w.save);
  }

  /** If the store's writes succeed and no command is interrupted, they are always matched. */
  lemma {:induction false} SuccessfulHistoryMatched(ms: seq<Disk>, cs: seq<Command>, n: nat)
    requires IsHistory(ms, cs) && n < |ms|
    requires forall i :: 0 <= i < |cs| ==> WritesSucceed(ms[i], cs[i])
    ensures Matched(ms[n])
  {
    if n > 0 {
      SuccessfulHistoryMatched(ms, cs, n - 1);
      CommandKeepsMatched(ms[n - 1], cs[n - 1]);
      SuccessfulCommandDoesNotSeparate(ms[n - 1], cs[n - 1]);
    }
  }

  lemma SuccessfulCommandDoesNotSeparate(m: Disk, c: Command)
    requires Matched(m) && CommandPossible(m, c) && WritesSucceed(m, c)
    ensures !Separates(m, c)
  {
  }

  // ----- interruptions -----

  /** A wedged machine stays as it is under any command, interrupted or not, and no `run` gets past its load. */
  lemma WedgedCommandFails(m: Disk, c: Command, m': Disk)
    requires Wedged(m) && CommandPossible(m, c) && CanLeave(m, c, m')
    ensures m' == m
    ensures c.Run? ==> RunEnds(m, c.run) in {MkdirFailed, ExistsFailed, LoadFailed}
  {
    if c.Run? && m' in Steps(m, c) {
      assert forall d :: d in RunSteps(m, c.run) ==> d == m.value;
    }
  }

  /** Any number of commands, each interrupted anywhere or not at all, until someone else repairs the store. */
  lemma {:induction false} WedgedForever(ms: seq<Disk>, cs: seq<Command>, n: nat)
    requires |ms| == |cs| + 1 && Wedged(ms[0]) && n < |ms|
    requires forall i :: 0 <= i < |cs| ==> CommandPossible(ms[i], cs[i]) && CanLeave(ms[i], cs[i], ms[i + 1])
    ensures ms[n] == ms[0]
    ensures n < |cs| && cs[n].Run? ==> CommandPossible(ms[n], cs[n]) && RunEnds(ms[n], cs[n].run) != Started
  {
    if n > 0 {
      WedgedForever(ms, cs, n - 1);
      WedgedCommandFails(ms[n - 1], cs[n - 1], ms[n]);
    }
    if n < |cs| {
      WedgedCommandFails(ms[n], cs[n], ms[n + 1]);
    }
  }

  /** An overwrite gets as far as removing the old file. */
  predicate RemovesOld(dir: Dir, io: Io) {
    SaveOutcome(dir, io).RenameFailed? || SaveOutcome(dir, io).Saved?
  }

  /** The create branch, from a directory without a marker, passes through a wedged state. */
  predicate CreateWedges(dir: Dir, w: RunWorld) {
    && w.newHostOk && w.createOk && w.setExistsOk
    && (ConfigJson in dir ==> w.prepares && RemovesOld(dir, w.save))
  }

  /**
    When an interruption can leave a machine wedged: when it already is; on the create branch, once the
    marker is written, if there is no configuration or the old one gets removed; on the update branch
    once the old one is removed; in a removal once the configuration is gone before the marker.
   */
  predicate CanWedge(m: Disk, c: Command) {
    Wedged(m) ||
    match c
    case Run(w) =>
      && !w.mkdirFails && !w.existsFails
      && (if Marker in DirOf(m) then w.loads && w.prepares && RemovesOld(DirOf(m), w.save)
          else CreateWedges(DirOf(m), w))
    case Stop(w) =>
      Removes(m, w) && exists i :: 0 < i <= |w.order| && ConfigJson in w.order[..i] && Marker !in w.order[..i]
  }

  lemma SaveStepsWithoutConfig(dir: Dir, data: Bytes, io: Io)
    requires Possible(dir, data, io) && ConfigJson in dir
    ensures (exists i :: 0 <= i < |SaveSteps(dir, data, io)| && ConfigJson !in SaveSteps(dir, data, io)[i])
       <==> RemovesOld(dir, io)
  {
    var steps, out := SaveSteps(dir, data, io), SaveOutcome(dir, io);
    if !io.tempFails {
      var t := Temp(io.temp);
      var w := WriteSteps(dir, t, data, io.write);
      var inner := ReplaceSteps(dir, data, io);
      if out.RenameFailed? || out.Saved? {
        assert inner[1 + |w|] == dir[t := data] - {ConfigJson};
        assert steps[1 + |w|] == inner[1 + |w|];
      } else {
        forall i | 0 <= i < |inner|
          ensures ConfigJson in inner[i]
        {
          if 1 <= i {
            assert inner[i] == w[i - 1];
          }
        }
        LastReplaceStep(dir, data, io);
      }
    }
  }

  /** On the update branch, and on the create branch after the marker. */
  lemma WedgedDuringSave(dir: Dir, data: Bytes, io: Io)
    requires Possible(dir, data, io) && Marker in dir && ConfigJson in dir
    ensures (exists i :: 0 <= i < |SaveSteps(dir, data, io)| && Wedged(Some(SaveSteps(dir, data, io)[i])))
       <==> RemovesOld(dir, io)
  {
    var steps := SaveSteps(dir, data, io);
    SaveStepsWithoutConfig(dir, data, io);
    forall i | 0 <= i < |steps|
      ensures Wedged(Some(steps[i])) <==> ConfigJson !in steps[i]
    {
      SaveTouchesOnlyConfig(dir, data, io, i, Marker);
    }
  }

  lemma UnmarkedStaysUnmarked(dir: Dir, w: RunWorld, i: nat)
    requires Possible(dir, w.data, w.save) && Marker !in dir && !w.setExistsOk && i < |CreateSteps(dir, w)|
    ensures Marker !in CreateSteps(dir, w)[i]
  {
    SaveTouchesOnlyConfig(dir, w.data, w.save, i, Marker);
  }

  lemma InterruptedRunCanWedge(m: Disk, w: RunWorld)
    requires RunPossible(m, w)
    ensures (exists m' :: CanLeave(m, Run(w), m') && Wedged(m')) <==> CanWedge(m, Run(w))
  {
    var dir, steps := DirOf(m), RunSteps(m, w);
    assert |Steps(m, Run(w))| == |steps|;
    if Wedged(m) {
      assert CanLeave(m, Run(w), m);
    } else if !w.mkdirFails && !w.existsFails {
      if Marker in dir {
        InterruptedUpdateCanWedge(m, w);
      } else {
        InterruptedCreateCanWedge(m, w);
      }
    }
  }

  lemma InterruptedUpdateCanWedge(m: Disk, w: RunWorld)
    requires RunPossible(m, w) && !w.mkdirFails && !w.existsFails && Marker in DirOf(m) && !Wedged(m)
    ensures (exists m' :: CanLeave(m, Run(w), m') && Wedged(m')) <==> CanWedge(m, Run(w))
  {
    var dir, steps := DirOf(m), RunSteps(m, w);
    assert |Steps(m, Run(w))| == |steps|;
    WedgedDuringSave(dir, w.data, w.save);
    if CanWedge(m, Run(w)) {
      var j :| 0 <= j < |SaveSteps(dir, w.data, w.save)| && Wedged(Some(SaveSteps(dir, w.data, w.save)[j]));
      assert Steps(m, Run(w))[1 + j] == Some(steps[1 + j]);
      assert CanLeave(m, Run(w), Some(steps[1 + j]));
    } else {
      forall i | 0 <= i < |steps|
        ensures !Wedged(Some(steps[i]))
      {
        assert i > 0 ==> steps[i] == SaveSteps(dir, w.data, w.save)[i - 1];
      }
    }
  }

  lemma InterruptedCreateCanWedge(m: Disk, w: RunWorld)
    requires RunPossible(m, w) && !w.mkdirFails && !w.existsFails && Marker !in DirOf(m)
    ensures (exists m' :: CanLeave(m, Run(w), m') && Wedged(m')) <==> CanWedge(m, Run(w))
  {
    var dir, steps := DirOf(m), RunSteps(m, w);
    assert |Steps(m, Run(w))| == |steps|;
    if CanWedge(m, Run(w)) {
      var i := WedgedDuringCreate(dir, w);
      assert Steps(m, Run(w))[1 + i] == Some(steps[1 + i]);
      assert CanLeave(m, Run(w), Some(steps[1 + i]));
    } else {
      forall i | 0 <= i < |steps|
        ensures !Wedged(Some(steps[i]))
      {
        if i > 0 {
          CreateNeverWedges(dir, w, i - 1);
        }
      }
    }
  }

  lemma WedgedDuringCreate(dir: Dir, w: RunWorld) returns (i: nat)
    requires Possible(dir, w.data, w.save) && Marker !in dir && CreateWedges(dir, w)
    ensures i < |CreateSteps(dir, w)| && Wedged(Some(CreateSteps(dir, w)[i]))
  {
    if ConfigJson in dir {
      var marked := Marked(dir);
      WedgedDuringSave(marked, w.data, w.save);
      var j :| 0 <= j < |SaveSteps(marked, w.data, w.save)| && Wedged(Some(SaveSteps(marked, w.data, w.save)[j]));
      i := 1 + j;
    } else {
      i := 0;
    }
  }

  lemma CreateNeverWedges(dir: Dir, w: RunWorld, i: nat)
    requires Possible(dir, w.data, w.save) && Marker !in dir && !CreateWedges(dir, w) && i < |CreateSteps(dir, w)|
    ensures !Wedged(Some(CreateSteps(dir, w)[i]))
  {
    if !w.setExistsOk {
      UnmarkedStaysUnmarked(dir, w, i);
    } else if i > 0 {
      WedgedDuringSave(Marked(dir), w.data, w.save);
      assert CreateSteps(dir, w)[i] == SaveSteps(Marked(dir), w.data, w.save)[i - 1];
    }
  }

  lemma RemovalStepWedges(dir: Dir, order: seq<FileName>, fails: bool, i: nat)
    requires Marker in dir && ConfigJson in dir && i < |DirRemoval(dir, order, fails)|
    ensures Wedged(DirRemoval(dir, order, fails)[i]) <==>
      i < |order| && ConfigJson in order[..i + 1] && Marker !in order[..i + 1]
  {
    if i < |order| {
      assert DirRemoval(dir, order, fails)[i] == Some(Without(dir, order[..i + 1]));
    }
  }

  lemma InterruptedStopCanWedge(m: Disk, w: StopWorld)
    ensures (exists m' :: CanLeave(m, Stop(w), m') && Wedged(m')) <==> CanWedge(m, Stop(w))
  {
    if Wedged(m) {
      assert CanLeave(m, Stop(w), m);
    } else if Removes(m, w) {
      var steps := DirRemoval(m.value, w.order, w.removeFails);
      forall i | 0 <= i < |steps|
        ensures Wedged(steps[i]) <==> i < |w.order| && ConfigJson in w.order[..i + 1] && Marker !in w.order[..i + 1]
      {
        RemovalStepWedges(m.value, w.order, w.removeFails, i);
      }
      if i :| 0 < i <= |w.order| && ConfigJson in w.order[..i] && Marker !in w.order[..i] {
        assert Wedged(steps[i - 1]) && CanLeave(m, Stop(w), steps[i - 1]);
      }
    }
  }
}
