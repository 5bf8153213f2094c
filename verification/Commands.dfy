/**
  The commands `run` and `stop` as the ordered store operations of the original
  (mct/cmd/mct/cmd/run.go and stop.go, mct/pkg/libmachine/host.go), over the store object.
 */
module Commands {
  import opened SaveToFile
  import opened HostDoc
  import opened FileStore
  import L = Lifecycle
  import S = StopSequence

  const MACHINE := "mct"

  /**
    What a `run` meets from outside: failing system calls, the host that `NewHost` makes (if it does),
    whether drivers accept the configuration, create the machine and can be started, and whether the
    ignition file can be written.
   */
  datatype RunInput = RunInput(
    mkdirFails: bool, existsFails: bool, newHost: Option<Host>, raw: Json, accepted: bool, createOk: bool,
    setExistsFails: bool, saveMkdirFails: bool, save: Io, ignitionOk: bool, rpcOk: bool, rpcAgainOk: bool)

  function DiskOf(ms: Machines): L.Disk {
    if MACHINE in ms then Some(ms[MACHINE]) else None
  }

  /** `Client.Load`: what the store loads, with a live driver started on its raw configuration. */
  function ClientLoad(ms: Machines, c: Codec, rpcOk: bool): Result<Host> {
    match LoadHost(ms, c, MACHINE)
    case Err(e) => Err(e)
    case Ok(h) =>
      if !rpcOk then Err(ReadError)
      else Ok(h.(driver := Live(if h.rawDriver.Some? then h.rawDriver.value else Null)))
  }

  /** The host that `run` saves, if it gets to saving one. */
  function HostToSave(ms: Machines, c: Codec, io: RunInput): Option<Host> {
    if HasMarker(ms, MACHINE) then
      (match ClientLoad(ms, c, io.rpcOk)
       case Err(_) => None
       case Ok(h) => Some(UpdateConfig(h, io.raw, io.accepted)))
    else
      (match io.newHost
       case None => None
       case Some(h) => Some(UpdateConfig(h, io.raw, io.accepted)))
  }

  /** The host that `run` saves is this machine's. Nothing in a stored document or a driver ensures it. */
  predicate Own(ms: Machines, c: Codec, io: RunInput) {
    var h := HostToSave(ms, c, io);
    h.Some? ==> h.value.name == MACHINE
  }

  /** `TempFile` picks a name that is free, wherever it is asked to. */
  predicate RunAllowed(ms: Machines, c: Codec, io: RunInput) {
    var h := HostToSave(ms, c, io);
    && Temp(io.save.temp) !in L.DirOf(DiskOf(ms))
    && (h.Some? ==> SavePossible(Prepared(ms, MACHINE), c, h.value, io.save))
  }

  /** Whether the configuration just written can be loaded, with a driver started on it. */
  predicate Reloads(c: Codec, data: Bytes, rpcOk: bool) {
    rpcOk && c.decode(data).Some? && MigrateHost(MACHINE, c.decode(data).value).Ok?
  }

  /** The same `run` as the lifecycle of this machine sees it: a host of another name is not saved here. */
  function RunWorldOf(ms: Machines, c: Codec, io: RunInput): L.RunWorld {
    var h := HostToSave(ms, c, io);
    var prepares := h.Some? && Marshal(h.value).Ok? && !io.saveMkdirFails && h.value.name == MACHINE;
    var data := if prepares then c.encode(Marshal(h.value).value) else [];
    var save := if prepares then io.save else io.save.(write := OpenFailed);
    L.RunWorld(io.mkdirFails, io.existsFails, io.newHost.Some?, io.createOk, !io.setExistsFails,
               ClientLoad(ms, c, io.rpcOk).Ok?, prepares, data, save, io.ignitionOk,
               Reloads(c, data, io.rpcAgainOk))
  }

  // ----- what run does to all machines -----

  function BeforeSave(ms: Machines, io: RunInput): Machines
    requires MACHINE in ms
  {
    if HasMarker(ms, MACHINE) || io.setExistsFails then ms else AfterSetExists(ms, MACHINE)
  }

  /** What either branch leaves, and where it ends. */
  function BranchResult(ms: Machines, c: Codec, io: RunInput): (Machines, L.RunEnd)
    requires MACHINE in ms && RunAllowed(ms, c, io)
  {
    var h, marked := HostToSave(ms, c, io), HasMarker(ms, MACHINE);
    if h.None? then (ms, if marked then L.LoadFailed else L.HostFailed)
    else if !marked && !io.createOk then (ms, L.HostFailed)
    else
      var before := BeforeSave(ms, io);
      (AfterHostSave(before, c, h.value, io.save, io.saveMkdirFails),
       if !SaveSucceeds(before, h.value, io.save, io.saveMkdirFails) then L.SaveFailed
       else if !marked && !io.ignitionOk then L.IgnitionFailed
       else L.Started)
  }

  /** What `run` leaves, and where it ends: whichever host it has saved, it loads this machine again. */
  function RunResult(ms: Machines, c: Codec, io: RunInput): (Machines, L.RunEnd)
    requires RunAllowed(ms, c, io)
  {
    if io.mkdirFails then (ms, L.MkdirFailed)
    else if io.existsFails then (Prepared(ms, MACHINE), L.ExistsFailed)
    else
      PreparedSeesTheSame(ms, c, io);
      var (after, end) := BranchResult(Prepared(ms, MACHINE), c, io);
      (after,
       if end.Started? && !(LoadHost(after, c, MACHINE).Ok? && io.rpcAgainOk) then L.LoadFailed else end)
  }

  /** Making the machine's directory does not change what `run` is going to do. */
  lemma PreparedSeesTheSame(ms: Machines, c: Codec, io: RunInput)
    ensures RunWorldOf(Prepared(ms, MACHINE), c, io) == RunWorldOf(ms, c, io)
    ensures HostToSave(Prepared(ms, MACHINE), c, io) == HostToSave(ms, c, io)
    ensures RunAllowed(ms, c, io) ==> RunAllowed(Prepared(ms, MACHINE), c, io)
    ensures DiskOf(Prepared(ms, MACHINE)) == Some(L.DirOf(DiskOf(ms)))
  {
    var prepared := Prepared(ms, MACHINE);
    assert ClientLoad(prepared, c, io.rpcOk).Ok? == ClientLoad(ms, c, io.rpcOk).Ok?;
    assert HostToSave(prepared, c, io) == HostToSave(ms, c, io);
    assert Prepared(prepared, MACHINE) == prepared;
  }

  /** Saving a host does to this machine's directory what the lifecycle says it does: nothing, if it is another's. */
  lemma SavingMovesDisk(ms: Machines, c: Codec, h: Host, io: Io, mkdirFails: bool)
    requires MACHINE in ms && SavePossible(ms, c, h, io)
    ensures var written := Marshal(h).Ok? && !mkdirFails && h.name == MACHINE;
      DiskOf(AfterHostSave(ms, c, h, io, mkdirFails)) == Some(
        if written then AfterSave(ms[MACHINE], c.encode(Marshal(h).value), io) else ms[MACHINE])
    ensures forall t :: t in SaveTrail(ms, c, h, io, mkdirFails) ==>
      || DiskOf(t) == DiskOf(ms)
      || (Marshal(h).Ok? && !mkdirFails && h.name == MACHINE
          && DiskOf(t).Some? && DiskOf(t).value in SaveSteps(ms[MACHINE], c.encode(Marshal(h).value), io))
  {
    if Marshal(h).Ok? && !mkdirFails {
      var prepared := Prepared(ms, h.name);
      var steps := SaveSteps(prepared[h.name], c.encode(Marshal(h).value), io);
      forall t | t in SaveTrail(ms, c, h, io, mkdirFails)
        ensures DiskOf(t) == DiskOf(ms) || (h.name == MACHINE && DiskOf(t).Some? && DiskOf(t).value in steps)
      {
        if t != prepared {
          var i :| 0 <= i < |steps| && t == OnDisk(prepared, h.name, steps)[i];
          assert steps[i] in steps;
        }
      }
    }
  }

  /** What a branch leaves in this machine's directory; for a host of its own, also where it ends. */
  lemma BranchMovesDisk(ms: Machines, c: Codec, io: RunInput)
    requires MACHINE in ms && RunAllowed(ms, c, io)
    ensures var dir, w, r := ms[MACHINE], RunWorldOf(ms, c, io), BranchResult(ms, c, io);
      && Possible(dir, w.data, w.save)
      && var e := if Marker in dir then L.AfterUpdate(dir, w) else L.AfterCreate(dir, w);
      DiskOf(r.0) == Some(e.0) && (Own(ms, c, io) ==> r.1 == e.1)
  {
    var h := HostToSave(ms, c, io);
    if h.Some? {
      var before := BeforeSave(ms, io);
      SavingMovesDisk(before, c, h.value, io.save, io.saveMkdirFails);
    }
  }

  /** A host of its own that a branch got to start is the one it saved. */
  lemma StartedIsSaved(dir: Dir, w: L.RunWorld)
    requires Possible(dir, w.data, w.save)
    ensures var (d, end) := if Marker in dir then L.AfterUpdate(dir, w) else L.AfterCreate(dir, w);
      end.Started? ==> ConfigJson in d && d[ConfigJson] == w.data
  {
    var d := if Marker in dir then dir else L.BeforeFirstSave(dir, w);
    if SaveOutcome(d, w.save).Saved? {
      SavedMeansReplaced(d, w.data, w.save);
    }
  }

  /**
    What `run` does to this machine is the lifecycle's `Run`, whatever host it saves; if that is its own,
    `run` also ends where the lifecycle says.
   */
  lemma RunIsLifecycleRun(ms: Machines, c: Codec, io: RunInput)
    requires RunAllowed(ms, c, io)
    ensures var m, w, r := DiskOf(ms), RunWorldOf(ms, c, io), RunResult(ms, c, io);
      && L.RunPossible(m, w)
      && DiskOf(r.0) == L.After(m, L.Run(w))
      && (Own(ms, c, io) ==> r.1 == L.RunEnds(m, w))
  {
    var m, w, here := DiskOf(ms), RunWorldOf(ms, c, io), Prepared(ms, MACHINE);
    PreparedSeesTheSame(ms, c, io);
    BranchMovesDisk(here, c, io);
    if !io.mkdirFails {
      L.PreparedRunsTheSame(m, w);
      if !io.existsFails {
        L.AfterRun(Some(here[MACHINE]), w);
        StartedIsSaved(here[MACHINE], w);
      }
    }
  }

  /** All machines are as they were, but this one and the one named in the host that was saved. */
  lemma RunLeavesOthers(ms: Machines, c: Codec, io: RunInput, name: string)
    requires RunAllowed(ms, c, io) && name != MACHINE
    requires HostToSave(ms, c, io).Some? ==> name != HostToSave(ms, c, io).value.name
    ensures var ms' := RunResult(ms, c, io).0; (name in ms' <==> name in ms) && (name in ms ==> ms'[name] == ms[name])
  {
    PreparedSeesTheSame(ms, c, io);
  }

  lemma OwnRunLeavesOthers(ms: Machines, c: Codec, io: RunInput)
    requires RunAllowed(ms, c, io) && Own(ms, c, io)
    ensures var ms' := RunResult(ms, c, io).0;
      forall name :: name != MACHINE ==> (name in ms' <==> name in ms) && (name in ms' ==> ms'[name] == ms[name])
  {
    forall name | name != MACHINE
      ensures var ms' := RunResult(ms, c, io).0;
        (name in ms' <==> name in ms) && (name in ms' ==> ms'[name] == ms[name])
    {
      RunLeavesOthers(ms, c, io, name);
    }
  }

  /** A created host that goes by another name leaves this machine marked but without a configuration. */
  lemma MisnamedHostWedges(ms: Machines, c: Codec, io: RunInput)
    requires RunAllowed(ms, c, io) && !Own(ms, c, io) && !HasMarker(ms, MACHINE) && L.Matched(DiskOf(ms))
    requires !io.mkdirFails && !io.existsFails && io.createOk && !io.setExistsFails
    ensures L.Wedged(DiskOf(RunResult(ms, c, io).0)) && RunResult(ms, c, io).1 != L.Started
  {
    var w, here := RunWorldOf(ms, c, io), Prepared(ms, MACHINE);
    PreparedSeesTheSame(ms, c, io);
    BranchMovesDisk(here, c, io);
  }

  /** A saved host of the current version always loads again, so only its driver can keep `run` from starting. */
  lemma SavedRunReloads(ms: Machines, c: Codec, io: RunInput)
    requires Faithful(c) && RunWorldOf(ms, c, io).prepares
    ensures RunWorldOf(ms, c, io).reloads <==> HostToSave(ms, c, io).value.configVersion == VERSION && io.rpcAgainOk
  {
    var h := HostToSave(ms, c, io).value;
    assert c.decode(c.encode(Marshal(h).value)) == Some(Marshal(h).value);
    SavedHostLoads(h, MACHINE);
  }

  // ----- the commands on the store object -----

  /** Whenever it may have been interrupted since, the machine's directory was as before or in one of `steps`. */
  twostate predicate Passes(store: Filestore, steps: seq<Dir>)
    reads store
  {
    && old(store.trail) <= store.trail
    && forall i :: |old(store.trail)| <= i < |store.trail| ==>
         || DiskOf(store.trail[i]) == DiskOf(old(store.machines))
         || (DiskOf(store.trail[i]).Some? && DiskOf(store.trail[i]).value in steps)
  }

  /** An interruption anywhere since then leaves the disk as the lifecycle's command can leave it. */
  twostate predicate InterruptedAs(store: Filestore, m: L.Disk, c: L.Command)
    requires L.CommandPossible(m, c)
    reads store
  {
    && old(store.trail) <= store.trail
    && forall i :: |old(store.trail)| <= i < |store.trail| ==> L.CanLeave(m, c, DiskOf(store.trail[i]))
  }

  lemma StepsOfRun(m: L.Disk, w: L.RunWorld)
    requires L.RunPossible(m, w) && !w.mkdirFails
    ensures L.RunSteps(Some(L.DirOf(m)), w) == L.RunSteps(m, w)
    ensures forall d :: d == L.DirOf(m) || d in L.RunSteps(m, w) ==> L.CanLeave(m, L.Run(w), Some(d))
  {
    var steps := L.RunSteps(m, w);
    assert steps[0] == L.DirOf(m);
    forall d | d in steps
      ensures Some(d) in L.Steps(m, L.Run(w))
    {
      var i :| 0 <= i < |steps| && steps[i] == d;
      assert L.Steps(m, L.Run(w))[i] == Some(d);
    }
  }

  lemma UpdateStepsOf(ms: Machines, c: Codec, io: RunInput, host: Host)
    requires HasMarker(ms, MACHINE) && RunAllowed(ms, c, io) && HostToSave(ms, c, io) == Some(host)
    ensures var dir, w := ms[MACHINE], RunWorldOf(ms, c, io);
      && SavePossible(ms, c, host, io.save) && Possible(dir, w.data, w.save)
      && L.UpdateSteps(dir, w) ==
           if Marshal(host).Ok? && !io.saveMkdirFails && host.name == MACHINE
           then SaveSteps(dir, c.encode(Marshal(host).value), io.save) else []
  {
    assert Prepared(ms, MACHINE) == ms;
    assert ConfigJson in ms[MACHINE];
  }

  lemma BranchStepsAreRunSteps(dir: Dir, w: L.RunWorld)
    requires L.RunPossible(Some(dir), w) && !w.mkdirFails && !w.existsFails
    ensures forall d :: d in (if Marker in dir then L.UpdateSteps(dir, w) else L.CreateSteps(dir, w)) ==>
      d in L.RunSteps(Some(dir), w)
  {
  }

  /** `SetExists` as `run` uses it, on a machine without a marker. */
  method MarkMachine(store: Filestore, fails: bool)
    requires MACHINE in store.machines && Marker !in store.machines[MACHINE]
    modifies store
    ensures store.machines == if fails then old(store.machines) else AfterSetExists(old(store.machines), MACHINE)
    ensures Passes(store, if fails then [] else [store.machines[MACHINE]])
  {
    var marked := store.SetExists(MACHINE, fails);
  }

  /** `Save` of the host at hand. */
  method SaveHost(store: Filestore, host: Host, io: Io, mkdirFails: bool) returns (ok: bool)
    requires MACHINE in store.machines && SavePossible(store.machines, store.codec, host, io)
    modifies store
    ensures ok == SaveSucceeds(old(store.machines), host, io, mkdirFails)
    ensures store.machines == AfterHostSave(old(store.machines), store.codec, host, io, mkdirFails)
    ensures var dir := old(store.machines)[MACHINE];
      Passes(store,
        if Marshal(host).Ok? && !mkdirFails && host.name == MACHINE
        then SaveSteps(dir, store.codec.encode(Marshal(host).value), io) else [])
  {
    SavingMovesDisk(store.machines, store.codec, host, io, mkdirFails);
    ghost var ms, before := store.machines, store.trail;
    ok := store.Save(host, io, mkdirFails);
    ghost var more := SaveTrail(ms, store.codec, host, io, mkdirFails);
    assert forall i :: |before| <= i < |store.trail| ==> store.trail[i] == more[i - |before|];
  }

  /** The branch of `runCmd` for a machine without a marker. */
  method CreateMachine(store: Filestore, io: RunInput) returns (end: L.RunEnd)
    requires MACHINE in store.machines && Marker !in store.machines[MACHINE]
    requires RunAllowed(store.machines, store.codec, io)
    modifies store
    ensures (store.machines, end) == BranchResult(old(store.machines), store.codec, io)
    ensures var dir, w := old(store.machines)[MACHINE], RunWorldOf(old(store.machines), store.codec, io);
      Possible(dir, w.data, w.save) && Passes(store, L.CreateSteps(dir, w))
  {
    if io.newHost.None? {
      return L.HostFailed;
    }
    var host := UpdateConfig(io.newHost.value, io.raw, io.accepted);
    if !io.createOk {
      return L.HostFailed;
    }
    MarkMachine(store, io.setExistsFails);
    var saved := SaveHost(store, host, io.save, io.saveMkdirFails);
    return if !saved then L.SaveFailed else if !io.ignitionOk then L.IgnitionFailed else L.Started;
  }

  /** The branch of `runCmd` for a machine with a marker. */
  method UpdateMachine(store: Filestore, io: RunInput) returns (end: L.RunEnd)
    requires HasMarker(store.machines, MACHINE)
    requires RunAllowed(store.machines, store.codec, io)
    modifies store
    ensures (store.machines, end) == BranchResult(old(store.machines), store.codec, io)
    ensures var dir, w := old(store.machines)[MACHINE], RunWorldOf(old(store.machines), store.codec, io);
      Possible(dir, w.data, w.save) && Passes(store, L.UpdateSteps(dir, w))
  {
    var loaded := store.Load(MACHINE);
    if loaded.Err? || !io.rpcOk {
      return L.LoadFailed;
    }
    var raw := if loaded.value.rawDriver.Some? then loaded.value.rawDriver.value else Null;
    var host := UpdateConfig(loaded.value.(driver := Live(raw)), io.raw, io.accepted);
    assert HostToSave(store.machines, store.codec, io) == Some(host);
    UpdateStepsOf(store.machines, store.codec, io, host);
    var saved := SaveHost(store, host, io.save, io.saveMkdirFails);
    return if saved then L.Started else L.SaveFailed;
  }

  /** The branch that the existence check selects. */
  method RunBranch(store: Filestore, io: RunInput, marked: bool) returns (end: L.RunEnd)
    requires MACHINE in store.machines && !io.mkdirFails && !io.existsFails
    requires marked == HasMarker(store.machines, MACHINE) && RunAllowed(store.machines, store.codec, io)
    modifies store
    ensures (store.machines, end) == BranchResult(old(store.machines), store.codec, io)
    ensures var m, w := DiskOf(old(store.machines)), RunWorldOf(old(store.machines), store.codec, io);
      L.RunPossible(m, w) && Passes(store, L.RunSteps(m, w))
  {
    if marked {
      end := UpdateMachine(store, io);
    } else {
      end := CreateMachine(store, io);
    }
    BranchStepsAreRunSteps(old(store.machines)[MACHINE], RunWorldOf(old(store.machines), store.codec, io));
  }

  /** `runCmd` from the existence check on. */
  method RunPrepared(store: Filestore, io: RunInput) returns (end: L.RunEnd)
    requires MACHINE in store.machines && !io.mkdirFails && RunAllowed(store.machines, store.codec, io)
    modifies store
    ensures (store.machines, end) == RunResult(old(store.machines), store.codec, io)
    ensures var m, w := DiskOf(old(store.machines)), RunWorldOf(old(store.machines), store.codec, io);
      L.RunPossible(m, w) && Passes(store, L.RunSteps(m, w))
  {
    ghost var ms := store.machines;
    var exists_ := store.Exists(MACHINE, io.existsFails);
    assert Prepared(ms, MACHINE) == ms;
    if exists_.Err? {
      return L.ExistsFailed;
    }
    end := RunBranch(store, io, exists_.value);
    if end == L.Started {
      var again := store.Load(MACHINE);
      end := if again.Err? || !io.rpcAgainOk then L.LoadFailed else L.Started;
    }
  }

  /** `runCmd`, with every disk it goes through. */
  method RunStore(store: Filestore, io: RunInput) returns (end: L.RunEnd)
    requires RunAllowed(store.machines, store.codec, io)
    modifies store
    ensures (store.machines, end) == RunResult(old(store.machines), store.codec, io)
    ensures var m, w := DiskOf(old(store.machines)), RunWorldOf(old(store.machines), store.codec, io);
      L.RunPossible(m, w) && InterruptedAs(store, m, L.Run(w))
  {
    ghost var ms := store.machines;
    ghost var m, w := DiskOf(ms), RunWorldOf(ms, store.codec, io);
    RunIsLifecycleRun(ms, store.codec, io);
    if io.mkdirFails {
      return L.MkdirFailed;
    }
    PreparedSeesTheSame(ms, store.codec, io);
    StepsOfRun(m, w);
    if MACHINE !in store.machines {
      store.SetDir(MACHINE, map[]);
    }
    assert store.machines == Prepared(ms, MACHINE) == Prepared(Prepared(ms, MACHINE), MACHINE);
    end := RunPrepared(store, io);
  }

  /**
    `runCmd`: make the directory, create or update the machine, load it again. Errors of `UpdateConfig`
    and `SetExists` are not acted on. What it does to this machine, interrupted or not, is what the
    lifecycle's `Run` does; if the host it saves is this machine's, it also ends where that ends.
   */
  method RunCmd(store: Filestore, io: RunInput) returns (end: L.RunEnd)
    requires RunAllowed(store.machines, store.codec, io)
    modifies store
    ensures (store.machines, end) == RunResult(old(store.machines), store.codec, io)
    ensures var m, w := DiskOf(old(store.machines)), RunWorldOf(old(store.machines), store.codec, io);
      && L.RunPossible(m, w)
      && DiskOf(store.machines) == L.After(m, L.Run(w))
      && (Own(old(store.machines), store.codec, io) ==> end == L.RunEnds(m, w) && OthersUnchanged(store))
      && InterruptedAs(store, m, L.Run(w))
  {
    ghost var ms := store.machines;
    RunIsLifecycleRun(ms, store.codec, io);
    if Own(ms, store.codec, io) {
      OwnRunLeavesOthers(ms, store.codec, io);
    }
    end := RunStore(store, io);
  }

  /** What a removal records are the lifecycle's steps of it. */
  lemma RemovalIsRecorded(ms: Machines, order: seq<FileName>, fails: bool, i: nat)
    requires MACHINE in ms
    ensures var steps :=
        OnDisk(ms, MACHINE, RemovalSteps(ms[MACHINE], order)) + (if fails then [] else [ms - {MACHINE}]);
      i < |steps| ==> DiskOf(steps[i]) in L.DirRemoval(ms[MACHINE], order, fails)
  {
    var steps := OnDisk(ms, MACHINE, RemovalSteps(ms[MACHINE], order)) + (if fails then [] else [ms - {MACHINE}]);
    if i < |steps| {
      assert DiskOf(steps[i]) == L.DirRemoval(ms[MACHINE], order, fails)[i];
    }
  }

  /** All machines but this one are as they were. */
  twostate predicate OthersUnchanged(store: Filestore)
    reads store
  {
    forall name :: name != MACHINE ==>
      (name in store.machines <==> name in old(store.machines)) &&
      (name in store.machines ==> store.machines[name] == old(store.machines)[name])
  }

  /** The same `stop` as the lifecycle sees it: removal is reached when the stop sequence ends in it. */
  function StopWorldOf(ms: Machines, c: Codec, existsFails: bool, rpcOk: bool, remove: bool, end: S.End,
                       order: seq<FileName>): L.StopWorld {
    L.StopWorld(existsFails, ClientLoad(ms, c, rpcOk).Ok?, remove, end.Removed? || end.RemoveFailed?, order,
                end.RemoveFailed?)
  }

  /** When `stop` gets to removing, the lifecycle's `Stop` goes through that removal, and otherwise through nothing. */
  lemma StopIsRemoval(ms: Machines, c: Codec, existsFails: bool, rpcOk: bool, remove: bool, end: S.End,
                      order: seq<FileName>)
    requires end.Removed? || end.RemoveFailed? ==>
      remove && IsLoaded(ms, c, existsFails, rpcOk)
    ensures var m, w := DiskOf(ms), StopWorldOf(ms, c, existsFails, rpcOk, remove, end, order);
      && L.After(m, L.Stop(w)) ==
           (if end.Removed? then None else if end.RemoveFailed? then Some(Without(ms[MACHINE], order)) else m)
      && (end.Removed? || end.RemoveFailed? ==>
            forall d :: d in L.DirRemoval(ms[MACHINE], order, end.RemoveFailed?) ==> L.CanLeave(m, L.Stop(w), d))
  {
    L.AfterStop(DiskOf(ms), StopWorldOf(ms, c, existsFails, rpcOk, remove, end, order));
  }

  /** `Remove` of the machine. */
  method RemoveMachine(store: Filestore, order: seq<FileName>, fails: bool)
    requires MACHINE in store.machines
    modifies store
    ensures OthersUnchanged(store)
    ensures DiskOf(store.machines) == if fails then Some(Without(old(store.machines)[MACHINE], order)) else None
    ensures old(store.trail) <= store.trail
    ensures forall i :: |old(store.trail)| <= i < |store.trail| ==>
      DiskOf(store.trail[i]) in L.DirRemoval(old(store.machines)[MACHINE], order, fails)
  {
    ghost var ms, before := store.machines, |store.trail|;
    var removed := store.Remove(MACHINE, order, fails);
    forall i | before <= i < |store.trail|
      ensures DiskOf(store.trail[i]) in L.DirRemoval(ms[MACHINE], order, fails)
    {
      RemovalIsRecorded(ms, order, fails, i - before);
    }
  }

  /** `stopCmd` once the machine is loaded: only a removal that the stop sequence reached touches the store. */
  method StopLoaded(store: Filestore, w: S.World, remove: bool, order: seq<FileName>)
    returns (end: S.End, log: seq<S.Event>)
    requires MACHINE in store.machines
    modifies store
    ensures end == S.StopEnd(w, remove) && log == S.StopLog(w, remove)
    ensures OthersUnchanged(store)
    ensures DiskOf(store.machines) ==
      if end.Removed? then None
      else if end.RemoveFailed? then Some(Without(old(store.machines)[MACHINE], order))
      else DiskOf(old(store.machines))
    ensures store.machines != old(store.machines) ==> end.Removed? || end.RemoveFailed?
    ensures old(store.trail) <= store.trail
    ensures forall i :: |old(store.trail)| <= i < |store.trail| ==>
      && (end.Removed? || end.RemoveFailed?)
      && DiskOf(store.trail[i]) in L.DirRemoval(old(store.machines)[MACHINE], order, end.RemoveFailed?)
    ensures end.Removed? || end.RemoveFailed? ==>
      remove && S.Confirmed(log)
  {
    end, log := S.StopCommand(w, remove);
    S.RemovedOnlyWhenStopped(w, remove);
    if end.Removed? || end.RemoveFailed? {
      RemoveMachine(store, order, end.RemoveFailed?);
    }
  }

  /** The machine is marked and can be loaded, driver included. */
  predicate IsLoaded(ms: Machines, c: Codec, existsFails: bool, rpcOk: bool) {
    !existsFails && HasMarker(ms, MACHINE) && ClientLoad(ms, c, rpcOk).Ok?
  }

  /** `stopCmd` up to the loaded host. */
  method LoadMachine(store: Filestore, existsFails: bool, rpcOk: bool) returns (ok: bool)
    ensures ok == IsLoaded(store.machines, store.codec, existsFails, rpcOk)
  {
    var exists_ := store.Exists(MACHINE, existsFails);
    if exists_.Err? || !exists_.value {
      return false;
    }
    var loaded := store.Load(MACHINE);
    return loaded.Ok? && rpcOk;
  }

  /** At its end and at every crash point the disk is as after the lifecycle's command, and no other machine changes. */
  twostate predicate StoppedAs(store: Filestore, c: L.Command)
    requires c.Stop?
    reads store
  {
    && OthersUnchanged(store)
    && DiskOf(store.machines) == L.After(DiskOf(old(store.machines)), c)
    && InterruptedAs(store, DiskOf(old(store.machines)), c)
  }

  /** The same as the lifecycle's `Stop`. */
  method StopAsLifecycle(store: Filestore, existsFails: bool, rpcOk: bool, w: S.World, remove: bool,
                         order: seq<FileName>)
    returns (end: S.End, log: seq<S.Event>)
    requires IsLoaded(store.machines, store.codec, existsFails, rpcOk)
    modifies store
    ensures StoppedAs(store,
      L.Stop(StopWorldOf(old(store.machines), store.codec, existsFails, rpcOk, remove, end, order)))
    ensures end == S.StopEnd(w, remove) && log == S.StopLog(w, remove)
    ensures store.machines != old(store.machines) ==>
      remove && S.Confirmed(log)
  {
    ghost var ms := store.machines;
    end, log := StopLoaded(store, w, remove, order);
    StopIsRemoval(ms, store.codec, existsFails, rpcOk, remove, end, order);
  }

  /** `stopCmd` for a machine that is not there or cannot be loaded. */
  method LeaveAlone(store: Filestore, existsFails: bool, rpcOk: bool, remove: bool, order: seq<FileName>)
    returns (end: S.End, log: seq<S.Event>)
    modifies store
    ensures StoppedAs(store,
      L.Stop(StopWorldOf(old(store.machines), store.codec, existsFails, rpcOk, remove, end, order)))
    ensures store.machines == old(store.machines) && end == S.NotRunning && log == []
  {
    end, log := S.NotRunning, [];
    StopIsRemoval(store.machines, store.codec, existsFails, rpcOk, remove, end, order);
  }

  /**
    `stopCmd`: the store changes as the lifecycle's `Stop` says, and only if Stopped was seen after an
    action of this command and again right before the removal.
   */
  method StopCmd(store: Filestore, existsFails: bool, rpcOk: bool, w: S.World, remove: bool, order: seq<FileName>)
    returns (end: S.End, log: seq<S.Event>)
    modifies store
    ensures StoppedAs(store,
      L.Stop(StopWorldOf(old(store.machines), store.codec, existsFails, rpcOk, remove, end, order)))
    ensures if !existsFails && HasMarker(old(store.machines), MACHINE)
               && LoadHost(old(store.machines), store.codec, MACHINE).Ok? && rpcOk
            then end == S.StopEnd(w, remove) && log == S.StopLog(w, remove)
            else end == S.NotRunning && log == [] && store.machines == old(store.machines)
    ensures end.Removed? ==> store.machines == old(store.machines) - {MACHINE}
    ensures store.machines != old(store.machines) ==>
      remove && S.Confirmed(log)
  {
    var loaded := LoadMachine(store, existsFails, rpcOk);
    if loaded {
      end, log := StopAsLifecycle(store, existsFails, rpcOk, w, remove, order);
    } else {
      end, log := LeaveAlone(store, existsFails, rpcOk, remove, order);
    }
  }
}
