/**
  What `run` saves and how it ends, told by the store it finds and by what it meets, and not by the steps
  it takes (mct/cmd/mct/cmd/run.go).
 */
module RunContents {
  import opened SaveToFile
  import opened HostDoc
  import opened FileStore
  import opened Commands
  import L = Lifecycle

  /** `run` gets as far as saving: it has a loaded host, or one that it made and created. */
  predicate GetsToSave(ms: Machines, c: Codec, io: RunInput) {
    && !io.mkdirFails && !io.existsFails
    && if HasMarker(ms, MACHINE) then LoadHost(ms, c, MACHINE).Ok? && io.rpcOk else io.newHost.Some? && io.createOk
  }

  /** The host it starts from. */
  function Original(ms: Machines, c: Codec, io: RunInput): Host
    requires GetsToSave(ms, c, io)
  {
    if HasMarker(ms, MACHINE) then LoadHost(ms, c, MACHINE).value else io.newHost.value
  }

  /** The document of its driver: what was stored, or what the new driver started with. */
  function OriginalDriver(ms: Machines, c: Codec, io: RunInput): Json
    requires GetsToSave(ms, c, io) && FromNewHost(io)
  {
    if HasMarker(ms, MACHINE) then
      var raw := LoadHost(ms, c, MACHINE).value.rawDriver;
      if raw.Some? then raw.value else Null
    else io.newHost.value.driver.config
  }

  /** `NewHost` gives its host a live driver and the current version. */
  predicate FromNewHost(io: RunInput) {
    io.newHost.Some? ==> io.newHost.value.driver.Live? && io.newHost.value.configVersion == VERSION
  }

  /** No store operation of `run` fails. */
  predicate StoreWorks(ms: Machines, c: Codec, io: RunInput)
    requires GetsToSave(ms, c, io)
  {
    !io.saveMkdirFails && NothingFails(DirNamed(ms, Original(ms, c, io).name), io.save)
  }

  /** The host that the next load finds: the original with the given driver document. */
  function WithDriver(h: Host, doc: Json): Host {
    h.(driver := if doc.Null? then NoDriver else RawData(Some(doc)), rawDriver := if doc.Null? then None else Some(doc))
  }

  lemma OriginalIsCurrent(ms: Machines, c: Codec, io: RunInput)
    requires GetsToSave(ms, c, io) && FromNewHost(io)
    ensures Original(ms, c, io).configVersion == VERSION
  {
    if HasMarker(ms, MACHINE) {
      LoadedHostIsCurrent(ms, c, MACHINE);
    }
  }

  /** What is saved is the original host with a live driver on the accepted, or on its original, configuration. */
  lemma SavedHost(ms: Machines, c: Codec, io: RunInput)
    requires GetsToSave(ms, c, io) && FromNewHost(io)
    ensures var h := HostToSave(ms, c, io);
      && h.Some?
      && h.value.driver == Live(if io.accepted then io.raw else OriginalDriver(ms, c, io))
      && h.value.(driver := NoDriver, rawDriver := None)
           == Original(ms, c, io).(driver := NoDriver, rawDriver := None)
  {
  }

  /** The state in which the host is saved. */
  lemma SavedInto(ms: Machines, c: Codec, io: RunInput)
    requires RunAllowed(ms, c, io) && GetsToSave(ms, c, io) && FromNewHost(io) && StoreWorks(ms, c, io)
    ensures var h, after := HostToSave(ms, c, io).value, RunResult(ms, c, io).0;
      && Marshal(h).Ok? && h.name in after && ConfigJson in after[h.name]
      && after[h.name][ConfigJson] == c.encode(Marshal(h).value)
    ensures RunResult(ms, c, io).1 !in {L.MkdirFailed, L.ExistsFailed, L.HostFailed, L.SaveFailed}
  {
    var here := Prepared(ms, MACHINE);
    PreparedSeesTheSame(ms, c, io);
    SavedHost(ms, c, io);
    var h, before := HostToSave(ms, c, io).value, BeforeSave(here, io);
    MarshalSucceedsExactly(h);
    assert ConfigJson in DirNamed(before, h.name) <==> ConfigJson in DirNamed(ms, h.name);
    SaveSucceedsExactly(before, h, io.save, io.saveMkdirFails);
    SavedChangesConfig(before, c, h, io.save);
  }

  /**
    After a `run` that has saved, loading the machine finds the host that was there before, or was made,
    with the new driver configuration if the driver accepted it and with the old one if it did not.
   */
  lemma RunSavesUpdatedHost(ms: Machines, c: Codec, io: RunInput)
    requires Faithful(c) && RunAllowed(ms, c, io) && FromNewHost(io)
    requires GetsToSave(ms, c, io) && StoreWorks(ms, c, io)
    ensures var h := Original(ms, c, io);
      LoadHost(RunResult(ms, c, io).0, c, h.name)
      == Ok(WithDriver(h, if io.accepted then io.raw else OriginalDriver(ms, c, io)))
  {
    var h := HostToSave(ms, c, io).value;
    SavedHost(ms, c, io);
    OriginalIsCurrent(ms, c, io);
    SavedInto(ms, c, io);
    assert c.decode(c.encode(Marshal(h).value)) == Some(Marshal(h).value);
    SavedHostLoads(h, h.name);
  }

  /** In particular an accepted configuration is what the next load finds, and after a refused one the old one. */
  lemma AcceptedConfigurationIsStored(ms: Machines, c: Codec, io: RunInput)
    requires Faithful(c) && RunAllowed(ms, c, io) && FromNewHost(io) && !io.raw.Null?
    requires GetsToSave(ms, c, io) && StoreWorks(ms, c, io)
    ensures var h := Original(ms, c, io);
      var stored := LoadHost(RunResult(ms, c, io).0, c, h.name);
      && stored.Ok?
      && (io.accepted ==> stored.value.rawDriver == Some(io.raw))
      && (!io.accepted && HasMarker(ms, MACHINE) ==> stored.value.rawDriver == h.rawDriver)
  {
    RunSavesUpdatedHost(ms, c, io);
    if HasMarker(ms, MACHINE) {
      LoadedHostIsCurrent(ms, c, MACHINE);
    }
  }

  /**
    For a machine of its own name: `run` gets to starting it exactly if it gets to saving, no store
    operation fails, the ignition file of a new machine can be written and a driver can be started again.
   */
  lemma RunStartsExactly(ms: Machines, c: Codec, io: RunInput)
    requires Faithful(c) && RunAllowed(ms, c, io) && FromNewHost(io) && Own(ms, c, io)
    ensures RunResult(ms, c, io).1 == L.Started <==>
      && GetsToSave(ms, c, io) && StoreWorks(ms, c, io)
      && (HasMarker(ms, MACHINE) || io.ignitionOk) && io.rpcAgainOk
  {
    var here := Prepared(ms, MACHINE);
    PreparedSeesTheSame(ms, c, io);
    if GetsToSave(ms, c, io) {
      SavedHost(ms, c, io);
      var h, before := HostToSave(ms, c, io).value, BeforeSave(here, io);
      assert ConfigJson in DirNamed(before, h.name) <==> ConfigJson in DirNamed(ms, h.name);
      SaveSucceedsExactly(before, h, io.save, io.saveMkdirFails);
      if StoreWorks(ms, c, io) {
        RunSavesUpdatedHost(ms, c, io);
      }
    }
  }
}
