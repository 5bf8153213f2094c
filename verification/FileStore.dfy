/** The machine store (mct/pkg/libmachine/persist/filestore.go) and the map it refines. */
module FileStore {
  import opened SaveToFile
  import opened HostDoc

  /** The text form of documents, a parameter of the model. */
  datatype Codec = Codec(encode: Json -> Bytes, decode: Bytes -> Option<Json>)

  /** Reading back what was written gives the document that was written. */
  ghost predicate Faithful(c: Codec) {
    forall j :: c.decode(c.encode(j)) == Some(j)
  }

  /** The directories under `MachinesDir`. */
  type Machines = map<string, Dir>

  // ----- the operations on the disk -----

  function Prepared(ms: Machines, name: string): Machines {
    if name in ms then ms else ms[name := map[]]
  }

  predicate SavePossible(ms: Machines, c: Codec, h: Host, io: Io) {
    Marshal(h).Ok? ==> Possible(Prepared(ms, h.name)[h.name], c.encode(Marshal(h).value), io)
  }

  predicate SaveSucceeds(ms: Machines, h: Host, io: Io, mkdirFails: bool) {
    Marshal(h).Ok? && !mkdirFails && SaveOutcome(Prepared(ms, h.name)[h.name], io).Saved?
  }

  function AfterHostSave(ms: Machines, c: Codec, h: Host, io: Io, mkdirFails: bool): Machines
    requires SavePossible(ms, c, h, io)
  {
    if Marshal(h).Err? || mkdirFails then ms
    else
      var prepared := Prepared(ms, h.name);
      prepared[h.name := AfterSave(prepared[h.name], c.encode(Marshal(h).value), io)]
  }

  function LoadHost(ms: Machines, c: Codec, name: string): Result<Host> {
    if name !in ms then Err(NotExist)
    else if ConfigJson !in ms[name] then Err(ReadError)
    else
      match c.decode(ms[name][ConfigJson])
      case None => Err(UnmarshalError)
      case Some(doc) => MigrateHost(name, doc)
  }

  /** Opening the marker creates it, but not the directory; an existing marker keeps its contents. */
  function AfterSetExists(ms: Machines, name: string): Machines
    requires name in ms
  {
    if Marker in ms[name] then ms else ms[name := ms[name][Marker := []]]
  }

  /** The marker is there afterwards, empty if it is new, and every file that was there is as it was. */
  lemma SetExistsOnlyAddsMarker(ms: Machines, name: string, f: FileName)
    requires name in ms
    ensures var before, after := ms[name], AfterSetExists(ms, name);
      && name in after && (f in after[name] <==> f in before || f == Marker)
      && (f in before ==> after[name][f] == before[f]) && (f == Marker && f !in before ==> after[name][f] == [])
      && after - {name} == ms - {name}
  {
  }

  predicate HasMarker(ms: Machines, name: string) {
    name in ms && Marker in ms[name]
  }

  /** The states of the disk while directory `name` goes through `steps`. */
  function OnDisk(ms: Machines, name: string, steps: seq<Dir>): seq<Machines> {
    seq(|steps|, i requires 0 <= i < |steps| => ms[name := steps[i]])
  }

  function After(ms: Machines, name: string, steps: seq<Dir>): Machines {
    if steps == [] then ms else ms[name := steps[|steps| - 1]]
  }

  lemma OnDiskConcat(ms: Machines, name: string, a: seq<Dir>, b: seq<Dir>)
    ensures OnDisk(ms, name, a + b) == OnDisk(ms, name, a) + OnDisk(After(ms, name, a), name, b)
    ensures After(ms, name, a + b) == After(After(ms, name, a), name, b)
  {
    if a != [] {
      forall i | 0 <= i < |b|
        ensures ms[name := a[|a| - 1]][name := b[i]] == ms[name := b[i]]
      {
      }
    }
  }

  lemma WriteStepsRestart(dir: Dir, f: FileName, x: Bytes, data: Bytes, w: WriteOutcome)
    requires PossibleWrite(w, data)
    ensures WriteSteps(dir[f := x], f, data, w) == WriteSteps(dir, f, data, w)
  {
    if w.Wrote? {
      forall i | 0 <= i <= w.n
        ensures dir[f := x][f := data[..i]] == dir[f := data[..i]]
      {
      }
    }
  }

  /** Every state of the disk during `Save`. */
  function SaveTrail(ms: Machines, c: Codec, h: Host, io: Io, mkdirFails: bool): seq<Machines>
    requires SavePossible(ms, c, h, io)
  {
    if Marshal(h).Err? || mkdirFails then []
    else
      var prepared := Prepared(ms, h.name);
      (if h.name in ms then [] else [prepared])
      + OnDisk(prepared, h.name, SaveSteps(prepared[h.name], c.encode(Marshal(h).value), io))
  }

  /** The directory of a machine, empty if there is none yet. */
  function DirNamed(ms: Machines, name: string): Dir {
    if name in ms then ms[name] else map[]
  }

  /** Saving succeeds exactly if the host can be encoded and no call fails. */
  lemma SaveSucceedsExactly(ms: Machines, h: Host, io: Io, mkdirFails: bool)
    ensures SaveSucceeds(ms, h, io, mkdirFails) <==>
      h.driver != RawData(None) && !mkdirFails && NothingFails(DirNamed(ms, h.name), io)
  {
    MarshalSucceedsExactly(h);
    OutcomeIsFirstFailure(DirNamed(ms, h.name), io);
  }

  /** Then the machine's configuration is the encoded host, and nothing else has changed. */
  lemma SavedChangesConfig(ms: Machines, c: Codec, h: Host, io: Io)
    requires SavePossible(ms, c, h, io) && h.driver != RawData(None) && NothingFails(DirNamed(ms, h.name), io)
    ensures Marshal(h).Ok?
    ensures AfterHostSave(ms, c, h, io, false)
         == ms[h.name := DirNamed(ms, h.name)[ConfigJson := c.encode(Marshal(h).value)]]
  {
    MarshalSucceedsExactly(h);
    NothingFailsReplaces(DirNamed(ms, h.name), c.encode(Marshal(h).value), io);
  }

  /**
    Whatever put a configuration there: a host that loads is of the current version, its driver is none or
    what `RawDriver` holds, and once it is saved again the same configuration decodes to the same host.
   */
  lemma LoadedHostIsCurrent(ms: Machines, c: Codec, name: string)
    requires LoadHost(ms, c, name).Ok?
    ensures var h := LoadHost(ms, c, name).value;
      && h.configVersion == VERSION
      && (h.driver.NoDriver? || h.driver == RawData(h.rawDriver)) && h.rawDriver != Some(Null)
      && (h.driver.RawData? && Marshal(h).Ok? ==> MigrateHost(name, Marshal(h).value) == Ok(h))
  {
    var doc := c.decode(ms[name][ConfigJson]).value;
    LoadSaveLoadIsStable(name, doc);
    DecodingInvariant(Prefilled(name), doc.members);
  }

  // ----- the Go object -----

  /** The store as an object; `trail` records every state the disk has been in, for crash analysis. */
  class Filestore {
    const codec: Codec
    var machines: Machines
    ghost var trail: seq<Machines>

    constructor (codec: Codec)
      ensures this.codec == codec && machines == map[] && trail == [map[]]
    {
      this.codec := codec;
      machines := map[];
      trail := [map[]];
    }

    /** Since the old state the disk went through exactly `steps`, all of them changes of directory `name`. */
    twostate predicate Recorded(name: string, steps: seq<Dir>)
      reads this
    {
      && trail == old(trail) + OnDisk(old(machines), name, steps)
      && machines == After(old(machines), name, steps)
    }

    method SetDir(name: string, d: Dir)
      modifies this
      ensures machines == old(machines)[name := d] && trail == old(trail) + [machines]
    {
      machines := machines[name := d];
      trail := trail + [machines];
    }

    /** `ioutil.WriteFile` */
    method WriteFile(name: string, f: FileName, data: Bytes, w: WriteOutcome) returns (ok: bool)
      requires name in machines && PossibleWrite(w, data)
      modifies this
      ensures ok == WriteSucceeds(w)
      ensures Recorded(name, WriteSteps(old(machines)[name], f, data, w))
    {
      if w.OpenFailed? {
        assert trail == old(trail) + [];
        return false;
      }
      var dir := machines[name];
      machines := machines[name := dir[f := data[..w.n]]];
      trail := trail + OnDisk(old(machines), name, WriteSteps(dir, f, data, w));
      return !w.failed;
    }

    /** `os.Remove` of a file that is there. */
    method RemoveFile(name: string, f: FileName)
      requires name in machines
      modifies this
      ensures Recorded(name, [old(machines)[name] - {f}])
    {
      SetDir(name, machines[name] - {f});
    }

    /** `ioutil.TempFile`, then `ioutil.WriteFile` on it. */
    method FillTemp(name: string, t: FileName, data: Bytes, w: WriteOutcome) returns (ok: bool)
      requires name in machines && PossibleWrite(w, data)
      modifies this
      ensures ok == WriteSucceeds(w)
      ensures Recorded(name, [old(machines)[name][t := []]] + WriteSteps(old(machines)[name], t, data, w))
    {
      ghost var ms, dir := machines, machines[name];
      SetDir(name, machines[name][t := []]);
      ok := WriteFile(name, t, data, w);
      WriteStepsRestart(dir, t, [], data, w);
      OnDiskConcat(ms, name, [dir[t := []]], WriteSteps(dir, t, data, w));
    }

    /** The steps between creating the temporary file and the deferred clean-up. */
    method ReplaceFile(name: string, data: Bytes, io: Io) returns (out: Outcome)
      requires name in machines && Possible(machines[name], data, io)
      requires !Creates(machines[name], io) && !io.tempFails
      modifies this
      ensures out == SaveOutcome(old(machines)[name], io)
      ensures Recorded(name, ReplaceSteps(old(machines)[name], data, io))
    {
      var t := Temp(io.temp);
      ghost var ms, dir := machines, machines[name];
      ghost var steps := [dir[t := []]] + WriteSteps(dir, t, data, io.write);
      var written := FillTemp(name, t, data, io.write);
      if !written {
        return WriteFailed;
      }
      if io.closeFails {
        return CloseFailed;
      }
      assert data[..|data|] == data;
      assert machines[name] == dir[t := data];
      if io.removeFails || ConfigJson !in machines[name] {
        return RemoveFailed;
      }
      var renamed := Swap(name, t, io.renameFails);
      ghost var gone := dir[t := data] - {ConfigJson};
      assert gone[ConfigJson := data] - {t} == dir[ConfigJson := data];
      ghost var rest := if renamed then [gone, dir[ConfigJson := data]] else [gone];
      OnDiskConcat(ms, name, steps, rest);
      assert steps + rest == ReplaceSteps(dir, data, io);
      return if renamed then Saved else RenameFailed;
    }

    /** Remove the old configuration, then rename the temporary file to it. */
    method Swap(name: string, t: FileName, renameFails: bool) returns (ok: bool)
      requires name in machines && t.Temp? && t in machines[name] && ConfigJson in machines[name]
      modifies this
      ensures ok == !renameFails
      ensures var gone, data := old(machines)[name] - {ConfigJson}, old(machines)[name][t];
        Recorded(name, if ok then [gone, gone[ConfigJson := data] - {t}] else [gone])
    {
      ghost var ms, gone := machines, machines[name] - {ConfigJson};
      RemoveFile(name, ConfigJson);
      if renameFails {
        return false;
      }
      SetDir(name, machines[name][ConfigJson := machines[name][t]] - {t});
      OnDiskConcat(ms, name, [gone], [gone[ConfigJson := ms[name][t]] - {t}]);
      assert [gone] + [machines[name]] == [gone, machines[name]];
      return true;
    }

    /** `saveToFile`, with the deferred `os.Remove` of the temporary file at its end. */
    method SaveToFile(name: string, data: Bytes, io: Io) returns (out: Outcome)
      requires name in machines && Possible(machines[name], data, io)
      modifies this
      ensures out == SaveOutcome(old(machines)[name], io)
      ensures out.Saved? <==> NothingFails(old(machines)[name], io)
      ensures out.Saved? ==> machines == old(machines)[name := old(machines)[name][ConfigJson := data]]
      ensures Recorded(name, SaveSteps(old(machines)[name], data, io))
    {
      OutcomeIsFirstFailure(machines[name], io);
      if NothingFails(machines[name], io) {
        NothingFailsReplaces(machines[name], data, io);
      }
      if !io.statFails && ConfigJson !in machines[name] {
        var written := WriteFile(name, ConfigJson, data, io.write);
        return if written then Saved else CreateFailed;
      }
      if io.tempFails {
        assert trail == old(trail) + [];
        return TempFailed;
      }
      ghost var ms := machines;
      ghost var steps := ReplaceSteps(ms[name], data, io);
      out := ReplaceFile(name, data, io);
      if !io.cleanupFails {
        OnDiskConcat(ms, name, steps, [machines[name] - {Temp(io.temp)}]);
        RemoveFile(name, Temp(io.temp));
      }
    }

    /** `Save`: marshal the host, make its directory, replace its configuration. */
    method Save(host: Host, io: Io, mkdirFails: bool) returns (ok: bool)
      requires SavePossible(machines, codec, host, io)
      modifies this
      ensures ok == SaveSucceeds(old(machines), host, io, mkdirFails)
      ensures ok <==>
        host.driver != RawData(None) && !mkdirFails && NothingFails(DirNamed(old(machines), host.name), io)
      ensures machines == AfterHostSave(old(machines), codec, host, io, mkdirFails)
      ensures trail == old(trail) + SaveTrail(old(machines), codec, host, io, mkdirFails)
    {
      SaveSucceedsExactly(machines, host, io, mkdirFails);
      var doc := Marshal(host);
      if doc.Err? || mkdirFails {
        assert trail == old(trail) + [];
        return false;
      }
      if host.name !in machines {
        SetDir(host.name, map[]);
      }
      var out := SaveToFile(host.name, codec.encode(doc.value), io);
      return out.Saved?;
    }

    /** `Load`: the directory and the file must be there, and the file must decode. */
    method Load(name: string) returns (r: Result<Host>)
      ensures r == LoadHost(machines, codec, name)
      ensures r.Ok? ==> r.value.configVersion == VERSION
      ensures r.Ok? ==> r.value.driver.NoDriver? || r.value.driver == RawData(r.value.rawDriver)
    {
      if LoadHost(machines, codec, name).Ok? {
        LoadedHostIsCurrent(machines, codec, name);
      }
      if name !in machines {
        return Err(NotExist);
      }
      if ConfigJson !in machines[name] {
        return Err(ReadError);
      }
      var doc := codec.decode(machines[name][ConfigJson]);
      return if doc.None? then Err(UnmarshalError) else MigrateHost(name, doc.value);
    }

    /** `Remove`: `os.RemoveAll` takes the files in some order and then the directory, unless it fails on the way. */
    method Remove(name: string, order: seq<FileName>, fails: bool) returns (ok: bool)
      modifies this
      ensures ok == !fails
      ensures machines ==
        if !fails then old(machines) - {name}
        else if name in old(machines) then old(machines)[name := Without(old(machines)[name], order)]
        else old(machines)
      ensures name in old(machines) ==>
        trail == old(trail) + OnDisk(old(machines), name, RemovalSteps(old(machines)[name], order))
                 + (if fails then [] else [machines])
    {
      if name in machines {
        trail := trail + OnDisk(machines, name, RemovalSteps(machines[name], order));
        machines := machines[name := Without(machines[name], order)];
      }
      if !fails {
        machines := machines - {name};
        trail := trail + [machines];
      }
      return !fails;
    }

    method SetExists(name: string, openFails: bool) returns (ok: bool)
      modifies this
      ensures ok == (name in old(machines) && !openFails)
      ensures machines == if ok then AfterSetExists(old(machines), name) else old(machines)
      ensures trail == old(trail) + (if machines == old(machines) then [] else [machines])
    {
      if name !in machines || openFails {
        return false;
      }
      if Marker !in machines[name] {
        SetDir(name, machines[name][Marker := []]);
        assert Marker in machines[name];
      }
      return true;
    }

    /** `Exists`: a failing `os.Stat` other than absence is an error. */
    method Exists(name: string, statFails: bool) returns (r: Result<bool>)
      ensures r == if statFails then Err(ReadError) else Ok(HasMarker(machines, name))
    {
      if statFails {
        return Err(ReadError);
      }
      return Ok(name in machines && Marker in machines[name]);
    }
  }
}
