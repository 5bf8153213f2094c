/** The file store refines a map from machine names to hosts and existence markers. */
module StoreRefinement {
  import opened SaveToFile
  import opened HostDoc
  import opened FileStore

  /** What the store holds for one machine: a saved host, if any, and whether it is marked as existing. */
  datatype Entry = Entry(host: Option<Host>, marked: bool)

  type Store = map<string, Entry>

  // ----- the abstract operations -----

  function EntryOf(m: Store, name: string): Entry {
    if name in m then m[name] else Entry(None, false)
  }

  function MapSave(m: Store, h: Host): Store {
    m[h.name := EntryOf(m, h.name).(host := Some(h))]
  }

  function MapSetExists(m: Store, name: string): Store {
    m[name := EntryOf(m, name).(marked := true)]
  }

  function MapLoad(m: Store, name: string): Result<Host> {
    if name !in m then Err(NotExist)
    else
      match m[name].host
      case None => Err(ReadError)
      case Some(h) =>
        if h.configVersion == VERSION && MarshalDriver(h.driver).Ok? then Ok(Reloaded(h)) else Err(UnexpectedVersion)
  }

  // ----- the representation -----

  /** A stored host can be encoded, carries its directory's name, and is what the file encodes. */
  predicate Stores(c: Codec, name: string, h: Host, contents: Bytes) {
    h.name == name && Marshal(h).Ok? && contents == c.encode(Marshal(h).value)
  }

  ghost predicate DirRepresents(c: Codec, name: string, d: Dir, e: Entry) {
    && (e.marked <==> Marker in d)
    && (e.host.Some? <==> ConfigJson in d)
    && (e.host.Some? ==> Stores(c, name, e.host.value, d[ConfigJson]))
  }

  ghost predicate Represents(c: Codec, ms: Machines, m: Store) {
    && ms.Keys == m.Keys
    && forall name :: name in ms ==> DirRepresents(c, name, ms[name], m[name])
  }

  // ----- one operation -----

  lemma SaveRefines(c: Codec, ms: Machines, m: Store, h: Host, io: Io, mkdirFails: bool)
    requires Represents(c, ms, m) && SavePossible(ms, c, h, io) && SaveSucceeds(ms, h, io, mkdirFails)
    ensures Represents(c, AfterHostSave(ms, c, h, io, mkdirFails), MapSave(m, h))
  {
    var dir := Prepared(ms, h.name)[h.name];
    SavedMeansReplaced(dir, c.encode(Marshal(h).value), io);
    assert h.name in ms ==> DirRepresents(c, h.name, ms[h.name], m[h.name]);
  }

  lemma SetExistsRefines(c: Codec, ms: Machines, m: Store, name: string)
    requires Represents(c, ms, m) && name in ms
    ensures Represents(c, AfterSetExists(ms, name), MapSetExists(m, name))
  {
    assert DirRepresents(c, name, ms[name], m[name]);
    assert DirRepresents(c, name, AfterSetExists(ms, name)[name], m[name].(marked := true));
  }

  lemma RemoveRefines(c: Codec, ms: Machines, m: Store, name: string)
    requires Represents(c, ms, m)
    ensures Represents(c, ms - {name}, m - {name})
  {
  }

  /** Loading answers from the map, errors included, and the host it finds has its directory's name. */
  lemma LoadRefines(c: Codec, ms: Machines, m: Store, name: string)
    requires Faithful(c) && Represents(c, ms, m)
    ensures LoadHost(ms, c, name) == MapLoad(m, name)
    ensures LoadHost(ms, c, name).Ok? ==> LoadHost(ms, c, name).value.name == name
  {
    if name in ms {
      assert DirRepresents(c, name, ms[name], m[name]);
      if m[name].host.Some? {
        var h := m[name].host.value;
        assert c.decode(c.encode(Marshal(h).value)) == Some(Marshal(h).value);
        SavedHostLoads(h, name);
      }
    }
  }

  lemma ExistsRefines(c: Codec, ms: Machines, m: Store, name: string)
    requires Represents(c, ms, m)
    ensures HasMarker(ms, name) == EntryOf(m, name).marked
  {
    assert name in ms ==> DirRepresents(c, name, ms[name], m[name]);
  }

  // ----- sequences of successful operations -----

  datatype Op =
    | SaveOp(host: Host, io: Io)
    | SetExistsOp(name: string)
    | RemoveOp(name: string)

  function Target(op: Op): string {
    if op.SaveOp? then op.host.name else op.name
  }

  predicate Succeeds(c: Codec, ms: Machines, op: Op) {
    match op
    case SaveOp(h, io) => SavePossible(ms, c, h, io) && SaveSucceeds(ms, h, io, false)
    case SetExistsOp(name) => name in ms
    case RemoveOp(_) => true
  }

  function Apply(c: Codec, ms: Machines, op: Op): Machines
    requires Succeeds(c, ms, op)
  {
    match op
    case SaveOp(h, io) => AfterHostSave(ms, c, h, io, false)
    case SetExistsOp(name) => AfterSetExists(ms, name)
    case RemoveOp(name) => ms - {name}
  }

  predicate AllSucceed(c: Codec, ms: Machines, ops: seq<Op>)
    decreases |ops|
  {
    ops == [] || (Succeeds(c, ms, ops[0]) && AllSucceed(c, Apply(c, ms, ops[0]), ops[1..]))
  }

  function ApplyAll(c: Codec, ms: Machines, ops: seq<Op>): Machines
    requires AllSucceed(c, ms, ops)
    decreases |ops|
  {
    if ops == [] then ms else ApplyAll(c, Apply(c, ms, ops[0]), ops[1..])
  }

  function MapApply(m: Store, op: Op): Store {
    match op
    case SaveOp(h, _) => MapSave(m, h)
    case SetExistsOp(name) => MapSetExists(m, name)
    case RemoveOp(name) => m - {name}
  }

  function MapApplyAll(m: Store, ops: seq<Op>): Store
    decreases |ops|
  {
    if ops == [] then m else MapApplyAll(MapApply(m, ops[0]), ops[1..])
  }

  lemma {:induction false} OpsRefine(c: Codec, ms: Machines, m: Store, ops: seq<Op>)
    requires Represents(c, ms, m) && AllSucceed(c, ms, ops)
    ensures Represents(c, ApplyAll(c, ms, ops), MapApplyAll(m, ops))
    decreases |ops|
  {
    if ops != [] {
      match ops[0] {
        case SaveOp(h, io) => SaveRefines(c, ms, m, h, io, false);
        case SetExistsOp(name) => SetExistsRefines(c, ms, m, name);
        case RemoveOp(name) => RemoveRefines(c, ms, m, name);
      }
      OpsRefine(c, Apply(c, ms, ops[0]), MapApply(m, ops[0]), ops[1..]);
    }
  }

  /**
    After any sequence of successful operations on an empty store, every load and every existence check
    answers as the map does.
   */
  lemma StoreIsAMap(c: Codec, ops: seq<Op>, name: string)
    requires Faithful(c) && AllSucceed(c, map[], ops)
    ensures LoadHost(ApplyAll(c, map[], ops), c, name) == MapLoad(MapApplyAll(map[], ops), name)
    ensures HasMarker(ApplyAll(c, map[], ops), name) == EntryOf(MapApplyAll(map[], ops), name).marked
  {
    OpsRefine(c, map[], map[], ops);
    LoadRefines(c, ApplyAll(c, map[], ops), MapApplyAll(map[], ops), name);
    ExistsRefines(c, ApplyAll(c, map[], ops), MapApplyAll(map[], ops), name);
  }

  /** Operations on other machines leave a machine's directory exactly as it was. */
  lemma {:induction false} OthersAreUntouched(c: Codec, ms: Machines, ops: seq<Op>, name: string)
    requires AllSucceed(c, ms, ops) && forall i :: 0 <= i < |ops| ==> Target(ops[i]) != name
    ensures name in ApplyAll(c, ms, ops) <==> name in ms
    ensures name in ms ==> ApplyAll(c, ms, ops)[name] == ms[name]
    decreases |ops|
  {
    if ops != [] {
      assert Target(ops[0]) != name;
      OthersAreUntouched(c, Apply(c, ms, ops[0]), ops[1..], name);
    }
  }

  /**
    The host a store was given is the host it gives back: after saving a version-3 host, whatever is
    done to other machines, loading it returns the persisted fields, with the driver's document in
    `RawDriver`.
   */
  lemma SaveThenLoad(c: Codec, ms: Machines, h: Host, io: Io, ops: seq<Op>)
    requires Faithful(c) && h.configVersion == VERSION && Succeeds(c, ms, SaveOp(h, io))
    requires AllSucceed(c, Apply(c, ms, SaveOp(h, io)), ops)
    requires forall i :: 0 <= i < |ops| ==> Target(ops[i]) != h.name
    ensures LoadHost(ApplyAll(c, Apply(c, ms, SaveOp(h, io)), ops), c, h.name) == Ok(Reloaded(h))
  {
    var saved := Apply(c, ms, SaveOp(h, io));
    var contents := c.encode(Marshal(h).value);
    OthersAreUntouched(c, saved, ops, h.name);
    assert saved[h.name][ConfigJson] == contents by {
      SavedMeansReplaced(Prepared(ms, h.name)[h.name], contents, io);
    }
    assert c.decode(contents) == Some(Marshal(h).value);
    SavedHostLoads(h, h.name);
  }

  /** Loading and saving is a fixpoint: saving the host that was just loaded leaves the disk as it was. */
  lemma LoadThenSaveChangesNothing(c: Codec, ms: Machines, m: Store, name: string, io: Io)
    requires Faithful(c) && Represents(c, ms, m) && LoadHost(ms, c, name).Ok?
    requires var h := LoadHost(ms, c, name).value; SavePossible(ms, c, h, io) && SaveSucceeds(ms, h, io, false)
    ensures AfterHostSave(ms, c, LoadHost(ms, c, name).value, io, false) == ms
  {
    LoadRefines(c, ms, m, name);
    assert DirRepresents(c, name, ms[name], m[name]);
    var h := m[name].host.value;
    var contents := c.encode(Marshal(h).value);
    ReloadedSavesTheSame(h);
    SavedMeansReplaced(ms[name], contents, io);
    assert ms[name][ConfigJson := contents] == ms[name];
    assert ms[name := ms[name]] == ms;
  }
}
