/**
  The document in which a machine is stored: what `Save` encodes and `MigrateHost` decodes
  (mct/pkg/libmachine/persist/filestore.go, mct/pkg/libmachine/host/host.go and migrate.go).
 */
module HostDoc {

  datatype Result<T> = Ok(value: T) | Err(error: Error)

  datatype Error = MarshalError | UnmarshalError | UnexpectedVersion | NotExist | ReadError

  datatype Option<T> = None | Some(value: T)

  datatype Json =
    | Null
    | Bool(b: bool)
    | Num(n: int)
    | Str(s: string)
    | Arr(items: seq<Json>)
    | Obj(members: seq<Member>)

  datatype Member = Member(key: string, value: Json)

  /** `host.Version` */
  const VERSION := 3

  /**
    The driver of a host: none, a `RawDataDriver` with the document it was decoded from (if any), or a
    driver of another type together with the document it marshals to.
   */
  datatype Driver = NoDriver | RawData(data: Option<Json>) | Live(config: Json)

  datatype Host = Host(
    configVersion: int, driver: Driver, driverName: string, driverPath: string, name: string,
    rawDriver: Option<Json>, publicKey: string, privateKey: string)

  // ----- encoding -----

  /** `RawDataDriver.MarshalJSON` returns its data as it is; without data that is not a document. */
  function MarshalDriver(d: Driver): Result<Json> {
    match d
    case NoDriver => Ok(Null)
    case RawData(None) => Err(MarshalError)
    case RawData(Some(j)) => Ok(j)
    case Live(j) => Ok(j)
  }

  /** `json.MarshalIndent` of a host; the field `RawDriver` is excluded by its tag. */
  function Marshal(h: Host): Result<Json> {
    match MarshalDriver(h.driver)
    case Err(e) => Err(e)
    case Ok(d) => Ok(Obj([
      Member("ConfigVersion", Num(h.configVersion)),
      Member("Driver", d),
      Member("DriverName", Str(h.driverName)),
      Member("DriverPath", Str(h.driverPath)),
      Member("Name", Str(h.name)),
      Member("PublicKey", Str(h.publicKey)),
      Member("PrivateKey", Str(h.privateKey))]))
  }

  // ----- decoding -----

  /** A number field: null leaves it alone, any other type is an error. */
  function DecodeInt(was: int, j: Json): Result<int> {
    match j
    case Null => Ok(was)
    case Num(n) => Ok(n)
    case _ => Err(UnmarshalError)
  }

  function DecodeString(was: string, j: Json): Result<string> {
    match j
    case Null => Ok(was)
    case Str(s) => Ok(s)
    case _ => Err(UnmarshalError)
  }

  /** A host being decoded, and the `RawDataDriver` that was put in its driver field beforehand. */
  datatype Decoding = Decoding(host: Host, data: Option<Json>)

  /** The driver field: null clears it, a document is kept as it is, and once cleared nothing fits. */
  function DecodeDriver(d: Decoding, j: Json): Result<Decoding> {
    if j.Null? then Ok(d.(host := d.host.(driver := NoDriver)))
    else if d.host.driver.RawData? then
      Ok(Decoding(d.host.(driver := RawData(Some(j))), Some(j)))
    else Err(UnmarshalError)
  }

  function DecodeMember(d: Decoding, m: Member): Result<Decoding> {
    if m.key == "ConfigVersion" then
      (match DecodeInt(d.host.configVersion, m.value)
       case Ok(v) => Ok(d.(host := d.host.(configVersion := v)))
       case Err(e) => Err(e))
    else if m.key == "Driver" then DecodeDriver(d, m.value)
    else if m.key == "DriverName" then
      (match DecodeString(d.host.driverName, m.value)
       case Ok(v) => Ok(d.(host := d.host.(driverName := v)))
       case Err(e) => Err(e))
    else if m.key == "DriverPath" then
      (match DecodeString(d.host.driverPath, m.value)
       case Ok(v) => Ok(d.(host := d.host.(driverPath := v)))
       case Err(e) => Err(e))
    else if m.key == "Name" then
      (match DecodeString(d.host.name, m.value)
       case Ok(v) => Ok(d.(host := d.host.(name := v)))
       case Err(e) => Err(e))
    else if m.key == "PublicKey" then
      (match DecodeString(d.host.publicKey, m.value)
       case Ok(v) => Ok(d.(host := d.host.(publicKey := v)))
       case Err(e) => Err(e))
    else if m.key == "PrivateKey" then
      (match DecodeString(d.host.privateKey, m.value)
       case Ok(v) => Ok(d.(host := d.host.(privateKey := v)))
       case Err(e) => Err(e))
    else Ok(d)
  }

  function DecodeMembers(d: Decoding, ms: seq<Member>): Result<Decoding>
    decreases |ms|
  {
    if ms == [] then Ok(d) else
      match DecodeMember(d, ms[0])
      case Err(e) => Err(e)
      case Ok(d') => DecodeMembers(d', ms[1..])
  }

  /** The version in the metadata part of the document; zero if it is not given. */
  function DecodeVersion(v: int, ms: seq<Member>): Result<int>
    decreases |ms|
  {
    if ms == [] then Ok(v)
    else if ms[0].key == "ConfigVersion" then
      (match DecodeInt(v, ms[0].value)
       case Err(e) => Err(e)
       case Ok(v') => DecodeVersion(v', ms[1..]))
    else DecodeVersion(v, ms[1..])
  }

  /** The host that decoding starts from: it already has the directory's name and an empty driver. */
  function Prefilled(name: string): Decoding {
    Decoding(Host(0, RawData(None), "", "", name, None, "", ""), None)
  }

  /** `MigrateHost` */
  function MigrateHost(name: string, doc: Json): Result<Host> {
    match doc
    case Null => Err(UnexpectedVersion)
    case Obj(ms) =>
      (match DecodeVersion(0, ms)
       case Err(e) => Err(e)
       case Ok(v) =>
         if v != VERSION then Err(UnexpectedVersion)
         else
           match DecodeMembers(Prefilled(name), ms)
           case Err(e) => Err(e)
           case Ok(d) => Ok(d.host.(rawDriver := d.data)))
    case _ => Err(UnmarshalError)
  }

  // ----- the round trip -----

  /** What a saved host comes back as: the driver's document takes the driver's place. */
  function Reloaded(h: Host): Host
    requires MarshalDriver(h.driver).Ok?
  {
    var j := MarshalDriver(h.driver).value;
    var raw := if j.Null? then None else Some(j);
    h.(driver := if j.Null? then NoDriver else RawData(raw), rawDriver := raw)
  }

  lemma DecodeStep(d: Decoding, m: Member, rest: seq<Member>)
    requires DecodeMember(d, m).Ok?
    ensures DecodeMembers(d, [m] + rest) == DecodeMembers(DecodeMember(d, m).value, rest)
  {
    assert ([m] + rest)[1..] == rest;
  }

  lemma VersionStep(v: int, m: Member, rest: seq<Member>)
    requires m.key != "ConfigVersion"
    ensures DecodeVersion(v, [m] + rest) == DecodeVersion(v, rest)
  {
    assert ([m] + rest)[1..] == rest;
  }

  lemma MarshalledVersion(h: Host)
    requires Marshal(h).Ok?
    ensures DecodeVersion(0, Marshal(h).value.members) == Ok(h.configVersion)
  {
    var ms := Marshal(h).value.members;
    assert DecodeVersion(h.configVersion, ms[1..]) == Ok(h.configVersion) by {
      forall i | 1 <= i < 7
        ensures DecodeVersion(h.configVersion, ms[i..]) == DecodeVersion(h.configVersion, ms[i + 1..])
      {
        assert ms[i..] == [ms[i]] + ms[i + 1..];
        VersionStep(h.configVersion, ms[i], ms[i + 1..]);
      }
      assert ms[7..] == [];
    }
  }

  /** The string fields, which `Save` writes last. */
  lemma MarshalledStrings(h: Host, d: Decoding)
    requires Marshal(h).Ok?
    ensures DecodeMembers(d, Marshal(h).value.members[2..]) == Ok(d.(host := d.host.(
      driverName := h.driverName, driverPath := h.driverPath, name := h.name,
      publicKey := h.publicKey, privateKey := h.privateKey)))
  {
    var ms := Marshal(h).value.members;
    var d3 := d.(host := d.host.(driverName := h.driverName));
    var d4 := d3.(host := d3.host.(driverPath := h.driverPath));
    assert ms[2..] == [ms[2]] + ms[3..];
    DecodeStep(d, ms[2], ms[3..]);
    assert ms[3..] == [ms[3]] + ms[4..];
    DecodeStep(d3, ms[3], ms[4..]);
    MarshalledNames(h, d4);
  }

  lemma MarshalledNames(h: Host, d: Decoding)
    requires Marshal(h).Ok?
    ensures DecodeMembers(d, Marshal(h).value.members[4..]) ==
      Ok(d.(host := d.host.(name := h.name, publicKey := h.publicKey, privateKey := h.privateKey)))
  {
    var ms := Marshal(h).value.members;
    var d5 := d.(host := d.host.(name := h.name));
    var d6 := d5.(host := d5.host.(publicKey := h.publicKey));
    assert ms[4..] == [ms[4]] + ms[5..];
    DecodeStep(d, ms[4], ms[5..]);
    assert ms[5..] == [ms[5]] + ms[6..];
    DecodeStep(d5, ms[5], ms[6..]);
    assert ms[6..] == [ms[6]] + [];
    DecodeStep(d6, ms[6], []);
  }

  lemma MarshalledMembers(h: Host, name: string)
    requires Marshal(h).Ok?
    ensures DecodeMembers(Prefilled(name), Marshal(h).value.members)
         == Ok(Decoding(Reloaded(h).(rawDriver := None), Reloaded(h).rawDriver))
  {
    var ms := Marshal(h).value.members;
    var d0 := Prefilled(name);
    var d1 := d0.(host := d0.host.(configVersion := h.configVersion));
    assert ms == [ms[0]] + ms[1..];
    DecodeStep(d0, ms[0], ms[1..]);
    assert ms[1..] == [ms[1]] + ms[2..];
    DecodeStep(d1, ms[1], ms[2..]);
    MarshalledStrings(h, DecodeDriver(d1, ms[1].value).value);
  }

  /** A host can be saved unless it holds a `RawDataDriver` without data. */
  lemma MarshalSucceedsExactly(h: Host)
    ensures Marshal(h).Ok? <==> h.driver != RawData(None)
  {
  }

  /**
    A host that can be saved loads again exactly when its version is the current one, and then with
    every persisted field as it was and its driver's document as `RawDriver`.
   */
  lemma SavedHostLoads(h: Host, name: string)
    requires Marshal(h).Ok?
    ensures MigrateHost(name, Marshal(h).value) ==
      if h.configVersion == VERSION then Ok(Reloaded(h)) else Err(UnexpectedVersion)
  {
    MarshalledVersion(h);
    if h.configVersion == VERSION {
      MarshalledMembers(h, name);
    }
  }

  /** Loading and saving settles at once: the reloaded host encodes to the same document. */
  lemma ReloadedSavesTheSame(h: Host)
    requires Marshal(h).Ok?
    ensures Marshal(Reloaded(h)) == Marshal(h)
    ensures Reloaded(Reloaded(h)) == Reloaded(h)
  {
  }

  // ----- documents that were not written by Save -----

  predicate HasDriver(ms: seq<Member>) {
    exists i :: 0 <= i < |ms| && ms[i].key == "Driver"
  }

  /** What decoding keeps: the driver is either cleared or exactly the data decoded for it. */
  lemma {:induction false} DecodingInvariant(d: Decoding, ms: seq<Member>)
    requires d.host.driver.NoDriver? || d.host.driver == RawData(d.data)
    requires d.data.Some? ==> !d.data.value.Null?
    ensures DecodeMembers(d, ms).Ok? ==>
      var d' := DecodeMembers(d, ms).value;
      && (d'.host.driver.NoDriver? || d'.host.driver == RawData(d'.data))
      && (d'.data.Some? ==> !d'.data.value.Null?)
      && (d.host.driver == RawData(None) ==> (d'.host.driver == RawData(None) <==> !HasDriver(ms)))
      && (d.host.driver != RawData(None) ==> d'.host.driver != RawData(None))
    decreases |ms|
  {
    if ms != [] && DecodeMember(d, ms[0]).Ok? {
      DecodingInvariant(DecodeMember(d, ms[0]).value, ms[1..]);
      assert HasDriver(ms) <==> ms[0].key == "Driver" || HasDriver(ms[1..]) by {
        assert forall i :: 1 <= i < |ms| ==> ms[i] == ms[1..][i - 1];
      }
    }
  }

  lemma {:induction false} DecodedVersion(d: Decoding, ms: seq<Member>)
    requires DecodeMembers(d, ms).Ok?
    ensures DecodeVersion(d.host.configVersion, ms) == Ok(DecodeMembers(d, ms).value.host.configVersion)
    decreases |ms|
  {
    if ms != [] {
      DecodedVersion(DecodeMember(d, ms[0]).value, ms[1..]);
    }
  }

  /**
    Whatever document a host was loaded from, saving it succeeds exactly when the document has a driver
    member; the saved document then loads as the same host, up to a driver document that a later null
    in the original had already discarded.
   */
  lemma LoadSaveLoadIsStable(name: string, doc: Json)
    requires MigrateHost(name, doc).Ok?
    ensures var h := MigrateHost(name, doc).value;
      && h.configVersion == VERSION
      && (Marshal(h).Ok? <==> HasDriver(doc.members))
      && (Marshal(h).Ok? ==>
            MigrateHost(name, Marshal(h).value) == Ok(if h.driver.NoDriver? then h.(rawDriver := None) else h))
  {
    var h := MigrateHost(name, doc).value;
    DecodingInvariant(Prefilled(name), doc.members);
    DecodedVersion(Prefilled(name), doc.members);
    if Marshal(h).Ok? {
      SavedHostLoads(h, name);
    }
  }

  // ----- UpdateConfig -----

  /**
    `Host.UpdateConfig`: a driver that accepts the raw configuration takes it over, and only then does
    the host remember it. A `RawDataDriver` always accepts.
   */
  function UpdateConfig(h: Host, raw: Json, accepted: bool): Host {
    match h.driver
    case RawData(_) => h.(driver := RawData(Some(raw)), rawDriver := Some(raw))
    case Live(_) => if accepted then h.(driver := Live(raw), rawDriver := Some(raw)) else h
    case NoDriver => h
  }

  /** An accepted update is what the next load finds; a refused one leaves the saved document alone. */
  lemma UpdateReachesNextLoad(h: Host, raw: Json, accepted: bool, name: string)
    requires !h.driver.NoDriver? && !raw.Null? && h.configVersion == VERSION
    ensures var u := UpdateConfig(h, raw, accepted);
      if accepted || h.driver.RawData? then
        && Marshal(u).Ok? && MigrateHost(name, Marshal(u).value).Ok?
        && MigrateHost(name, Marshal(u).value).value.rawDriver == u.rawDriver == Some(raw)
      else Marshal(u) == Marshal(h) && u.rawDriver == h.rawDriver
  {
    var u := UpdateConfig(h, raw, accepted);
    if accepted || h.driver.RawData? {
      SavedHostLoads(u, name);
    }
  }
}
