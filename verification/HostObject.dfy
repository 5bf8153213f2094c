/**
  Hosts and drivers as the objects that loading fills and updating changes in place
  (mct/pkg/libmachine/host/migrate.go and host.go), proved against the documents of `HostDoc`.
 */
module HostObject {
  import opened HostDoc
  import opened HostFields

  class RawDataDriver {
    var data: Option<Json>

    constructor ()
      ensures data == None
    {
      data := None;
    }

    /** Its data passes straight through; without any there is no document. */
    method MarshalJSON() returns (r: Result<Json>)
      ensures r == MarshalDriver(RawData(data))
    {
      return if data.None? then Err(MarshalError) else Ok(data.value);
    }

    method UnmarshalJSON(doc: Json)
      modifies this
      ensures data == Some(doc)
    {
      data := Some(doc);
    }

    method UpdateConfigRaw(raw: Json)
      modifies this
      ensures data == Some(raw)
    {
      UnmarshalJSON(raw);
    }
  }

  /** A driver in another process, which may refuse a configuration. */
  class RpcDriver {
    var config: Json

    constructor (config: Json)
      ensures this.config == config
    {
      this.config := config;
    }

    method UpdateConfigRaw(raw: Json, accepts: bool) returns (ok: bool)
      modifies this
      ensures ok == accepts && config == if accepts then raw else old(config)
    {
      if accepts {
        config := raw;
      }
      return accepts;
    }
  }

  /** The interface field `Driver`. */
  datatype DriverRef = Nil | Raw(raw: RawDataDriver) | Rpc(rpc: RpcDriver)

  class HostObj {
    var configVersion: int
    var driver: DriverRef
    var driverName: string
    var driverPath: string
    var name: string
    var rawDriver: Option<Json>
    var publicKey: string
    var privateKey: string

    function DriverObjects(): set<object>
      reads this
    {
      match driver
      case Nil => {}
      case Raw(d) => {d}
      case Rpc(d) => {d}
    }

    /** The host as a value, with what its driver holds at the moment. */
    function Abs(): Host
      reads this, DriverObjects()
    {
      var d := match driver
        case Nil => NoDriver
        case Raw(d) => RawData(d.data)
        case Rpc(d) => Live(d.config);
      Host(configVersion, d, driverName, driverPath, name, rawDriver, publicKey, privateKey)
    }

    /** The host that `MigrateHost` starts from. */
    constructor (name: string, raw: RawDataDriver)
      requires raw.data == None
      ensures driver == Raw(raw) && Abs() == Prefilled(name).host
    {
      configVersion, driver, driverName, driverPath := 0, Raw(raw), "", "";
      this.name, rawDriver, publicKey, privateKey := name, None, "", "";
    }

    /**
      `json.Unmarshal` meeting the member `Driver`. A document goes to the object the field points to,
      which the caller shares; null drops the pointer, and the object keeps what it had.
     */
    method SetDriver(doc: Json, raw: RawDataDriver) returns (ok: bool)
      requires driver.Nil? || driver == Raw(raw)
      modifies this`driver, raw
      ensures driver.Nil? || driver == Raw(raw)
      ensures var r := DecodeDriver(Decoding(old(Abs()), old(raw.data)), doc);
        ok == r.Ok? && (ok ==> Decoding(Abs(), raw.data) == r.value)
    {
      if doc.Null? {
        driver := Nil;
      } else if driver.Nil? {
        return false;
      } else {
        raw.UnmarshalJSON(doc);
      }
      return true;
    }

    /** `json.Unmarshal` meeting any member; unknown ones are skipped. */
    method SetMember(m: Member, raw: RawDataDriver) returns (ok: bool)
      requires driver.Nil? || driver == Raw(raw)
      modifies this, raw
      ensures driver.Nil? || driver == Raw(raw)
      ensures var r := DecodeMember(Decoding(old(Abs()), old(raw.data)), m);
        ok == r.Ok? && (ok ==> Decoding(Abs(), raw.data) == r.value)
    {
      if m.key == "Driver" {
        ok := SetDriver(m.value, raw);
        return;
      }
      if m.key == "ConfigVersion" {
        var v := DecodeInt(configVersion, m.value);
        if v.Err? { return false; }
        configVersion := v.value;
      } else if m.key == "DriverName" {
        var v := DecodeString(driverName, m.value);
        if v.Err? { return false; }
        driverName := v.value;
      } else if m.key == "DriverPath" {
        var v := DecodeString(driverPath, m.value);
        if v.Err? { return false; }
        driverPath := v.value;
      } else if m.key == "Name" {
        var v := DecodeString(name, m.value);
        if v.Err? { return false; }
        name := v.value;
      } else if m.key == "PublicKey" {
        var v := DecodeString(publicKey, m.value);
        if v.Err? { return false; }
        publicKey := v.value;
      } else if m.key == "PrivateKey" {
        var v := DecodeString(privateKey, m.value);
        if v.Err? { return false; }
        privateKey := v.value;
      }
      return true;
    }

    /** `json.Unmarshal(data, &h)`: member by member into the host and the driver it points to. */
    method Unmarshal(ms: seq<Member>, raw: RawDataDriver) returns (ok: bool)
      requires driver.Nil? || driver == Raw(raw)
      modifies this, raw
      ensures driver.Nil? || driver == Raw(raw)
      ensures var r := DecodeMembers(Decoding(old(Abs()), old(raw.data)), ms);
        ok == r.Ok? && (ok ==> Decoding(Abs(), raw.data) == r.value)
    {
      var i := 0;
      while i < |ms|
        invariant i <= |ms| && (driver.Nil? || driver == Raw(raw))
        invariant DecodeMembers(Decoding(Abs(), raw.data), ms[i..])
               == DecodeMembers(Decoding(old(Abs()), old(raw.data)), ms)
      {
        assert ms[i..][0] == ms[i] && ms[i..][1..] == ms[i + 1..];
        ok := SetMember(ms[i], raw);
        if !ok {
          return;
        }
        i := i + 1;
      }
      return true;
    }

    /** `Host.UpdateConfig`: the driver first, and the host's own copy only if the driver took it. */
    method Update(raw: Json, accepts: bool) returns (ok: bool)
      requires !driver.Nil?
      modifies this`rawDriver, DriverObjects()
      ensures driver == old(driver) && Abs() == UpdateConfig(old(Abs()), raw, accepts)
      ensures ok == (driver.Raw? || accepts)
    {
      if driver.Raw? {
        driver.raw.UpdateConfigRaw(raw);
        ok := true;
      } else {
        ok := driver.rpc.UpdateConfigRaw(raw, accepts);
      }
      if ok {
        rawDriver := Some(raw);
      }
    }
  }

  /** `MigrateHost`: the version first, then the document into a fresh host and driver. */
  method Migrate(name: string, doc: Json) returns (r: Result<HostObj>)
    ensures match MigrateHost(name, doc)
      case Err(e) => r == Err(e)
      case Ok(h) => r.Ok? && fresh(r.value) && fresh(r.value.DriverObjects()) && r.value.Abs() == h
  {
    if doc.Null? {
      return Err(UnexpectedVersion);
    }
    if !doc.Obj? {
      return Err(UnmarshalError);
    }
    var version := DecodeVersion(0, doc.members);
    if version.Err? {
      return Err(version.error);
    }
    if version.value != VERSION {
      return Err(UnexpectedVersion);
    }
    var driver := new RawDataDriver();
    var h := new HostObj(name, driver);
    var ok := h.Unmarshal(doc.members, driver);
    if !ok {
      MembersFailAsUnmarshal(Prefilled(name), doc.members);
      return Err(UnmarshalError);
    }
    h.rawDriver := driver.data;
    return Ok(h);
  }
}
