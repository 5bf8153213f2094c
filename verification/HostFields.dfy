/**
  What loading makes of any document at all, member by member: which documents it accepts, and where each
  field of the host comes from (mct/pkg/libmachine/host/migrate.go, `MigrateHost`).
 */
module HostFields {
  import opened HostDoc
  import opened SaveToFile
  import opened FileStore

  /** The last value other than null that the document gives for a member. */
  function Last(ms: seq<Member>, key: string): Option<Json> {
    if ms == [] then None
    else
      var later := Last(ms[1..], key);
      if later.Some? then later
      else if ms[0].key == key && !ms[0].value.Null? then Some(ms[0].value)
      else None
  }

  function StringOr(j: Option<Json>, default: string): string {
    if j.Some? && j.value.Str? then j.value.s else default
  }

  predicate IsString(key: string) {
    key == "DriverName" || key == "DriverPath" || key == "Name" || key == "PublicKey" || key == "PrivateKey"
  }

  /** The members that the host has a field for hold a value of its type, or null. */
  ghost predicate WellTyped(ms: seq<Member>) {
    forall i :: 0 <= i < |ms| && !ms[i].value.Null? ==>
      && (IsString(ms[i].key) ==> ms[i].value.Str?)
      && (ms[i].key == "ConfigVersion" ==> ms[i].value.Num?)
  }

  /** A null for the driver is final: no document for it comes later. */
  ghost predicate DriverStaysNull(ms: seq<Member>) {
    forall i, j :: 0 <= i < j < |ms| && ms[i].key == "Driver" && ms[j].key == "Driver" && ms[i].value.Null? ==>
      ms[j].value.Null?
  }

  ghost predicate DriverIsNulled(ms: seq<Member>) {
    exists i :: 0 <= i < |ms| && ms[i].key == "Driver" && ms[i].value.Null?
  }

  ghost predicate DriverIsGiven(ms: seq<Member>) {
    exists i :: 0 <= i < |ms| && ms[i].key == "Driver" && !ms[i].value.Null?
  }

  // ----- a document is its first member and the rest -----

  lemma FirstAndRest(ms: seq<Member>)
    requires ms != []
    ensures WellTyped(ms) <==> WellTyped(ms[..1]) && WellTyped(ms[1..])
    ensures DriverIsNulled(ms) <==> (ms[0].key == "Driver" && ms[0].value.Null?) || DriverIsNulled(ms[1..])
    ensures DriverIsGiven(ms) <==> (ms[0].key == "Driver" && !ms[0].value.Null?) || DriverIsGiven(ms[1..])
    ensures DriverStaysNull(ms) <==>
      DriverStaysNull(ms[1..]) && !(ms[0].key == "Driver" && ms[0].value.Null? && DriverIsGiven(ms[1..]))
  {
    var rest := ms[1..];
    assert forall i :: 1 <= i < |ms| ==> ms[i] == rest[i - 1];
    assert forall i :: 0 <= i < |rest| ==> rest[i] == ms[i + 1];
    assert ms[..1][0] == ms[0];
  }

  // ----- the fields -----

  function StringField(h: Host, key: string): string {
    if key == "DriverName" then h.driverName
    else if key == "DriverPath" then h.driverPath
    else if key == "Name" then h.name
    else if key == "PublicKey" then h.publicKey
    else h.privateKey
  }

  lemma MemberSetsString(d: Decoding, m: Member, key: string)
    requires IsString(key) && DecodeMember(d, m).Ok?
    ensures m.key == key ==> m.value.Null? || m.value.Str?
    ensures StringField(DecodeMember(d, m).value.host, key) ==
      if m.key == key && m.value.Str? then m.value.s else StringField(d.host, key)
  {
  }

  lemma {:induction false} DecodedString(d: Decoding, ms: seq<Member>, key: string)
    requires IsString(key) && DecodeMembers(d, ms).Ok?
    ensures StringField(DecodeMembers(d, ms).value.host, key) == StringOr(Last(ms, key), StringField(d.host, key))
    ensures Last(ms, key).Some? ==> Last(ms, key).value.Str?
    decreases |ms|
  {
    if ms != [] {
      MemberSetsString(d, ms[0], key);
      DecodedString(DecodeMember(d, ms[0]).value, ms[1..], key);
    }
  }

  /** Among the members from position `i` on, none gives a value other than null for the key. */
  ghost predicate NoneFrom(ms: seq<Member>, key: string, i: nat) {
    forall j :: i <= j < |ms| && ms[j].key == key ==> ms[j].value.Null?
  }

  /** `Last` is what its name says. */
  lemma {:induction false} LastMeaning(ms: seq<Member>, key: string)
    ensures match Last(ms, key)
      case None => NoneFrom(ms, key, 0)
      case Some(v) => !v.Null? && exists i :: 0 <= i < |ms| && ms[i] == Member(key, v) && NoneFrom(ms, key, i + 1)
  {
    if ms != [] {
      var rest := ms[1..];
      LastMeaning(rest, key);
      assert forall j :: 1 <= j < |ms| ==> ms[j] == rest[j - 1];
      if Last(rest, key).Some? {
        var i :| 0 <= i < |rest| && rest[i] == Member(key, Last(rest, key).value) && NoneFrom(rest, key, i + 1);
        assert ms[i + 1] == rest[i] && NoneFrom(ms, key, i + 2);
      } else {
        assert NoneFrom(ms, key, 1);
        assert Last(ms, key).Some? ==> ms[0] == Member(key, Last(ms, key).value);
      }
    }
  }

  lemma {:induction false} DecodedDriver(d: Decoding, ms: seq<Member>)
    requires DecodeMembers(d, ms).Ok? && (d.host.driver.NoDriver? || d.host.driver == RawData(d.data))
    ensures var d' := DecodeMembers(d, ms).value;
      && d'.data == (if Last(ms, "Driver").Some? then Last(ms, "Driver") else d.data)
      && d'.host.driver == (if d.host.driver.NoDriver? || DriverIsNulled(ms) then NoDriver else RawData(d'.data))
    decreases |ms|
  {
    if ms != [] {
      FirstAndRest(ms);
      DecodedDriver(DecodeMember(d, ms[0]).value, ms[1..]);
    }
  }

  ghost predicate VersionTyped(ms: seq<Member>) {
    forall i :: 0 <= i < |ms| && ms[i].key == "ConfigVersion" ==> ms[i].value.Null? || ms[i].value.Num?
  }

  function NumberOr(j: Option<Json>, default: int): int {
    if j.Some? && j.value.Num? then j.value.n else default
  }

  /** The version of the metadata is the last one given, if all of them are numbers or null. */
  lemma {:induction false} DecodedVersionExactly(v: int, ms: seq<Member>)
    ensures DecodeVersion(v, ms) ==
      if VersionTyped(ms) then Ok(NumberOr(Last(ms, "ConfigVersion"), v)) else Err(UnmarshalError)
    ensures VersionTyped(ms) && Last(ms, "ConfigVersion").Some? ==> Last(ms, "ConfigVersion").value.Num?
    decreases |ms|
  {
    if ms != [] {
      assert VersionTyped(ms) <==>
        VersionTyped(ms[1..]) && (ms[0].key == "ConfigVersion" ==> ms[0].value.Null? || ms[0].value.Num?) by {
        assert forall i :: 1 <= i < |ms| ==> ms[i] == ms[1..][i - 1];
      }
      var v' := if ms[0].key == "ConfigVersion" && ms[0].value.Num? then ms[0].value.n else v;
      DecodedVersionExactly(v', ms[1..]);
    }
  }

  // ----- the documents -----

  lemma {:induction false} DecodesWellTyped(d: Decoding, ms: seq<Member>)
    requires DecodeMembers(d, ms).Ok?
    ensures WellTyped(ms)
    decreases |ms|
  {
    if ms != [] {
      FirstAndRest(ms);
      assert ms[..1][0] == ms[0];
      DecodesWellTyped(DecodeMember(d, ms[0]).value, ms[1..]);
    }
  }

  /** Decoding succeeds exactly on well-typed members with no driver document after the driver was cleared. */
  lemma {:induction false} DecodesExactly(d: Decoding, ms: seq<Member>)
    requires d.host.driver.NoDriver? || d.host.driver.RawData?
    ensures DecodeMembers(d, ms).Ok? <==>
      WellTyped(ms) && DriverStaysNull(ms) && (d.host.driver.NoDriver? ==> !DriverIsGiven(ms))
    decreases |ms|
  {
    if ms != [] {
      FirstAndRest(ms);
      assert ms[..1][0] == ms[0];
      if DecodeMember(d, ms[0]).Ok? {
        DecodesExactly(DecodeMember(d, ms[0]).value, ms[1..]);
      }
    }
  }

  /** The documents that load: objects of the current version, well typed, with no driver after a null for it. */
  lemma MigratesExactly(name: string, doc: Json)
    ensures MigrateHost(name, doc).Ok? <==>
      && doc.Obj? && Last(doc.members, "ConfigVersion") == Some(Num(VERSION))
      && WellTyped(doc.members) && DriverStaysNull(doc.members)
  {
    if doc.Obj? {
      var ms := doc.members;
      DecodesExactly(Prefilled(name), ms);
      if WellTyped(ms) {
        DecodedVersionExactly(0, ms);
      }
    }
  }

  /**
    Where the fields of a loaded host come from: the last value given for them, or nothing, or for the name
    the directory's; the driver is the last document given, unless it was ever null.
   */
  lemma MigratedFields(name: string, doc: Json)
    requires MigrateHost(name, doc).Ok?
    ensures var h, ms := MigrateHost(name, doc).value, doc.members;
      && h.configVersion == VERSION
      && h.driverName == StringOr(Last(ms, "DriverName"), "")
      && h.driverPath == StringOr(Last(ms, "DriverPath"), "")
      && h.name == StringOr(Last(ms, "Name"), name)
      && h.publicKey == StringOr(Last(ms, "PublicKey"), "")
      && h.privateKey == StringOr(Last(ms, "PrivateKey"), "")
      && h.rawDriver == Last(ms, "Driver")
      && h.driver == if DriverIsNulled(ms) then NoDriver else RawData(Last(ms, "Driver"))
  {
    var ms, d := doc.members, Prefilled(name);
    DecodedString(d, ms, "DriverName");
    DecodedString(d, ms, "DriverPath");
    DecodedString(d, ms, "Name");
    DecodedString(d, ms, "PublicKey");
    DecodedString(d, ms, "PrivateKey");
    DecodedDriver(Prefilled(name), doc.members);
    DecodedVersion(Prefilled(name), doc.members);
  }

  // ----- what is told when loading fails -----

  lemma {:induction false} MembersFailAsUnmarshal(d: Decoding, ms: seq<Member>)
    ensures DecodeMembers(d, ms).Err? ==> DecodeMembers(d, ms) == Err(UnmarshalError)
    decreases |ms|
  {
    if ms != [] && DecodeMember(d, ms[0]).Ok? {
      MembersFailAsUnmarshal(DecodeMember(d, ms[0]).value, ms[1..]);
    }
  }

  /**
    How loading fails: the machine has no directory, or no configuration in it; the file is of another
    version, given as such or, as with null, not at all; or it does not decode.
   */
  lemma LoadFailsExactly(ms: Machines, c: Codec, name: string)
    ensures var r := LoadHost(ms, c, name);
      var found := name in ms && ConfigJson in ms[name];
      var doc := if found then c.decode(ms[name][ConfigJson]) else None;
      && (r == Err(NotExist) <==> name !in ms)
      && (r == Err(ReadError) <==> name in ms && ConfigJson !in ms[name])
      && (r == Err(UnexpectedVersion) <==> doc.Some? && OtherVersion(doc.value))
      && (r == Err(UnmarshalError) <==>
            found && (doc.None? || (!OtherVersion(doc.value) && MigrateHost(name, doc.value).Err?)))
  {
    if name in ms && ConfigJson in ms[name] && c.decode(ms[name][ConfigJson]).Some? {
      MigrateFailsExactly(name, c.decode(ms[name][ConfigJson]).value);
    }
  }

  ghost predicate OtherVersion(doc: Json) {
    doc.Null?
    || (doc.Obj? && VersionTyped(doc.members) && Last(doc.members, "ConfigVersion") != Some(Num(VERSION)))
  }

  lemma MigrateFailsExactly(name: string, doc: Json)
    ensures MigrateHost(name, doc) == Err(UnexpectedVersion) <==> OtherVersion(doc)
    ensures MigrateHost(name, doc).Err? && !OtherVersion(doc) ==> MigrateHost(name, doc) == Err(UnmarshalError)
  {
    if doc.Obj? {
      DecodedVersionExactly(0, doc.members);
      MembersFailAsUnmarshal(Prefilled(name), doc.members);
    }
  }
}
