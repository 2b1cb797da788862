/**
 * The parsing and selection steps of the snapshot command that work on data already
 * fetched from the running unit: the unit-name parser, the endpoint-to-interface lookup,
 * the typed conversion of config settings, the stripping of the relation keys the
 * controller adds, the assignment of files to fetch to container mounts, and the
 * selector for the sections to include.
 */
module Snapshot {
  import opened Wrappers
  import opened Values
  import opened Text
  import opened SceneModel

  datatype SnapshotError =
    | InvalidTargetUnitName(name: string)
    | ValueError
    | KeyError
    | TypeError
    | AttributeError

  // ---------------------------------------------------------------- unit names

  /** A parsed unit name: `"<app>/<id>"`, with `normalized` the `"<app>-<id>"` form. */
  datatype UnitName = UnitName(unitName: string, appName: string, unitId: int, normalized: string)

  /**
   * Splits at the last `/`: an empty app part or an empty id part is an invalid name; an id
   * part that is not a decimal integer is a `ValueError`.
   */
  function ParseUnitName(name: string): Result<UnitName, SnapshotError> {
    var p := RPartition(name, '/');
    if p.head == [] || p.tail == [] then Failure(InvalidTargetUnitName(name))
    else
      match ParseInt(p.tail)
      case None => Failure(ValueError)
      case Some(id) => Success(UnitName(name, p.head, id, p.head + "-" + p.tail))
  }

  /** The text after the last separator is determined by the string. */
  lemma LastSepUnique(a: string, b: string, c: string, d: string, sep: char)
    requires a + [sep] + b == c + [sep] + d
    requires sep !in b && sep !in d
    ensures a == c && b == d
  {
    var s := a + [sep] + b;
    assert forall k :: |a| < k < |s| ==> s[k] == b[k - |a| - 1];
    assert forall k :: |c| < k < |s| ==> s[k] == d[k - |c| - 1];
    assert s[|a|] == sep && s[|c|] == sep;
    assert |a| == |c|;
    assert a == s[..|a|] && c == s[..|c|];
    assert b == s[|a| + 1..] && d == s[|c| + 1..];
  }

  /** A name is rejected as invalid exactly when it has no `/` with text on both sides of the last one. */
  lemma UnitNameRejected(name: string)
    ensures ParseUnitName(name) == Failure(InvalidTargetUnitName(name)) <==>
      '/' !in name || name[|name| - 1] == '/' || (name[0] == '/' && '/' !in name[1..])
  {
    var p := RPartition(name, '/');
    if p.found {
      if p.tail == [] {
        assert name[|name| - 1] == '/';
      } else if p.head == [] {
        assert name == ['/'] + p.tail;
        assert name[1..] == p.tail;
      } else {
        assert name[|name| - 1] == p.tail[|p.tail| - 1];
        assert name[0] == p.head[0];
        if name[0] == '/' {
          assert name[1..] == p.head[1..] + ['/'] + p.tail;
          assert '/' in name[1..];
        }
      }
    }
  }

  /** `"<app>/<str(id)>"` parses back to `app` and `id`, normalized to `"<app>-<str(id)>"`. */
  lemma UnitNameRoundTrip(app: string, id: int)
    requires app != []
    ensures ParseUnitName(app + "/" + IntToString(id)) ==
      Success(UnitName(app + "/" + IntToString(id), app, id, app + "-" + IntToString(id)))
  {
    var digits := IntToString(id);
    var name := app + "/" + digits;
    assert name == app + ['/'] + digits;
    IntToStringChars(id);
    var p := RPartition(name, '/');
    LastSepUnique(p.head, p.tail, app, digits, '/');
    ParseIntToString(id);
  }

  /** A non-numeric id part is a `ValueError`, not an invalid unit name. */
  lemma UnitNameNonNumeric(app: string, suffix: string)
    requires app != [] && suffix != [] && '/' !in suffix
    requires ParseInt(suffix).None?
    ensures ParseUnitName(app + "/" + suffix) == Failure(ValueError)
  {
    var name := app + "/" + suffix;
    assert name == app + ['/'] + suffix;
    var p := RPartition(name, '/');
    LastSepUnique(p.head, p.tail, app, suffix, '/');
  }

  // ---------------------------------------------------------------- interfaces

  /** An endpoint's metadata; `interface` is `None` when the key is absent. */
  datatype EndpointMeta = EndpointMeta(interface: Option<string>)

  /** The endpoints of one role, in the metadata's order (an absent role is empty). */
  type Endpoints = seq<(string, EndpointMeta)>

  datatype Metadata = Metadata(providesEndpoints: Endpoints, requiresEndpoints: Endpoints)

  function FindEndpoint(eps: Endpoints, endpoint: string): Option<nat> {
    FindFirst(eps, (e: (string, EndpointMeta)) => e.0 == endpoint)
  }

  function InterfaceOf(e: EndpointMeta): Result<Option<string>, SnapshotError> {
    match e.interface
    case None => Failure(KeyError)
    case Some(i) => Success(Some(i))
  }

  /** The interface of `endpoint`: searched among the provided endpoints, then the required ones. */
  function InterfaceFromMetadata(endpoint: string, metadata: Metadata): Result<Option<string>, SnapshotError> {
    match FindEndpoint(metadata.providesEndpoints, endpoint)
    case Some(i) => InterfaceOf(metadata.providesEndpoints[i].1)
    case None =>
      match FindEndpoint(metadata.requiresEndpoints, endpoint)
      case Some(i) => InterfaceOf(metadata.requiresEndpoints[i].1)
      case None => Success(None)
  }

  /** An endpoint provided under the name wins over any required one, whatever its interface. */
  lemma InterfaceProvidesFirst(endpoint: string, metadata: Metadata, i: nat)
    requires i < |metadata.providesEndpoints| && metadata.providesEndpoints[i].0 == endpoint
    requires forall j :: 0 <= j < i ==> metadata.providesEndpoints[j].0 != endpoint
    ensures InterfaceFromMetadata(endpoint, metadata) == InterfaceOf(metadata.providesEndpoints[i].1)
  {
    var r := FindEndpoint(metadata.providesEndpoints, endpoint);
    assert r.Some?;
    assert r.value == i;
  }

  /**
   * The lookup finds nothing exactly when neither role declares the endpoint; an endpoint
   * found without an `interface` key is a `KeyError`.
   */
  lemma InterfaceMissing(endpoint: string, metadata: Metadata)
    ensures InterfaceFromMetadata(endpoint, metadata) == Success(None) <==>
      (forall j :: 0 <= j < |metadata.providesEndpoints| ==> metadata.providesEndpoints[j].0 != endpoint) &&
      (forall j :: 0 <= j < |metadata.requiresEndpoints| ==> metadata.requiresEndpoints[j].0 != endpoint)
    ensures InterfaceFromMetadata(endpoint, metadata).Failure? ==> InterfaceFromMetadata(endpoint, metadata).error == KeyError
  {
  }

  // ---------------------------------------------------------------- config

  /** One setting of the application's config: its value and its declared type (`None` when absent). */
  datatype ConfigOption = ConfigOption(value: Value, typ: Option<string>)

  /** A converted setting; a `"number"` is kept as the raw value `float()` was applied to. */
  datatype Setting = Plain(v: Value) | FloatOf(raw: Value)

  /** Python's `str(v)`. */
  function PyStr(v: Value): string {
    match v
    case Null => "None"
    case Bool(b) => if b then "True" else "False"
    case Int(i) => IntToString(i)
    case Str(s) => s
  }

  /** Python's `int(v)`. */
  function PyInt(v: Value): Result<int, SnapshotError> {
    match v
    case Null => Failure(TypeError)
    case Bool(b) => Success(if b then 1 else 0)
    case Int(i) => Success(i)
    case Str(s) => if ParseInt(s).Some? then Success(ParseInt(s).value) else Failure(ValueError)
  }

  /** The converter the declared type selects, applied to the value. */
  function Convert(option: ConfigOption): Result<Setting, SnapshotError> {
    match option.typ
    case None => Failure(KeyError)
    case Some(t) =>
      if t == "string" then Success(Plain(Str(PyStr(option.value))))
      else if t == "integer" then
        match PyInt(option.value)
        case Success(i) => Success(Plain(Int(i)))
        case Failure(e) => Failure(e)
      else if t == "number" then Success(FloatOf(option.value))
      else if t == "boolean" then Success(Plain(Bool(option.value == Str("true"))))
      else if t == "attrs" then Success(Plain(option.value))
      else Failure(ValueError)
  }

  /** The setting at `i` is converted: its value is truthy. */
  predicate Kept(s: seq<(string, ConfigOption)>, i: nat)
    requires i < |s|
  {
    Values.Truthy(s[i].1.value)
  }

  predicate DistinctNames(s: seq<(string, ConfigOption)>) {
    forall i, j :: 0 <= i < j < |s| ==> s[i].0 != s[j].0
  }

  /**
   * The conversion loop over the settings (`None` when the output has no `settings` key):
   * every truthy value goes through its type's converter, falsy ones are skipped, and the
   * first failing conversion is what is raised.
   */
  method GetConfig(settings: Option<seq<(string, ConfigOption)>>) returns (r: Result<map<string, Setting>, SnapshotError>)
    requires settings.Some? ==> DistinctNames(settings.value)
    ensures settings.None? ==> r == Failure(AttributeError)
    ensures settings.Some? ==>
      var s := settings.value;
      (r.Success? <==> forall i :: 0 <= i < |s| && Kept(s, i) ==> Convert(s[i].1).Success?) &&
      (r.Failure? ==> exists i :: 0 <= i < |s| && Kept(s, i) && Convert(s[i].1) == Failure(r.error) &&
                        forall j :: 0 <= j < i && Kept(s, j) ==> Convert(s[j].1).Success?) &&
      (r.Success? ==> r.value.Keys == (set i | 0 <= i < |s| && Kept(s, i) :: s[i].0)) &&
      (r.Success? ==> forall i :: 0 <= i < |s| && Kept(s, i) ==> r.value[s[i].0] == Convert(s[i].1).value)
  {
    if settings.None? {
      return Failure(AttributeError);
    }
    var s := settings.value;
    var cfg: map<string, Setting> := map[];
    var i := 0;
    while i < |s|
      invariant 0 <= i <= |s|
      invariant forall j :: 0 <= j < i && Kept(s, j) ==> Convert(s[j].1).Success?
      invariant cfg.Keys == (set j | 0 <= j < i && Kept(s, j) :: s[j].0)
      invariant forall j :: 0 <= j < i && Kept(s, j) ==> cfg[s[j].0] == Convert(s[j].1).value
    {
      var (name, option) := s[i];
      if Values.Truthy(option.value) {
        var converted := Convert(option);
        if converted.Failure? {
          return Failure(converted.error);
        }
        cfg := cfg[name := converted.value];
      }
      i := i + 1;
    }
    return Success(cfg);
  }

  /**
   * The conversion as evidently intended: an output without `settings` is an empty config;
   * otherwise as written.
   */
  method GetConfigIntended(settings: Option<seq<(string, ConfigOption)>>) returns (r: Result<map<string, Setting>, SnapshotError>)
    requires settings.Some? ==> DistinctNames(settings.value)
    ensures r != Failure(AttributeError)
    ensures settings.None? ==> r == Success(map[])
    ensures var s := settings.GetOr([]);
      (r.Success? <==> forall i :: 0 <= i < |s| && Kept(s, i) ==> Convert(s[i].1).Success?) &&
      (r.Failure? ==> exists i :: 0 <= i < |s| && Kept(s, i) && Convert(s[i].1) == Failure(r.error) &&
                        forall j :: 0 <= j < i && Kept(s, j) ==> Convert(s[j].1).Success?) &&
      (r.Success? ==> r.value.Keys == (set i | 0 <= i < |s| && Kept(s, i) :: s[i].0)) &&
      (r.Success? ==> forall i :: 0 <= i < |s| && Kept(s, i) ==> r.value[s[i].0] == Convert(s[i].1).value)
  {
    r := GetConfig(Some(settings.GetOr([])));
    if r.Failure? {
      var s := settings.GetOr([]);
      var i :| 0 <= i < |s| && Kept(s, i) && Convert(s[i].1) == Failure(r.error);
      assert Convert(s[i].1).error != AttributeError;
    }
  }

  // ---------------------------------------------------------------- relation data

  /** The keys the controller adds to every unit's relation data. */
  const JujuRelationKeys: set<string> := {"egress-subnets", "ingress-address", "private-address"}

  /**
   * Relation data as the snapshot keeps it: unchanged when controller data is wanted,
   * otherwise without the three controller keys, each of which must be present.
   */
  method Clean(data: map<string, string>, includeJujuRelationData: bool) returns (r: Result<map<string, string>, SnapshotError>)
    ensures includeJujuRelationData ==> r == Success(data)
    ensures !includeJujuRelationData ==> (r.Success? <==> JujuRelationKeys <= data.Keys)
    ensures !includeJujuRelationData && r.Success? ==> r.value == data - JujuRelationKeys
    ensures r.Failure? ==> r.error == KeyError
  {
    if includeJujuRelationData {
      return Success(data);
    }
    var d := data;
    var todo := JujuRelationKeys;
    while todo != {}
      invariant todo <= JujuRelationKeys
      invariant JujuRelationKeys - todo <= data.Keys
      invariant d == data - (JujuRelationKeys - todo)
      decreases |todo|
    {
      var key :| key in todo;
      if key !in d {
        assert key !in data.Keys;
        return Failure(KeyError);
      }
      d := d - {key};
      todo := todo - {key};
    }
    return Success(d);
  }

  // ---------------------------------------------------------------- mounts

  /** One entry of a container's `mounts` metadata: its `storage` and `location` keys, if present. */
  datatype MountMeta = MountMeta(storage: Option<string>, location: Option<string>)

  /** A container's metadata: `mounts` is `None` when the key is absent. */
  datatype ContainerMeta = ContainerMeta(mounts: Option<seq<MountMeta>>)

  /** A mount to populate: the location in the container and the local directory, by creation order. */
  datatype Mount = Mount(src: string, location: nat)

  /** Storage name to location, in insertion order (a repeated name keeps its first place). */
  type MountSpec = seq<(string, string)>

  predicate UniqueNames(spec: MountSpec) {
    forall i, j :: 0 <= i < j < |spec| ==> spec[i].0 != spec[j].0
  }

  function Names(spec: MountSpec): set<string> {
    set e | e in spec :: e.0
  }

  function IndexOf(spec: MountSpec, name: string): Option<nat> {
    FindFirst(spec, (e: (string, string)) => e.0 == name)
  }

  /**
   * `mount_spec[name] = location`, with a dictionary's insertion order: a name already in the
   * spec keeps its place and takes the new location, a new name goes last.
   */
  function SpecInsert(spec: MountSpec, name: string, location: string): (r: MountSpec)
    requires UniqueNames(spec)
    ensures UniqueNames(r)
    ensures (name, location) in r
    ensures forall e :: e in r ==> e == (name, location) || (e in spec && e.0 != name)
    ensures forall e :: e in spec && e.0 != name ==> e in r
    ensures name in Names(spec) ==>
      |r| == |spec| && forall j :: 0 <= j < |spec| ==> r[j] == (if spec[j].0 == name then (name, location) else spec[j])
    ensures name !in Names(spec) ==> r == spec + [(name, location)]
  {
    match IndexOf(spec, name)
    case Some(i) =>
      var r := spec[i := (name, location)];
      assert r[i] == (name, location);
      assert forall j :: 0 <= j < |spec| && j != i ==> r[j] == spec[j] && spec[j].0 != name;
      assert spec[i] in spec;
      r
    case None =>
      assert forall e :: e in spec ==> e.0 != name;
      spec + [(name, location)]
  }

  /** A storage name counts only when it is a non-empty string. */
  predicate HasStorage(m: MountMeta) {
    m.storage.Some? && m.storage.value != []
  }

  predicate Declares(m: MountMeta, name: string) {
    HasStorage(m) && m.storage.value == name
  }

  /** The `mount_spec` loop: mounts with a storage name enter with their location, which must be given. */
  function BuildSpec(mounts: seq<MountMeta>): (r: Result<MountSpec, SnapshotError>)
    ensures r.Success? ==> UniqueNames(r.value)
    ensures r.Failure? ==> r.error == KeyError
    decreases |mounts|
  {
    if mounts == [] then Success([])
    else
      var m := mounts[|mounts| - 1];
      match BuildSpec(mounts[..|mounts| - 1])
      case Failure(e) => Failure(e)
      case Success(spec) =>
        if !HasStorage(m) then Success(spec)
        else if m.location.None? then Failure(KeyError)
        else Success(SpecInsert(spec, m.storage.value, m.location.value))
  }

  /** The last mount entry declaring the storage `name`. */
  function LastDeclaring(mounts: seq<MountMeta>, name: string): (r: Option<nat>)
    ensures r.Some? ==> r.value < |mounts| && Declares(mounts[r.value], name)
    ensures r.Some? ==> forall k :: r.value < k < |mounts| ==> !Declares(mounts[k], name)
    ensures r.None? ==> forall k :: 0 <= k < |mounts| ==> !Declares(mounts[k], name)
    decreases |mounts|
  {
    if mounts == [] then None
    else if Declares(mounts[|mounts| - 1], name) then Some(|mounts| - 1)
    else LastDeclaring(mounts[..|mounts| - 1], name)
  }

  /** The first mount entry declaring the storage `name`. */
  function FirstDeclaration(mounts: seq<MountMeta>, name: string): (r: Option<nat>)
    ensures r.Some? ==> r.value < |mounts| && Declares(mounts[r.value], name)
    ensures r.Some? ==> forall k :: 0 <= k < r.value ==> !Declares(mounts[k], name)
    ensures r.None? ==> forall k :: 0 <= k < |mounts| ==> !Declares(mounts[k], name)
    decreases |mounts|
  {
    if mounts == [] then None
    else
      match FirstDeclaration(mounts[..|mounts| - 1], name)
      case Some(k) => Some(k)
      case None => if Declares(mounts[|mounts| - 1], name) then Some(|mounts| - 1) else None
  }

  /** Building the spec fails, with a `KeyError`, exactly when a declared storage has no location. */
  lemma {:induction false} BuildSpecFails(mounts: seq<MountMeta>)
    ensures BuildSpec(mounts).Failure? <==> exists k :: 0 <= k < |mounts| && HasStorage(mounts[k]) && mounts[k].location.None?
    decreases |mounts|
  {
    if mounts != [] {
      var init := mounts[..|mounts| - 1];
      BuildSpecFails(init);
      assert forall k :: 0 <= k < |init| ==> init[k] == mounts[k];
    }
  }

  /**
   * The spec holds one entry per declared storage name, carrying the location of the last
   * mount entry that declares it.
   */
  lemma {:induction false} BuildSpecEntries(mounts: seq<MountMeta>)
    requires BuildSpec(mounts).Success?
    ensures forall n :: n in Names(BuildSpec(mounts).value) <==> LastDeclaring(mounts, n).Some?
    ensures forall e :: e in BuildSpec(mounts).value ==>
      LastDeclaring(mounts, e.0).Some? && mounts[LastDeclaring(mounts, e.0).value].location == Some(e.1)
    decreases |mounts|
  {
    if mounts != [] {
      var init := mounts[..|mounts| - 1];
      var m := mounts[|mounts| - 1];
      BuildSpecEntries(init);
      assert forall k :: 0 <= k < |init| ==> init[k] == mounts[k];
      var spec := BuildSpec(init).value;
      var r := BuildSpec(mounts).value;
      forall n ensures n in Names(r) <==> LastDeclaring(mounts, n).Some? {
        if HasStorage(m) && n != m.storage.value {
          if n in Names(spec) {
            var e :| e in spec && e.0 == n;
            assert e in r;
          }
          if n in Names(r) {
            var e :| e in r && e.0 == n;
            assert e in spec;
          }
        } else if HasStorage(m) {
          assert (m.storage.value, m.location.value) in r;
        }
      }
    }
  }

  /** Every spec name is declared, and the spec lists the names in the order of their first declaration. */
  predicate DeclarationOrdered(mounts: seq<MountMeta>, spec: MountSpec) {
    (forall i :: 0 <= i < |spec| ==> FirstDeclaration(mounts, spec[i].0).Some?) &&
    forall i, j :: 0 <= i < j < |spec| ==>
      FirstDeclaration(mounts, spec[i].0).Some? && FirstDeclaration(mounts, spec[j].0).Some? &&
      FirstDeclaration(mounts, spec[i].0).value < FirstDeclaration(mounts, spec[j].0).value
  }

  /** A name declared before the last mount entry is first declared where it was. */
  lemma FirstDeclarationPrefix(mounts: seq<MountMeta>, name: string)
    requires mounts != [] && FirstDeclaration(mounts[..|mounts| - 1], name).Some?
    ensures FirstDeclaration(mounts, name) == FirstDeclaration(mounts[..|mounts| - 1], name)
  {
  }

  /** One more mount entry that adds no name keeps the spec's names, and their order, in place. */
  lemma KeepOrder(mounts: seq<MountMeta>, spec: MountSpec, r: MountSpec)
    requires mounts != [] && DeclarationOrdered(mounts[..|mounts| - 1], spec)
    requires |r| == |spec| && forall j :: 0 <= j < |spec| ==> r[j].0 == spec[j].0
    ensures DeclarationOrdered(mounts, r)
  {
    forall i | 0 <= i < |spec|
      ensures FirstDeclaration(mounts, r[i].0) == FirstDeclaration(mounts[..|mounts| - 1], spec[i].0)
    {
      FirstDeclarationPrefix(mounts, spec[i].0);
    }
  }

  /** A name first declared by the last mount entry goes after every name declared before it. */
  lemma AppendOrder(mounts: seq<MountMeta>, spec: MountSpec, x: string, location: string)
    requires mounts != [] && DeclarationOrdered(mounts[..|mounts| - 1], spec)
    requires FirstDeclaration(mounts, x) == Some(|mounts| - 1)
    ensures DeclarationOrdered(mounts, spec + [(x, location)])
  {
    var init := mounts[..|mounts| - 1];
    var r := spec + [(x, location)];
    forall i | 0 <= i < |spec|
      ensures FirstDeclaration(mounts, spec[i].0) == FirstDeclaration(init, spec[i].0)
      ensures FirstDeclaration(init, spec[i].0).value < |init|
    {
      FirstDeclarationPrefix(mounts, spec[i].0);
    }
    forall i | 0 <= i < |r|
      ensures FirstDeclaration(mounts, r[i].0).Some?
    {
      if i < |spec| {
        assert r[i] == spec[i];
      }
    }
    forall i, j | 0 <= i < j < |r|
      ensures FirstDeclaration(mounts, r[i].0).value < FirstDeclaration(mounts, r[j].0).value
    {
      assert r[i] == spec[i];
      if j < |spec| {
        assert r[j] == spec[j];
      }
    }
  }

  /**
   * The spec lists its storage names in the order of their first declaration among the
   * mount entries, as a dictionary keeps the order of first assignment; a later
   * re-declaration moves nothing.
   */
  lemma {:induction false} BuildSpecOrder(mounts: seq<MountMeta>)
    requires BuildSpec(mounts).Success?
    ensures DeclarationOrdered(mounts, BuildSpec(mounts).value)
    decreases |mounts|
  {
    if mounts != [] {
      var init := mounts[..|mounts| - 1];
      var m := mounts[|mounts| - 1];
      assert BuildSpec(init).Success?;
      BuildSpecOrder(init);
      var spec := BuildSpec(init).value;
      var r := BuildSpec(mounts).value;
      if !HasStorage(m) {
        KeepOrder(mounts, spec, r);
      } else {
        var x := m.storage.value;
        if x in Names(spec) {
          KeepOrder(mounts, spec, r);
        } else {
          BuildSpecEntries(init);
          assert LastDeclaring(init, x).None?;
          assert FirstDeclaration(mounts, x) == Some(|init|);
          AppendOrder(mounts, spec, x, m.location.value);
        }
      }
    }
  }

  /** The mount a remote path belongs to: the last one in the spec whose location is a prefix of it. */
  function LastMatch(spec: MountSpec, path: string): (r: Option<nat>)
    ensures r.Some? ==> r.value < |spec| && StartsWith(path, spec[r.value].1)
    ensures r.Some? ==> forall j :: r.value < j < |spec| ==> !StartsWith(path, spec[j].1)
    ensures r.None? ==> forall j :: 0 <= j < |spec| ==> !StartsWith(path, spec[j].1)
    decreases |spec|
  {
    if spec == [] then None
    else if StartsWith(path, spec[|spec| - 1].1) then Some(|spec| - 1)
    else LastMatch(spec[..|spec| - 1], path)
  }

  /** The storage name the remote path is fetched through, if any. */
  function MatchName(spec: MountSpec, path: string): Option<string> {
    match LastMatch(spec, path)
    case None => None
    case Some(i) => Some(spec[i].0)
  }

  /** One remote path: create its mount on first use, with the next local directory. */
  function AddMount(mounts: map<string, Mount>, spec: MountSpec, path: string): map<string, Mount> {
    match LastMatch(spec, path)
    case None => mounts
    case Some(i) =>
      if spec[i].0 in mounts then mounts
      else mounts[spec[i].0 := Mount(spec[i].1, |mounts|)]
  }

  /** One mount entry declaring a storage gives a spec of that one name. */
  lemma SpecOfOne(m: MountMeta)
    requires HasStorage(m) && m.location.Some?
    ensures BuildSpec([m]) == Success([(m.storage.value, m.location.value)])
  {
    assert [m][..0] == [] && [m][0] == m;
    assert BuildSpec([m]) == Success(SpecInsert([], m.storage.value, m.location.value));
    assert [] + [(m.storage.value, m.location.value)] == [(m.storage.value, m.location.value)];
  }

  /** Two mount entries declaring distinct storages give a spec in declaration order. */
  lemma SpecOfTwo(first: MountMeta, second: MountMeta)
    requires HasStorage(first) && first.location.Some?
    requires HasStorage(second) && second.location.Some?
    requires first.storage != second.storage
    ensures BuildSpec([first, second])
         == Success([(first.storage.value, first.location.value), (second.storage.value, second.location.value)])
  {
    var one: MountSpec := [(first.storage.value, first.location.value)];
    var two: MountSpec := [(second.storage.value, second.location.value)];
    SpecOfOne(first);
    assert [first, second][..1] == [first] && [first, second][1] == second;
    assert second.storage.value !in Names(one);
    assert BuildSpec([first, second]) == Success(SpecInsert(one, second.storage.value, second.location.value));
    assert one + two == [(first.storage.value, first.location.value), (second.storage.value, second.location.value)];
  }

  /** Declaring the first of two distinct storages again, with its location, changes neither the spec nor its order. */
  lemma SpecRedeclared(first: MountMeta, second: MountMeta)
    requires HasStorage(first) && first.location.Some?
    requires HasStorage(second) && second.location.Some?
    requires first.storage != second.storage
    ensures BuildSpec([first, second, first]) == BuildSpec([first, second])
  {
    SpecOfTwo(first, second);
    var spec := BuildSpec([first, second]).value;
    assert [first, second, first][..2] == [first, second] && [first, second, first][2] == first;
    assert spec[0] in spec;
    assert BuildSpec([first, second, first]) == Success(SpecInsert(spec, first.storage.value, first.location.value));
    var r := SpecInsert(spec, first.storage.value, first.location.value);
    assert |r| == |spec| && r[0] == spec[0] && r[1] == spec[1];
    assert r == spec;
  }

  /**
   * Declaration order decides the mount of a nested path: `/data/db/x` matches both
   * `/data` and `/data/db` and goes to whichever comes later in the spec, and re-declaring
   * `/data` afterwards does not move it behind `/data/db`.
   */
  lemma MountOrderExample()
    ensures var data, db := MountMeta(Some("a"), Some("/data")), MountMeta(Some("b"), Some("/data/db"));
      BuildSpec([data, db]) == Success([("a", "/data"), ("b", "/data/db")]) &&
      MatchName([("a", "/data"), ("b", "/data/db")], "/data/db/x") == Some("b") &&
      BuildSpec([db, data]) == Success([("b", "/data/db"), ("a", "/data")]) &&
      MatchName([("b", "/data/db"), ("a", "/data")], "/data/db/x") == Some("a") &&
      BuildSpec([data, db, data]) == Success([("a", "/data"), ("b", "/data/db")])
  {
    var data, db := MountMeta(Some("a"), Some("/data")), MountMeta(Some("b"), Some("/data/db"));
    SpecOfTwo(data, db);
    SpecOfTwo(db, data);
    SpecRedeclared(data, db);
    assert StartsWith("/data/db/x", "/data/db") && StartsWith("/data/db/x", "/data");
  }

  /** The mounts the remote paths `files` need, created in order of first use. */
  function AssignMounts(spec: MountSpec, files: seq<string>): map<string, Mount>
    decreases |files|
  {
    if files == [] then map[]
    else AddMount(AssignMounts(spec, files[..|files| - 1]), spec, files[|files| - 1])
  }

  predicate NeededBy(spec: MountSpec, files: seq<string>, name: string) {
    exists p :: p in files && MatchName(spec, p) == Some(name)
  }

  /** There is a mount exactly for each storage name some remote path is fetched through. */
  lemma {:induction false} AssignMountsKeys(spec: MountSpec, files: seq<string>)
    ensures forall n :: n in AssignMounts(spec, files) <==> NeededBy(spec, files, n)
    decreases |files|
  {
    if files != [] {
      var init := files[..|files| - 1];
      var p := files[|files| - 1];
      AssignMountsKeys(spec, init);
      assert files == init + [p];
      forall n ensures NeededBy(spec, files, n) <==> NeededBy(spec, init, n) || MatchName(spec, p) == Some(n) {
        if NeededBy(spec, files, n) {
          var q :| q in files && MatchName(spec, q) == Some(n);
          if q != p {
            assert q in init;
          }
        }
        if NeededBy(spec, init, n) {
          var q :| q in init && MatchName(spec, q) == Some(n);
          assert q in files;
        }
      }
    }
  }

  /** Each mount populates the location its storage name has in the spec. */
  lemma {:induction false} AssignMountsSources(spec: MountSpec, files: seq<string>)
    ensures forall n :: n in AssignMounts(spec, files) ==> (n, AssignMounts(spec, files)[n].src) in spec
    decreases |files|
  {
    if files != [] {
      AssignMountsSources(spec, files[..|files| - 1]);
    }
  }

  /** The local directories are numbered by creation: each below the count, no two alike. */
  predicate NumberedByCreation(ms: map<string, Mount>) {
    (forall n :: n in ms ==> ms[n].location < |ms|) &&
    (forall n, n' :: n in ms && n' in ms && n != n' ==> ms[n].location != ms[n'].location)
  }

  lemma {:induction false} AssignMountsLocations(spec: MountSpec, files: seq<string>)
    ensures NumberedByCreation(AssignMounts(spec, files))
    decreases |files|
  {
    if files != [] {
      var prev := AssignMounts(spec, files[..|files| - 1]);
      AssignMountsLocations(spec, files[..|files| - 1]);
      var found := LastMatch(spec, files[|files| - 1]);
      assert AssignMounts(spec, files) == AddMount(prev, spec, files[|files| - 1]);
      if found.Some? && spec[found.value].0 !in prev {
        var name := spec[found.value].0;
        var ms := prev[name := Mount(spec[found.value].1, |prev|)];
        assert ms.Keys == prev.Keys + {name};
        assert |ms| == |prev| + 1;
        assert forall n :: n in ms && n != name ==> ms[n] == prev[n];
        assert NumberedByCreation(ms);
      }
    }
  }

  predicate FilesToFetch(files: Option<seq<string>>) {
    files.Some? && files.value != []
  }

  /** The mounts `get_mounts` returns (temporary directories numbered by creation). */
  function Mounts(meta: ContainerMeta, files: Option<seq<string>>): Result<map<string, Mount>, SnapshotError> {
    if FilesToFetch(files) && (meta.mounts.None? || meta.mounts.value == []) then Success(map[])
    else if meta.mounts.None? then Failure(TypeError)
    else
      match BuildSpec(meta.mounts.value)
      case Failure(e) => Failure(e)
      case Success(spec) => Success(AssignMounts(spec, files.GetOr([])))
  }

  /** A container without a `mounts` key and nothing to fetch is a `TypeError`: `None` is iterated. */
  lemma MountsWithoutMountsKey(files: Option<seq<string>>)
    requires !FilesToFetch(files)
    ensures Mounts(ContainerMeta(None), files) == Failure(TypeError)
  {
  }

  lemma {:induction false} BuildSpecPrefixFails(a: seq<MountMeta>, b: seq<MountMeta>)
    requires BuildSpec(a).Failure?
    ensures BuildSpec(a + b) == BuildSpec(a)
    decreases |b|
  {
    if b != [] {
      var b' := b[..|b| - 1];
      BuildSpecPrefixFails(a, b');
      var ab := a + b;
      assert ab[..|ab| - 1] == a + b';
      assert BuildSpec(ab[..|ab| - 1]) == BuildSpec(a);
    } else {
      assert a + b == a;
    }
  }

  /** The `for mt in mount_meta` loop that builds the spec. */
  method BuildSpecLoop(ms: seq<MountMeta>) returns (r: Result<MountSpec, SnapshotError>)
    ensures r == BuildSpec(ms)
  {
    var spec: MountSpec := [];
    var k := 0;
    while k < |ms|
      invariant 0 <= k <= |ms|
      invariant BuildSpec(ms[..k]) == Success(spec)
    {
      assert ms[..k + 1][..k] == ms[..k];
      var m := ms[k];
      if HasStorage(m) {
        if m.location.None? {
          assert ms[..k + 1] + ms[k + 1..] == ms;
          BuildSpecPrefixFails(ms[..k + 1], ms[k + 1..]);
          return Failure(KeyError);
        }
        spec := SpecInsert(spec, m.storage.value, m.location.value);
      }
      k := k + 1;
    }
    assert ms[..k] == ms;
    return Success(spec);
  }

  /** The search for the last mount whose location prefixes `path`. */
  method LastMatchLoop(spec: MountSpec, path: string) returns (found: Option<nat>)
    ensures found == LastMatch(spec, path)
  {
    found := None;
    var j := 0;
    while j < |spec|
      invariant 0 <= j <= |spec|
      invariant found == LastMatch(spec[..j], path)
    {
      assert spec[..j + 1][..j] == spec[..j];
      if StartsWith(path, spec[j].1) {
        found := Some(j);
      }
      j := j + 1;
    }
    assert spec[..j] == spec;
  }

  /** The `for file in fetch_files` loop creating the mounts. */
  method AssignLoop(spec: MountSpec, paths: seq<string>) returns (mounts: map<string, Mount>)
    ensures mounts == AssignMounts(spec, paths)
  {
    mounts := map[];
    var f := 0;
    while f < |paths|
      invariant 0 <= f <= |paths|
      invariant mounts == AssignMounts(spec, paths[..f])
    {
      assert paths[..f + 1][..f] == paths[..f];
      var found := LastMatchLoop(spec, paths[f]);
      if found.Some? {
        var name := spec[found.value].0;
        if name !in mounts {
          mounts := mounts[name := Mount(spec[found.value].1, |mounts|)];
        }
      }
      f := f + 1;
    }
    assert paths[..f] == paths;
  }

  /** `get_mounts`: build the spec, then create the mount of each remote path on first use. */
  method GetMounts(meta: ContainerMeta, files: Option<seq<string>>) returns (r: Result<map<string, Mount>, SnapshotError>)
    ensures r == Mounts(meta, files)
  {
    if FilesToFetch(files) && (meta.mounts.None? || meta.mounts.value == []) {
      return Success(map[]);
    }
    if meta.mounts.None? {
      return Failure(TypeError);
    }
    var spec := BuildSpecLoop(meta.mounts.value);
    if spec.Failure? {
      return Failure(spec.error);
    }
    var mounts := AssignLoop(spec.value, files.GetOr([]));
    return Success(mounts);
  }

  /** `get_mounts` as evidently intended: a missing `mounts` key reads as no mounts. */
  method GetMountsIntended(meta: ContainerMeta, files: Option<seq<string>>) returns (r: Result<map<string, Mount>, SnapshotError>)
    ensures r != Failure(TypeError)
    ensures meta.mounts.None? ==> r == Success(map[])
    ensures meta.mounts.Some? ==> r == Mounts(meta, files)
  {
    r := GetMounts(ContainerMeta(Some(meta.mounts.GetOr([]))), files);
    if meta.mounts.None? {
      assert BuildSpec([]) == Success([]);
      AssignMountsEmptySpec(files.GetOr([]));
    }
  }

  lemma {:induction false} AssignMountsEmptySpec(files: seq<string>)
    ensures AssignMounts([], files) == map[]
    decreases |files|
  {
    if files != [] {
      AssignMountsEmptySpec(files[..|files| - 1]);
    }
  }

  // ---------------------------------------------------------------- section selection

  /** Whether the section with selector `key` is included: always without a selection, else when `key` occurs in it. */
  predicate Included(selection: Option<string>, key: string) {
    selection.None? || IsSubstring(key, selection.value)
  }

  /** The value of a section: fetched when included, the section's empty value otherwise. */
  function IfInclude<T>(selection: Option<string>, key: string, fetch: () -> T, nullValue: T): T {
    if Included(selection, key) then fetch() else nullValue
  }

  /** The one-letter selectors of the config, relations, containers, networks, secrets, deferred events and stored state. */
  const SectionKeys := "crknsdt"

  /** With a selection, exactly the sections whose letter it contains are fetched; without one, all are. */
  lemma IncludedSections<T>(selection: Option<string>, fetch: () -> T, nullValue: T)
    ensures forall c :: c in SectionKeys ==>
      IfInclude(selection, [c], fetch, nullValue) == if selection.None? || c in selection.value then fetch() else nullValue
  {
    forall c | c in SectionKeys
      ensures IfInclude(selection, [c], fetch, nullValue) == if selection.None? || c in selection.value then fetch() else nullValue
    {
      if selection.Some? {
        SingleCharSubstring(c, selection.value);
      }
    }
  }
}
