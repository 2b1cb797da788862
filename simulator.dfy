/**
 * The backend-call simulator as a function: given the world, the charm metadata and one
 * intercepted call, what the call returns or raises and what the world is afterwards.
 * Dispatch is on the namespace ("_ModelBackend" for the control-plane backend, "Client"
 * for the container client) and then on the tool name, with the error-wrapping policy
 * of the source: by default a failure becomes a `StateError` recording whether a getter
 * or a setter was running; system-info, pull and push raise their own exceptions; a
 * backend tool that matches no branch raises `QuestionNotImplementedError` unwrapped.
 */
module Simulator {
  import opened Wrappers
  import opened Values
  import opened Text
  import opened SceneModel
  import opened Filesystem

  const BackendNamespace := "_ModelBackend"
  const ClientNamespace := "Client"

  const GetterTools: set<string> :=
    {"relation_get", "is_leader", "status_get", "relation_ids", "relation_list", "config_get", "network_get"}
  /** Getters the simulator names but does not support. */
  const UnsupportedGetters: set<string> :=
    {"action_get", "relation_remote_app_name", "resource_get", "storage_list", "storage_get", "planned_units"}
  const SetterTools: set<string> :=
    {"application_version_set", "status_set", "juju_log", "relation_set"}
  /** Setters the simulator names but does not support. */
  const UnsupportedSetters: set<string> :=
    {"action_set", "action_fail", "action_log", "storage_add", "secret_get", "secret_set", "secret_grant", "secret_remove"}

  /**
   * The positional arguments of a call after the receiver, shaped as the backend's and the
   * client's signatures give them.
   */
  datatype Args =
    | NoArgs
    | RelationGetArgs(relationId: int, member: string, isApp: bool)
    | RelationIdArg(relationId: int)
    | KeyArg(key: string)
    | NetworkGetArgs(binding: string, bindingRelationId: Option<int>)
    | VersionArg(version: string)
    | StatusSetArgs(status: string, message: string)
    | JujuLogArgs(level: string, message: string)
    | RelationSetArgs(relationId: int, key: string, value: string, isApp: bool)
    | RequestArgs(httpMethod: string, path: string, query: Option<map<string, string>>)
    | ExecArgs(command: seq<string>)
    | PullArgs(path: string)
    | PushArgs(path: string, contents: string)

  /**
   * One intercepted call: the class it was made on (`namespace`), the method (`tool`), the
   * `socket_path` of the receiving client (read only for "Client"), the positional
   * arguments, and the truthiness of each keyword argument that was passed.
   */
  datatype Call = Call(namespace: string, tool: string, socketPath: string, args: Args, kwargs: map<string, bool>)

  /** `call_kwargs.get(key)` taken as a condition: absent counts as false. */
  predicate KwFlag(kwargs: map<string, bool>, key: string) {
    key in kwargs && kwargs[key]
  }

  /** What a simulated call returns. */
  datatype Reply =
    | NoneReply
    | Data(data: RelationData)
    | Flag(flag: bool)
    | StatusReply(status: string, message: string)
    | RelationIds(ids: seq<int>)
    | UnitNames(names: seq<string>)
    | ConfigValue(value: Value)
    | ConfigMap(config: map<string, Value>)
    | NetworkReply(network: NetworkData)
    | SystemInfo(version: string)
    | ServiceList(services: seq<ServiceDef>)
    | Spawned(command: seq<string>, changeId: int, out: ExecOutput)   // the process handle exec returns
    | Opened(contents: string)                                        // the open file pull returns

  /** The exception raised inside the simulator, before the wrapping policy applies. */
  datatype Cause =
    | NotImplemented(what: string)           // NotImplementedError
    | NoMatch                                // StopIteration: no relation or network with that key
    | KeyMissing                             // KeyError
    | NotAnInteger                           // ValueError from int()
    | IndexOutOfRange                        // IndexError
    | NeedsLeadership                        // RuntimeError("needs leadership to set app data")
    | ContainerNotFound(name: string)        // RuntimeError
    | ExecMockNotFound(command: seq<string>) // RuntimeError
    | UnknownNamespace(namespace: string)    // QuestionNotImplementedError(namespace)
    | NoCharmConfig                          // AttributeError: no charm config to take defaults from
    | BadArguments                           // the positional arguments do not unpack
    | NotADirectory                          // AttributeError: `get` on a file path
    | NotAFile                               // TypeError: Path() of a directory mapping
    | NotAssignable                          // TypeError: item assignment into a file path

  /** Whether the simulator was reading ("getting") or writing ("setting") state. */
  datatype Action = Getting | Setting

  /** What the caller of a simulated call sees raised. */
  datatype Error =
    | StateError(action: Action, namespace: string, tool: string, cause: Cause)  // wrapped `StateError(...) from cause`
    | QuestionNotImplemented(namespace: string, tool: string)                    // raised after the try, unwrapped
    | ConnectionRefused                                                          // FileNotFoundError("") of system-info
    | PathNotFound(path: string)                                                 // FileNotFoundError(path)
    | BackingFileMissing(handle: Handle)                                         // FileNotFoundError(local path)
    | Raw(cause: Cause)                                                          // any other exception, unwrapped

  /** `isinstance(e, StateError)`: `QuestionNotImplementedError` is a subclass of `StateError`. */
  predicate IsStateError(e: Error) {
    e.StateError? || e.QuestionNotImplemented?
  }

  /** The `except Exception` clause while `wrap_errors` is true. */
  function Wrapped(action: Action, call: Call, r: Result<Reply, Cause>): Result<Reply, Error> {
    match r
    case Success(v) => Success(v)
    case Failure(c) => Failure(StateError(action, call.namespace, call.tool, c))
  }

  /** The exception pull or push raises when its walk stops. */
  function WalkFailure(e: WalkError, path: string): Error {
    match e
    case Missing => PathNotFound(path)
    case ThroughFile => Raw(NotADirectory)
    case MakeDirsUnset => Raw(KeyMissing)
  }

  // ---------------------------------------------------------------- backend getters

  /** `relation_get`: the data mapping the member and the app flag select. */
  function RelationGet(w: World, meta: SceneMeta, id: int, member: string, isApp: bool): Result<Reply, Cause> {
    match FindRelation(w.relations, id)
    case None => Failure(NoMatch)
    case Some(i) =>
      var rel := w.relations[i];
      if isApp && member == meta.appName then Success(Data(rel.localAppData))
      else if isApp then Success(Data(rel.remoteAppData))
      else if member == meta.unitName then Success(Data(rel.localUnitData))
      else
        match ParseInt(LastPiece(member, '/'))
        case None => Failure(NotAnInteger)
        case Some(unit) =>
          if unit in rel.remoteUnitsData then Success(Data(rel.remoteUnitsData[unit]))
          else Failure(KeyMissing)
  }

  /** The `"<remote app>/<unit id>"` names `relation_list` returns. */
  function MemberNames(rel: Relation): seq<string> {
    seq(|rel.remoteUnitIds|, k requires 0 <= k < |rel.remoteUnitIds| =>
      rel.remoteAppName + "/" + IntToString(rel.remoteUnitIds[k]))
  }

  /** The configuration `config_get` reads: the state's, or the schema defaults when that is empty. */
  function EffectiveConfig(w: World, meta: SceneMeta): Result<map<string, Value>, Cause> {
    if w.config != map[] then Success(w.config)
    else
      match meta.charmConfig
      case None => Failure(NoCharmConfig)
      case Some(schema) => Success(map k | k in schema :: schema[k].default.GetOr(Null))
  }

  function ConfigGet(w: World, meta: SceneMeta, args: Args): Result<Reply, Cause> {
    match EffectiveConfig(w, meta)
    case Failure(c) => Failure(c)
    case Success(cfg) =>
      match args
      case NoArgs => Success(ConfigMap(cfg))
      case KeyArg(k) => if k in cfg then Success(ConfigValue(cfg[k])) else Failure(KeyMissing)
      case _ => Failure(BadArguments)
  }

  /** The getter branches; a named but unsupported getter raises `NotImplementedError`. */
  function Getter(w: World, meta: SceneMeta, call: Call): Result<Reply, Cause> {
    var tool := call.tool;
    if tool == "relation_get" then
      match call.args
      case RelationGetArgs(id, member, isApp) => RelationGet(w, meta, id, member, isApp)
      case _ => Failure(BadArguments)
    else if tool == "is_leader" then Success(Flag(w.leader))
    else if tool == "status_get" then
      var s := if KwFlag(call.kwargs, "app") then w.status.app else w.status.unit;
      Success(StatusReply(s.name, s.message))
    else if tool == "relation_ids" then
      Success(RelationIds(seq(|w.relations|, k requires 0 <= k < |w.relations| => w.relations[k].id)))
    else if tool == "relation_list" then
      match call.args
      case RelationIdArg(id) =>
        (match FindRelation(w.relations, id)
         case None => Failure(NoMatch)
         case Some(i) => Success(UnitNames(MemberNames(w.relations[i]))))
      case _ => Failure(BadArguments)
    else if tool == "config_get" then ConfigGet(w, meta, call.args)
    else if tool == "network_get" then
      match call.args
      case NetworkGetArgs(binding, _) =>
        (match FindNetwork(w.networks, binding)
         case None => Failure(NoMatch)
         case Some(i) => Success(NetworkReply(w.networks[i].data)))
      case _ => Failure(BadArguments)
    else Failure(NotImplemented(tool))
  }

  // ---------------------------------------------------------------- backend setters

  /** `relation_set`: app-scoped writes need leadership; the write touches one mapping of one relation. */
  function RelationSet(w: World, id: int, key: string, value: string, isApp: bool): (Result<Reply, Cause>, World) {
    match FindRelation(w.relations, id)
    case None => (Failure(NoMatch), w)
    case Some(i) =>
      var rel := w.relations[i];
      if isApp && !w.leader then (Failure(NeedsLeadership), w)
      else
        var rel' := if isApp then rel.(localAppData := rel.localAppData[key := value])
                    else rel.(localUnitData := rel.localUnitData[key := value]);
        (Success(NoneReply), w.(relations := w.relations[i := rel']))
  }

  /** The setter branches; a named but unsupported setter raises `NotImplementedError`. */
  function Setter(w: World, call: Call): (Result<Reply, Cause>, World) {
    var tool := call.tool;
    if tool == "application_version_set" then
      match call.args
      case VersionArg(v) => (Success(NoneReply), w.(status := w.status.(appVersion := v)))
      case _ => (Failure(BadArguments), w)
    else if tool == "status_set" then
      match call.args
      case StatusSetArgs(s, m) =>
        var p := StatusPair(s, m);
        var status := if KwFlag(call.kwargs, "is_app") then w.status.(app := p) else w.status.(unit := p);
        (Success(NoneReply), w.(status := status))
      case _ => (Failure(BadArguments), w)
    else if tool == "juju_log" then
      match call.args
      case JujuLogArgs(level, message) => (Success(NoneReply), w.(jujuLog := w.jujuLog + [LogEntry(level, message)]))
      case _ => (Failure(BadArguments), w)
    else if tool == "relation_set" then
      match call.args
      case RelationSetArgs(id, key, value, isApp) => RelationSet(w, id, key, value, isApp)
      case _ => (Failure(BadArguments), w)
    else (Failure(NotImplemented(tool)), w)
  }

  /** The "_ModelBackend" namespace. */
  function SimulateBackend(w: World, meta: SceneMeta, call: Call): (Result<Reply, Error>, World) {
    if call.tool in GetterTools || call.tool in UnsupportedGetters then
      (Wrapped(Getting, call, Getter(w, meta, call)), w)
    else if call.tool in SetterTools || call.tool in UnsupportedSetters then
      var (r, w') := Setter(w, call);
      (Wrapped(Setting, call, r), w')
    else
      (Failure(QuestionNotImplemented(call.namespace, call.tool)), w)
  }

  // ---------------------------------------------------------------- container client

  /** A service found by the services listing: the layer it came from and the requested name. */
  datatype Hit = Hit(layer: nat, name: string)

  /** The requested names the hits stand for, in order. */
  function HitNames(hits: seq<Hit>): seq<string> {
    seq(|hits|, k requires 0 <= k < |hits| => hits[k].name)
  }

  lemma HitNamesAppend(a: seq<Hit>, b: seq<Hit>)
    ensures HitNames(a + b) == HitNames(a) + HitNames(b)
  {
  }

  lemma MultisetRegroup(a: multiset<string>, b: multiset<string>, c: multiset<string>, x: string)
    requires a + b == c
    ensures a + (multiset{x} + b) == c + multiset{x}
  {
  }

  lemma MultisetAddLe(a: multiset<string>, b: multiset<string>, c: multiset<string>)
    requires b <= c
    ensures a + b <= a + c
  {
  }

  /** `list.remove(x)`: drop the first occurrence of `x`. */
  function RemoveFirst(s: seq<string>, x: string): (r: seq<string>)
    requires x in s
    ensures |r| == |s| - 1
  {
    if s[0] == x then s[1..] else [s[0]] + RemoveFirst(s[1..], x)
  }

  /** `list.remove(x)` takes away one `x` and nothing else. */
  lemma {:induction false} RemoveFirstCount(s: seq<string>, x: string)
    requires x in s
    ensures multiset(RemoveFirst(s, x)) == multiset(s) - multiset{x}
  {
    assert s == [s[0]] + s[1..];
    if s[0] != x {
      RemoveFirstCount(s[1..], x);
    }
  }

  /**
   * The inner `for name in service_names` loop over layer `l`, which removes from the list
   * it iterates: `i` is the iterator's position in the list as it now is, so the name that
   * slides into a removed slot is not visited. Returns the names left and the hits, in order.
   */
  function ScanLayer(layers: seq<Layer>, l: nat, names: seq<string>, i: nat): (seq<string>, seq<Hit>)
    requires l < |layers|
    decreases |names| - i
  {
    if i >= |names| then (names, [])
    else if names[i] in layers[l] then
      var x := names[i];
      var rest := ScanLayer(layers, l, RemoveFirst(names, x), i + 1);
      (rest.0, [Hit(l, x)] + rest.1)
    else ScanLayer(layers, l, names, i + 1)
  }

  /** As written, every hit of layer `l` is a name that layer declares. */
  lemma {:induction false} ScanLayerValid(layers: seq<Layer>, l: nat, names: seq<string>, i: nat)
    requires l < |layers|
    ensures forall h :: h in ScanLayer(layers, l, names, i).1 ==> h.layer == l && h.name in layers[l]
    decreases |names| - i
  {
    if i < |names| {
      if names[i] in layers[l] {
        ScanLayerValid(layers, l, RemoveFirst(names, names[i]), i + 1);
      } else {
        ScanLayerValid(layers, l, names, i + 1);
      }
    }
  }

  /** As written, the names left plus the names found in layer `l` are the names requested, as multisets. */
  lemma {:induction false} ScanLayerNames(layers: seq<Layer>, l: nat, names: seq<string>, i: nat)
    requires l < |layers|
    ensures var r := ScanLayer(layers, l, names, i);
      multiset(r.0) + multiset(HitNames(r.1)) == multiset(names)
    decreases |names| - i
  {
    if i < |names| {
      var x := names[i];
      if x in layers[l] {
        var smaller := RemoveFirst(names, x);
        var rest := ScanLayer(layers, l, smaller, i + 1);
        var later := HitNames(rest.1);
        assert multiset(rest.0) + multiset(later) == multiset(smaller) by {
          ScanLayerNames(layers, l, smaller, i + 1);
        }
        assert ScanLayer(layers, l, names, i) == (rest.0, [Hit(l, x)] + rest.1);
        assert multiset(HitNames([Hit(l, x)] + rest.1)) == multiset{x} + multiset(later) by {
          HitNamesAppend([Hit(l, x)], rest.1);
          assert HitNames([Hit(l, x)]) == [x];
          assert HitNames([Hit(l, x)] + rest.1) == [x] + later;
        }
        assert multiset(names) == multiset(smaller) + multiset{x} by {
          RemoveFirstCount(names, x);
          assert x in multiset(names);
        }
        MultisetRegroup(multiset(rest.0), multiset(later), multiset(smaller), x);
      } else {
        ScanLayerNames(layers, l, names, i + 1);
      }
    }
  }

  /** The outer loop over layers from `l`, stopping once no names are left. */
  function ScanFrom(layers: seq<Layer>, names: seq<string>, l: nat): seq<Hit>
    requires l <= |layers|
    decreases |layers| - l
  {
    if l == |layers| || |names| == 0 then []
    else
      var (rest, found) := ScanLayer(layers, l, names, 0);
      found + ScanFrom(layers, rest, l + 1)
  }

  /** As written, every hit names a service its layer declares. */
  lemma {:induction false} ScanFromValid(layers: seq<Layer>, names: seq<string>, l: nat)
    requires l <= |layers|
    ensures forall h :: h in ScanFrom(layers, names, l) ==> l <= h.layer < |layers| && h.name in layers[h.layer]
    decreases |layers| - l
  {
    if l < |layers| && |names| > 0 {
      var (rest, found) := ScanLayer(layers, l, names, 0);
      ScanLayerValid(layers, l, names, 0);
      ScanFromValid(layers, rest, l + 1);
      assert ScanFrom(layers, names, l) == found + ScanFrom(layers, rest, l + 1);
    }
  }

  /** As written, the names found are among the names requested, as multisets. */
  lemma {:induction false} ScanFromNames(layers: seq<Layer>, names: seq<string>, l: nat)
    requires l <= |layers|
    ensures multiset(HitNames(ScanFrom(layers, names, l))) <= multiset(names)
    decreases |layers| - l
  {
    if l < |layers| && |names| > 0 {
      var (rest, found) := ScanLayer(layers, l, names, 0);
      var later := ScanFrom(layers, rest, l + 1);
      ScanFromNames(layers, rest, l + 1);
      ScanLayerNames(layers, l, names, 0);
      HitNamesAppend(found, later);
      assert ScanFrom(layers, names, l) == found + later;
      assert multiset(HitNames(found + later)) == multiset(HitNames(found)) + multiset(HitNames(later));
    }
  }

  /** The definitions the hits point at, in order. */
  function Definitions(layers: seq<Layer>, hits: seq<Hit>): seq<ServiceDef>
    requires forall h :: h in hits ==> h.layer < |layers| && h.name in layers[h.layer]
  {
    seq(|hits|, k requires 0 <= k < |hits| => assert hits[k] in hits; layers[hits[k].layer][hits[k].name])
  }

  lemma DefinitionsAppend(layers: seq<Layer>, a: seq<Hit>, b: seq<Hit>)
    requires forall h :: h in a + b ==> h.layer < |layers| && h.name in layers[h.layer]
    ensures Definitions(layers, a + b) == Definitions(layers, a) + Definitions(layers, b)
  {
  }

  /** A definition is listed exactly when some hit points at it. */
  lemma DefinitionsMembers(layers: seq<Layer>, hits: seq<Hit>)
    requires forall h :: h in hits ==> h.layer < |layers| && h.name in layers[h.layer]
    ensures forall h :: h in hits ==> layers[h.layer][h.name] in Definitions(layers, hits)
    ensures forall d :: d in Definitions(layers, hits) ==> exists h :: h in hits && d == layers[h.layer][h.name]
  {
    var defs := Definitions(layers, hits);
    forall h | h in hits
      ensures layers[h.layer][h.name] in defs
    {
      var k :| 0 <= k < |hits| && hits[k] == h;
      assert defs[k] == layers[h.layer][h.name];
    }
    forall d | d in defs
      ensures exists h :: h in hits && d == layers[h.layer][h.name]
    {
      var k :| 0 <= k < |defs| && defs[k] == d;
      assert hits[k] in hits;
    }
  }

  /** `GET /v1/services` as the source computes it. */
  function ListServices(layers: seq<Layer>, names: seq<string>): seq<ServiceDef> {
    ScanFromValid(layers, names, 0);
    Definitions(layers, ScanFrom(layers, names, 0))
  }

  /**
   * The as-written listing skips a requested name: with both names in the only layer, the
   * second slides into the slot the first vacated and is never visited.
   */
  lemma ServicesSkipExample()
    ensures ListServices([map["a" := map["command" := "a"], "b" := map["command" := "b"]]], ["a", "b"])
         == [map["command" := "a"]]
  {
    var layer: Layer := map["a" := map["command" := "a"], "b" := map["command" := "b"]];
    var names := ["a", "b"];
    assert names[0] == "a" && "a" in layer;
    assert RemoveFirst(names, names[0]) == ["b"];
    assert ScanLayer([layer], 0, ["b"], 1) == (["b"], []);
    var inner := ScanLayer([layer], 0, names, 0);
    assert inner == (ScanLayer([layer], 0, ["b"], 1).0, [Hit(0, "a")] + ScanLayer([layer], 0, ["b"], 1).1);
    assert [Hit(0, "a")] + [] == [Hit(0, "a")];
    assert inner == (["b"], [Hit(0, "a")]);
    assert ScanFrom([layer], ["b"], 1) == [];
    assert ScanFrom([layer], names, 0) == [Hit(0, "a")];
    assert [Hit(0, "a")][..0] == [];
  }

  /** The first `n` items of `s`, as a multiset. */
  function Counted<T>(s: seq<T>, n: nat): multiset<T>
    requires n <= |s|
  {
    if n == 0 then multiset{} else Counted(s, n - 1) + multiset{s[n - 1]}
  }

  lemma CountedStep<T>(s: seq<T>, n: nat)
    requires 0 < n <= |s|
    ensures multiset(s[..n]) == multiset(s[..n - 1]) + multiset{s[n - 1]}
  {
    assert s[..n] == s[..n - 1] + [s[n - 1]];
  }

  /** `Counted` is the multiset of the prefix. */
  lemma {:induction false} CountedPrefix<T>(s: seq<T>, n: nat)
    requires n <= |s|
    ensures Counted(s, n) == multiset(s[..n])
  {
    if n > 0 {
      CountedPrefix(s, n - 1);
      CountedStep(s, n);
    }
  }

  lemma AddLeft<T>(a: seq<T>, b: seq<T>, c: multiset<T>, x: T)
    requires multiset(a) + multiset(b) == c
    ensures multiset(a + [x]) + multiset(b) == c + multiset{x}
  {
    assert multiset(a + [x]) == multiset(a) + multiset{x};
  }

  lemma AddRight<T>(a: seq<T>, b: seq<T>, c: multiset<T>, x: T)
    requires multiset(a) + multiset(b) == c
    ensures multiset(a) + multiset(b + [x]) == c + multiset{x}
  {
    assert multiset(b + [x]) == multiset(b) + multiset{x};
  }

  /** The first `n` items of `s` split, in order, into those in `keys` and those not. */
  function Partition<T>(s: seq<T>, keys: set<T>, n: nat): (r: (seq<T>, seq<T>))
    requires n <= |s|
    ensures forall x :: x in r.0 ==> x in keys
    ensures forall x :: x in r.1 ==> x !in keys
    ensures |r.1| <= n
  {
    if n == 0 then ([], [])
    else
      var (inside, outside) := Partition(s, keys, n - 1);
      if s[n - 1] in keys then (inside + [s[n - 1]], outside) else (inside, outside + [s[n - 1]])
  }

  /** The two sides of a partition together are the items partitioned, as multisets. */
  lemma {:induction false} PartitionCounts<T>(s: seq<T>, keys: set<T>, n: nat)
    requires n <= |s|
    ensures multiset(Partition(s, keys, n).0) + multiset(Partition(s, keys, n).1) == Counted(s, n)
  {
    if n > 0 {
      PartitionCounts(s, keys, n - 1);
      PartitionCountsStep(s, keys, n);
    }
  }

  lemma PartitionCountsStep<T>(s: seq<T>, keys: set<T>, n: nat)
    requires 0 < n <= |s|
    requires multiset(Partition(s, keys, n - 1).0) + multiset(Partition(s, keys, n - 1).1) == Counted(s, n - 1)
    ensures multiset(Partition(s, keys, n).0) + multiset(Partition(s, keys, n).1) == Counted(s, n)
  {
    var (inside, outside) := Partition(s, keys, n - 1);
    if s[n - 1] in keys {
      AddLeft(inside, outside, Counted(s, n - 1), s[n - 1]);
    } else {
      AddRight(inside, outside, Counted(s, n - 1), s[n - 1]);
    }
  }

  /** Two sequences that together count the items of `s` hold exactly the items of `s`. */
  lemma SplitHolds<T>(a: seq<T>, b: seq<T>, s: seq<T>)
    requires multiset(a) + multiset(b) == multiset(s)
    ensures forall x :: x in s <==> x in a || x in b
  {
    forall x
      ensures x in s <==> x in a || x in b
    {
      assert x in s <==> x in multiset(s);
      assert x in a <==> x in multiset(a);
      assert x in b <==> x in multiset(b);
    }
  }

  /** The names of `names` that layer `layer` declares, in order. */
  function InLayer(names: seq<string>, layer: Layer): seq<string> {
    Partition(names, layer.Keys, |names|).0
  }

  /** The names of `names` that layer `layer` does not declare, in order. */
  function NotInLayer(names: seq<string>, layer: Layer): seq<string> {
    Partition(names, layer.Keys, |names|).1
  }

  /** Splitting the request by a layer loses and duplicates no name. */
  lemma LayerSplitNames(names: seq<string>, layer: Layer)
    ensures multiset(InLayer(names, layer)) + multiset(NotInLayer(names, layer)) == multiset(names)
  {
    PartitionCounts(names, layer.Keys, |names|);
    CountedPrefix(names, |names|);
    assert names[..|names|] == names;
  }

  /** Splitting the request by a layer keeps exactly the names on either side. */
  lemma LayerSplitMembers(names: seq<string>, layer: Layer)
    ensures forall x :: x in InLayer(names, layer) <==> x in names && x in layer
    ensures forall x :: x in NotInLayer(names, layer) <==> x in names && x !in layer
    ensures |NotInLayer(names, layer)| <= |names|
  {
    LayerSplitNames(names, layer);
    SplitHolds(InLayer(names, layer), NotInLayer(names, layer), names);
  }

  /** The hits of layer `l` for the names it declares, in order. */
  function LayerHits(l: nat, found: seq<string>): seq<Hit> {
    seq(|found|, k requires 0 <= k < |found| => Hit(l, found[k]))
  }

  /** A layer's hits are exactly its layer paired with the names found, and stand for those names. */
  lemma LayerHitsMembers(l: nat, found: seq<string>)
    ensures forall h :: h in LayerHits(l, found) <==> h.layer == l && h.name in found
    ensures HitNames(LayerHits(l, found)) == found
  {
    var hits := LayerHits(l, found);
    forall h: Hit | h.layer == l && h.name in found
      ensures h in hits
    {
      var k :| 0 <= k < |found| && found[k] == h.name;
      assert hits[k] == h;
    }
  }

  /**
   * The evidently intended listing: each layer takes every still-requested name it declares
   * (the inner loop visits a snapshot of the list), and those names leave the request.
   */
  function ScanIntended(layers: seq<Layer>, names: seq<string>, l: nat): seq<Hit>
    requires l <= |layers|
    decreases |layers| - l
  {
    if l == |layers| || |names| == 0 then []
    else LayerHits(l, InLayer(names, layers[l])) + ScanIntended(layers, NotInLayer(names, layers[l]), l + 1)
  }

  /** A layer's hits are requested names that the layer declares. */
  lemma LayerHitsOfSplit(l: nat, names: seq<string>, layer: Layer)
    ensures forall h :: h in LayerHits(l, InLayer(names, layer)) ==> h.layer == l && h.name in names && h.name in layer
  {
    LayerSplitMembers(names, layer);
    LayerHitsMembers(l, InLayer(names, layer));
  }

  /** The names the intended listing stands for, one layer unfolded. */
  lemma ScanIntendedHitNames(layers: seq<Layer>, names: seq<string>, l: nat)
    requires l < |layers| && |names| > 0
    ensures HitNames(ScanIntended(layers, names, l))
         == InLayer(names, layers[l]) + HitNames(ScanIntended(layers, NotInLayer(names, layers[l]), l + 1))
  {
    var found := InLayer(names, layers[l]);
    var later := ScanIntended(layers, NotInLayer(names, layers[l]), l + 1);
    LayerHitsMembers(l, found);
    HitNamesAppend(LayerHits(l, found), later);
  }

  /** In the intended listing, every hit names a service its layer declares. */
  lemma {:induction false} ScanIntendedValid(layers: seq<Layer>, names: seq<string>, l: nat)
    requires l <= |layers|
    ensures forall h :: h in ScanIntended(layers, names, l) ==> l <= h.layer < |layers| && h.name in layers[h.layer]
    decreases |layers| - l
  {
    if l < |layers| && |names| > 0 {
      ScanIntendedValid(layers, NotInLayer(names, layers[l]), l + 1);
      LayerHitsOfSplit(l, names, layers[l]);
    }
  }

  /** Names drawn from a request stay in the request when more are drawn from what is left of it. */
  lemma NamesWithin(first: seq<Hit>, later: seq<Hit>, rest: seq<string>, names: seq<string>)
    requires forall h :: h in first ==> h.name in names
    requires forall h :: h in later ==> h.name in rest
    requires forall x :: x in rest ==> x in names
    ensures forall h :: h in first + later ==> h.name in names
  {
  }

  /** The intended listing only lists requested names. */
  lemma {:induction false} ScanIntendedMembers(layers: seq<Layer>, names: seq<string>, l: nat)
    requires l <= |layers|
    ensures forall h :: h in ScanIntended(layers, names, l) ==> h.name in names
    decreases |layers| - l
  {
    if l < |layers| && |names| > 0 {
      var rest := NotInLayer(names, layers[l]);
      var first := LayerHits(l, InLayer(names, layers[l]));
      var later := ScanIntended(layers, rest, l + 1);
      ScanIntendedMembers(layers, rest, l + 1);
      assert forall x :: x in rest ==> x in names by {
        LayerSplitMembers(names, layers[l]);
      }
      LayerHitsOfSplit(l, names, layers[l]);
      NamesWithin(first, later, rest, names);
      assert ScanIntended(layers, names, l) == first + later;
    }
  }

  /** A count bound survives putting the same names in front on both sides. */
  lemma CountsWithin(listed: seq<string>, found: seq<string>, later: seq<string>, rest: seq<string>, names: seq<string>)
    requires listed == found + later
    requires multiset(later) <= multiset(rest)
    requires multiset(found) + multiset(rest) == multiset(names)
    ensures multiset(listed) <= multiset(names)
  {
    MultisetAddLe(multiset(found), multiset(later), multiset(rest));
  }

  /** The intended listing lists each requested name at most as often as it was requested. */
  lemma {:induction false} ScanIntendedNames(layers: seq<Layer>, names: seq<string>, l: nat)
    requires l <= |layers|
    ensures multiset(HitNames(ScanIntended(layers, names, l))) <= multiset(names)
    decreases |layers| - l
  {
    if l < |layers| && |names| > 0 {
      var found := InLayer(names, layers[l]);
      var rest := NotInLayer(names, layers[l]);
      var later := HitNames(ScanIntended(layers, rest, l + 1));
      ScanIntendedHitNames(layers, names, l);
      ScanIntendedNames(layers, rest, l + 1);
      LayerSplitNames(names, layers[l]);
      CountsWithin(HitNames(ScanIntended(layers, names, l)), found, later, rest, names);
    }
  }

  /** The first layer from `l` on that declares service `n`. */
  function FirstDeclaring(layers: seq<Layer>, n: string, l: nat): (r: Option<nat>)
    requires l <= |layers|
    ensures r.Some? ==> l <= r.value < |layers| && n in layers[r.value]
    ensures r.Some? ==> forall j :: l <= j < r.value ==> n !in layers[j]
    ensures r.None? ==> forall j :: l <= j < |layers| ==> n !in layers[j]
    decreases |layers| - l
  {
    if l == |layers| then None
    else if n in layers[l] then Some(l)
    else FirstDeclaring(layers, n, l + 1)
  }

  /**
   * In the intended listing a requested name is found exactly when some layer declares it,
   * and only in the first layer that does.
   */
  lemma {:induction false} ScanIntendedFindsFirst(layers: seq<Layer>, names: seq<string>, l: nat, n: string)
    requires l <= |layers|
    requires n in names
    ensures FirstDeclaring(layers, n, l).Some? ==> Hit(FirstDeclaring(layers, n, l).value, n) in ScanIntended(layers, names, l)
    ensures forall h :: h in ScanIntended(layers, names, l) && h.name == n ==> FirstDeclaring(layers, n, l) == Some(h.layer)
    decreases |layers| - l
  {
    if l < |layers| {
      var found := InLayer(names, layers[l]);
      var rest := NotInLayer(names, layers[l]);
      var later := ScanIntended(layers, rest, l + 1);
      assert ScanIntended(layers, names, l) == LayerHits(l, found) + later;
      LayerSplitMembers(names, layers[l]);
      LayerHitsMembers(l, found);
      if n in layers[l] {
        ScanIntendedMembers(layers, rest, l + 1);
        assert Hit(l, n) in LayerHits(l, found);
      } else {
        ScanIntendedFindsFirst(layers, rest, l + 1, n);
      }
    }
  }

  /** `GET /v1/services` as evidently intended. */
  function ListIntended(layers: seq<Layer>, names: seq<string>): seq<ServiceDef> {
    ListFrom(layers, names, 0)
  }

  /** The intended listing of the names still requested, from layer `l` on. */
  function ListFrom(layers: seq<Layer>, names: seq<string>, l: nat): seq<ServiceDef>
    requires l <= |layers|
  {
    ScanIntendedValid(layers, names, l);
    Definitions(layers, ScanIntended(layers, names, l))
  }

  /** With both names in the only layer, the intended listing returns both definitions. */
  lemma ServicesIntendedExample()
    ensures ListIntended([map["a" := map["command" := "a"], "b" := map["command" := "b"]]], ["a", "b"])
         == [map["command" := "a"], map["command" := "b"]]
  {
    var layer: Layer := map["a" := map["command" := "a"], "b" := map["command" := "b"]];
    var names := ["a", "b"];
    assert "a" in layer.Keys && "b" in layer.Keys;
    assert Partition(names, layer.Keys, 1).0 == [] + ["a"];
    assert Partition(names, layer.Keys, 1).1 == [];
    assert InLayer(names, layer) == ["a", "b"];
    assert NotInLayer(names, layer) == [];
    var hits := ScanIntended([layer], names, 0);
    assert hits == LayerHits(0, ["a", "b"]) + ScanIntended([layer], [], 1);
    assert hits == [Hit(0, "a"), Hit(0, "b")];
  }

  /** `_request`: the system-info probe, the services listing, and nothing else. */
  function Request(c: Container, call: Call): Result<Reply, Error> {
    match call.args
    case RequestArgs(httpMethod, path, query) =>
      if httpMethod == "GET" && path == "/v1/system-info" && query.None? then
        if c.canConnect then Success(SystemInfo("unknown")) else Failure(ConnectionRefused)
      else if httpMethod == "GET" && path == "/v1/services" then
        match query
        case None => Wrapped(Getting, call, Failure(IndexOutOfRange))
        case Some(q) =>
          if "names" in q then Success(ServiceList(ListIntended(c.layers, Split(q["names"], ','))))
          else Wrapped(Getting, call, Failure(KeyMissing))
      else Wrapped(Getting, call, Failure(NotImplemented("_request")))
    case _ => Wrapped(Getting, call, Failure(NotImplemented("_request")))
  }

  /** `exec`: the canned output for the command, bound to a process handle. */
  function Exec(c: Container, args: Args, changeId: int): Result<Reply, Cause> {
    match args
    case ExecArgs(cmd) =>
      if cmd in c.execMock then Success(Spawned(cmd, changeId, c.execMock[cmd]))
      else Failure(ExecMockNotFound(cmd))
    case _ => Failure(BadArguments)
  }

  /** The segments `pull` and `push` walk: everything after the first `/`-separated piece. */
  function PathTokens(path: string): seq<string> {
    Split(path, '/')[1..]
  }

  /** `pull`: every failure is raised unwrapped. */
  function Pull(c: Container, files: map<Handle, string>, args: Args): Result<Reply, Error> {
    match args
    case PullArgs(path) =>
      (match Resolve(Dir(c.filesystem), PathTokens(path))
       case Failure(e) => Failure(WalkFailure(e, path))
       case Success(n) =>
         match n
         case Dir(_) => Failure(Raw(NotAFile))
         case File(h) => if h in files then Success(Opened(files[h])) else Failure(BackingFileMissing(h)))
    case _ => Failure(Raw(BadArguments))
  }

  /** The `make_dirs` keyword as push reads it: `None` when it was not passed. */
  function MakeDirs(kwargs: map<string, bool>): Option<bool> {
    if "make_dirs" in kwargs then Some(kwargs["make_dirs"]) else None
  }

  /**
   * `push` into container `ci`: the walk, then a fresh backing file holding `contents`, then
   * the binding of the last segment. Failures are unwrapped; the ones raised after the
   * backing file was written leave it in the store.
   */
  function Push(w: World, ci: nat, call: Call): (Result<Reply, Error>, World)
    requires ci < |w.containers|
  {
    match call.args
    case PushArgs(path, contents) =>
      var c := w.containers[ci];
      var tokens := PathTokens(path);
      var dirs := if tokens == [] then [] else tokens[..|tokens| - 1];
      (match PushPlan(Dir(c.filesystem), dirs, MakeDirs(call.kwargs))
       case Failure(e) => (Failure(WalkFailure(e, path)), w)
       case Success(end) =>
         var h := w.nextFile;
         var stored := w.(files := w.files[h := contents], nextFile := h + 1);
         if tokens == [] then (Failure(Raw(IndexOutOfRange)), stored)
         else if end == AtFile then (Failure(Raw(NotAssignable)), stored)
         else
           var fs := Bind(c.filesystem, dirs, tokens[|tokens| - 1], File(h));
           (Success(NoneReply), stored.(containers := w.containers[ci := c.(filesystem := fs)])))
    case _ => (Failure(Raw(BadArguments)), w)
  }

  /** The container a client talks to: the second-to-last segment of its socket path. */
  function ContainerOf(w: World, call: Call): Result<nat, Cause> {
    var parts := Split(call.socketPath, '/');
    if |parts| < 2 then Failure(IndexOutOfRange)
    else
      var name := parts[|parts| - 2];
      match FindContainer(w.containers, name)
      case None => Failure(ContainerNotFound(name))
      case Some(ci) => Success(ci)
  }

  /** The "Client" namespace; a tool that matches no branch falls out of the `try`. */
  function SimulateClient(w: World, call: Call, changeId: int): (Result<Reply, Error>, World) {
    match ContainerOf(w, call)
    case Failure(c) => (Failure(StateError(Getting, call.namespace, call.tool, c)), w)
    case Success(ci) =>
      var c := w.containers[ci];
      if call.tool == "_request" then (Request(c, call), w)
      else if call.tool == "exec" then (Wrapped(Getting, call, Exec(c, call.args, changeId)), w)
      else if call.tool == "pull" then (Pull(c, w.files, call.args), w)
      else if call.tool == "push" then Push(w, ci, call)
      else (Failure(QuestionNotImplemented(call.namespace, call.tool)), w)
  }

  /**
   * The simulator: one intercepted call against the world. `changeId` is what the canned
   * exec output's `_run()` returns, which the source computes elsewhere.
   */
  function Simulate(w: World, meta: SceneMeta, call: Call, changeId: int): (Result<Reply, Error>, World) {
    if call.namespace == BackendNamespace then SimulateBackend(w, meta, call)
    else if call.namespace == ClientNamespace then SimulateClient(w, call, changeId)
    else (Failure(StateError(Getting, call.namespace, call.tool, UnknownNamespace(call.namespace))), w)
  }
}
