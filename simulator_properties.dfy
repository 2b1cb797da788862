/**
 * What the simulator promises across calls and across branches: the relation data
 * round trip and its leadership guard, the config defaults, the container client's
 * filesystem round trip, the error-wrapping policy, and which calls may change the world.
 */
module SimulatorProperties {
  import opened Wrappers
  import opened Values
  import opened Text
  import opened SceneModel
  import opened Filesystem
  import opened Simulator

  /** `i` is the relation `next(filter(...))` picks for id `id`. */
  predicate FirstWithId(rels: seq<Relation>, i: nat, id: int) {
    i < |rels| && rels[i].id == id && forall j :: 0 <= j < i ==> rels[j].id != id
  }

  lemma FindRelationIsFirst(rels: seq<Relation>, i: nat, id: int)
    requires FirstWithId(rels, i, id)
    ensures FindRelation(rels, id) == Some(i)
  {
  }

  /** Replacing a relation by one with the same id leaves every id lookup where it was. */
  lemma FindRelationAfterUpdate(rels: seq<Relation>, i: nat, rel: Relation, id: int)
    requires i < |rels| && rel.id == rels[i].id
    ensures FindRelation(rels[i := rel], id) == FindRelation(rels, id)
  {
    assert forall j :: 0 <= j < |rels| ==> rels[i := rel][j].id == rels[j].id;
  }

  /** A call on the control-plane backend; the socket path is not read there. */
  function BackendCall(tool: string, args: Args, kwargs: map<string, bool>): Call {
    Call(BackendNamespace, tool, "", args, kwargs)
  }

  /** `relation_get` with an id no relation has ends in a wrapped "getting" error. */
  lemma RelationGetUnknownId(w: World, meta: SceneMeta, id: int, member: string, isApp: bool, kwargs: map<string, bool>, changeId: int)
    requires forall k :: 0 <= k < |w.relations| ==> w.relations[k].id != id
    ensures Simulate(w, meta, BackendCall("relation_get", RelationGetArgs(id, member, isApp), kwargs), changeId)
         == (Failure(StateError(Getting, BackendNamespace, "relation_get", NoMatch)), w)
  {
    assert FindRelation(w.relations, id).None?;
  }

  /**
   * `relation_get` picks the local app data for this app, the remote app data for any other
   * app, and the local unit data for this unit, of the first relation with the id.
   */
  lemma RelationGetSelects(w: World, meta: SceneMeta, i: nat, member: string, isApp: bool, kwargs: map<string, bool>, changeId: int)
    requires i < |w.relations| && FirstWithId(w.relations, i, w.relations[i].id)
    ensures var rel := w.relations[i];
      var (r, w') := Simulate(w, meta, BackendCall("relation_get", RelationGetArgs(rel.id, member, isApp), kwargs), changeId);
      w' == w &&
      (isApp && member == meta.appName ==> r == Success(Data(rel.localAppData))) &&
      (isApp && member != meta.appName ==> r == Success(Data(rel.remoteAppData))) &&
      (!isApp && member == meta.unitName ==> r == Success(Data(rel.localUnitData)))
  {
    FindRelationIsFirst(w.relations, i, w.relations[i].id);
  }

  /**
   * Every name `relation_list` returns reads back in `relation_get`: the unit id after its
   * last `/` selects that remote unit's data (the name is not this unit's own).
   */
  lemma RelationListThenGet(w: World, meta: SceneMeta, i: nat, k: nat, kwargs: map<string, bool>, changeId: int)
    requires i < |w.relations| && FirstWithId(w.relations, i, w.relations[i].id)
    requires k < |w.relations[i].remoteUnitIds|
    requires w.relations[i].remoteUnitIds[k] in w.relations[i].remoteUnitsData
    requires MemberNames(w.relations[i])[k] != meta.unitName
    ensures var rel := w.relations[i];
      var listed := Simulate(w, meta, BackendCall("relation_list", RelationIdArg(rel.id), kwargs), changeId).0;
      listed.Success? && listed.value.UnitNames? && k < |listed.value.names| &&
      Simulate(w, meta, BackendCall("relation_get", RelationGetArgs(rel.id, listed.value.names[k], false), kwargs), changeId).0
        == Success(Data(rel.remoteUnitsData[rel.remoteUnitIds[k]]))
  {
    var rel := w.relations[i];
    FindRelationIsFirst(w.relations, i, rel.id);
    var unit := rel.remoteUnitIds[k];
    var name := MemberNames(rel)[k];
    assert name == rel.remoteAppName + "/" + IntToString(unit);
    IntToStringChars(unit);
    LastPieceAfterSep(rel.remoteAppName, '/', IntToString(unit));
    ParseIntToString(unit);
    assert ParseInt(LastPiece(name, '/')) == Some(unit);
  }

  /** The side of a relation `relation_set` writes and `relation_get` reads back. */
  function WrittenSide(rel: Relation, isApp: bool): RelationData {
    if isApp then rel.localAppData else rel.localUnitData
  }

  /**
   * With leadership (or for unit data), `relation_set` writes exactly `key := value` into one
   * side of the first relation with the id, changes nothing else, and `relation_get` of this
   * app or unit then returns the updated mapping.
   */
  lemma RelationSetThenGet(w: World, meta: SceneMeta, i: nat, key: string, value: string, isApp: bool, kwargs: map<string, bool>, changeId: int)
    requires i < |w.relations| && FirstWithId(w.relations, i, w.relations[i].id)
    requires isApp ==> w.leader
    ensures var rel := w.relations[i];
      var (r, w') := Simulate(w, meta, BackendCall("relation_set", RelationSetArgs(rel.id, key, value, isApp), kwargs), changeId);
      r == Success(NoneReply) &&
      w' == w.(relations := w.relations[i := w'.relations[i]]) &&
      WrittenSide(w'.relations[i], isApp) == WrittenSide(rel, isApp)[key := value] &&
      w'.relations[i] == (if isApp then rel.(localAppData := w'.relations[i].localAppData)
                          else rel.(localUnitData := w'.relations[i].localUnitData)) &&
      Simulate(w', meta, BackendCall("relation_get", RelationGetArgs(rel.id, if isApp then meta.appName else meta.unitName, isApp), kwargs), changeId).0
        == Success(Data(WrittenSide(rel, isApp)[key := value]))
  {
    var rel := w.relations[i];
    FindRelationIsFirst(w.relations, i, rel.id);
    var rel' := if isApp then rel.(localAppData := rel.localAppData[key := value])
                else rel.(localUnitData := rel.localUnitData[key := value]);
    var w' := w.(relations := w.relations[i := rel']);
    assert Simulate(w, meta, BackendCall("relation_set", RelationSetArgs(rel.id, key, value, isApp), kwargs), changeId)
        == (Success(NoneReply), w');
    FindRelationAfterUpdate(w.relations, i, rel', rel.id);
  }

  /** An app-scoped `relation_set` without leadership is refused as a "setting" error and writes nothing. */
  lemma RelationSetNeedsLeadership(w: World, meta: SceneMeta, i: nat, key: string, value: string, kwargs: map<string, bool>, changeId: int)
    requires i < |w.relations|
    requires !w.leader
    ensures Simulate(w, meta, BackendCall("relation_set", RelationSetArgs(w.relations[i].id, key, value, true), kwargs), changeId)
         == (Failure(StateError(Setting, BackendNamespace, "relation_set", NeedsLeadership)), w)
  {
    assert FindRelation(w.relations, w.relations[i].id).Some?;
  }

  /** A non-empty configuration in the state is what `config_get` reads, whole or by key. */
  lemma ConfigGetFromState(w: World, meta: SceneMeta, key: string, kwargs: map<string, bool>, changeId: int)
    requires w.config != map[]
    ensures Simulate(w, meta, BackendCall("config_get", NoArgs, kwargs), changeId) == (Success(ConfigMap(w.config)), w)
    ensures Simulate(w, meta, BackendCall("config_get", KeyArg(key), kwargs), changeId)
         == (if key in w.config then Success(ConfigValue(w.config[key]))
             else Failure(StateError(Getting, BackendNamespace, "config_get", KeyMissing)), w)
  {
  }

  /**
   * With an empty configuration, `config_get` reads the schema defaults: a declared option
   * without a default reads as `None`, an undeclared key is a wrapped `KeyError`, and with
   * no schema at all the call fails.
   */
  lemma ConfigGetDefaults(w: World, meta: SceneMeta, key: string, kwargs: map<string, bool>, changeId: int)
    requires w.config == map[]
    ensures var r := Simulate(w, meta, BackendCall("config_get", KeyArg(key), kwargs), changeId).0;
      match meta.charmConfig
      case None => r == Failure(StateError(Getting, BackendNamespace, "config_get", NoCharmConfig))
      case Some(schema) =>
        if key in schema then r == Success(ConfigValue(schema[key].default.GetOr(Null)))
        else r == Failure(StateError(Getting, BackendNamespace, "config_get", KeyMissing))
    ensures meta.charmConfig.Some? ==>
      var r := Simulate(w, meta, BackendCall("config_get", NoArgs, kwargs), changeId).0;
      r.Success? && r.value.ConfigMap? && r.value.config.Keys == meta.charmConfig.value.Keys
  {
    if meta.charmConfig.Some? {
      var schema := meta.charmConfig.value;
      var cfg := map k | k in schema :: schema[k].default.GetOr(Null);
      assert EffectiveConfig(w, meta) == Success(cfg);
      assert cfg.Keys == schema.Keys;
    }
  }

  /** `is_leader` reads the leadership flag, and that flag alone decides whether app data may be written. */
  lemma IsLeaderGuardsAppData(w: World, meta: SceneMeta, i: nat, key: string, value: string, args: Args,
                              kwargs: map<string, bool>, changeId: int)
    requires i < |w.relations|
    ensures Simulate(w, meta, BackendCall("is_leader", args, kwargs), changeId) == (Success(Flag(w.leader)), w)
    ensures Simulate(w, meta, BackendCall("relation_set", RelationSetArgs(w.relations[i].id, key, value, true), kwargs), changeId).0.Success?
        <==> w.leader
  {
    assert FindRelation(w.relations, w.relations[i].id).Some?;
  }

  /**
   * `status_set` writes the app or unit status pair as `is_app` says and nothing else;
   * `status_get` of the same scope then returns the pair written. The two tools read
   * different keywords: the setter `is_app`, the getter `app`.
   */
  lemma StatusSetThenGet(w: World, meta: SceneMeta, status: string, message: string, args: Args,
                         setKwargs: map<string, bool>, getKwargs: map<string, bool>, changeId: int)
    requires KwFlag(getKwargs, "app") == KwFlag(setKwargs, "is_app")
    ensures var (r, w') := Simulate(w, meta, BackendCall("status_set", StatusSetArgs(status, message), setKwargs), changeId);
      r == Success(NoneReply) &&
      w' == w.(status := w'.status) &&
      w'.status.appVersion == w.status.appVersion &&
      (if KwFlag(setKwargs, "is_app")
       then w'.status.app == StatusPair(status, message) && w'.status.unit == w.status.unit
       else w'.status.unit == StatusPair(status, message) && w'.status.app == w.status.app) &&
      Simulate(w', meta, BackendCall("status_get", args, getKwargs), changeId) == (Success(StatusReply(status, message)), w')
  {
  }

  /** `application_version_set` writes the app version and nothing else, so `status_get` reads as before. */
  lemma ApplicationVersionSet(w: World, meta: SceneMeta, version: string, args: Args,
                              kwargs: map<string, bool>, getKwargs: map<string, bool>, changeId: int)
    ensures var (r, w') := Simulate(w, meta, BackendCall("application_version_set", VersionArg(version), kwargs), changeId);
      r == Success(NoneReply) &&
      w' == w.(status := w.status.(appVersion := version)) &&
      Simulate(w', meta, BackendCall("status_get", args, getKwargs), changeId).0
        == Simulate(w, meta, BackendCall("status_get", args, getKwargs), changeId).0
  {
  }

  /** `juju_log` appends its arguments to the log and changes nothing else. */
  lemma JujuLogAppends(w: World, meta: SceneMeta, level: string, message: string, kwargs: map<string, bool>, changeId: int)
    ensures Simulate(w, meta, BackendCall("juju_log", JujuLogArgs(level, message), kwargs), changeId)
         == (Success(NoneReply), w.(jujuLog := w.jujuLog + [LogEntry(level, message)]))
  {
  }

  /** The world after one `juju_log` call per entry, in order. */
  function LogAll(w: World, meta: SceneMeta, entries: seq<LogEntry>, kwargs: map<string, bool>, changeId: int): World
    decreases |entries|
  {
    if entries == [] then w
    else
      var last := entries[|entries| - 1];
      Simulate(LogAll(w, meta, entries[..|entries| - 1], kwargs, changeId), meta,
               BackendCall("juju_log", JujuLogArgs(last.level, last.message), kwargs), changeId).1
  }

  /** A run of `juju_log` calls leaves exactly its entries at the end of the log, in call order. */
  lemma {:induction false} JujuLogInOrder(w: World, meta: SceneMeta, entries: seq<LogEntry>, kwargs: map<string, bool>, changeId: int)
    ensures LogAll(w, meta, entries, kwargs, changeId) == w.(jujuLog := w.jujuLog + entries)
    decreases |entries|
  {
    if entries != [] {
      var init := entries[..|entries| - 1];
      var last := entries[|entries| - 1];
      JujuLogInOrder(w, meta, init, kwargs, changeId);
      JujuLogAppends(LogAll(w, meta, init, kwargs, changeId), meta, last.level, last.message, kwargs, changeId);
      assert entries == init + [LogEntry(last.level, last.message)];
      assert (w.jujuLog + init) + [LogEntry(last.level, last.message)] == w.jujuLog + entries;
    }
  }

  /**
   * `relation_ids` lists the id of every relation, in order; an id is listed exactly when
   * `relation_list` finds a relation for it, and any other id is a wrapped error there.
   */
  lemma RelationIdsThenList(w: World, meta: SceneMeta, id: int, args: Args, kwargs: map<string, bool>, changeId: int)
    ensures var (r, w') := Simulate(w, meta, BackendCall("relation_ids", args, kwargs), changeId);
      w' == w && r.Success? && r.value.RelationIds? &&
      |r.value.ids| == |w.relations| &&
      (forall k :: 0 <= k < |w.relations| ==> r.value.ids[k] == w.relations[k].id) &&
      (id in r.value.ids ==>
        Simulate(w, meta, BackendCall("relation_list", RelationIdArg(id), kwargs), changeId).0.Success?) &&
      (id !in r.value.ids ==>
        Simulate(w, meta, BackendCall("relation_list", RelationIdArg(id), kwargs), changeId).0
          == Failure(StateError(Getting, BackendNamespace, "relation_list", NoMatch)))
  {
    var ids := seq(|w.relations|, k requires 0 <= k < |w.relations| => w.relations[k].id);
    assert Simulate(w, meta, BackendCall("relation_ids", args, kwargs), changeId) == (Success(RelationIds(ids)), w);
    if id in ids {
      var k :| 0 <= k < |ids| && ids[k] == id;
      assert w.relations[k].id == id;
      assert FindRelation(w.relations, id).Some?;
    } else {
      forall k | 0 <= k < |w.relations|
        ensures w.relations[k].id != id
      {
        assert ids[k] == w.relations[k].id;
      }
      assert FindRelation(w.relations, id).None?;
    }
  }

  /** `network_get` answers from the first network bound to the name, whatever relation id is passed. */
  lemma NetworkGetFirstNamed(w: World, meta: SceneMeta, i: nat, relationId: Option<int>, kwargs: map<string, bool>, changeId: int)
    requires i < |w.networks|
    requires forall j :: 0 <= j < i ==> w.networks[j].name != w.networks[i].name
    ensures Simulate(w, meta, BackendCall("network_get", NetworkGetArgs(w.networks[i].name, relationId), kwargs), changeId)
         == (Success(NetworkReply(w.networks[i].data)), w)
  {
    assert FindNetwork(w.networks, w.networks[i].name) == Some(i);
  }

  /** `network_get` of a name no network has is a wrapped "getting" error. */
  lemma NetworkGetUnknown(w: World, meta: SceneMeta, binding: string, relationId: Option<int>, kwargs: map<string, bool>, changeId: int)
    requires forall j :: 0 <= j < |w.networks| ==> w.networks[j].name != binding
    ensures Simulate(w, meta, BackendCall("network_get", NetworkGetArgs(binding, relationId), kwargs), changeId)
         == (Failure(StateError(Getting, BackendNamespace, "network_get", NoMatch)), w)
  {
    assert FindNetwork(w.networks, binding).None?;
  }

  /** A named but unsupported backend tool is a wrapped `NotImplementedError`, getting or setting as named. */
  lemma UnsupportedToolsWrapped(w: World, meta: SceneMeta, tool: string, args: Args, kwargs: map<string, bool>, changeId: int)
    requires tool in UnsupportedGetters || tool in UnsupportedSetters
    ensures Simulate(w, meta, BackendCall(tool, args, kwargs), changeId)
         == (Failure(StateError(if tool in UnsupportedGetters then Getting else Setting, BackendNamespace, tool, NotImplemented(tool))), w)
  {
    assert tool !in GetterTools && tool !in SetterTools;
  }

  /** A backend tool that matches no branch falls out of the `try`: the error is not wrapped. */
  lemma UnmatchedBackendTool(w: World, meta: SceneMeta, tool: string, args: Args, kwargs: map<string, bool>, changeId: int)
    requires tool !in GetterTools && tool !in UnsupportedGetters && tool !in SetterTools && tool !in UnsupportedSetters
    ensures Simulate(w, meta, BackendCall(tool, args, kwargs), changeId)
         == (Failure(QuestionNotImplemented(BackendNamespace, tool)), w)
  {
  }

  /** An unknown namespace raises inside the `try`, so it is wrapped as a "getting" error. */
  lemma UnknownNamespaceWrapped(w: World, meta: SceneMeta, call: Call, changeId: int)
    requires call.namespace != BackendNamespace && call.namespace != ClientNamespace
    ensures Simulate(w, meta, call, changeId)
         == (Failure(StateError(Getting, call.namespace, call.tool, UnknownNamespace(call.namespace))), w)
  {
  }

  /** A container socket path `<prefix>/<name>/<file>` names the container `name`. */
  lemma SocketPathNamesContainer(w: World, prefix: string, name: string, file: string, call: Call)
    requires '/' !in name && '/' !in file
    requires call.socketPath == prefix + "/" + name + "/" + file
    ensures ContainerOf(w, call) == match FindContainer(w.containers, name)
      case None => Failure(ContainerNotFound(name))
      case Some(ci) => Success(ci)
  {
    var tail := name + "/" + file;
    assert call.socketPath == prefix + ['/'] + tail;
    assert tail == name + ['/'] + file;
    SplitAround(prefix, '/', tail);
    SplitAround(name, '/', file);
    SplitWithoutSep(name, '/');
    SplitWithoutSep(file, '/');
    var parts := Split(call.socketPath, '/');
    assert parts == Split(prefix, '/') + [name] + [file];
    assert parts[|parts| - 2] == name;
  }

  /** Every client call on a container that is not in the state is a wrapped "getting" error. */
  lemma MissingContainerWrapped(w: World, meta: SceneMeta, call: Call, changeId: int)
    requires call.namespace == ClientNamespace
    requires ContainerOf(w, call).Failure?
    ensures Simulate(w, meta, call, changeId)
         == (Failure(StateError(Getting, ClientNamespace, call.tool, ContainerOf(w, call).error)), w)
  {
  }

  /** A client call on container `ci`. */
  function ClientCall(tool: string, socketPath: string, args: Args, kwargs: map<string, bool>): Call {
    Call(ClientNamespace, tool, socketPath, args, kwargs)
  }

  /** The system-info probe answers exactly when the container can connect; otherwise it raises unwrapped. */
  lemma SystemInfoIffCanConnect(w: World, meta: SceneMeta, socketPath: string, kwargs: map<string, bool>, changeId: int, ci: nat)
    requires ContainerOf(w, ClientCall("_request", socketPath, NoArgs, kwargs)) == Success(ci)
    ensures var (r, w') := Simulate(w, meta, ClientCall("_request", socketPath, RequestArgs("GET", "/v1/system-info", None), kwargs), changeId);
      w' == w &&
      (r.Success? <==> w.containers[ci].canConnect) &&
      (r.Success? ==> r.value == SystemInfo("unknown")) &&
      (r.Failure? ==> r.error == ConnectionRefused)
  {
    assert ContainerOf(w, ClientCall("_request", socketPath, RequestArgs("GET", "/v1/system-info", None), kwargs)) == Success(ci);
  }

  /** Any request other than the system-info probe and the services listing is a wrapped `NotImplementedError`. */
  lemma OtherRequestsNotImplemented(w: World, meta: SceneMeta, socketPath: string, httpMethod: string, path: string,
                                    query: Option<map<string, string>>, kwargs: map<string, bool>, changeId: int)
    requires ContainerOf(w, ClientCall("_request", socketPath, NoArgs, kwargs)).Success?
    requires httpMethod != "GET" || (path != "/v1/system-info" && path != "/v1/services") || (path == "/v1/system-info" && query.Some?)
    ensures Simulate(w, meta, ClientCall("_request", socketPath, RequestArgs(httpMethod, path, query), kwargs), changeId)
         == (Failure(StateError(Getting, ClientNamespace, "_request", NotImplemented("_request"))), w)
  {
    assert ContainerOf(w, ClientCall("_request", socketPath, RequestArgs(httpMethod, path, query), kwargs))
        == ContainerOf(w, ClientCall("_request", socketPath, NoArgs, kwargs));
  }

  /** `def` is the definition of a requested name in the first layer that declares it. */
  predicate FromFirstDeclaring(layers: seq<Layer>, names: seq<string>, def: ServiceDef) {
    exists n :: n in names && FirstDeclaring(layers, n, 0).Some? && def == layers[FirstDeclaring(layers, n, 0).value][n]
  }

  /**
   * The intended listing holds exactly the definitions of the requested names that some layer
   * declares, each taken from the first layer that declares it.
   */
  lemma ListIntendedFirstLayer(layers: seq<Layer>, names: seq<string>)
    ensures forall d :: d in ListIntended(layers, names) ==> FromFirstDeclaring(layers, names, d)
    ensures forall n :: n in names && FirstDeclaring(layers, n, 0).Some? ==>
      layers[FirstDeclaring(layers, n, 0).value][n] in ListIntended(layers, names)
  {
    var hits := ScanIntended(layers, names, 0);
    ScanIntendedValid(layers, names, 0);
    ScanIntendedMembers(layers, names, 0);
    DefinitionsMembers(layers, hits);
    assert ListIntended(layers, names) == Definitions(layers, hits);
    forall d | d in ListIntended(layers, names)
      ensures FromFirstDeclaring(layers, names, d)
    {
      var h :| h in hits && d == layers[h.layer][h.name];
      ScanIntendedFindsFirst(layers, names, 0, h.name);
    }
    forall n | n in names && FirstDeclaring(layers, n, 0).Some?
      ensures layers[FirstDeclaring(layers, n, 0).value][n] in ListIntended(layers, names)
    {
      ScanIntendedFindsFirst(layers, names, 0, n);
    }
  }

  /**
   * The services listing answers with the intended listing of the requested names; without
   * a query or without a `names` key it is a wrapped error.
   */
  lemma ServicesListing(w: World, meta: SceneMeta, socketPath: string, query: Option<map<string, string>>,
                        kwargs: map<string, bool>, changeId: int, ci: nat)
    requires ContainerOf(w, ClientCall("_request", socketPath, NoArgs, kwargs)) == Success(ci)
    ensures var (r, w') := Simulate(w, meta, ClientCall("_request", socketPath, RequestArgs("GET", "/v1/services", query), kwargs), changeId);
      w' == w &&
      (query.None? ==> r == Failure(StateError(Getting, ClientNamespace, "_request", IndexOutOfRange))) &&
      (query.Some? && "names" !in query.value ==> r == Failure(StateError(Getting, ClientNamespace, "_request", KeyMissing))) &&
      (query.Some? && "names" in query.value ==>
        r == Success(ServiceList(ListIntended(w.containers[ci].layers, Split(query.value["names"], ',')))))
  {
    assert ContainerOf(w, ClientCall("_request", socketPath, RequestArgs("GET", "/v1/services", query), kwargs)) == Success(ci);
  }

  /** `exec` returns a process bound to the canned output of exactly that command, or a wrapped error. */
  lemma ExecLookup(w: World, meta: SceneMeta, socketPath: string, cmd: seq<string>, kwargs: map<string, bool>, changeId: int, ci: nat)
    requires ContainerOf(w, ClientCall("exec", socketPath, NoArgs, kwargs)) == Success(ci)
    ensures var (r, w') := Simulate(w, meta, ClientCall("exec", socketPath, ExecArgs(cmd), kwargs), changeId);
      w' == w &&
      (cmd in w.containers[ci].execMock ==> r == Success(Spawned(cmd, changeId, w.containers[ci].execMock[cmd]))) &&
      (cmd !in w.containers[ci].execMock ==> r == Failure(StateError(Getting, ClientNamespace, "exec", ExecMockNotFound(cmd))))
  {
    assert ContainerOf(w, ClientCall("exec", socketPath, ExecArgs(cmd), kwargs)) == Success(ci);
  }

  /** `pull` and `push` re-raise what they raise: past the container lookup, no error of theirs is wrapped. */
  lemma PullPushUnwrapped(w: World, meta: SceneMeta, call: Call, changeId: int)
    requires call.namespace == ClientNamespace && (call.tool == "pull" || call.tool == "push")
    requires ContainerOf(w, call).Success?
    ensures var r := Simulate(w, meta, call, changeId).0;
      r.Failure? ==> !r.error.StateError? && !r.error.QuestionNotImplemented?
  {
  }

  /** Replacing a container by one with the same name leaves every name lookup where it was. */
  lemma FindContainerAfterUpdate(cs: seq<Container>, ci: nat, c: Container, name: string)
    requires ci < |cs| && c.name == cs[ci].name
    ensures FindContainer(cs[ci := c], name) == FindContainer(cs, name)
  {
    assert forall j :: 0 <= j < |cs| ==> cs[ci := c][j].name == cs[j].name;
  }

  /** What a successful `push` did: the walk ended on a directory, and the world gained the file and its binding. */
  lemma PushSucceeded(w: World, meta: SceneMeta, call: Call, changeId: int)
    requires call.namespace == ClientNamespace && call.tool == "push"
    requires Simulate(w, meta, call, changeId).0.Success?
    ensures ContainerOf(w, call).Success? && call.args.PushArgs?
    ensures var ci := ContainerOf(w, call).value;
      var c := w.containers[ci];
      var tokens := PathTokens(call.args.path);
      var h := w.nextFile;
      tokens != [] &&
      PushPlan(Dir(c.filesystem), tokens[..|tokens| - 1], MakeDirs(call.kwargs)) == Success(AtDir) &&
      Simulate(w, meta, call, changeId).1 ==
        w.(files := w.files[h := call.args.contents], nextFile := h + 1,
           containers := w.containers[ci := c.(filesystem := Bind(c.filesystem, tokens[..|tokens| - 1], tokens[|tokens| - 1], File(h)))])
  {
  }

  /**
   * A successful `push` leaves every other container as it was, and in its own container every
   * path that is neither a prefix nor an extension of the pushed path resolves as before.
   */
  lemma PushKeepsOtherPaths(w: World, meta: SceneMeta, call: Call, changeId: int, p: seq<string>)
    requires call.namespace == ClientNamespace && call.tool == "push" && call.args.PushArgs?
    requires Simulate(w, meta, call, changeId).0.Success?
    requires !(p <= PathTokens(call.args.path)) && !(PathTokens(call.args.path) <= p)
    ensures ContainerOf(w, call).Success?
    ensures var w' := Simulate(w, meta, call, changeId).1;
      var ci := ContainerOf(w, call).value;
      |w'.containers| == |w.containers| &&
      (forall j :: 0 <= j < |w.containers| && j != ci ==> w'.containers[j] == w.containers[j]) &&
      w'.containers[ci].name == w.containers[ci].name &&
      Resolve(Dir(w'.containers[ci].filesystem), p) == Resolve(Dir(w.containers[ci].filesystem), p)
  {
    PushSucceeded(w, meta, call, changeId);
    var ci := ContainerOf(w, call).value;
    var c := w.containers[ci];
    var tokens := PathTokens(call.args.path);
    ButLastThenLast(tokens);
    BindFrame(c.filesystem, tokens[..|tokens| - 1], tokens[|tokens| - 1], File(w.nextFile), MakeDirs(call.kwargs), p);
  }

  /** A `pull` whose walk reaches a stored backing file opens that file's contents. */
  lemma PullReaches(w: World, meta: SceneMeta, call: Call, changeId: int, ci: nat, h: Handle)
    requires call.namespace == ClientNamespace && call.tool == "pull" && call.args.PullArgs?
    requires ContainerOf(w, call) == Success(ci)
    requires Resolve(Dir(w.containers[ci].filesystem), PathTokens(call.args.path)) == Success(File(h))
    requires h in w.files
    ensures Simulate(w, meta, call, changeId) == (Success(Opened(w.files[h])), w)
  {
  }

  /**
   * Every way a `pull` can fail past the container lookup, each unwrapped and changing
   * nothing: a missing or empty segment is `FileNotFoundError` for the path, a segment
   * looked up in a file is the `AttributeError`, a directory at the end is the `TypeError`
   * of `Path`, and a backing file that is gone is `FileNotFoundError` for the local path.
   */
  lemma PullFails(w: World, meta: SceneMeta, call: Call, changeId: int, ci: nat)
    requires call.namespace == ClientNamespace && call.tool == "pull" && call.args.PullArgs?
    requires ContainerOf(w, call) == Success(ci) && ci < |w.containers|
    ensures var reached := Resolve(Dir(w.containers[ci].filesystem), PathTokens(call.args.path));
      reached == Failure(Missing) ==> Simulate(w, meta, call, changeId) == (Failure(PathNotFound(call.args.path)), w)
    ensures var reached := Resolve(Dir(w.containers[ci].filesystem), PathTokens(call.args.path));
      reached == Failure(ThroughFile) ==> Simulate(w, meta, call, changeId) == (Failure(Raw(NotADirectory)), w)
    ensures var reached := Resolve(Dir(w.containers[ci].filesystem), PathTokens(call.args.path));
      reached.Success? && reached.value.Dir? ==> Simulate(w, meta, call, changeId) == (Failure(Raw(NotAFile)), w)
    ensures var reached := Resolve(Dir(w.containers[ci].filesystem), PathTokens(call.args.path));
      reached.Success? && reached.value.File? && reached.value.handle !in w.files ==>
        Simulate(w, meta, call, changeId) == (Failure(BackingFileMissing(reached.value.handle)), w)
  {
  }

  /** Containers keep their names through a push, so the socket path still names the same one. */
  lemma ContainerOfAfterPush(w: World, ci: nat, c: Container, call: Call)
    requires ci < |w.containers| && c.name == w.containers[ci].name
    ensures ContainerOf(w.(containers := w.containers[ci := c]), call) == ContainerOf(w, call)
  {
    var parts := Split(call.socketPath, '/');
    if |parts| >= 2 {
      FindContainerAfterUpdate(w.containers, ci, c, parts[|parts| - 2]);
    }
  }

  /**
   * A successful `push` of `contents` to `path` is read back by `pull` of the same path:
   * the walk reaches the new file and its backing file holds `contents`.
   */
  lemma PushThenPull(w: World, meta: SceneMeta, push: Call, pull: Call, changeId: int)
    requires push.namespace == ClientNamespace && push.tool == "push" && push.args.PushArgs?
    requires pull.namespace == ClientNamespace && pull.tool == "pull" && pull.socketPath == push.socketPath
    requires pull.args == PullArgs(push.args.path)
    requires Simulate(w, meta, push, changeId).0.Success?
    ensures var w' := Simulate(w, meta, push, changeId).1;
      Simulate(w', meta, pull, changeId) == (Success(Opened(push.args.contents)), w')
  {
    PushSucceeded(w, meta, push, changeId);
    var ci := ContainerOf(w, push).value;
    var w' := PushedWorld(w, push, ci);
    PushedFileReachable(w, push, pull, ci);
    PullReaches(w', meta, pull, changeId, ci, w.nextFile);
  }

  lemma ButLastThenLast(s: seq<string>)
    requires s != []
    ensures s[..|s| - 1] + [s[|s| - 1]] == s
  {
  }

  /** The world after a push of `push.args.contents` into container `ci` along the walk of its path. */
  function PushedWorld(w: World, push: Call, ci: nat): World
    requires push.args.PushArgs? && ci < |w.containers| && PathTokens(push.args.path) != []
  {
    var tokens := PathTokens(push.args.path);
    var c := w.containers[ci];
    var h := w.nextFile;
    w.(files := w.files[h := push.args.contents], nextFile := h + 1,
       containers := w.containers[ci := c.(filesystem := Bind(c.filesystem, tokens[..|tokens| - 1], tokens[|tokens| - 1], File(h)))])
  }

  /** After a successful push, the pull of the same path walks to the new backing file, which holds the contents. */
  lemma PushedFileReachable(w: World, push: Call, pull: Call, ci: nat)
    requires push.args.PushArgs? && pull.socketPath == push.socketPath && pull.args == PullArgs(push.args.path)
    requires ContainerOf(w, push) == Success(ci) && ci < |w.containers|
    requires PathTokens(push.args.path) != []
    requires var tokens := PathTokens(push.args.path);
      PushPlan(Dir(w.containers[ci].filesystem), tokens[..|tokens| - 1], MakeDirs(push.kwargs)) == Success(AtDir)
    ensures var w' := PushedWorld(w, push, ci);
      ContainerOf(w', pull) == Success(ci) && ci < |w'.containers| &&
      Resolve(Dir(w'.containers[ci].filesystem), PathTokens(pull.args.path)) == Success(File(w.nextFile)) &&
      w.nextFile in w'.files && w'.files[w.nextFile] == push.args.contents
  {
    var c := w.containers[ci];
    var tokens := PathTokens(push.args.path);
    var dirs := tokens[..|tokens| - 1];
    var name := tokens[|tokens| - 1];
    var h := w.nextFile;
    var c' := c.(filesystem := Bind(c.filesystem, dirs, name, File(h)));
    var stored := w.(files := w.files[h := push.args.contents], nextFile := h + 1);
    var w' := stored.(containers := w.containers[ci := c']);
    assert PushedWorld(w, push, ci) == w';
    BindThenResolve(c.filesystem, dirs, name, File(h), MakeDirs(push.kwargs));
    ButLastThenLast(tokens);
    ContainerOfAfterPush(stored, ci, c', pull);
    ContainerOfSamePath(stored, w, pull, push);
  }

  /** The container lookup reads only the containers and the socket path. */
  lemma ContainerOfSamePath(w: World, v: World, call: Call, other: Call)
    requires w.containers == v.containers && call.socketPath == other.socketPath
    ensures ContainerOf(w, call) == ContainerOf(v, other)
  {
  }

  /**
   * Without `make_dirs`, a `push` into an intermediate directory that is missing raises
   * `FileNotFoundError` for the path, unwrapped, and changes nothing.
   */
  lemma PushWithoutMakeDirsMissing(w: World, meta: SceneMeta, socketPath: string, path: string, contents: string,
                                   kwargs: map<string, bool>, changeId: int, ci: nat)
    requires ContainerOf(w, ClientCall("push", socketPath, NoArgs, kwargs)) == Success(ci)
    requires MakeDirs(kwargs) == Some(false)
    requires |PathTokens(path)| >= 1
    requires Resolve(Dir(w.containers[ci].filesystem), PathTokens(path)[..|PathTokens(path)| - 1]) == Failure(Missing)
    ensures Simulate(w, meta, ClientCall("push", socketPath, PushArgs(path, contents), kwargs), changeId)
         == (Failure(PathNotFound(path)), w)
  {
    assert ContainerOf(w, ClientCall("push", socketPath, PushArgs(path, contents), kwargs)) == Success(ci);
    var tokens := PathTokens(path);
    PushWalkWithoutMakeDirs(Dir(w.containers[ci].filesystem), tokens[..|tokens| - 1]);
  }

  /** With `make_dirs`, a `push` never fails for a missing directory or for the unset keyword. */
  lemma PushWithMakeDirsNeverMissing(w: World, meta: SceneMeta, socketPath: string, path: string, contents: string,
                                     kwargs: map<string, bool>, changeId: int)
    requires MakeDirs(kwargs) == Some(true)
    ensures var r := Simulate(w, meta, ClientCall("push", socketPath, PushArgs(path, contents), kwargs), changeId).0;
      r != Failure(PathNotFound(path)) && r != Failure(Raw(KeyMissing))
  {
    var call := ClientCall("push", socketPath, PushArgs(path, contents), kwargs);
    if ContainerOf(w, call).Success? {
      var ci := ContainerOf(w, call).value;
      var tokens := PathTokens(path);
      var dirs := if tokens == [] then [] else tokens[..|tokens| - 1];
      PushWalkWithMakeDirs(Dir(w.containers[ci].filesystem), dirs);
    }
  }

  /** A setter never touches the store of backing files, and only a supported setter changes anything. */
  lemma SetterChanges(w: World, call: Call)
    ensures var w' := Setter(w, call).1;
      w'.files == w.files && w'.nextFile == w.nextFile &&
      w'.containers == w.containers &&
      (w' != w ==> call.tool in SetterTools)
  {
  }

  /** A push keeps every backing file already stored and the store's handles fresh. */
  lemma PushChanges(w: World, ci: nat, call: Call)
    requires ci < |w.containers| && StoreValid(w)
    ensures var w' := Push(w, ci, call).1;
      StoreValid(w') &&
      (forall h :: h in w.files ==> h in w'.files && w'.files[h] == w.files[h])
  {
  }

  /** On the client side only `push` changes the world. */
  lemma ClientChanges(w: World, call: Call, changeId: int)
    requires StoreValid(w)
    ensures var w' := SimulateClient(w, call, changeId).1;
      StoreValid(w') &&
      (w' != w ==> call.tool == "push") &&
      (forall h :: h in w.files ==> h in w'.files && w'.files[h] == w.files[h])
  {
    if ContainerOf(w, call).Success? && call.tool == "push" {
      PushChanges(w, ContainerOf(w, call).value, call);
    }
  }

  /**
   * Only the backend setters and `push` change the world; a push never overwrites a
   * backing file already stored and keeps the store's handles fresh.
   */
  lemma WorldChanges(w: World, meta: SceneMeta, call: Call, changeId: int)
    requires StoreValid(w)
    ensures var w' := Simulate(w, meta, call, changeId).1;
      StoreValid(w') &&
      (w' != w ==> (call.namespace == BackendNamespace && call.tool in SetterTools) ||
                   (call.namespace == ClientNamespace && call.tool == "push")) &&
      (forall h :: h in w.files ==> h in w'.files && w'.files[h] == w.files[h]) &&
      (call.namespace != ClientNamespace ==> w'.files == w.files && w'.nextFile == w.nextFile)
  {
    if call.namespace == BackendNamespace {
      SetterChanges(w, call);
      assert Simulate(w, meta, call, changeId) == SimulateBackend(w, meta, call);
    } else if call.namespace == ClientNamespace {
      ClientChanges(w, call, changeId);
      assert Simulate(w, meta, call, changeId) == SimulateClient(w, call, changeId);
    }
  }

  /** Outside the container client nothing clears `wrap_errors`: every failure there is a `StateError`. */
  lemma NonClientFailuresAreStateErrors(w: World, meta: SceneMeta, call: Call, changeId: int)
    requires call.namespace != ClientNamespace
    ensures var r := Simulate(w, meta, call, changeId).0;
      r.Failure? ==> IsStateError(r.error)
  {
  }
}
