/**
 * The simulated world a backend call reads and changes: the scene's state (leadership,
 * status, diagnostic log, relations, containers, networks, configuration) and the static
 * charm metadata, together with the store of backing files that stands in for the
 * temporary files a container push writes.
 */
module SceneModel {
  import opened Wrappers
  import opened Values

  /** A workload status as the pair (status name, message). */
  datatype StatusPair = StatusPair(name: string, message: string)

  datatype Status = Status(app: StatusPair, unit: StatusPair, appVersion: string)

  /** The positional arguments of one `juju_log` call. */
  datatype LogEntry = LogEntry(level: string, message: string)

  type RelationData = map<string, string>

  /** A relation: its static metadata and its four data mappings. */
  datatype Relation = Relation(
    id: int,
    remoteAppName: string,
    remoteUnitIds: seq<int>,
    localAppData: RelationData,
    localUnitData: RelationData,
    remoteAppData: RelationData,
    remoteUnitsData: map<int, RelationData>)

  /** Name of a backing file: the stand-in for the path of a temporary file. */
  type Handle = nat

  /**
   * A container filesystem entry: a directory (a nested mapping from path segment to
   * entry) or a file, which is bound to a backing file.
   */
  datatype Node = Dir(entries: map<string, Node>) | File(handle: Handle)

  /** Python truthiness of an entry: only an empty directory mapping is falsy. */
  predicate Truthy(n: Node) {
    n != Dir(map[])
  }

  /** The canned result of executing a command in a container. */
  datatype ExecOutput = ExecOutput(returnCode: int, stdout: string, stderr: string)

  /** A service definition of a layer, kept as its raw key/value fields. */
  type ServiceDef = map<string, string>

  /** The `services` mapping of one layer: service name to its definition. */
  type Layer = map<string, ServiceDef>

  datatype Container = Container(
    name: string,
    canConnect: bool,
    layers: seq<Layer>,
    execMock: map<seq<string>, ExecOutput>,
    filesystem: map<string, Node>)

  datatype BindAddress = BindAddress(interfaceName: string, addresses: seq<string>)

  /** A network binding's data; how it is rendered for the hook tool is not modelled. */
  datatype NetworkData = NetworkData(
    bindAddresses: seq<BindAddress>,
    egressSubnets: seq<string>,
    ingressAddresses: seq<string>)

  datatype Network = Network(name: string, data: NetworkData)

  /** One option of the charm's declared config schema. */
  datatype OptionSchema = OptionSchema(default: Option<Value>)

  /**
   * What the scene knows about the charm: its unit and app names and its config schema
   * (`None` when no charm spec, or no config in it, was given).
   */
  datatype SceneMeta = SceneMeta(
    unitName: string,
    appName: string,
    charmConfig: Option<map<string, OptionSchema>>)

  /**
   * The state a simulated call reads and changes. `files` and `nextFile` are the backing
   * store: the contents of every temporary file a push wrote, and the next unused handle.
   */
  datatype World = World(
    leader: bool,
    status: Status,
    jujuLog: seq<LogEntry>,
    relations: seq<Relation>,
    containers: seq<Container>,
    networks: seq<Network>,
    config: map<string, Value>,
    files: map<Handle, string>,
    nextFile: Handle)

  /** Every backing file in use has a handle below `nextFile`, so `nextFile` is always fresh. */
  predicate StoreValid(w: World) {
    forall h :: h in w.files ==> h < w.nextFile
  }

  /** The index of the first element of `s` satisfying `p`: Python's `next(filter(p, s))`. */
  function FindFirst<T>(s: seq<T>, p: T -> bool): (r: Option<nat>)
    ensures r.Some? ==> r.value < |s| && p(s[r.value])
    ensures r.Some? ==> forall j :: 0 <= j < r.value ==> !p(s[j])
    ensures r.None? ==> forall j :: 0 <= j < |s| ==> !p(s[j])
  {
    FindFrom(s, p, 0)
  }

  function FindFrom<T>(s: seq<T>, p: T -> bool, k: nat): (r: Option<nat>)
    requires k <= |s|
    ensures r.Some? ==> k <= r.value < |s| && p(s[r.value])
    ensures r.Some? ==> forall j :: k <= j < r.value ==> !p(s[j])
    ensures r.None? ==> forall j :: k <= j < |s| ==> !p(s[j])
    decreases |s| - k
  {
    if k == |s| then None
    else if p(s[k]) then Some(k)
    else FindFrom(s, p, k + 1)
  }

  function FindRelation(rels: seq<Relation>, id: int): Option<nat> {
    FindFirst(rels, (r: Relation) => r.id == id)
  }

  function FindContainer(cs: seq<Container>, name: string): Option<nat> {
    FindFirst(cs, (c: Container) => c.name == name)
  }

  function FindNetwork(ns: seq<Network>, name: string): Option<nat> {
    FindFirst(ns, (n: Network) => n.name == name)
  }
}
