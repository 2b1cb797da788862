/**
 * The interception layer as objects: the scene whose state the simulator reads and updates
 * in place, the fake process handle `exec` returns, and the wrapper that calls the simulator
 * and then logs the call. Each state-changing method is proved to do what `Simulator.Simulate`
 * says of the scene's state before the call.
 */
module Mocking {
  import opened Wrappers
  import opened Values
  import opened SceneModel
  import opened Filesystem
  import opened Simulator

  /** The failure a non-zero exit code raises: the command and its exit code. */
  datatype ProcessError = ProcessFailed(command: seq<string>, exitCode: int)

  /** The process handle `exec` returns, bound to a command's canned output. */
  class MockExecProcess {
    const command: seq<string>
    const changeId: int
    const out: ExecOutput
    const stdout: string
    const stderr: string
    var waited: bool

    constructor (command: seq<string>, changeId: int, out: ExecOutput)
      ensures this.command == command && this.changeId == changeId && this.out == out
      ensures stdout == out.stdout && stderr == out.stderr
      ensures !waited
    {
      this.command := command;
      this.changeId := changeId;
      this.out := out;
      this.stdout := out.stdout;
      this.stderr := out.stderr;
      this.waited := false;
    }

    /** Marks the process as waited for, then fails exactly when the exit code is non-zero. */
    method Wait() returns (r: Option<ProcessError>)
      modifies this
      ensures waited
      ensures r.Some? <==> out.returnCode != 0
      ensures r.Some? ==> r.value == ProcessFailed(command, out.returnCode)
    {
      waited := true;
      if out.returnCode != 0 {
        return Some(ProcessFailed(command, out.returnCode));
      }
      return None;
    }

    /** Fails exactly when the exit code is non-zero, else returns both output streams; not a wait. */
    method WaitOutput() returns (r: Result<(string, string), ProcessError>)
      ensures r.Success? <==> out.returnCode == 0
      ensures r.Success? ==> r.value == (out.stdout, out.stderr)
      ensures r.Failure? ==> r.error == ProcessFailed(command, out.returnCode)
    {
      if out.returnCode != 0 {
        return Failure(ProcessFailed(command, out.returnCode));
      }
      return Success((out.stdout, out.stderr));
    }
  }

  /** `list.remove` takes the first occurrence: past a prefix without `x`, the one at the head of the rest. */
  lemma {:induction false} RemoveFirstAfter(a: seq<string>, b: seq<string>, x: string)
    requires x !in a && b != [] && b[0] == x
    ensures x in a + b && RemoveFirst(a + b, x) == a + b[1..]
    decreases |a|
  {
    if a == [] {
      assert a + b == b;
    } else {
      assert (a + b)[1..] == a[1..] + b;
      RemoveFirstAfter(a[1..], b, x);
      assert a + b[1..] == [a[0]] + (a[1..] + b[1..]);
    }
  }

  /** One step of the inner loop: how the names left change at position `j`. */
  lemma ScanStep(names: seq<string>, j: nat, layer: Layer)
    requires j < |names|
    ensures names[j] in Partition(names, layer.Keys, j).1 + names[j..]
    ensures Partition(names, layer.Keys, j + 1).1 + names[j + 1..] ==
      if names[j] in layer then RemoveFirst(Partition(names, layer.Keys, j).1 + names[j..], names[j])
      else Partition(names, layer.Keys, j).1 + names[j..]
  {
    var name := names[j];
    var kept := Partition(names, layer.Keys, j).1;
    if name in layer {
      assert Partition(names, layer.Keys, j + 1).1 == kept + [];
      RemoveFirstAfter(kept, names[j..], name);
      assert names[j..][1..] == names[j + 1..];
    } else {
      assert Partition(names, layer.Keys, j + 1).1 == kept + [name];
      AppendAt(kept, names, j);
    }
  }

  /** Moving the name at `j` from the rest of the list to the end of the prefix keeps the list. */
  lemma AppendAt(kept: seq<string>, names: seq<string>, j: nat)
    requires j < |names|
    ensures (kept + [names[j]]) + names[j + 1..] == kept + names[j..]
  {
    assert names[j..] == [names[j]] + names[j + 1..];
  }

  /**
   * One layer of the services listing: the inner loop visits a snapshot of the requested
   * names, removing each one the layer declares from the live list and collecting its
   * definition.
   */
  method ScanLayerLoop(layer: Layer, names: seq<string>) returns (remaining: seq<string>, defs: seq<ServiceDef>, ghost found: seq<string>)
    ensures found == InLayer(names, layer)
    ensures remaining == NotInLayer(names, layer)
    ensures |defs| == |found| && forall k :: 0 <= k < |found| ==> found[k] in layer && defs[k] == layer[found[k]]
  {
    remaining := names;
    defs := [];
    found := [];
    var j := 0;
    while j < |names|
      invariant 0 <= j <= |names|
      invariant found == Partition(names, layer.Keys, j).0
      invariant remaining == Partition(names, layer.Keys, j).1 + names[j..]
      invariant |defs| == |found| && forall k :: 0 <= k < |found| ==> found[k] in layer && defs[k] == layer[found[k]]
    {
      var name := names[j];
      ScanStep(names, j, layer);
      if name in layer {
        remaining := RemoveFirst(remaining, name);
        defs := defs + [layer[name]];
        found := found + [name];
      }
      j := j + 1;
    }
    assert names[j..] == [];
  }

  /** The definitions the inner loop collects for a layer are the definitions its hits point at. */
  lemma LayerHitsDefinitions(layers: seq<Layer>, l: nat, foundNames: seq<string>, found: seq<ServiceDef>)
    requires l < |layers|
    requires |found| == |foundNames|
    requires forall k :: 0 <= k < |foundNames| ==> foundNames[k] in layers[l] && found[k] == layers[l][foundNames[k]]
    ensures forall h :: h in LayerHits(l, foundNames) ==> h.layer < |layers| && h.name in layers[h.layer]
    ensures Definitions(layers, LayerHits(l, foundNames)) == found
  {
    LayerHitsMembers(l, foundNames);
  }

  /** What one pass of the outer loop adds: the definitions of the names layer `l` declares. */
  lemma ListServicesStep(layers: seq<Layer>, l: nat, remaining: seq<string>, rest: seq<string>,
                         found: seq<ServiceDef>, foundNames: seq<string>)
    requires l < |layers| && |remaining| > 0
    requires foundNames == InLayer(remaining, layers[l]) && rest == NotInLayer(remaining, layers[l])
    requires |found| == |foundNames|
    requires forall k :: 0 <= k < |foundNames| ==> foundNames[k] in layers[l] && found[k] == layers[l][foundNames[k]]
    ensures ListFrom(layers, remaining, l) == found + ListFrom(layers, rest, l + 1)
  {
    var here := LayerHits(l, foundNames);
    var later := ScanIntended(layers, rest, l + 1);
    assert ScanIntended(layers, remaining, l) == here + later;
    ScanIntendedValid(layers, remaining, l);
    LayerHitsDefinitions(layers, l, foundNames, found);
    DefinitionsAppend(layers, here, later);
  }

  /** The services listing over all layers, stopping once no names remain. */
  method ListServicesLoop(layers: seq<Layer>, names: seq<string>) returns (defs: seq<ServiceDef>)
    ensures defs == ListIntended(layers, names)
  {
    var remaining := names;
    defs := [];
    var l := 0;
    while l < |layers| && |remaining| > 0
      invariant 0 <= l <= |layers|
      invariant ListIntended(layers, names) == defs + ListFrom(layers, remaining, l)
    {
      var rest, found;
      ghost var foundNames;
      rest, found, foundNames := ScanLayerLoop(layers[l], remaining);
      ghost var later := ListFrom(layers, rest, l + 1);
      assert ListIntended(layers, names) == (defs + found) + later by {
        ListServicesStep(layers, l, remaining, rest, found, foundNames);
        assert defs + (found + later) == (defs + found) + later;
      }
      defs := defs + found;
      remaining := rest;
      l := l + 1;
    }
    assert ScanIntended(layers, remaining, l) == [];
    assert ListFrom(layers, remaining, l) == [];
  }

  /** `_request` on a container. */
  method RequestCall(c: Container, call: Call) returns (r: Result<Reply, Error>)
    ensures r == Request(c, call)
  {
    match call.args {
      case RequestArgs(httpMethod, path, query) =>
        if httpMethod == "GET" && path == "/v1/system-info" && query.None? {
          if c.canConnect {
            r := Success(SystemInfo("unknown"));
          } else {
            r := Failure(ConnectionRefused);
          }
        } else if httpMethod == "GET" && path == "/v1/services" {
          if query.None? {
            r := Failure(StateError(Getting, call.namespace, call.tool, IndexOutOfRange));
          } else if "names" !in query.value {
            r := Failure(StateError(Getting, call.namespace, call.tool, KeyMissing));
          } else {
            var defs := ListServicesLoop(c.layers, Text.Split(query.value["names"], ','));
            r := Success(ServiceList(defs));
          }
        } else {
          r := Failure(StateError(Getting, call.namespace, call.tool, NotImplemented("_request")));
        }
      case _ =>
        r := Failure(StateError(Getting, call.namespace, call.tool, NotImplemented("_request")));
    }
  }

  /** `pull` on a container: walk the tree, then open the backing file the walk reached. */
  method PullCall(c: Container, files: map<Handle, string>, args: Args) returns (r: Result<Reply, Error>)
    ensures r == Pull(c, files, args)
  {
    if !args.PullArgs? {
      return Failure(Raw(BadArguments));
    }
    var walked := Walk(c.filesystem, PathTokens(args.path));
    if walked.Failure? {
      return Failure(WalkFailure(walked.error, args.path));
    }
    match walked.value {
      case Dir(_) =>
        r := Failure(Raw(NotAFile));
      case File(h) =>
        if h in files {
          r := Success(Opened(files[h]));
        } else {
          r := Failure(BackingFileMissing(h));
        }
    }
  }

  /**
   * The scene: the state the simulator reads and updates in place, and the charm metadata
   * it reads.
   */
  class Scene {
    const meta: SceneMeta
    var leader: bool
    var status: Status
    var jujuLog: seq<LogEntry>
    var relations: seq<Relation>
    var containers: seq<Container>
    var networks: seq<Network>
    var config: map<string, Value>
    var files: map<Handle, string>
    var nextFile: Handle

    /** The scene's state as a value. */
    function State(): World
      reads this
    {
      World(leader, status, jujuLog, relations, containers, networks, config, files, nextFile)
    }

    constructor (meta: SceneMeta, w: World)
      ensures this.meta == meta && State() == w
    {
      this.meta := meta;
      leader := w.leader;
      status := w.status;
      jujuLog := w.jujuLog;
      relations := w.relations;
      containers := w.containers;
      networks := w.networks;
      config := w.config;
      files := w.files;
      nextFile := w.nextFile;
    }

    /**
     * The simulator: answers one intercepted call from the scene's state, writes what the
     * call writes, and for `exec` hands back a fresh process handle bound to the canned output.
     */
    method WrapTool(call: Call, changeId: int) returns (r: Result<Reply, Error>, process: MockExecProcess?)
      modifies this
      ensures (r, State()) == Simulate(old(State()), meta, call, changeId)
      ensures process != null <==> r.Success? && r.value.Spawned?
      ensures process != null ==>
                fresh(process) && !process.waited &&
                process.command == r.value.command && process.changeId == r.value.changeId && process.out == r.value.out
    {
      process := null;
      if call.namespace == BackendNamespace {
        r := Backend(call);
      } else if call.namespace == ClientNamespace {
        r, process := Client(call, changeId);
      } else {
        r := Failure(StateError(Getting, call.namespace, call.tool, UnknownNamespace(call.namespace)));
      }
    }

    /** The "_ModelBackend" namespace: getters read, setters write, the rest falls out of the `try`. */
    method Backend(call: Call) returns (r: Result<Reply, Error>)
      requires call.namespace == BackendNamespace
      modifies this
      ensures (r, State()) == SimulateBackend(old(State()), meta, call)
    {
      if call.tool in GetterTools || call.tool in UnsupportedGetters {
        r := Wrapped(Getting, call, Getter(State(), meta, call));
      } else if call.tool in SetterTools || call.tool in UnsupportedSetters {
        var written := Set(call);
        r := Wrapped(Setting, call, written);
      } else {
        r := Failure(QuestionNotImplemented(call.namespace, call.tool));
      }
    }

    /** The setter branches, writing into the scene's fields. */
    method Set(call: Call) returns (r: Result<Reply, Cause>)
      modifies this
      ensures (r, State()) == Setter(old(State()), call)
    {
      var tool := call.tool;
      if tool == "application_version_set" {
        if !call.args.VersionArg? {
          return Failure(BadArguments);
        }
        status := status.(appVersion := call.args.version);
        r := Success(NoneReply);
      } else if tool == "status_set" {
        if !call.args.StatusSetArgs? {
          return Failure(BadArguments);
        }
        var pair := StatusPair(call.args.status, call.args.message);
        if KwFlag(call.kwargs, "is_app") {
          status := status.(app := pair);
        } else {
          status := status.(unit := pair);
        }
        r := Success(NoneReply);
      } else if tool == "juju_log" {
        if !call.args.JujuLogArgs? {
          return Failure(BadArguments);
        }
        jujuLog := jujuLog + [LogEntry(call.args.level, call.args.message)];
        r := Success(NoneReply);
      } else if tool == "relation_set" {
        if !call.args.RelationSetArgs? {
          return Failure(BadArguments);
        }
        var found := FindRelation(relations, call.args.relationId);
        if found.None? {
          return Failure(NoMatch);
        }
        if call.args.isApp && !leader {
          return Failure(NeedsLeadership);
        }
        var i := found.value;
        var rel := relations[i];
        if call.args.isApp {
          rel := rel.(localAppData := rel.localAppData[call.args.key := call.args.value]);
        } else {
          rel := rel.(localUnitData := rel.localUnitData[call.args.key := call.args.value]);
        }
        relations := relations[i := rel];
        r := Success(NoneReply);
      } else {
        r := Failure(NotImplemented(tool));
      }
    }

    /** The "Client" namespace, on the container the socket path names. */
    method Client(call: Call, changeId: int) returns (r: Result<Reply, Error>, process: MockExecProcess?)
      requires call.namespace == ClientNamespace
      modifies this
      ensures (r, State()) == SimulateClient(old(State()), call, changeId)
      ensures process != null <==> r.Success? && r.value.Spawned?
      ensures process != null ==>
                fresh(process) && !process.waited &&
                process.command == r.value.command && process.changeId == r.value.changeId && process.out == r.value.out
    {
      process := null;
      var where := ContainerOf(State(), call);
      if where.Failure? {
        return Failure(StateError(Getting, call.namespace, call.tool, where.error)), null;
      }
      var ci := where.value;
      var c := containers[ci];
      if call.tool == "_request" {
        r := RequestCall(c, call);
      } else if call.tool == "exec" {
        var spawned := Exec(c, call.args, changeId);
        r := Wrapped(Getting, call, spawned);
        if spawned.Success? {
          process := new MockExecProcess(spawned.value.command, spawned.value.changeId, spawned.value.out);
        }
      } else if call.tool == "pull" {
        r := PullCall(c, files, call.args);
      } else if call.tool == "push" {
        r := PushCall(ci, call);
      } else {
        r := Failure(QuestionNotImplemented(call.namespace, call.tool));
      }
    }

    /**
     * `push` into container `ci`: walk the intermediate directories, write the backing file,
     * then bind the last segment to it.
     */
    method PushCall(ci: nat, call: Call) returns (r: Result<Reply, Error>)
      requires ci < |containers|
      modifies this
      ensures (r, State()) == Push(old(State()), ci, call)
    {
      if !call.args.PushArgs? {
        return Failure(Raw(BadArguments));
      }
      var path := call.args.path;
      var c := containers[ci];
      var tokens := PathTokens(path);
      var dirs := if tokens == [] then [] else tokens[..|tokens| - 1];
      var walked := PushWalk(c.filesystem, dirs, MakeDirs(call.kwargs));
      if walked.Failure? {
        return Failure(WalkFailure(walked.error, path));
      }
      var h := nextFile;
      files := files[h := call.args.contents];
      nextFile := h + 1;
      if tokens == [] {
        return Failure(Raw(IndexOutOfRange));
      }
      if walked.value == AtFile {
        return Failure(Raw(NotAssignable));
      }
      var fs := Bind(c.filesystem, dirs, tokens[|tokens| - 1], File(h));
      containers := containers[ci := c.(filesystem := fs)];
      r := Success(NoneReply);
    }
  }

  // ---------------------------------------------------------------- logging

  const ReprFailed := "<repr failed: cannot repr(memoized output).>"

  /** The logged rendering of an output: its first 100 characters, marked with `[...]` when cut. */
  function Trimmed(outputRepr: string): string {
    if |outputRepr| > 100 then outputRepr[..100] + "[...]" else outputRepr
  }

  /** The trimmed rendering keeps the first 100 characters, is at most 105 long, and changes only what it cuts. */
  lemma TrimmedBounds(outputRepr: string)
    ensures |Trimmed(outputRepr)| <= 105
    ensures |outputRepr| <= 100 ==> Trimmed(outputRepr) == outputRepr
    ensures |outputRepr| > 100 ==> |Trimmed(outputRepr)| == 105 && Trimmed(outputRepr)[100..] == "[...]"
    ensures var keep := if |outputRepr| < 100 then |outputRepr| else 100;
      Trimmed(outputRepr)[..keep] == outputRepr[..keep]
  {
  }

  /** The debug line for one intercepted call; `None` for an output whose `repr` raised. */
  function LogLine(namespace: string, tool: string, argsRepr: string, kwargsRepr: string, outputRepr: Option<string>): string {
    "@wrap_tool: intercepted " + namespace + "." + tool + "(*" + argsRepr + ", **" + kwargsRepr + ")\n\t --> "
      + Trimmed(outputRepr.GetOr(ReprFailed))
  }

  /** The line names the call, and a failed `repr` shows the placeholder in full. */
  lemma LogLineShape(namespace: string, tool: string, argsRepr: string, kwargsRepr: string, outputRepr: Option<string>)
    ensures "@wrap_tool: intercepted " + namespace + "." + tool <= LogLine(namespace, tool, argsRepr, kwargsRepr, outputRepr)
    ensures outputRepr.None? ==>
      var line := LogLine(namespace, tool, argsRepr, kwargsRepr, outputRepr);
      |line| >= |ReprFailed| && line[|line| - |ReprFailed|..] == ReprFailed
  {
    var head := "@wrap_tool: intercepted " + namespace + "." + tool;
    var line := LogLine(namespace, tool, argsRepr, kwargsRepr, outputRepr);
    assert line == head + ("(*" + argsRepr + ", **" + kwargsRepr + ")\n\t --> " + Trimmed(outputRepr.GetOr(ReprFailed)));
    if outputRepr.None? {
      assert |ReprFailed| <= 100;
    }
  }

  /**
   * The wrapper installed in place of a backend method: it runs the simulator on the scene,
   * logs the call only when the simulator returned, and returns the simulator's result
   * unchanged. `repr` renders an output for the log, `None` where rendering raises.
   */
  method Wrap(scene: Scene, call: Call, changeId: int, argsRepr: string, kwargsRepr: string, repr: Reply -> Option<string>)
    returns (r: Result<Reply, Error>, process: MockExecProcess?, log: Option<string>)
    modifies scene
    ensures (r, scene.State()) == Simulate(old(scene.State()), scene.meta, call, changeId)
    ensures process != null <==> r.Success? && r.value.Spawned?
    ensures log.Some? <==> r.Success?
    ensures r.Success? ==> log == Some(LogLine(call.namespace, call.tool, argsRepr, kwargsRepr, repr(r.value)))
  {
    r, process := scene.WrapTool(call, changeId);
    if r.Failure? {
      return r, process, None;
    }
    log := Some(LogLine(call.namespace, call.tool, argsRepr, kwargsRepr, repr(r.value)));
  }
}
