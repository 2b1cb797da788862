# scenario core in Dafny

This project models the state-transition core of *scenario*, a testing library for Juju
charms. A scene holds the state a charm would see in production:
- leadership, status and the juju log;
- relations with their data bags;
- configuration and networks;
- workload containers, with their service layers, canned `exec` outputs and a filesystem tree.

The library intercepts the charm's calls to the two backends the ops framework talks to:
- `_ModelBackend`, the control-plane hook tools;
- `Client`, the workload container's API.

It answers each call from the scene and writes what setters write. Failures are wrapped in a
`StateError`, except for the few calls whose callers match on the original error.

The model consists of the following modules:

- `Simulator` (simulator.dfy) is the pure specification of `wrap_tool`.
  - `Simulate(world, meta, call, changeId)` returns the reply or error together with the world after the call.
  - Its branches mirror the source tool by tool, including the named-but-unsupported tools.
  - A backend tool that matches no branch falls through to an unwrapped `QuestionNotImplementedError`.
- `Mocking` (mocking.dfy) is the imperative side.
  - The `Scene` class keeps the state in fields. `Scene.WrapTool` updates those fields in place and is proved to do exactly what `Simulate` says of the state before the call.
  - `MockExecProcess` has the `waited` flag that `Wait` sets.
  - The services, pull and push loops are `while` loops proved against the specification functions.
  - `Wrap` calls the simulator and then builds the log line, which `_log_call` trims to 100 characters.
- `Filesystem` (filesystem.dfy) is the container's tree, `Dir(map) | File(handle)`.
  - It provides the `pull` walk, the `push` walk with its `make_dirs` policy, and the binding `push` performs.
  - Python truthiness is kept: an existing but empty directory counts as missing.
  - Temporary files are an abstract backing store of fresh handles.
- `SimulatorProperties` (simulator_properties.dfy) holds the cross-call and cross-branch properties:
  - `relation_set`/`relation_get` and `relation_list`/`relation_get` round trips, and the leadership guard;
  - `config_get` defaults;
  - `push` then `pull`;
  - the wrapping policy;
  - which calls may change the world.
- `Snapshot` (snapshot.dfy) holds the parsers of the snapshot script, working on already parsed JSON/YAML:
  - the `app/id` unit-name parser;
  - the endpoint-to-interface lookup;
  - the typed config conversion loop;
  - `_clean`;
  - the mount assignment of `get_mounts`;
  - the `ifinclude` section selector.
- `Text`, `Values`, `SceneModel` and `Wrappers` hold:
  - Python's `split`, `rpartition`, `str(int)` and `int(str)`;
  - dynamic values with their truthiness;
  - the scene's value types;
  - `Option`/`Result`.

Where the code and the documented behaviour disagree, the model follows the code:
- `config_get` of a declared option without a default returns `None`; it does not fail with not-found (scenario/mocking.py:125-133).
- The services listing as written does not return every requested name a layer declares (see Findings). The model logs that and uses the intended listing.
- A container that the socket path does not name is reported inside the wrapping `try`, so it comes out as a wrapped "getting" `StateError`, not unwrapped (scenario/mocking.py:221-230; `SimulatorProperties.MissingContainerWrapped`).

## Model

| member | source | states |
|---|---|---|
| Text.RPartition | scenario/scripts/snapshot.py:59 | `head + sep + tail` rebuilds the string and `tail` holds no separator; without a separator, `head` and the separator are empty and `tail` is the whole string |
| Text.ParseIntToString | scenario/mocking.py:93-95 | `int(str(i)) == i` for every integer |
| Text.IntToStringChars | scenario/mocking.py:118-121 | `str(i)` is non-empty and holds only digits and a minus sign |
| Filesystem.Resolve | scenario/mocking.py:272-277 | the entry `pull` reaches by looking up each segment in turn; a missing or empty entry, or a file asked for a child, stops the walk. `Walk` is proved to end exactly where it says |
| Filesystem.PushPlan | scenario/mocking.py:290-299 | how `push`'s walk over the intermediate segments ends. A missing directory is created under `make_dirs`, reported without it, and is a `KeyError` when the keyword was not passed. `PushWalk`, `PushWalkWithoutMakeDirs` and `PushWalkWithMakeDirs` prove this |
| Filesystem.Walk | scenario/mocking.py:272-277 | the `pull` loop over the path segments ends exactly where `Resolve` says: the entry reached, a missing or empty directory, or a file asked for a child |
| Filesystem.PushWalk | scenario/mocking.py:290-299 | the `push` loop over the intermediate segments ends exactly as `PushPlan` says, reading `make_dirs` only at a missing segment |
| Filesystem.Bind | scenario/mocking.py:294-307 | the segment bound in the top directory is present afterwards; all other entries are unchanged; no other key appears |
| Filesystem.PushWalkWithoutMakeDirs | scenario/mocking.py:290-299 | without `make_dirs`, push's walk fails exactly where pull's walk fails, with the same error |
| Filesystem.PushWalkWithMakeDirs | scenario/mocking.py:292-296 | with `make_dirs`, a missing directory never stops the walk and the keyword is never unset |
| Filesystem.BindThenResolve | scenario/mocking.py:268-307 | after a push whose walk ended on a directory, pulling the same segments reaches exactly the bound file |
| Filesystem.BindFrame | scenario/mocking.py:290-307 | the binding a push performs leaves the entry at every path that is neither a prefix nor an extension of the pushed path as it was, at any depth |
| SceneModel.FindFirst | scenario/mocking.py:82-86 | `next(filter(p, s))`: the index found satisfies `p` and none before it does; none is found iff no element satisfies `p` |
| Text.Split | scenario/mocking.py:220 | `str.split` on one character gives at least one piece and no piece holds the separator |
| Text.ParseNat | scenario/mocking.py:95 | a run of text parses iff it is non-empty and all decimal digits |
| Text.ParseNatToString | scenario/mocking.py:93-95 | the decimal digits of `n` parse back to `n` |
| Text.SingleCharSubstring | scenario/scripts/snapshot.py:670-671 | for a one-character key, `key in include` holds iff the character occurs in the selection |
| Text.JoinSplit | scenario/mocking.py:220 | joining the pieces of `split("/")` with `/` gives back the socket path |
| Text.SplitJoin | scenario/mocking.py:220 | splitting the `/`-join of separator-free pieces gives back those pieces |
| Text.LastPieceAfterSep | scenario/mocking.py:220 | the last piece of `a + "/" + b` is `b` whenever `b` holds no separator |
| Simulator.Simulate | scenario/mocking.py:58-323 | the reply or the error raised, and the state after one intercepted call, chosen by namespace; an unknown namespace is a wrapped "getting" error. `WorldChanges`, `NonClientFailuresAreStateErrors` and `UnknownNamespaceWrapped` state its properties |
| Simulator.SimulateBackend | scenario/mocking.py:78-210 | getters answer from the unchanged state and setters write it; their failures are wrapped as "getting" or "setting"; a tool matching no branch falls out of the `try` unwrapped (`UnmatchedBackendTool`) |
| Simulator.RelationGet | scenario/mocking.py:80-95 | the data bag that the member name and the app flag select, from the first relation with the id. `RelationGetSelects`, `RelationGetUnknownId` and `RelationListThenGet` state its properties |
| Simulator.Getter | scenario/mocking.py:80-158 | the getter branches and the named unsupported getters. `IsLeaderGuardsAppData`, `StatusSetThenGet`, `RelationIdsThenList`, `NetworkGetFirstNamed`, `NetworkGetUnknown` and `UnsupportedToolsWrapped` state what each branch answers |
| Simulator.EffectiveConfig | scenario/mocking.py:124-129 | the state's config, or each declared option's default (`None` without one) when the state's config is empty (`ConfigGetDefaults`) |
| Simulator.ConfigGet | scenario/mocking.py:123-135 | the whole effective config, or one key's value, or `KeyError` for an absent key (`ConfigGetFromState`, `ConfigGetDefaults`) |
| Simulator.RelationSet | scenario/mocking.py:179-193 | one write into the local app or unit data of the first relation with the id, guarded by leadership for app data (`RelationSetThenGet`, `RelationSetNeedsLeadership`) |
| Simulator.Setter | scenario/mocking.py:164-210 | the setter branches and the named unsupported setters. `ApplicationVersionSet`, `StatusSetThenGet`, `JujuLogAppends`, `JujuLogInOrder`, `RelationSetThenGet`, `SetterChanges` and `UnsupportedToolsWrapped` state what each writes |
| Simulator.RemoveFirst | scenario/mocking.py:250 | `list.remove` makes the list one element shorter; which element it takes and the order kept are stated by `RemoveFirstCount` and `Mocking.RemoveFirstAfter` |
| Mocking.RemoveFirstAfter | scenario/mocking.py:250 | `list.remove(x)` takes the first occurrence: past a prefix without `x`, it drops the `x` at the head of the rest and keeps every other element in order |
| Simulator.RemoveFirstCount | scenario/mocking.py:250 | `list.remove(x)` takes away exactly one `x`, as multisets |
| Simulator.ScanLayer | scenario/mocking.py:248-251 | as written: the inner loop over one layer, whose iterator passes over the name that slides into a removed slot. `ScanLayerValid`, `ScanLayerNames` and `ServicesSkipExample` state its properties |
| Simulator.ListServices | scenario/mocking.py:240-254 | as written: the definitions the as-written scan collects over the layers (`ScanFromValid`, `ScanFromNames`, `ServicesSkipExample`) |
| Simulator.ScanLayerValid | scenario/mocking.py:247-251 | as written, every hit of the inner loop over layer `l` is a name that layer declares |
| Simulator.ScanLayerNames | scenario/mocking.py:247-251 | as written, the names left plus the names found in layer `l` are the names requested, as multisets |
| Simulator.ScanFromValid | scenario/mocking.py:243-251 | as written, every hit comes from a layer at or after the start that declares its name |
| Simulator.ScanFromNames | scenario/mocking.py:243-251 | as written, the names found form a sub-multiset of the names requested |
| Simulator.ServicesSkipExample | scenario/mocking.py:246-251 | as written, requesting `a,b` from a single layer declaring both returns only `a`'s definition |
| Simulator.DefinitionsMembers | scenario/mocking.py:251 | a definition is collected iff some hit points at it |
| Simulator.Partition | scenario/mocking.py:248-251 | splitting a list by a key set puts only keys on the first side and only non-keys on the second |
| Simulator.PartitionCounts | scenario/mocking.py:248-251 | the two sides of the split hold together exactly the items split, as multisets |
| Simulator.LayerSplitNames | scenario/mocking.py:248-251 | the names one layer declares and the names it leaves are together the requested names, as multisets |
| Simulator.LayerSplitMembers | scenario/mocking.py:248-251 | a name is taken by a layer iff it is requested and the layer declares it, and left iff it is requested and the layer does not declare it |
| Simulator.LayerHitsMembers | scenario/mocking.py:248-251 | the hits of one layer are exactly that layer paired with each name it took, in order |
| Simulator.ScanIntended | scenario/mocking.py:243-251 | intended: each layer takes every still-requested name it declares, and those names leave the request. `ScanIntendedValid`, `ScanIntendedMembers`, `ScanIntendedNames` and `ScanIntendedFindsFirst` state its properties |
| Simulator.ListIntended | scenario/mocking.py:240-254 | the intended listing that the services request answers (`ScanIntendedFindsFirst`, `ListIntendedFirstLayer`, `ServicesIntendedExample`) |
| Simulator.ScanIntendedValid | scenario/mocking.py:243-251 | intended scan: every hit comes from a layer at or after the start that declares its name |
| Simulator.ScanIntendedMembers | scenario/mocking.py:243-251 | intended scan: every hit is a requested name |
| Simulator.ScanIntendedNames | scenario/mocking.py:243-251 | intended scan: no requested name is listed more often than it was requested, as multisets |
| Simulator.FirstDeclaring | scenario/mocking.py:246-249 | the first layer from `l` that declares a name, or none if no layer does |
| Simulator.ScanIntendedFindsFirst | scenario/mocking.py:240-254 | a requested name is listed iff some layer declares it, and only from the first layer declaring it |
| Simulator.ServicesIntendedExample | scenario/mocking.py:240-254 | the intended listing returns both `a` and `b` for the input that the as-written scan gets wrong |
| Simulator.ContainerOf | scenario/mocking.py:219-230 | the first container named by the second-to-last segment of the socket path, or a not-found cause (`SocketPathNamesContainer`) |
| Simulator.Request | scenario/mocking.py:232-257 | `_request`: the system-info probe, the intended services listing, and `NotImplementedError` for anything else (`SystemInfoIffCanConnect`, `ServicesListing`, `OtherRequestsNotImplemented`) |
| Simulator.Exec | scenario/mocking.py:259-266 | `exec`: a process bound to the command's canned output, or a not-found cause (`ExecLookup`) |
| Simulator.Pull | scenario/mocking.py:268-281 | `pull`: the contents of the backing file the walk reaches; every failure unwrapped (`PullReaches`, `PullFails`, `PullPushUnwrapped`, `PushThenPull`) |
| Simulator.Push | scenario/mocking.py:283-309 | `push`: the walk, a fresh backing file holding the contents, then the binding of the last segment; failures unwrapped (`PushSucceeded`, `PushThenPull`, `PushKeepsOtherPaths`, `PushChanges`) |
| Simulator.SimulateClient | scenario/mocking.py:213-309 | the container lookup, then the client branches; a missing container is a wrapped "getting" error (`MissingContainerWrapped`, `ClientChanges`) |
| SimulatorProperties.FindRelationIsFirst | scenario/mocking.py:82-86 | `next(filter(...))` picks the first relation carrying the id |
| SimulatorProperties.FindRelationAfterUpdate | scenario/mocking.py:180-193 | writing into a relation's data keeps every id lookup where it was |
| SimulatorProperties.RelationGetUnknownId | scenario/mocking.py:82-86 | `relation_get` with an id no relation has is a wrapped "getting" `StateError` and changes nothing |
| SimulatorProperties.RelationGetSelects | scenario/mocking.py:80-92 | `relation_get` returns local app data for this app, remote app data for another app, and local unit data for this unit |
| SimulatorProperties.RelationListThenGet | scenario/mocking.py:93-121 | every remote unit name `relation_list` returns reads back, through the integer after its last `/`, that unit's data in `relation_get` |
| SimulatorProperties.RelationSetThenGet | scenario/mocking.py:179-193 | with leadership (or for unit data), `relation_set` writes exactly `key := value` on one side of one relation; the following `relation_get` returns the updated mapping |
| SimulatorProperties.RelationSetNeedsLeadership | scenario/mocking.py:185-188 | app-scoped `relation_set` without leadership is a "setting" `StateError` and writes nothing |
| SimulatorProperties.IsLeaderGuardsAppData | scenario/mocking.py:97-193 | `is_leader` answers the state's leadership, and an app-scoped `relation_set` succeeds iff that answer is true |
| SimulatorProperties.StatusSetThenGet | scenario/mocking.py:100-173 | `status_set` writes the app or unit pair its `is_app` flag selects and nothing else; a `status_get` with the matching `app` flag then returns that pair |
| SimulatorProperties.ApplicationVersionSet | scenario/mocking.py:164-166 | `application_version_set` replaces only the app version; `status_get` answers as before |
| SimulatorProperties.JujuLogAppends | scenario/mocking.py:175-177 | `juju_log` appends exactly its level and message to the log and changes nothing else |
| SimulatorProperties.JujuLogInOrder | scenario/mocking.py:175-177 | a sequence of `juju_log` calls appends their entries in call order |
| SimulatorProperties.RelationIdsThenList | scenario/mocking.py:108-121 | `relation_ids` lists the relations' ids in order; `relation_list` succeeds for exactly those ids and is a wrapped "getting" error for any other |
| SimulatorProperties.NetworkGetFirstNamed | scenario/mocking.py:137-145 | `network_get` answers the data of the first network with the binding's name and changes nothing |
| SimulatorProperties.NetworkGetUnknown | scenario/mocking.py:137-145 | `network_get` of a name no network has is a wrapped "getting" error and changes nothing |
| SimulatorProperties.ConfigGetFromState | scenario/mocking.py:123-135 | with a non-empty config in the state, `config_get` returns it whole, or the requested key's value, or a wrapped `KeyError` |
| SimulatorProperties.ConfigGetDefaults | scenario/mocking.py:124-135 | with an empty config, `config_get` reads each declared default (`None` when undeclared); an unknown key is a wrapped error; the whole map has the schema's keys |
| SimulatorProperties.UnsupportedToolsWrapped | scenario/mocking.py:147-210 | each named unsupported tool is a `StateError` wrapping `NotImplementedError`: "getting" for getters, "setting" for setters |
| SimulatorProperties.UnmatchedBackendTool | scenario/mocking.py:159-323 | a backend tool matching no branch ends in an unwrapped `QuestionNotImplementedError` with the world unchanged |
| SimulatorProperties.UnknownNamespaceWrapped | scenario/mocking.py:311-321 | an unknown namespace is a "getting" `StateError` |
| SimulatorProperties.SocketPathNamesContainer | scenario/mocking.py:219-230 | a socket path `<prefix>/<name>/<file>` selects the container named `name`, or a not-found cause |
| SimulatorProperties.MissingContainerWrapped | scenario/mocking.py:219-230 | every client call on a container not in the state is a wrapped "getting" error |
| SimulatorProperties.SystemInfoIffCanConnect | scenario/mocking.py:233-238 | the system-info probe answers version "unknown" iff the container can connect; otherwise it fails unwrapped with a connection error |
| SimulatorProperties.OtherRequestsNotImplemented | scenario/mocking.py:256-257 | any other `_request` is a `StateError` wrapping `NotImplementedError` |
| SimulatorProperties.ListIntendedFirstLayer | scenario/mocking.py:240-254 | every listed definition is a requested name's definition, taken from the first layer that declares that name; and every requested name some layer declares has that definition listed |
| SimulatorProperties.ServicesListing | scenario/mocking.py:240-254 | the services request answers the intended listing of the comma-separated names; no query and no `names` key are wrapped errors |
| SimulatorProperties.ExecLookup | scenario/mocking.py:259-266 | `exec` returns a process bound to exactly that command's canned output, or a wrapped not-found error |
| SimulatorProperties.PullPushUnwrapped | scenario/mocking.py:268-286 | past the container lookup, no failure of `pull` or `push` is wrapped |
| SimulatorProperties.PushSucceeded | scenario/mocking.py:283-309 | a successful push stores the contents under a fresh handle and binds the last segment to it; nothing else changes |
| SimulatorProperties.PushKeepsOtherPaths | scenario/mocking.py:283-309 | a successful push leaves every other container unchanged and, in its own container, every path that is neither a prefix nor an extension of the pushed path |
| SimulatorProperties.PullReaches | scenario/mocking.py:268-281 | a pull whose walk reaches a stored file returns that file's contents and changes nothing |
| SimulatorProperties.PullFails | scenario/mocking.py:272-280 | past the container lookup, a missing or empty segment is `FileNotFoundError` for the path, a segment looked up in a file the `AttributeError`, a directory at the end the `TypeError` of `Path`, and a backing file that is gone `FileNotFoundError` for it; all unwrapped, and none changes the world |
| SimulatorProperties.PushedFileReachable | scenario/mocking.py:272-307 | after a push whose walk ended on a directory, the pull walk of the same path reaches the new backing file, which holds the contents |
| SimulatorProperties.PushThenPull | scenario/mocking.py:268-309 | after a successful push of `contents` to a path, pulling the same path returns `contents` and changes nothing |
| SimulatorProperties.PushWithoutMakeDirsMissing | scenario/mocking.py:290-299 | without `make_dirs`, a push into a missing intermediate directory fails unwrapped with the path as not found and changes nothing |
| SimulatorProperties.PushWithMakeDirsNeverMissing | scenario/mocking.py:292-296 | with `make_dirs`, a push never fails for a missing directory or for the keyword |
| SimulatorProperties.SetterChanges | scenario/mocking.py:164-210 | a setter never touches the backing store or the containers, and only a supported setter changes anything |
| SimulatorProperties.PushChanges | scenario/mocking.py:283-309 | a push keeps every stored backing file and keeps the store's handles fresh |
| SimulatorProperties.ClientChanges | scenario/mocking.py:213-309 | on the client side only `push` changes the world, and it keeps every stored backing file |
| SimulatorProperties.WorldChanges | scenario/mocking.py:58-323 | only backend setters and `push` change the world; stored backing files are never overwritten; the store stays well formed |
| SimulatorProperties.NonClientFailuresAreStateErrors | scenario/mocking.py:311-323 | outside the container client every failure is a `StateError` or its subclass `QuestionNotImplementedError` |
| Mocking.MockExecProcess.constructor | scenario/mocking.py:33-39 | the process holds the command, change id and canned output, and has not been waited for |
| Mocking.MockExecProcess.Wait | scenario/mocking.py:41-45 | marks the process waited; fails iff the exit code is non-zero, with the command and that code |
| Mocking.MockExecProcess.WaitOutput | scenario/mocking.py:47-52 | fails iff the exit code is non-zero; otherwise returns `(stdout, stderr)`; leaves `waited` alone |
| Mocking.ScanStep | scenario/mocking.py:248-250 | one visit of the inner loop removes the visited name from the live list exactly when the layer declares it |
| Mocking.ScanLayerLoop | scenario/mocking.py:247-251 | the intended inner loop over one layer, visiting every requested name, returns exactly the names the layer declares, each with its definition, and exactly the names it does not declare, in order |
| Mocking.LayerHitsDefinitions | scenario/mocking.py:251 | the definitions the inner loop collects are the definitions its hits point at |
| Mocking.ListServicesStep | scenario/mocking.py:243-251 | one pass of the outer loop adds the definitions the layer declares, and the listing goes on with the names it left |
| Mocking.ListServicesLoop | scenario/mocking.py:240-254 | the intended loop over layers, stopping once no names remain, returns the intended listing `ListIntended` |
| Mocking.RequestCall | scenario/mocking.py:232-257 | `_request` on a container returns what `Request` specifies |
| Mocking.PullCall | scenario/mocking.py:268-281 | `pull` returns what `Pull` specifies |
| Mocking.Scene.WrapTool | scenario/mocking.py:58-323 | the reply and the scene's new state are those `Simulate` gives for the old state; an `exec` hands back a fresh, unwaited process bound to its output |
| Mocking.Scene.Backend | scenario/mocking.py:78-210 | the backend branches update the scene as `SimulateBackend` says |
| Mocking.Scene.Set | scenario/mocking.py:164-210 | the setter branches write the scene's fields as `Setter` says |
| Mocking.Scene.Client | scenario/mocking.py:213-309 | the client branches update the scene as `SimulateClient` says, with a process exactly for a spawned command |
| Mocking.Scene.PushCall | scenario/mocking.py:283-309 | `push` updates the store and the container's tree as `Push` says |
| Mocking.TrimmedBounds | scenario/mocking.py:356-357 | a repr of at most 100 characters is logged whole; a longer one is cut to its first 100 followed by `[...]` |
| Mocking.LogLineShape | scenario/mocking.py:350-362 | the log line starts with the intercepted namespace and tool; a failed `repr` ends the line with the full placeholder |
| Mocking.Wrap | scenario/mocking.py:382-394 | the wrapper returns the simulator's result and state unchanged, and logs iff the simulator returned |
| Snapshot.ParseUnitName | scenario/scripts/snapshot.py:58-66 | `JujuUnitName`: app name, integer id and normalized name, or invalid-name and `ValueError` failures (`UnitNameRejected`, `UnitNameRoundTrip`, `UnitNameNonNumeric`) |
| Snapshot.UnitNameRejected | scenario/scripts/snapshot.py:59-61 | a name is rejected as invalid iff it has no `/`, ends in `/`, or has its only `/` in front |
| Snapshot.LastSepUnique | scenario/scripts/snapshot.py:59 | the text after the last `/` and the text before it are determined by the name |
| Snapshot.UnitNameRoundTrip | scenario/scripts/snapshot.py:58-66 | `app/str(id)` parses to app `app`, id `id` and normalized `app-str(id)` |
| Snapshot.UnitNameNonNumeric | scenario/scripts/snapshot.py:60-64 | a well-formed name with a non-integer id part is a `ValueError`, not an invalid name |
| Snapshot.InterfaceFromMetadata | scenario/scripts/snapshot.py:517-525 | the interface of the endpoint, searched under `provides` then `requires`; `None` when neither declares it (`InterfaceProvidesFirst`, `InterfaceMissing`) |
| Snapshot.InterfaceProvidesFirst | scenario/scripts/snapshot.py:519-522 | an endpoint declared under `provides` answers from there, whatever `requires` holds |
| Snapshot.InterfaceMissing | scenario/scripts/snapshot.py:519-525 | the lookup returns `None` iff neither role declares the endpoint; a found endpoint without `interface` is a `KeyError` |
| Snapshot.Convert | scenario/scripts/snapshot.py:494-509 | the converter the declared type selects: text, integer (`ValueError` when not an integer), the raw number, `== "true"`, or the value itself; an unknown type is a `ValueError` and a missing one a `KeyError`. `GetConfig` states the loop that applies it |
| Snapshot.GetConfig | scenario/scripts/snapshot.py:494-514 | keys are exactly the settings with truthy values, each converted by its type; failure iff some kept setting fails to convert, with the first such error; no `settings` key is an `AttributeError` |
| Snapshot.GetConfigIntended | scenario/scripts/snapshot.py:503-514 | an output without `settings` reads as an empty config and is never an `AttributeError`; otherwise as written: the keys are exactly the settings with truthy values, each converted by its type, and it fails iff some kept setting fails to convert, with the first such error |
| Snapshot.Clean | scenario/scripts/snapshot.py:543-549 | relation data is returned whole when controller data is wanted; otherwise it is returned minus exactly the three controller keys, and is a `KeyError` iff one is absent |
| Snapshot.SpecInsert | scenario/scripts/snapshot.py:356 | assigning into the mount spec keeps names unique and holds the new pair; a name already present keeps its place with the new location, every other entry is unchanged, and a new name is appended at the end |
| Snapshot.BuildSpec | scenario/scripts/snapshot.py:353-358 | the mount spec has unique names; its failures are `KeyError` |
| Snapshot.LastDeclaring | scenario/scripts/snapshot.py:354-356 | the last mount entry declaring a storage name, or none if no entry does |
| Snapshot.BuildSpecFails | scenario/scripts/snapshot.py:354-356 | building the spec fails iff a mount with a storage name has no `location` |
| Snapshot.BuildSpecPrefixFails | scenario/scripts/snapshot.py:354-356 | once a mount entry raises `KeyError`, the entries after it never change the outcome |
| Snapshot.BuildSpecEntries | scenario/scripts/snapshot.py:353-358 | the spec holds exactly the declared storage names, each with the location of the last entry declaring it |
| Snapshot.FirstDeclaration | scenario/scripts/snapshot.py:354-356 | the first mount entry declaring a storage name, or none if no entry does |
| Snapshot.BuildSpecOrder | scenario/scripts/snapshot.py:353-358 | the spec lists its names in the order of their first declaration, as a dictionary keeps insertion order under re-assignment |
| Snapshot.SpecOfTwo | scenario/scripts/snapshot.py:353-358 | two entries with different storage names give a spec of both, in declaration order |
| Snapshot.SpecRedeclared | scenario/scripts/snapshot.py:353-358 | re-declaring the first storage name after a second one keeps the first in first place |
| Snapshot.MountOrderExample | scenario/scripts/snapshot.py:353-365 | with `/data` and `/data/db`, `/data/db/x` matches whichever of the two was declared last, and a re-declaration does not move a name |
| Snapshot.LastMatch | scenario/scripts/snapshot.py:362-365 | a path matches the last spec entry whose location is a prefix of it, and none if no location is |
| Snapshot.AssignMounts | scenario/scripts/snapshot.py:360-379 | the mounts the files to fetch need, one per matched storage name, created in order of first use (`AssignMountsKeys`, `AssignMountsSources`, `AssignMountsLocations`) |
| Snapshot.AssignMountsKeys | scenario/scripts/snapshot.py:361-379 | there is a mount exactly for each storage name some requested path matched; unmatched paths add nothing |
| Snapshot.AssignMountsSources | scenario/scripts/snapshot.py:373-379 | each mount populates the location its name has in the spec |
| Snapshot.AssignMountsLocations | scenario/scripts/snapshot.py:374-379 | each name gets one mount, with a local directory of its own, numbered by creation |
| Snapshot.AssignMountsEmptySpec | scenario/scripts/snapshot.py:360-372 | with no mount spec every requested path is skipped and no mount is made |
| Snapshot.Mounts | scenario/scripts/snapshot.py:344-379 | `get_mounts` as written: `{}` when there are files but no mounts, a `TypeError` without `mounts`, otherwise the spec's error or the assigned mounts (`GetMounts`, `MountsWithoutMountsKey`) |
| Snapshot.MountsWithoutMountsKey | scenario/scripts/snapshot.py:344-354 | a container without `mounts` and with no files to fetch is a `TypeError` |
| Snapshot.BuildSpecLoop | scenario/scripts/snapshot.py:353-358 | the spec loop returns `BuildSpec` of the mount metadata |
| Snapshot.LastMatchLoop | scenario/scripts/snapshot.py:362-365 | the running `found` ends as `LastMatch` |
| Snapshot.AssignLoop | scenario/scripts/snapshot.py:360-379 | the loop over the files to fetch builds `AssignMounts` |
| Snapshot.GetMounts | scenario/scripts/snapshot.py:344-379 | `get_mounts` returns `Mounts`: `{}` when there are files but no mounts; otherwise the spec error or the assigned mounts |
| Snapshot.GetMountsIntended | scenario/scripts/snapshot.py:344-354 | a container without `mounts` yields no mounts and never a `TypeError`; otherwise as written |
| Snapshot.IfInclude | scenario/scripts/snapshot.py:670-673 | a section's value is fetched when it is selected and is the section's empty value otherwise (`IncludedSections`) |
| Snapshot.IncludedSections | scenario/scripts/snapshot.py:670-749 | with a selection, a section is fetched iff its letter occurs in it; without one, every section is fetched |

## Left out

- `patch_module`, `patch_class` and `DecorateSpec`: runtime monkey-patching with `setattr`; only the wrapper they install (`Mocking.Wrap`) is modelled.
- The change id from `ExecOutput._run()` is a parameter. A network's `hook_tool_output_fmt()` reply is kept as the opaque `Network` value. Neither code is part of this model.
- `pebble.ExecError` is an abstract `ProcessFailed(command, exitCode)`, because the class is imported only for type checking.
- All logger calls are left out. `log_fn` is represented by the returned log line.
- Temporary files are an abstract store of fresh handles:
  - `NamedTemporaryFile` and `Path.exists`/`open`/`write_text` in pull and push;
  - `TemporaryDirectory`, `os.makedirs` and `fetch_file` in `get_mounts`, where a mount's local directory is its creation index.
- Aliasing between the scene's state and the dictionaries the charm holds is not modelled: replies are values.
- Argument tuples of the wrong shape collapse into one `BadArguments` cause. It is wrapped where the source unpacks or indexes the tuple inside the wrapping `try`, and raw in pull and push. The three setters that keep their tuple are the exception, as the next line says.
- `Simulator.Setter`: `status_set`, `juju_log` and `application_version_set` accept exactly `(status, message)`, `(level, message)` and one version argument, and answer any other tuple with a wrapped "setting" `BadArguments`. The source never unpacks these: it stores any `args` as the status pair or the log entry and reads only `args[0]` as the version (scenario/mocking.py:164-177), so that failure exists only in the model. Status pairs and log entries are typed values, not tuples of any length.
- A layer without a `services` key is not modelled: a layer is its services map.
- A `_request` with an explicit `None` third argument is not told apart from one without it. A services request with `None` as its query is modelled as the `IndexOutOfRange` cause, as when the query is missing, instead of a `TypeError`. A system-info probe with a `None` third argument is answered as the two-item probe, where the source's exact tuple comparison fails and raises a wrapped `NotImplementedError` (scenario/mocking.py:233, 256-257).
- `Text.ParseInt` accepts an optional sign and ASCII digits. Python's `int()` also accepts surrounding whitespace, underscores and non-ASCII digits.
- Paths are strings. `str(Path)` normalisation and `Path.parts` in `get_mounts` are not modelled.
- The `"number"` converter keeps the raw value (`Snapshot.FloatOf`): floats and `float()`'s own `ValueError` are not modelled.
- `send_signal` of the process handle is not modelled: it raises `NotImplementedError` and touches no state.
- `Snapshot.Clean`: when a key is missing, the keys already deleted from the caller's dictionary are not modelled. The method returns a new map.
- `Mocking.Scene.PushCall`: the directories the walk creates in place and the final binding are applied as one `Filesystem.Bind`. A push that fails after the walk still stores its backing file, as in the source.
- `Mocking.Trimmed` and `Mocking.LogLine` carry no contract of their own. Their properties are the lemmas `TrimmedBounds` and `LogLineShape`.
- `Snapshot.GetConfig`: the settings mapping is taken to have distinct names, as a dictionary does.

## Findings

| source | as written | input that shows it | evidently intended | confidence | as-written member | corrected member |
|---|---|---|---|---|---|---|
| scenario/mocking.py:246-251 | the inner loop removes from `service_names` while iterating over it, so the name that slides into the removed slot is not visited in that layer | names `a,b`, one layer declaring both: only `a` is returned | every requested name comes from the first layer declaring it | high, not executed | Simulator.ServicesSkipExample | Simulator.ScanIntendedFindsFirst |
| scenario/scripts/snapshot.py:344-354 | the `fetch_files and not mount_meta` guard lets a container without `mounts` through when there is nothing to fetch, and `for mt in None` raises `TypeError` | container metadata without `mounts`, `fetch_files=None` | no mounts, an empty result | high, not executed | Snapshot.MountsWithoutMountsKey | Snapshot.GetMountsIntended |
| scenario/scripts/snapshot.py:503 | the default `()` for a missing `settings` key has no `.items()`, so it raises `AttributeError` | `juju config` output without `settings` | an empty config | medium, not executed | Snapshot.GetConfig | Snapshot.GetConfigIntended |
