# Auto signals for Godot, modelled in Dafny

The add-on connects Godot signals to C# methods that carry an
`[AutoSignal(signal, nodePath, connectionType, dynamic)]` marker. This
project models its core:

- **`AutoSignalProcessor`**, the autoload that sees every node enter and
  leave the scene tree. It keeps four tables:
  - static connections per node;
  - dynamic rules per owner;
  - the dynamic connections resolved per child;
  - a cache of the types known to carry markers.
  It connects static markers when a node is added. For a dynamic marker it
  subscribes the owner's `child_entered_tree` / `child_exiting_tree` to
  itself, so each matching child gets connected on entry and disconnected on
  exit. On removal and at teardown it disconnects what it made, but only
  where both endpoints are still valid.
- **`AutoSignalAttribute`**: the marker's constructor, which rejects a null,
  empty or whitespace signal name.
- **`SignalManager`**, the older registry: one connection list per node, a
  connect loop that stops at the first unresolvable path, and a disconnect
  with no validity check.
- **`SignalConnection`**, **`DynamicSignalConnection`** and
  **`SignalConnectionType`**, modelled as values.

## How the model is built

- **Scene tree.** The tree is a value, `SceneModel.Scene`: nodes with a
  name, parent, ordered children, signals and type, plus the set of valid
  instances. Reflection over a type's methods becomes a table from type to an
  ordered method list, each entry with an optional marker.
- **Host connections.** Godot's per-object connection lists become one list
  of links held by a `HostModel.Host` object. A link is (source, signal,
  target, method, flags):
  - `Connect` appends a link;
  - `Disconnect` removes the links with that (source, signal, target,
    method) key;
  - `IsConnected` tests for that key.
- **Specification functions.** Each processor method is specified by a pure
  transition on `Registry.Tables`, which holds the four tables and the
  host's links. Each table-changing method of
  `Processor.AutoSignalProcessor` ensures
  `State() == Registry.F(old(State()), ...)`, and the lemmas prove the
  behaviour of those functions. The disconnect helpers
  (`DisconnectSignalSafe`, `DisconnectEach`, `DisconnectAll`) change only
  the host's links and state the new link list. `HasAutoSignalMethods`
  changes only the type cache and states the new cache.
- **Legacy manager.** `LegacyManager` follows the same pattern for
  `SignalManager`.
- **Node identity.** Nodes are `nat` identifiers. The processor's own node
  is its `id`, and the child monitors are links from an owner to that id.
- **Flags.** Connection flags are Godot's: Deferred is 1, OneShot is 4 and
  Normal is 0.

## Model

| member | source | states |
|---|---|---|
| Models.ConnectFlagsRoundTrip | addons/auto_signals/Scripts/Core/AutoSignalProcessor.cs:266-271 | the switch from connection type to connect flags is injective (it can be read back) and yields 0 exactly for Normal |
| Attributes.NewAutoSignalAttribute | addons/auto_signals/Scripts/Attributes/AutoSignalAttribute.cs:51-71 | a null name gives ArgumentNull; otherwise an empty or all-whitespace name (the .NET whitespace set) gives the argument error; otherwise the attribute holds the name unchanged, a null path becomes "", and the type and dynamic flag are kept |
| Attributes.AcceptedNameHasVisibleChar | addons/auto_signals/Scripts/Attributes/AutoSignalAttribute.cs:61-67 | an accepted signal name contains at least one non-whitespace character |
| Attributes.Defaults | addons/auto_signals/Scripts/Attributes/AutoSignalAttribute.cs:51-56 | the defaults are path "", Normal and not dynamic, and omitting the path and passing null give the same attribute |
| Attributes.NameExamples | Tests/Unit/AutoSignalAttributeTests.cs:67-163 | the test vectors: "", spaces, tab, newline and mixed whitespace are rejected; inner spaces, case, Unicode names and a padded path are kept as given |
| NodePaths.Split | addons/auto_signals/Scripts/Core/AutoSignalProcessor.cs:474-480 | splitting a path on '/' yields at least one segment and no segment contains '/' |
| NodePaths.JoinSplit | addons/auto_signals/Scripts/Core/AutoSignalProcessor.cs:477-480 | joining the split segments with '/' gives back the path |
| NodePaths.SplitJoin | addons/auto_signals/Scripts/Core/AutoSignalProcessor.cs:477-480 | splitting a join of slash-free segments gives back the segments |
| NodePaths.FirstAndRemaining | addons/auto_signals/Scripts/Core/AutoSignalProcessor.cs:474-480 | for a path whose first '/' is at i, the first segment is the text before i and the remaining path is the text after it |
| NodePaths.SingleSegmentPath | addons/auto_signals/Scripts/Core/AutoSignalProcessor.cs:474-484 | a path with no '/' is its own first segment and leaves an empty remaining path |
| SceneModel.FindChild | addons/auto_signals/Scripts/Core/AutoSignalProcessor.cs:470-473 | a child lookup by name returns a child with that name, and returns nothing exactly when no child has it |
| SceneModel.GetNodeThrough | addons/auto_signals/Scripts/Core/AutoSignalProcessor.cs:485-488 | resolving "a/b" from a node is resolving b from its child named a |
| HostModel.WithoutMembers | addons/auto_signals/Scripts/Core/AutoSignalProcessor.cs:326-329 | after disconnecting a set of keys, a link remains exactly when it was there before and its key is not in the set |
| HostModel.WithoutDrops | addons/auto_signals/Scripts/Core/AutoSignalProcessor.cs:326-329 | after disconnecting a set of keys, no link with any of those keys is left |
| HostModel.WithoutAll | addons/auto_signals/Scripts/Core/AutoSignalProcessor.cs:326-329 | disconnecting a set that covers every key leaves no link at all |
| HostModel.WithoutUnion | addons/auto_signals/Scripts/Core/AutoSignalProcessor.cs:62-77 | disconnecting two key sets one after the other is disconnecting their union |
| HostModel.Host.Connect | addons/auto_signals/Scripts/Core/AutoSignalProcessor.cs:273-277 | a connect appends exactly one link |
| HostModel.Host.Disconnect | addons/auto_signals/Scripts/Core/AutoSignalProcessor.cs:326-329 | a disconnect removes every link with that key and keeps the rest in order |
| Registry.LiveKeysOverAdd | addons/auto_signals/Scripts/Core/AutoSignalProcessor.cs:62-77 | the live keys of a map over one more key are the old ones plus that key's live connections |
| Processor.AutoSignalProcessor.constructor | addons/auto_signals/Scripts/Core/AutoSignalProcessor.cs:23-31 | the four tables start empty |
| Processor.AutoSignalProcessor.GetTrackedNodeCount | addons/auto_signals/Scripts/Core/AutoSignalProcessor.cs:361-364 | the count is the number of nodes with static connections |
| Processor.AutoSignalProcessor.ConnectSignal | addons/auto_signals/Scripts/Core/AutoSignalProcessor.cs:262-285 | one link is added, carrying the connection type's flags |
| Processor.AutoSignalProcessor.DisconnectSignalSafe | addons/auto_signals/Scripts/Core/AutoSignalProcessor.cs:320-340 | reports success exactly when source and target are both valid, and only then removes the connection's links |
| Processor.AutoSignalProcessor.DisconnectEach | addons/auto_signals/Scripts/Core/AutoSignalProcessor.cs:295-302 | removes the links of every connection with valid endpoints and counts exactly those |
| Processor.AutoSignalProcessor.HasAutoSignalMethods | addons/auto_signals/Scripts/Core/AutoSignalProcessor.cs:127-145 | the loop returns as soon as it finds a marked method, and the answer and the cache update agree with the cached specification |
| Processor.AutoSignalProcessor.TryConnectToChild | addons/auto_signals/Scripts/Core/AutoSignalProcessor.cs:456-522 | the new state is the specification's single-child connection |
| Processor.AutoSignalProcessor.TryConnectExistingChildren | addons/auto_signals/Scripts/Core/AutoSignalProcessor.cs:445-451 | the new state is the specification applied to each current child of the owner, in order |
| Processor.AutoSignalProcessor.SetupDynamicConnection | addons/auto_signals/Scripts/Core/AutoSignalProcessor.cs:377-408 | each monitor is subscribed only when it is not already connected; existing children are then connected |
| Processor.AutoSignalProcessor.OnChildEnteredTree | addons/auto_signals/Scripts/Core/AutoSignalProcessor.cs:413-423 | when the parent has dynamic rules, each rule is applied to the child in order; otherwise nothing changes |
| Processor.AutoSignalProcessor.OnChildExitedTree | addons/auto_signals/Scripts/Core/AutoSignalProcessor.cs:428-440 | disconnects the child's resolved connections and drops its entry |
| Processor.AutoSignalProcessor.ProcessNodeSignals | addons/auto_signals/Scripts/Core/AutoSignalProcessor.cs:150-217 | the method scan stores the static connections and dynamic rules as the specification gives them |
| Processor.AutoSignalProcessor.OnNodeAdded | addons/auto_signals/Scripts/Core/AutoSignalProcessor.cs:91-103 | null and already-tracked nodes are skipped, and marked types are processed |
| Processor.AutoSignalProcessor.CleanupDynamicConnections | addons/auto_signals/Scripts/Core/AutoSignalProcessor.cs:527-560 | unsubscribes the two monitors where connected and drops the owner's rules |
| Processor.AutoSignalProcessor.IsNodeTracked | addons/auto_signals/Scripts/Core/AutoSignalProcessor.cs:369-372 | a node is tracked exactly when it has an entry in `_trackedNodes`, and a tracked node is counted by `GetTrackedNodeCount` |
| Processor.AutoSignalProcessor.DisconnectNodeSignals | addons/auto_signals/Scripts/Core/AutoSignalProcessor.cs:290-315 | disconnects the node's static connections, drops its entry and cleans up its rules; the node is no longer tracked afterwards. The source method returns nothing: the count the model returns is the count the source only logs |
| Processor.AutoSignalProcessor.OnNodeRemoved | addons/auto_signals/Scripts/Core/AutoSignalProcessor.cs:108-122 | disconnects a tracked node and cleans up its rules if it has any |
| Processor.AutoSignalProcessor.DisconnectAll | addons/auto_signals/Scripts/Core/AutoSignalProcessor.cs:62-77 | for a whole table, the links of every connection with valid endpoints are removed, whatever order the keys are visited in |
| Processor.AutoSignalProcessor.ExitTree | addons/auto_signals/Scripts/Core/AutoSignalProcessor.cs:54-86 | teardown state equals the specification's teardown |
| Registry.CreateSignalConnection | addons/auto_signals/Scripts/Core/AutoSignalProcessor.cs:222-257 | a connection exists exactly when the path is empty or resolves; it targets the node with the marker's signal, method and type, and a non-empty path's source is the node the path names |
| Registry.DynamicTarget | addons/auto_signals/Scripts/Core/AutoSignalProcessor.cs:460-490 | an empty path targets the child; any target is the child or the node reached from it by the full path or by the path after its first segment; no target is found only when the full path does not resolve |
| RegistryProperties.EmptyPathIsSelf | addons/auto_signals/Scripts/Core/AutoSignalProcessor.cs:222-257 | an empty path makes the node its own source; a connection exists exactly when the path is empty or resolves; the node is the target and the flags follow the type |
| RegistryProperties.StaticConnectionsAppend | addons/auto_signals/Scripts/Core/AutoSignalProcessor.cs:162-191 | the static scan distributes over concatenated method lists |
| RegistryProperties.UnresolvedMarkerSkipped | addons/auto_signals/Scripts/Core/AutoSignalProcessor.cs:184-189 | a static marker whose source is missing is skipped, and the markers after it are still connected |
| RegistryProperties.StaticConnectionsExactly | addons/auto_signals/Scripts/Core/AutoSignalProcessor.cs:162-191 | a connection is stored exactly when some static marker of the node produces it |
| RegistryProperties.ConnectExistingChildrenFrame | addons/auto_signals/Scripts/Core/AutoSignalProcessor.cs:445-451 | connecting existing children leaves the static, rule and type tables alone |
| RegistryProperties.ScanMethodShape | addons/auto_signals/Scripts/Core/AutoSignalProcessor.cs:168-188 | one method adds its static connection or its dynamic rule, never both, and leaves the tables alone |
| RegistryProperties.ScanShape | addons/auto_signals/Scripts/Core/AutoSignalProcessor.cs:159-191 | the scan yields the static connections and the dynamic rules in method order, and leaves the tables alone |
| RegistryProperties.ProcessNodeTables | addons/auto_signals/Scripts/Core/AutoSignalProcessor.cs:193-201 | a node's entry in a table is written only when its list is non-empty, and the type cache is unchanged |
| RegistryProperties.NodeAddedGuard | addons/auto_signals/Scripts/Core/AutoSignalProcessor.cs:93-95 | adding a null or already-tracked node changes nothing |
| RegistryProperties.NodeAddedTwice | addons/auto_signals/Scripts/Core/AutoSignalProcessor.cs:93-95 | adding a node a second time changes nothing once it has static connections |
| RegistryProperties.CacheTransparent | addons/auto_signals/Scripts/Core/AutoSignalProcessor.cs:127-145 | while the cache holds only marked types, the cached answer equals the uncached one, a type is added exactly when it is marked, and the cache stays sound |
| RegistryProperties.NodeAddedUnmarked | addons/auto_signals/Scripts/Core/AutoSignalProcessor.cs:97-102 | a node whose type has no markers leaves every table and link as it was |
| RegistryProperties.NodeAddedKeepsCacheSound | addons/auto_signals/Scripts/Core/AutoSignalProcessor.cs:91-103 | node addition keeps the cache holding only marked types |
| RegistryProperties.DisconnectNodeDropsOneKey | addons/auto_signals/Scripts/Core/AutoSignalProcessor.cs:290-315 | only the node's static entry and rules go; no link remains for its live connections, and the resolved table and the cache stay |
| RegistryProperties.ChildExitedDropsOneKey | addons/auto_signals/Scripts/Core/AutoSignalProcessor.cs:428-440 | only the child's resolved entry goes; no link remains for its live connections; an untracked child changes nothing |
| RegistryProperties.CleanupLeavesResolved | addons/auto_signals/Scripts/Core/AutoSignalProcessor.cs:527-560 | cleanup drops only the owner's rules and both monitor subscriptions, and keeps the children's resolved connections |
| RegistryProperties.WireThenUnwire | addons/auto_signals/Scripts/Core/AutoSignalProcessor.cs:91-122 | adding then removing a fresh node restores the static and rule tables and the tracked count |
| RegistryProperties.ExitTreeEmptiesAndRepeats | addons/auto_signals/Scripts/Core/AutoSignalProcessor.cs:54-86 | teardown empties the four tables, leaves no link for any live static or resolved connection, and is idempotent |
| DynamicProperties.SubscribeIdempotent | addons/auto_signals/Scripts/Core/AutoSignalProcessor.cs:380-404 | subscribing an owner's monitors twice is subscribing them once |
| DynamicProperties.SubscribeOnceCount | addons/auto_signals/Scripts/Core/AutoSignalProcessor.cs:380-391 | a guarded subscribe leaves exactly one link for its key and does not change the count for any other key |
| DynamicProperties.ConnectExistingChildrenAppends | addons/auto_signals/Scripts/Core/AutoSignalProcessor.cs:445-451 | connecting existing children only appends links, each one targeting the rule's owner |
| DynamicProperties.ArmAtMostOnce | addons/auto_signals/Scripts/Core/AutoSignalProcessor.cs:377-408 | after setting up a rule, each monitor of the owner is subscribed exactly once, however many rules the owner has |
| DynamicProperties.EmptyRulePathIsChild | addons/auto_signals/Scripts/Core/AutoSignalProcessor.cs:462-466 | an empty dynamic path targets the child itself |
| DynamicProperties.FullPathFirst | addons/auto_signals/Scripts/Core/AutoSignalProcessor.cs:470-473 | a path that resolves below the child is used as it is |
| DynamicProperties.SuffixMatch | addons/auto_signals/Scripts/Core/AutoSignalProcessor.cs:474-488 | otherwise, when the child is named like the first segment, the target is the child (empty remainder) or the remainder resolved below it |
| DynamicProperties.NameMatch | addons/auto_signals/Scripts/Core/AutoSignalProcessor.cs:474-484 | a one-segment path that does not resolve targets the child exactly when the child has that name |
| DynamicProperties.NoMatchNoTarget | addons/auto_signals/Scripts/Core/AutoSignalProcessor.cs:468-490 | a path that neither resolves nor starts with the child's name yields no target |
| DynamicProperties.ConnectRulesOnlyChild | addons/auto_signals/Scripts/Core/AutoSignalProcessor.cs:419-422 | applying rules to a child touches only that child's resolved entry, adding at most one connection per rule |
| DynamicProperties.ChildEnteredOnlyChild | addons/auto_signals/Scripts/Core/AutoSignalProcessor.cs:413-423 | a child's entry touches only its own resolved entry |
| DynamicProperties.ChildRoundTrip | addons/auto_signals/Scripts/Core/AutoSignalProcessor.cs:413-440 | a child with the rule's signal gets exactly the one connection from itself to the owner, and its exit restores the resolved table |
| LegacyManager.StopsAtFirstUnresolved | addons/auto_signals/Scripts/Core/SignalManager.cs:22-36 | once a marked method's source does not resolve, the loop breaks and no later method is connected |
| LegacyManager.ConnectionsTargetNode | addons/auto_signals/Scripts/Core/SignalManager.cs:38-44 | every connection targets the node |
| LegacyManager.ManagerAppend | addons/auto_signals/Scripts/Core/SignalManager.cs:22-48 | while no marker fails to resolve, the connections of two method lists in a row are the connections of the first followed by those of the second |
| LegacyManager.EmptyPathAnywhere | addons/auto_signals/Scripts/Core/SignalManager.cs:28-47 | a marker with an empty path, at any position the loop reaches, connects the node to itself with the marker's signal, method and type, between the connections before and after it |
| LegacyManager.AgreesWithProcessor | addons/auto_signals/Scripts/Core/SignalManager.cs:17-49 | when every marker is static and resolves, the legacy manager makes the same connections as the processor |
| LegacyManager.ConnectTwiceDoubles | addons/auto_signals/Scripts/Core/SignalManager.cs:17-49 | with no guard, connecting a node twice records its list twice and doubles its links |
| LegacyManager.DisconnectDropsOneKey | addons/auto_signals/Scripts/Core/SignalManager.cs:76-90 | an untracked node changes nothing; otherwise only its entry goes and no link with any of its keys remains |
| LegacyManager.ConnectThenDisconnect | addons/auto_signals/Scripts/Core/SignalManager.cs:17-90 | connecting a fresh node and then disconnecting it restores the table and removes every link that was added |
| LegacyManager.SignalManager.ConnectSignal | addons/auto_signals/Scripts/Core/SignalManager.cs:51-65 | adds one link with the type's flags |
| LegacyManager.SignalManager.TrackConnection | addons/auto_signals/Scripts/Core/SignalManager.cs:67-74 | appends to the node's list, creating it when absent |
| LegacyManager.SignalManager.ConnectSignals | addons/auto_signals/Scripts/Core/SignalManager.cs:17-49 | the loop with its break gives the state the specification describes |
| LegacyManager.SignalManager.DisconnectSignals | addons/auto_signals/Scripts/Core/SignalManager.cs:76-90 | disconnects every recorded connection without a validity check and drops the entry |

## Left out

- **Signal emission.** Signals are never emitted. Godot's deferred call queue
  and the automatic removal of a one-shot connection after it fires are
  outside the model; only the flags are recorded.
- **Reflection.** The method list of a type is a given table, and its order
  is the table's order. `GetMethods` promises no order. The processor's
  tables do not depend on it beyond the order within each list. In the
  legacy manager the order matters, because the loop's `break` drops every
  method after the first unresolved marker.
- **Singleton wiring.** The `_EnterTree` singleton logic, the `Instance`
  property and its null case are not modelled. The static `ProcessNode`,
  `DisconnectNode`, `GetTrackedNodeCount` and `IsNodeTracked` are
  modelled as calls on the one instance. `ProcessNode` and
  `DisconnectNode` are the same methods as `ProcessNodeSignals` and
  `DisconnectNodeSignals`.
- **Tree event wiring.** Subscribing to `NodeAdded` / `NodeRemoved` is
  left out; the processor's handlers are called directly.
- **Logging and exceptions.** Logging is left out. Exceptions caught by
  try/catch are left out: no modelled operation throws.
- **Missing signals.** Godot refuses a `Connect` to a signal the source
  does not expose. The model still appends the link. This matters for static
  markers: `Registry.CreateSignalConnection` does not check `HasSignal`, as
  in the code. So the model's host keeps a link the real host would not
  hold, while `_trackedNodes` holds the connection in both.
- **Freed endpoints in the legacy manager.** `SignalManager.DisconnectSignals`
  calls `Disconnect` with no validity check and no try/catch. When a
  recorded source has been freed, the real call fails and the exception
  skips the removal of the node's entry. The model assumes every recorded
  endpoint is still valid when `DisconnectSignals` runs: it always removes
  the keys and drops the entry.
- **Host duplicate rejection.** Godot refuses a duplicate `Connect`; the
  model appends the link anyway. The model therefore over-approximates what
  repeated connections leave behind, as the legacy double-connect lemma
  shows.
- **Node paths.** Node paths are child names separated by '/'. Absolute
  paths, "..", "." and unique names are not modelled.
- **Static marker signals.** Static markers are connected without checking
  `HasSignal`, as in the code; only dynamic markers check it.
- **Resolved entries kept.** When an owner's dynamic rules are cleaned up,
  the resolved child entries are kept. Removing a node also leaves its own
  resolved entry until it exits as a child. The model follows the code in
  both.
- **Idempotence guard.** The guard on node addition checks only the static
  table. A node whose only markers are dynamic is scanned again when it is
  added again, and the model follows the code.
- DynamicProperties.ArmAtMostOnce: assumes the owner is not the processor
  itself. Otherwise the owner's child links target the same node as the
  monitors, and the counting argument does not apply.
- **Immutable records.** `SignalConnection` and `DynamicSignalConnection`
  are datatypes, so they are immutable by construction. The dynamic rule
  stores the method's name in place of its `MethodInfo`.
