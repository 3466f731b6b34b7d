/**
  The registry's four tables and the host connection list as one value, and
  each notification the processor handles as a function from tables to tables.
  The processor class proves its methods against these functions; the
  properties of the wiring rules are proved about them in RegistryProperties.
*/
module Registry {
  import opened Wrappers
  import opened Models
  import opened Attributes
  import opened NodePaths
  import opened SceneModel
  import opened HostModel

  /** The host's names for the child-monitor signals and the processor's two callbacks. */
  const CHILD_ENTERED_TREE: string := "child_entered_tree"
  const CHILD_EXITING_TREE: string := "child_exiting_tree"
  const ON_CHILD_ENTERED_TREE: string := "OnChildEnteredTree"
  const ON_CHILD_EXITED_TREE: string := "OnChildExitedTree"

  /**
    `_trackedNodes`, `_dynamicConnections`, `_dynamicTrackedConnections`,
    `_processedTypes`, and the host's connection list.
  */
  datatype Tables = Tables(
    tracked: map<NodeId, seq<SignalConnection>>,
    rules: map<NodeId, seq<DynamicSignalConnection>>,
    resolved: map<NodeId, seq<SignalConnection>>,
    types: set<TypeId>,
    links: seq<HostLink>)

  // ---------------------------------------------------------------- host links

  /** The link `ConnectSignal` asks the host for. */
  function LinkOf(c: SignalConnection): HostLink
  {
    HostLink(c.source, c.signalName, c.target, c.methodName, ConnectFlags(c.connectionType))
  }

  function ConnKey(c: SignalConnection): LinkKey
  {
    LinkKey(c.source, c.signalName, c.target, c.methodName)
  }

  /** The liveness test of `DisconnectSignalSafe`. */
  predicate EndpointsValid(scene: Scene, c: SignalConnection)
  {
    IsInstanceValid(scene, c.source) && IsInstanceValid(scene, c.target)
  }

  /** The keys `DisconnectSignalSafe` actually disconnects, for a list of connections. */
  function LiveKeys(cs: seq<SignalConnection>, scene: Scene): set<LinkKey>
  {
    set c | c in cs && EndpointsValid(scene, c) :: ConnKey(c)
  }

  /** The same over the lists of a table stored under the keys `ks`. */
  function LiveKeysOver(m: map<NodeId, seq<SignalConnection>>, ks: set<NodeId>, scene: Scene): set<LinkKey>
  {
    set k, c | k in ks && k in m && c in m[k] && EndpointsValid(scene, c) :: ConnKey(c)
  }

  /** The same over every list of a table. */
  function AllLiveKeys(m: map<NodeId, seq<SignalConnection>>, scene: Scene): set<LinkKey>
  {
    LiveKeysOver(m, m.Keys, scene)
  }

  lemma LiveKeysSnoc(cs: seq<SignalConnection>, j: nat, scene: Scene)
    requires j < |cs|
    ensures LiveKeys(cs[..j + 1], scene)
         == LiveKeys(cs[..j], scene) + (if EndpointsValid(scene, cs[j]) then {ConnKey(cs[j])} else {})
  {
    assert cs[..j + 1] == cs[..j] + [cs[j]];
  }

  /**
    One more `DisconnectSignalSafe` over a list: from the links left by the
    first `i` connections, disconnecting the next one when its endpoints are
    valid leaves the links and the count of the first `i + 1`.
  */
  lemma DisconnectStep(links: seq<HostLink>, cs: seq<SignalConnection>, i: nat, scene: Scene,
                       before: seq<HostLink>, after: seq<HostLink>, count: nat, count': nat)
    requires i < |cs|
    requires before == Without(links, LiveKeys(cs[..i], scene))
    requires after == if EndpointsValid(scene, cs[i]) then Without(before, {ConnKey(cs[i])}) else before
    requires count == ValidCount(cs, i, scene)
    requires count' == if EndpointsValid(scene, cs[i]) then count + 1 else count
    ensures after == Without(links, LiveKeys(cs[..i + 1], scene))
    ensures count' == ValidCount(cs, i + 1, scene)
  {
    LiveKeysSnoc(cs, i, scene);
    var done := LiveKeys(cs[..i], scene);
    if EndpointsValid(scene, cs[i]) {
      assert LiveKeys(cs[..i + 1], scene) == done + {ConnKey(cs[i])};
      WithoutUnion(links, done, {ConnKey(cs[i])});
    } else {
      assert LiveKeys(cs[..i + 1], scene) == done;
    }
  }

  lemma LiveKeysOverAdd(m: map<NodeId, seq<SignalConnection>>, ks: set<NodeId>, k: NodeId, scene: Scene)
    requires k in m
    ensures LiveKeysOver(m, ks + {k}, scene) == LiveKeysOver(m, ks, scene) + LiveKeys(m[k], scene)
  {
  }

  /** How many of the first `n` connections of `cs` `DisconnectSignalSafe` reports as disconnected. */
  function ValidCount(cs: seq<SignalConnection>, n: nat, scene: Scene): nat
    requires n <= |cs|
  {
    if n == 0 then 0
    else ValidCount(cs, n - 1, scene) + (if EndpointsValid(scene, cs[n - 1]) then 1 else 0)
  }

  /** `ConnectSignal`. */
  function Connect(t: Tables, c: SignalConnection): Tables
  {
    t.(links := t.links + [LinkOf(c)])
  }

  // ---------------------------------------------------------------- scanner

  predicate HasMarker(ms: seq<MethodInfo>)
  {
    exists i :: 0 <= i < |ms| && ms[i].marker.Some?
  }

  /** `HasAutoSignalMethods`: the answer and the new type cache. */
  function HasAutoSignalMethods(types: set<TypeId>, scene: Scene, ty: TypeId): (bool, set<TypeId>)
  {
    if ty in types then (true, types)
    else if HasMarker(MethodsOfType(scene, ty)) then (true, types + {ty})
    else (false, types)
  }

  /** Every cached type really has a marked method. */
  predicate CacheSound(t: Tables, scene: Scene)
  {
    forall ty :: ty in t.types ==> HasMarker(MethodsOfType(scene, ty))
  }

  // ---------------------------------------------------------------- binder

  /** `CreateSignalConnection`: the node itself for an empty path, else the node at the path. */
  function CreateSignalConnection(scene: Scene, node: NodeId, m: MethodInfo, a: AutoSignalAttribute)
    : (r: Option<SignalConnection>)
    ensures r.Some? <==> a.nodePath == "" || HasNode(scene, node, a.nodePath)
    ensures r.Some? ==>
      && r.value.target == node && r.value.methodName == m.name
      && r.value.signalName == a.signalName && r.value.connectionType == a.connectionType
    ensures r.Some? && a.nodePath != "" ==> GetNode(scene, node, a.nodePath) == Some(r.value.source)
  {
    var source := if a.nodePath == "" then Some(node) else GetNode(scene, node, a.nodePath);
    match source
    case None => None
    case Some(s) => Some(SignalConnection(s, node, a.signalName, m.name, a.connectionType))
  }

  // ---------------------------------------------------------------- dynamic monitor

  function EnterMonitorKey(owner: NodeId, self: NodeId): LinkKey
  {
    LinkKey(owner, CHILD_ENTERED_TREE, self, ON_CHILD_ENTERED_TREE)
  }

  function ExitMonitorKey(owner: NodeId, self: NodeId): LinkKey
  {
    LinkKey(owner, CHILD_EXITING_TREE, self, ON_CHILD_EXITED_TREE)
  }

  /** A monitor subscription is made without flags. */
  function MonitorLink(k: LinkKey): HostLink
  {
    HostLink(k.source, k.signal, k.target, k.handler, 0)
  }

  /** `if (!IsConnected(...)) Connect(...)`. */
  function SubscribeOnce(links: seq<HostLink>, k: LinkKey): seq<HostLink>
  {
    if HasKey(links, k) then links else links + [MonitorLink(k)]
  }

  /** The two guarded subscriptions at the head of `SetupDynamicConnection`. */
  function Subscribe(t: Tables, self: NodeId, owner: NodeId): Tables
  {
    t.(links := SubscribeOnce(SubscribeOnce(t.links, EnterMonitorKey(owner, self)), ExitMonitorKey(owner, self)))
  }

  /** The source `TryConnectToChild` picks for a rule's path, before the signal check. */
  function DynamicTarget(scene: Scene, child: NodeId, path: string): (r: Option<NodeId>)
    ensures path == "" ==> r == Some(child)
    ensures r.Some? ==> r == Some(child) || r == GetNode(scene, child, path) || r == GetNode(scene, child, RemainingPath(path))
    ensures r.None? ==> path != "" && !HasNode(scene, child, path)
  {
    if path == "" then Some(child)
    else if HasNode(scene, child, path) then GetNode(scene, child, path)
    else if NameOf(scene, child) == Some(FirstSegment(path)) then
      var rest := RemainingPath(path);
      if rest == "" then Some(child)
      else if HasNode(scene, child, rest) then GetNode(scene, child, rest)
      else None
    else None
  }

  /** The connection `TryConnectToChild` makes: only to a target that exposes the rule's signal. */
  function ChildConnection(scene: Scene, child: NodeId, rule: DynamicSignalConnection): Option<SignalConnection>
  {
    match DynamicTarget(scene, child, rule.nodePath)
    case None => None
    case Some(target) =>
      if HasSignal(scene, target, rule.signalName)
      then Some(SignalConnection(target, rule.owner, rule.signalName, rule.methodName, rule.connectionType))
      else None
  }

  /** Appends `c` to the list under `key`, creating the list when absent. */
  function Track(m: map<NodeId, seq<SignalConnection>>, key: NodeId, c: SignalConnection)
    : map<NodeId, seq<SignalConnection>>
  {
    m[key := (if key in m then m[key] else []) + [c]]
  }

  /** `TryConnectToChild`: connect and record under the child's key. */
  function TryConnectToChild(t: Tables, scene: Scene, child: NodeId, rule: DynamicSignalConnection): Tables
  {
    match ChildConnection(scene, child, rule)
    case None => t
    case Some(c) => Connect(t, c).(resolved := Track(t.resolved, child, c))
  }

  /** `TryConnectExistingChildren` over the children `cs`, in order. */
  function ConnectExistingChildren(t: Tables, scene: Scene, rule: DynamicSignalConnection, cs: seq<NodeId>): Tables
  {
    if |cs| == 0 then t
    else TryConnectToChild(ConnectExistingChildren(t, scene, rule, cs[..|cs| - 1]), scene, cs[|cs| - 1], rule)
  }

  /** `SetupDynamicConnection`: subscribe the owner's monitors once, then try every existing child. */
  function SetupDynamicConnection(t: Tables, scene: Scene, self: NodeId, rule: DynamicSignalConnection): Tables
  {
    ConnectExistingChildren(Subscribe(t, self, rule.owner), scene, rule, ChildrenOf(scene, rule.owner))
  }

  /** The loop of `OnChildEnteredTree` over the parent's rules `rs`, in order. */
  function ConnectRules(t: Tables, scene: Scene, child: NodeId, rs: seq<DynamicSignalConnection>): Tables
  {
    if |rs| == 0 then t
    else TryConnectToChild(ConnectRules(t, scene, child, rs[..|rs| - 1]), scene, child, rs[|rs| - 1])
  }

  /** `OnChildEnteredTree`: only a child whose parent holds rules is considered. */
  function OnChildEnteredTree(t: Tables, scene: Scene, child: NodeId): Tables
  {
    match ParentOf(scene, child)
    case None => t
    case Some(p) => if p in t.rules then ConnectRules(t, scene, child, t.rules[p]) else t
  }

  /** `OnChildExitedTree`: disconnect what is recorded under the child, and drop that key. */
  function OnChildExitedTree(t: Tables, scene: Scene, child: NodeId): Tables
  {
    if child in t.resolved then
      t.(links := Without(t.links, LiveKeys(t.resolved[child], scene)), resolved := t.resolved - {child})
    else t
  }

  // ---------------------------------------------------------------- processing

  /** The locals of `ProcessNodeSignals` while it walks the methods. */
  datatype ScanState = ScanState(t: Tables, conns: seq<SignalConnection>, rules: seq<DynamicSignalConnection>)

  function RuleOf(node: NodeId, m: MethodInfo, a: AutoSignalAttribute): DynamicSignalConnection
  {
    DynamicSignalConnection(node, a.nodePath, a.signalName, m.name, a.connectionType)
  }

  /** One iteration of the loop in `ProcessNodeSignals`. */
  function ScanMethod(s: ScanState, scene: Scene, self: NodeId, node: NodeId, m: MethodInfo): ScanState
  {
    match m.marker
    case None => s
    case Some(a) =>
      if a.dynamic then
        var rule := RuleOf(node, m, a);
        ScanState(SetupDynamicConnection(s.t, scene, self, rule), s.conns, s.rules + [rule])
      else
        match CreateSignalConnection(scene, node, m, a)
        case None => s
        case Some(c) => ScanState(Connect(s.t, c), s.conns + [c], s.rules)
  }

  /** The loop of `ProcessNodeSignals` over the methods `ms`, in order. */
  function ScanMethods(s: ScanState, scene: Scene, self: NodeId, node: NodeId, ms: seq<MethodInfo>): ScanState
  {
    if |ms| == 0 then s
    else ScanMethod(ScanMethods(s, scene, self, node, ms[..|ms| - 1]), scene, self, node, ms[|ms| - 1])
  }

  /** One iteration of the scan, from the state after the first `i` methods to the state after `i + 1`. */
  lemma ScanStep(s0: ScanState, scene: Scene, self: NodeId, node: NodeId, ms: seq<MethodInfo>, i: nat,
                 before: ScanState, after: ScanState)
    requires i < |ms|
    requires before == ScanMethods(s0, scene, self, node, ms[..i])
    requires after == ScanMethod(before, scene, self, node, ms[i])
    ensures after == ScanMethods(s0, scene, self, node, ms[..i + 1])
  {
    assert ms[..i + 1][..i] == ms[..i];
  }

  /** `ProcessNodeSignals`: scan, then store each list only when it is non-empty. */
  function ProcessNodeSignals(t: Tables, scene: Scene, self: NodeId, node: NodeId): Tables
  {
    var s := ScanMethods(ScanState(t, [], []), scene, self, node, MethodsOf(scene, node));
    s.t.(tracked := if |s.conns| > 0 then s.t.tracked[node := s.conns] else s.t.tracked,
         rules := if |s.rules| > 0 then s.t.rules[node := s.rules] else s.t.rules)
  }

  /** `OnNodeAdded`: the idempotence guard, the type filter, then processing. */
  function OnNodeAdded(t: Tables, scene: Scene, self: NodeId, node: Option<NodeId>): Tables
    requires node.Some? ==> node.value in scene.nodes
  {
    match node
    case None => t
    case Some(n) =>
      if n in t.tracked then t
      else
        var (has, types) := HasAutoSignalMethods(t.types, scene, scene.nodes[n].typ);
        var t1 := t.(types := types);
        if has then ProcessNodeSignals(t1, scene, self, n) else t1
  }

  // ---------------------------------------------------------------- removal

  /** `CleanupDynamicConnections`: unsubscribe the monitors and drop the owner's rules. */
  function CleanupDynamicConnections(t: Tables, self: NodeId, node: NodeId): Tables
  {
    if node in t.rules then
      t.(links := Without(Without(t.links, {EnterMonitorKey(node, self)}), {ExitMonitorKey(node, self)}),
         rules := t.rules - {node})
    else t
  }

  /** `DisconnectNodeSignals`: unbind the static list, drop it, then clean up the rules. */
  function DisconnectNodeSignals(t: Tables, scene: Scene, self: NodeId, node: NodeId): Tables
  {
    var t1 :=
      if node in t.tracked then
        t.(links := Without(t.links, LiveKeys(t.tracked[node], scene)), tracked := t.tracked - {node})
      else t;
    if node in t1.rules then CleanupDynamicConnections(t1, self, node) else t1
  }

  /** `OnNodeRemoved`. */
  function OnNodeRemoved(t: Tables, scene: Scene, self: NodeId, node: Option<NodeId>): Tables
  {
    match node
    case None => t
    case Some(n) =>
      var t1 := if n in t.tracked then DisconnectNodeSignals(t, scene, self, n) else t;
      if n in t1.rules then CleanupDynamicConnections(t1, self, n) else t1
  }

  /** `_ExitTree`: every live static and resolved connection unbound, all four tables emptied. */
  function ExitTree(t: Tables, scene: Scene): Tables
  {
    Tables(map[], map[], map[], {},
           Without(t.links, AllLiveKeys(t.tracked, scene) + AllLiveKeys(t.resolved, scene)))
  }
}
