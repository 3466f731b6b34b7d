/**
  The `AutoSignalProcessor` node: four tables it updates in place and the
  notification handlers that drive them. Each method is proved to leave the
  tables and the host's connection list exactly as the matching function of
  the Registry module says.
*/
module Processor {
  import opened Wrappers
  import opened Models
  import opened Attributes
  import opened SceneModel
  import opened HostModel
  import opened Registry

  class AutoSignalProcessor {
    /** The processor's own node handle: the target of the child-monitor subscriptions. */
    const id: NodeId
    /** The host whose connection list `Connect` and `Disconnect` change. */
    const host: Host

    var trackedNodes: map<NodeId, seq<SignalConnection>>
    var dynamicConnections: map<NodeId, seq<DynamicSignalConnection>>
    var dynamicTrackedConnections: map<NodeId, seq<SignalConnection>>
    var processedTypes: set<TypeId>

    /** The tables and the host's connections as one value. */
    function State(): Tables
      reads this, host
    {
      Tables(trackedNodes, dynamicConnections, dynamicTrackedConnections, processedTypes, host.links)
    }

    constructor(id: NodeId, host: Host)
      ensures this.id == id && this.host == host
      ensures State() == Tables(map[], map[], map[], {}, host.links)
    {
      this.id := id;
      this.host := host;
      trackedNodes := map[];
      dynamicConnections := map[];
      dynamicTrackedConnections := map[];
      processedTypes := {};
    }

    /** `GetTrackedNodeCount`: reads `_trackedNodes` only. */
    function GetTrackedNodeCount(): (n: nat)
      reads this
      ensures n == |State().tracked.Keys|
    {
      |trackedNodes.Keys|
    }

    /** `IsNodeTracked`: reads `_trackedNodes` only; a tracked node is counted by `GetTrackedNodeCount`. */
    predicate IsNodeTracked(node: NodeId): (r: bool)
      reads this
      ensures r <==> node in State().tracked
      ensures r ==> GetTrackedNodeCount() >= 1
    {
      node in trackedNodes
    }

    /** `ConnectSignal`: the connection type becomes the connect flags. */
    method ConnectSignal(c: SignalConnection)
      modifies host
      ensures State() == Connect(old(State()), c)
    {
      var flags: nat := match c.connectionType
        case Deferred => FLAG_DEFERRED
        case OneShot => FLAG_ONE_SHOT
        case Normal => 0;
      host.Connect(HostLink(c.source, c.signalName, c.target, c.methodName, flags));
    }

    /** `DisconnectSignalSafe`: disconnects only when both endpoints are valid, and says whether it did. */
    method DisconnectSignalSafe(scene: Scene, c: SignalConnection) returns (done: bool)
      modifies host
      ensures done == EndpointsValid(scene, c)
      ensures host.links == if done then Without(old(host.links), {ConnKey(c)}) else old(host.links)
    {
      done := false;
      if IsInstanceValid(scene, c.source) && IsInstanceValid(scene, c.target) {
        host.Disconnect(ConnKey(c));
        done := true;
      }
    }

    /**
      The `foreach` over a connection list that calls `DisconnectSignalSafe` on each,
      counting the ones it reports as disconnected.
    */
    method DisconnectEach(scene: Scene, cs: seq<SignalConnection>) returns (disconnected: nat)
      modifies host
      ensures host.links == Without(old(host.links), LiveKeys(cs, scene))
      ensures disconnected == ValidCount(cs, |cs|, scene)
    {
      disconnected := 0;
      ghost var links0 := host.links;
      WithoutNothing(links0);
      assert LiveKeys(cs[..0], scene) == {};
      var i := 0;
      while i < |cs|
        invariant 0 <= i <= |cs|
        invariant host.links == Without(links0, LiveKeys(cs[..i], scene))
        invariant disconnected == ValidCount(cs, i, scene)
      {
        ghost var before := host.links;
        ghost var count := disconnected;
        var done := DisconnectSignalSafe(scene, cs[i]);
        if done {
          disconnected := disconnected + 1;
        }
        DisconnectStep(links0, cs, i, scene, before, host.links, count, disconnected);
        i := i + 1;
      }
      assert cs[..|cs|] == cs;
    }

    /** `HasAutoSignalMethods`: a cached type answers at once; a marked type is cached when found. */
    method HasAutoSignalMethods(scene: Scene, ty: TypeId) returns (has: bool)
      modifies this`processedTypes
      ensures (has, processedTypes) == Registry.HasAutoSignalMethods(old(processedTypes), scene, ty)
    {
      if ty in processedTypes {
        return true;
      }
      var ms := MethodsOfType(scene, ty);
      var i := 0;
      while i < |ms|
        invariant 0 <= i <= |ms|
        invariant forall j :: 0 <= j < i ==> ms[j].marker.None?
        invariant processedTypes == old(processedTypes)
      {
        if ms[i].marker.Some? {
          processedTypes := processedTypes + {ty};
          return true;
        }
        i := i + 1;
      }
      return false;
    }

    /** `TryConnectToChild`. */
    method TryConnectToChild(scene: Scene, child: NodeId, rule: DynamicSignalConnection)
      modifies this, host
      ensures State() == Registry.TryConnectToChild(old(State()), scene, child, rule)
    {
      var target := DynamicTarget(scene, child, rule.nodePath);
      if target.Some? && HasSignal(scene, target.value, rule.signalName) {
        var c := SignalConnection(target.value, rule.owner, rule.signalName, rule.methodName, rule.connectionType);
        ConnectSignal(c);
        if child !in dynamicTrackedConnections {
          dynamicTrackedConnections := dynamicTrackedConnections[child := []];
        }
        dynamicTrackedConnections := dynamicTrackedConnections[child := dynamicTrackedConnections[child] + [c]];
      }
    }

    /** `TryConnectExistingChildren`. */
    method TryConnectExistingChildren(scene: Scene, rule: DynamicSignalConnection)
      modifies this, host
      ensures State() == ConnectExistingChildren(old(State()), scene, rule, ChildrenOf(scene, rule.owner))
    {
      var cs := ChildrenOf(scene, rule.owner);
      var i := 0;
      while i < |cs|
        invariant 0 <= i <= |cs|
        invariant State() == ConnectExistingChildren(old(State()), scene, rule, cs[..i])
      {
        assert cs[..i + 1][..i] == cs[..i];
        TryConnectToChild(scene, cs[i], rule);
        i := i + 1;
      }
      assert cs[..|cs|] == cs;
    }

    /** `SetupDynamicConnection`: each monitor is subscribed only when not already connected. */
    method SetupDynamicConnection(scene: Scene, rule: DynamicSignalConnection)
      modifies this, host
      ensures State() == Registry.SetupDynamicConnection(old(State()), scene, id, rule)
    {
      var enter := EnterMonitorKey(rule.owner, id);
      if !host.IsConnected(enter) {
        host.Connect(MonitorLink(enter));
      }
      var exit := ExitMonitorKey(rule.owner, id);
      if !host.IsConnected(exit) {
        host.Connect(MonitorLink(exit));
      }
      TryConnectExistingChildren(scene, rule);
    }

    /** `OnChildEnteredTree`. */
    method OnChildEnteredTree(scene: Scene, child: NodeId)
      modifies this, host
      ensures State() == Registry.OnChildEnteredTree(old(State()), scene, child)
    {
      var parent := ParentOf(scene, child);
      if parent.None? || parent.value !in dynamicConnections {
        return;
      }
      var rs := dynamicConnections[parent.value];
      var i := 0;
      while i < |rs|
        invariant 0 <= i <= |rs|
        invariant State() == ConnectRules(old(State()), scene, child, rs[..i])
      {
        assert rs[..i + 1][..i] == rs[..i];
        TryConnectToChild(scene, child, rs[i]);
        i := i + 1;
      }
      assert rs[..|rs|] == rs;
    }

    /** `OnChildExitedTree`. */
    method OnChildExitedTree(scene: Scene, child: NodeId)
      modifies this, host
      ensures State() == Registry.OnChildExitedTree(old(State()), scene, child)
    {
      if child in dynamicTrackedConnections {
        var _ := DisconnectEach(scene, dynamicTrackedConnections[child]);
        dynamicTrackedConnections := dynamicTrackedConnections - {child};
      }
    }

    /** `ProcessNodeSignals`: also the manual `ProcessNode` entry point. */
    method ProcessNodeSignals(scene: Scene, node: NodeId)
      modifies this, host
      ensures State() == Registry.ProcessNodeSignals(old(State()), scene, id, node)
    {
      var ms := MethodsOf(scene, node);
      var conns: seq<SignalConnection> := [];
      var rules: seq<DynamicSignalConnection> := [];
      ghost var s0 := ScanState(State(), [], []);
      var i := 0;
      while i < |ms|
        invariant 0 <= i <= |ms|
        invariant ScanMethods(s0, scene, id, node, ms[..i]) == ScanState(State(), conns, rules)
      {
        ghost var before := ScanState(State(), conns, rules);
        var m := ms[i];
        match m.marker {
          case None =>
          case Some(a) =>
            if a.dynamic {
              var rule := RuleOf(node, m, a);
              rules := rules + [rule];
              SetupDynamicConnection(scene, rule);
            } else {
              var c := CreateSignalConnection(scene, node, m, a);
              if c.Some? {
                conns := conns + [c.value];
                ConnectSignal(c.value);
              }
            }
        }
        ScanStep(s0, scene, id, node, ms, i, before, ScanState(State(), conns, rules));
        i := i + 1;
      }
      assert ms[..|ms|] == ms;
      if |conns| > 0 {
        trackedNodes := trackedNodes[node := conns];
      }
      if |rules| > 0 {
        dynamicConnections := dynamicConnections[node := rules];
      }
    }

    /** `OnNodeAdded`: `None` is a null node. */
    method OnNodeAdded(scene: Scene, node: Option<NodeId>)
      requires node.Some? ==> node.value in scene.nodes
      modifies this, host
      ensures State() == Registry.OnNodeAdded(old(State()), scene, id, node)
    {
      if node.None? || node.value in trackedNodes {
        return;
      }
      var n := node.value;
      var has := HasAutoSignalMethods(scene, scene.nodes[n].typ);
      if has {
        ProcessNodeSignals(scene, n);
      }
    }

    /** `CleanupDynamicConnections`: each monitor is disconnected only when connected. */
    method CleanupDynamicConnections(node: NodeId)
      modifies this, host
      ensures State() == Registry.CleanupDynamicConnections(old(State()), id, node)
    {
      if node in dynamicConnections {
        var enter := EnterMonitorKey(node, id);
        if host.IsConnected(enter) {
          host.Disconnect(enter);
        } else {
          WithoutAbsent(host.links, {enter});
        }
        var exit := ExitMonitorKey(node, id);
        if host.IsConnected(exit) {
          host.Disconnect(exit);
        } else {
          WithoutAbsent(host.links, {exit});
        }
        dynamicConnections := dynamicConnections - {node};
      }
    }

    /**
      `DisconnectNodeSignals`: also the manual `DisconnectNode` entry point.
      Returns how many connections it reported as disconnected.
    */
    method DisconnectNodeSignals(scene: Scene, node: NodeId) returns (disconnected: nat)
      modifies this, host
      ensures State() == Registry.DisconnectNodeSignals(old(State()), scene, id, node)
      ensures disconnected == if node in old(trackedNodes) then ValidCount(old(trackedNodes)[node], |old(trackedNodes)[node]|, scene) else 0
      ensures !IsNodeTracked(node)
    {
      disconnected := 0;
      if node in trackedNodes {
        disconnected := DisconnectEach(scene, trackedNodes[node]);
        trackedNodes := trackedNodes - {node};
      }
      if node in dynamicConnections {
        CleanupDynamicConnections(node);
      }
    }

    /** `OnNodeRemoved`: `None` is a null node. */
    method OnNodeRemoved(scene: Scene, node: Option<NodeId>)
      modifies this, host
      ensures State() == Registry.OnNodeRemoved(old(State()), scene, id, node)
    {
      if node.Some? {
        if node.value in trackedNodes {
          var _ := DisconnectNodeSignals(scene, node.value);
        }
        if node.value in dynamicConnections {
          CleanupDynamicConnections(node.value);
        }
      }
    }

    /** Disconnects every connection of every list of `m`, in whatever order the keys are visited. */
    method DisconnectAll(scene: Scene, m: map<NodeId, seq<SignalConnection>>)
      modifies host
      ensures host.links == Without(old(host.links), AllLiveKeys(m, scene))
    {
      var keys := m.Keys;
      ghost var visited: set<NodeId> := {};
      WithoutNothing(host.links);
      assert LiveKeysOver(m, visited, scene) == {};
      while keys != {}
        invariant keys + visited == m.Keys && keys !! visited
        invariant host.links == Without(old(host.links), LiveKeysOver(m, visited, scene))
        decreases keys
      {
        var k :| k in keys;
        ghost var before := LiveKeysOver(m, visited, scene);
        var _ := DisconnectEach(scene, m[k]);
        WithoutUnion(old(host.links), before, LiveKeys(m[k], scene));
        LiveKeysOverAdd(m, visited, k, scene);
        keys := keys - {k};
        visited := visited + {k};
      }
    }

    /** `_ExitTree`: unbind every static and resolved connection, then empty all four tables. */
    method ExitTree(scene: Scene)
      modifies this, host
      ensures State() == Registry.ExitTree(old(State()), scene)
    {
      DisconnectAll(scene, trackedNodes);
      DisconnectAll(scene, dynamicTrackedConnections);
      WithoutUnion(old(host.links), AllLiveKeys(trackedNodes, scene), AllLiveKeys(dynamicTrackedConnections, scene));
      trackedNodes := map[];
      dynamicConnections := map[];
      dynamicTrackedConnections := map[];
      processedTypes := {};
    }
  }
}
