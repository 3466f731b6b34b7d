/**
  What the wiring rules promise, proved about the Registry functions: the
  node-added guard and type filter, skipping of unresolvable markers, arming
  the child monitors at most once, dynamic path resolution, removal of exactly
  one key, the wire/unwire round trip and teardown.
*/
module RegistryProperties {
  import opened Wrappers
  import opened Models
  import opened Attributes
  import opened NodePaths
  import opened SceneModel
  import opened HostModel
  import opened Registry

  // ---------------------------------------------------------------- reference definitions

  /** The connection a static marker on `m` yields, as a list of zero or one. */
  function StaticOf(scene: Scene, node: NodeId, m: MethodInfo): seq<SignalConnection>
  {
    match m.marker
    case None => []
    case Some(a) =>
      if a.dynamic then []
      else match CreateSignalConnection(scene, node, m, a)
        case None => []
        case Some(c) => [c]
  }

  /** The dynamic rules one method contributes. */
  function RulesOf(node: NodeId, m: MethodInfo): seq<DynamicSignalConnection>
  {
    match m.marker
    case None => []
    case Some(a) => if a.dynamic then [RuleOf(node, m, a)] else []
  }

  /** The static connections of a method list, independent of any table. */
  function StaticConnections(scene: Scene, node: NodeId, ms: seq<MethodInfo>): seq<SignalConnection>
  {
    if |ms| == 0 then []
    else StaticConnections(scene, node, ms[..|ms| - 1]) + StaticOf(scene, node, ms[|ms| - 1])
  }

  /** The dynamic rules of a method list. */
  function DynamicRules(node: NodeId, ms: seq<MethodInfo>): seq<DynamicSignalConnection>
  {
    if |ms| == 0 then []
    else DynamicRules(node, ms[..|ms| - 1]) + RulesOf(node, ms[|ms| - 1])
  }

  predicate IsStaticMarker(m: MethodInfo)
  {
    m.marker.Some? && !m.marker.value.dynamic
  }

  // ---------------------------------------------------------------- binder

  /** An empty path binds the node to itself; the target is always the node, with the method's name. */
  lemma EmptyPathIsSelf(scene: Scene, node: NodeId, m: MethodInfo, a: AutoSignalAttribute)
    ensures a.nodePath == "" ==>
      CreateSignalConnection(scene, node, m, a) == Some(SignalConnection(node, node, a.signalName, m.name, a.connectionType))
    ensures CreateSignalConnection(scene, node, m, a).Some? <==> a.nodePath == "" || HasNode(scene, node, a.nodePath)
    ensures CreateSignalConnection(scene, node, m, a).Some? ==>
      var c := CreateSignalConnection(scene, node, m, a).value;
      c.target == node && c.methodName == m.name && c.signalName == a.signalName
      && LinkOf(c).flags == ConnectFlags(a.connectionType)
  {
  }

  lemma {:induction false} StaticConnectionsAppend(scene: Scene, node: NodeId, a: seq<MethodInfo>, b: seq<MethodInfo>)
    ensures StaticConnections(scene, node, a + b) == StaticConnections(scene, node, a) + StaticConnections(scene, node, b)
  {
    if |b| == 0 {
      assert a + b == a;
    } else {
      assert (a + b)[..|a + b| - 1] == a + b[..|b| - 1];
      StaticConnectionsAppend(scene, node, a, b[..|b| - 1]);
    }
  }

  /**
    A static marker whose source does not resolve is skipped, and the markers
    after it are still processed.
  */
  lemma UnresolvedMarkerSkipped(scene: Scene, node: NodeId, pre: seq<MethodInfo>, m: MethodInfo, post: seq<MethodInfo>)
    requires IsStaticMarker(m)
    requires CreateSignalConnection(scene, node, m, m.marker.value).None?
    ensures StaticConnections(scene, node, pre + [m] + post)
         == StaticConnections(scene, node, pre) + StaticConnections(scene, node, post)
  {
    StaticConnectionsAppend(scene, node, pre + [m], post);
    StaticConnectionsSnoc(scene, node, pre, m);
    assert StaticOf(scene, node, m) == [];
  }

  lemma StaticConnectionsSnoc(scene: Scene, node: NodeId, pre: seq<MethodInfo>, m: MethodInfo)
    ensures StaticConnections(scene, node, pre + [m]) == StaticConnections(scene, node, pre) + StaticOf(scene, node, m)
  {
    var pm := pre + [m];
    assert pm[..|pm| - 1] == pre && pm[|pm| - 1] == m;
  }

  /** A connection is in the static list exactly when some static marker yields it. */
  lemma {:induction false} StaticConnectionsExactly(scene: Scene, node: NodeId, ms: seq<MethodInfo>, c: SignalConnection)
    ensures c in StaticConnections(scene, node, ms) <==>
      exists j :: 0 <= j < |ms| && IsStaticMarker(ms[j])
                  && CreateSignalConnection(scene, node, ms[j], ms[j].marker.value) == Some(c)
  {
    if |ms| > 0 {
      var init := ms[..|ms| - 1];
      StaticConnectionsExactly(scene, node, init, c);
      if c in StaticConnections(scene, node, ms) {
        if c in StaticConnections(scene, node, init) {
          var j :| 0 <= j < |init| && IsStaticMarker(init[j])
                   && CreateSignalConnection(scene, node, init[j], init[j].marker.value) == Some(c);
          assert ms[j] == init[j];
        }
      } else {
        forall j | 0 <= j < |ms| && IsStaticMarker(ms[j])
          ensures CreateSignalConnection(scene, node, ms[j], ms[j].marker.value) != Some(c)
        {
          if j < |init| {
            assert ms[j] == init[j];
          }
        }
      }
    }
  }

  // ---------------------------------------------------------------- scanning

  lemma {:induction false} ConnectExistingChildrenFrame(t: Tables, scene: Scene, rule: DynamicSignalConnection, cs: seq<NodeId>)
    ensures var r := ConnectExistingChildren(t, scene, rule, cs);
      r.tracked == t.tracked && r.rules == t.rules && r.types == t.types
  {
    if |cs| > 0 {
      ConnectExistingChildrenFrame(t, scene, rule, cs[..|cs| - 1]);
    }
  }

  /** One method of the scan adds its static connection or its rule, and leaves the tables alone. */
  lemma ScanMethodShape(p: ScanState, scene: Scene, self: NodeId, node: NodeId, m: MethodInfo)
    ensures var r := ScanMethod(p, scene, self, node, m);
      && r.conns == p.conns + StaticOf(scene, node, m)
      && r.rules == p.rules + RulesOf(node, m)
      && r.t.tracked == p.t.tracked && r.t.rules == p.t.rules && r.t.types == p.t.types
  {
    if m.marker.Some? && m.marker.value.dynamic {
      var rule := RuleOf(node, m, m.marker.value);
      ConnectExistingChildrenFrame(Subscribe(p.t, self, rule.owner), scene, rule, ChildrenOf(scene, rule.owner));
    }
  }

  /** The scan fills its two lists with exactly the reference lists and leaves three tables alone. */
  lemma {:induction false} ScanShape(s: ScanState, scene: Scene, self: NodeId, node: NodeId, ms: seq<MethodInfo>)
    ensures var r := ScanMethods(s, scene, self, node, ms);
      && r.conns == s.conns + StaticConnections(scene, node, ms)
      && r.rules == s.rules + DynamicRules(node, ms)
      && r.t.tracked == s.t.tracked && r.t.rules == s.t.rules && r.t.types == s.t.types
  {
    if |ms| > 0 {
      var init := ms[..|ms| - 1];
      var m := ms[|ms| - 1];
      ScanShape(s, scene, self, node, init);
      var p := ScanMethods(s, scene, self, node, init);
      ScanMethodShape(p, scene, self, node, m);
      assert StaticConnections(scene, node, ms) == StaticConnections(scene, node, init) + StaticOf(scene, node, m);
    }
  }

  /**
    After processing, the node is under `_trackedNodes` with its static
    connections only if there is at least one, and under `_dynamicConnections`
    with its rules only if it has a dynamic marker; nothing else in those
    tables, nor the type cache, changes.
  */
  lemma ProcessNodeTables(t: Tables, scene: Scene, self: NodeId, node: NodeId)
    ensures var r := ProcessNodeSignals(t, scene, self, node);
      var sc := StaticConnections(scene, node, MethodsOf(scene, node));
      var dr := DynamicRules(node, MethodsOf(scene, node));
      && r.tracked == (if |sc| > 0 then t.tracked[node := sc] else t.tracked)
      && r.rules == (if |dr| > 0 then t.rules[node := dr] else t.rules)
      && r.types == t.types
  {
    var ms := MethodsOf(scene, node);
    ScanShape(ScanState(t, [], []), scene, self, node, ms);
    var s := ScanMethods(ScanState(t, [], []), scene, self, node, ms);
    assert s.conns == StaticConnections(scene, node, ms);
    assert s.rules == DynamicRules(node, ms);
  }

  // ---------------------------------------------------------------- node added

  /** A null node or one already in `_trackedNodes` changes nothing. */
  lemma NodeAddedGuard(t: Tables, scene: Scene, self: NodeId, node: Option<NodeId>)
    requires node.Some? ==> node.value in scene.nodes
    requires node == None || node.value in t.tracked
    ensures OnNodeAdded(t, scene, self, node) == t
  {
  }

  /** A node whose type is cached, or has a marked method, is processed; a second add is a no-op once tracked. */
  lemma NodeAddedTwice(t: Tables, scene: Scene, self: NodeId, n: NodeId)
    requires n in scene.nodes
    requires n in OnNodeAdded(t, scene, self, Some(n)).tracked
    ensures var once := OnNodeAdded(t, scene, self, Some(n));
      OnNodeAdded(once, scene, self, Some(n)) == once
  {
  }

  /**
    With a cache that holds only marked types, the cached answer of
    `HasAutoSignalMethods` is the uncached one, a type is added only when it is
    marked, and the cache stays sound.
  */
  lemma CacheTransparent(t: Tables, scene: Scene, ty: TypeId)
    requires CacheSound(t, scene)
    ensures var (has, types) := HasAutoSignalMethods(t.types, scene, ty);
      && has == HasMarker(MethodsOfType(scene, ty))
      && types == (if has then t.types + {ty} else t.types)
      && CacheSound(t.(types := types), scene)
  {
  }

  /** A node of a type with no marked method causes no change at all. */
  lemma NodeAddedUnmarked(t: Tables, scene: Scene, self: NodeId, n: NodeId)
    requires n in scene.nodes && CacheSound(t, scene)
    requires !HasMarker(MethodsOf(scene, n))
    ensures OnNodeAdded(t, scene, self, Some(n)) == t
  {
    CacheTransparent(t, scene, scene.nodes[n].typ);
  }

  /** The type cache only ever holds types with marked methods. */
  lemma NodeAddedKeepsCacheSound(t: Tables, scene: Scene, self: NodeId, node: Option<NodeId>)
    requires node.Some? ==> node.value in scene.nodes
    requires CacheSound(t, scene)
    ensures CacheSound(OnNodeAdded(t, scene, self, node), scene)
  {
    if node.Some? && node.value !in t.tracked {
      var n := node.value;
      CacheTransparent(t, scene, scene.nodes[n].typ);
      var (has, types) := HasAutoSignalMethods(t.types, scene, scene.nodes[n].typ);
      if has {
        ProcessNodeTables(t.(types := types), scene, self, n);
      }
    }
  }

  // ---------------------------------------------------------------- removal

  /** `DisconnectNodeSignals` drops the node's key from the static and rule tables and nothing else. */
  lemma DisconnectNodeDropsOneKey(t: Tables, scene: Scene, self: NodeId, node: NodeId)
    ensures var r := DisconnectNodeSignals(t, scene, self, node);
      && r.tracked == t.tracked - {node}
      && r.rules == t.rules - {node}
      && r.resolved == t.resolved
      && r.types == t.types
      && (node in t.tracked ==> forall l :: l in r.links ==> KeyOf(l) !in LiveKeys(t.tracked[node], scene))
  {
    if node in t.tracked {
      var l1 := Without(t.links, LiveKeys(t.tracked[node], scene));
      WithoutDrops(t.links, LiveKeys(t.tracked[node], scene));
      if node in t.rules {
        var l2 := Without(l1, {EnterMonitorKey(node, self)});
        WithoutMembers(l1, {EnterMonitorKey(node, self)});
        WithoutMembers(l2, {ExitMonitorKey(node, self)});
      }
    }
  }

  /** `OnChildExitedTree` drops exactly the child's key of the resolved table and unbinds what it held. */
  lemma ChildExitedDropsOneKey(t: Tables, scene: Scene, child: NodeId)
    ensures var r := OnChildExitedTree(t, scene, child);
      && r.resolved == t.resolved - {child}
      && r.tracked == t.tracked && r.rules == t.rules && r.types == t.types
      && (child in t.resolved ==> forall l :: l in r.links ==> KeyOf(l) !in LiveKeys(t.resolved[child], scene))
      && (child !in t.resolved ==> r == t)
  {
    if child in t.resolved {
      WithoutDrops(t.links, LiveKeys(t.resolved[child], scene));
    }
  }

  /** `CleanupDynamicConnections` leaves the resolved table and every other owner's rules untouched. */
  lemma CleanupLeavesResolved(t: Tables, self: NodeId, node: NodeId)
    ensures var r := CleanupDynamicConnections(t, self, node);
      && r.rules == t.rules - {node}
      && r.resolved == t.resolved && r.tracked == t.tracked && r.types == t.types
      && (node in t.rules ==> !HasKey(r.links, EnterMonitorKey(node, self)) && !HasKey(r.links, ExitMonitorKey(node, self)))
      && (node !in t.rules ==> r == t)
  {
    if node in t.rules {
      var enter, exit := EnterMonitorKey(node, self), ExitMonitorKey(node, self);
      var l1 := Without(t.links, {enter});
      var l2 := Without(l1, {exit});
      WithoutDrops(t.links, {enter});
      WithoutDrops(l1, {exit});
      WithoutMembers(l1, {exit});
    }
  }

  /**
    Wiring a node that was not tracked and then removing it restores
    `_trackedNodes`, `_dynamicConnections` and the tracked-node count.
  */
  lemma WireThenUnwire(t: Tables, scene: Scene, self: NodeId, n: NodeId)
    requires n in scene.nodes
    requires n !in t.tracked && n !in t.rules
    ensures var r := OnNodeRemoved(OnNodeAdded(t, scene, self, Some(n)), scene, self, Some(n));
      r.tracked == t.tracked && r.rules == t.rules && |r.tracked.Keys| == |t.tracked.Keys|
  {
    var (has, types) := HasAutoSignalMethods(t.types, scene, scene.nodes[n].typ);
    if has {
      ProcessNodeTables(t.(types := types), scene, self, n);
      var w := OnNodeAdded(t, scene, self, Some(n));
      assert w.tracked - {n} == t.tracked;
      assert w.rules - {n} == t.rules;
    }
  }

  // ---------------------------------------------------------------- teardown

  /** Teardown empties the four tables, unbinds every live connection, and a second teardown changes nothing. */
  lemma ExitTreeEmptiesAndRepeats(t: Tables, scene: Scene)
    ensures var r := ExitTree(t, scene);
      && r.tracked == map[] && r.rules == map[] && r.resolved == map[] && r.types == {}
      && (forall k, c :: k in t.tracked && c in t.tracked[k] && EndpointsValid(scene, c) ==>
            forall l :: l in r.links ==> KeyOf(l) != ConnKey(c))
      && (forall k, c :: k in t.resolved && c in t.resolved[k] && EndpointsValid(scene, c) ==>
            forall l :: l in r.links ==> KeyOf(l) != ConnKey(c))
      && ExitTree(r, scene) == r
  {
    var r := ExitTree(t, scene);
    WithoutDrops(t.links, AllLiveKeys(t.tracked, scene) + AllLiveKeys(t.resolved, scene));
    assert AllLiveKeys(r.tracked, scene) + AllLiveKeys(r.resolved, scene) == {};
    WithoutNothing(r.links);
  }
}
