/**
  The legacy `SignalManager` registry: one list of connections per node, no
  idempotence guard, no liveness check on disconnect, and a connect loop that
  stops at the first marker whose source does not resolve. It ignores the
  marker's `Dynamic` flag.
*/
module LegacyManager {
  import opened Wrappers
  import opened Models
  import opened Attributes
  import opened SceneModel
  import opened HostModel
  import opened Registry
  import RegistryProperties

  /** `_connections` and the host's connection list. */
  datatype ManagerState = ManagerState(connections: map<NodeId, seq<SignalConnection>>, links: seq<HostLink>)

  /** The source of a marker: the node itself for an empty path. */
  function ResolveSource(scene: Scene, node: NodeId, a: AutoSignalAttribute): Option<NodeId>
  {
    if a.nodePath == "" then Some(node) else GetNode(scene, node, a.nodePath)
  }

  /** The connections `ConnectSignals` makes, in order, up to the first unresolved marker. */
  function ManagerConnections(scene: Scene, node: NodeId, ms: seq<MethodInfo>): seq<SignalConnection>
  {
    if |ms| == 0 then []
    else match ms[0].marker
      case None => ManagerConnections(scene, node, ms[1..])
      case Some(a) =>
        match ResolveSource(scene, node, a)
        case None => []
        case Some(s) => [SignalConnection(s, node, a.signalName, ms[0].name, a.connectionType)]
                        + ManagerConnections(scene, node, ms[1..])
  }

  /** The connections the loop makes from index `i` on: the loop's own view of `ManagerConnections`. */
  function ManagerFrom(scene: Scene, node: NodeId, ms: seq<MethodInfo>, i: nat): seq<SignalConnection>
    decreases |ms| - i
  {
    if i >= |ms| then []
    else match ms[i].marker
      case None => ManagerFrom(scene, node, ms, i + 1)
      case Some(a) =>
        match ResolveSource(scene, node, a)
        case None => []
        case Some(s) => [SignalConnection(s, node, a.signalName, ms[i].name, a.connectionType)]
                        + ManagerFrom(scene, node, ms, i + 1)
  }

  lemma {:induction false} ManagerFromSuffix(scene: Scene, node: NodeId, ms: seq<MethodInfo>, i: nat)
    requires i <= |ms|
    ensures ManagerFrom(scene, node, ms, i) == ManagerConnections(scene, node, ms[i..])
    decreases |ms| - i
  {
    if i < |ms| {
      ManagerFromSuffix(scene, node, ms, i + 1);
      assert ms[i..][0] == ms[i] && ms[i..][1..] == ms[i + 1..];
    }
  }

  /** The host links of a list of connections, in order. */
  function LinksOf(cs: seq<SignalConnection>): seq<HostLink>
  {
    if |cs| == 0 then [] else LinksOf(cs[..|cs| - 1]) + [LinkOf(cs[|cs| - 1])]
  }

  /** The state after connecting and tracking `cs` for `node`, one `TrackConnection` each. */
  function Tracked(st: ManagerState, node: NodeId, cs: seq<SignalConnection>): ManagerState
  {
    ManagerState(
      if |cs| == 0 then st.connections
      else st.connections[node := (if node in st.connections then st.connections[node] else []) + cs],
      st.links + LinksOf(cs))
  }

  /** `ConnectSignals`. */
  function ConnectedState(st: ManagerState, scene: Scene, node: NodeId): ManagerState
  {
    Tracked(st, node, ManagerConnections(scene, node, MethodsOf(scene, node)))
  }

  function KeysOf(cs: seq<SignalConnection>): set<LinkKey>
  {
    set c | c in cs :: ConnKey(c)
  }

  /** `DisconnectSignals`: every recorded connection is disconnected, valid endpoints or not. */
  function DisconnectedState(st: ManagerState, node: NodeId): ManagerState
  {
    if node !in st.connections then st
    else ManagerState(st.connections - {node}, Without(st.links, KeysOf(st.connections[node])))
  }

  // ---------------------------------------------------------------- properties

  /** The first marked method whose source is missing ends the loop: nothing after it is connected. */
  lemma {:induction false} StopsAtFirstUnresolved(scene: Scene, node: NodeId, pre: seq<MethodInfo>, m: MethodInfo, post: seq<MethodInfo>)
    requires m.marker.Some? && ResolveSource(scene, node, m.marker.value).None?
    ensures ManagerConnections(scene, node, pre + [m] + post) == ManagerConnections(scene, node, pre)
  {
    if |pre| == 0 {
      assert pre + [m] + post == [m] + post;
      assert ([m] + post)[0] == m;
    } else {
      assert (pre + [m] + post)[0] == pre[0];
      assert (pre + [m] + post)[1..] == pre[1..] + [m] + post;
      StopsAtFirstUnresolved(scene, node, pre[1..], m, post);
    }
  }

  /** Every connection the loop makes targets the node. */
  lemma {:induction false} ConnectionsTargetNode(scene: Scene, node: NodeId, ms: seq<MethodInfo>)
    ensures forall c :: c in ManagerConnections(scene, node, ms) ==> c.target == node
  {
    if |ms| > 0 {
      ConnectionsTargetNode(scene, node, ms[1..]);
    }
  }

  /** Every marked method of `ms` has a source that resolves, so the loop does not break inside `ms`. */
  predicate AllResolve(scene: Scene, node: NodeId, ms: seq<MethodInfo>)
  {
    forall i :: 0 <= i < |ms| && ms[i].marker.Some? ==> ResolveSource(scene, node, ms[i].marker.value).Some?
  }

  /** Before the first unresolved marker, the connections of a concatenation are the concatenation of the connections. */
  lemma {:induction false} ManagerAppend(scene: Scene, node: NodeId, a: seq<MethodInfo>, b: seq<MethodInfo>)
    requires AllResolve(scene, node, a)
    ensures ManagerConnections(scene, node, a + b) == ManagerConnections(scene, node, a) + ManagerConnections(scene, node, b)
  {
    if |a| == 0 {
      assert a + b == b;
    } else {
      assert (a + b)[0] == a[0];
      assert (a + b)[1..] == a[1..] + b;
      assert AllResolve(scene, node, a[1..]) by {
        forall i | 0 <= i < |a[1..]| && a[1..][i].marker.Some?
          ensures ResolveSource(scene, node, a[1..][i].marker.value).Some?
        {
          assert a[1..][i] == a[i + 1];
        }
      }
      ManagerAppend(scene, node, a[1..], b);
    }
  }

  /**
    A marker with an empty path, at any position the loop reaches, makes the
    node its own source: its connection sits between those of the methods
    before it and those after it.
  */
  lemma EmptyPathAnywhere(scene: Scene, node: NodeId, pre: seq<MethodInfo>, m: MethodInfo, post: seq<MethodInfo>)
    requires AllResolve(scene, node, pre)
    requires m.marker.Some? && m.marker.value.nodePath == ""
    ensures ManagerConnections(scene, node, pre + [m] + post)
      == ManagerConnections(scene, node, pre)
         + [SignalConnection(node, node, m.marker.value.signalName, m.name, m.marker.value.connectionType)]
         + ManagerConnections(scene, node, post)
  {
    ManagerAppend(scene, node, pre, [m] + post);
    assert pre + [m] + post == pre + ([m] + post);
    assert ([m] + post)[0] == m && ([m] + post)[1..] == post;
  }

  /**
    When every marker is static and resolves, the legacy manager connects
    exactly what the processor connects.
  */
  lemma {:induction false} AgreesWithProcessor(scene: Scene, node: NodeId, ms: seq<MethodInfo>)
    requires forall i :: 0 <= i < |ms| && ms[i].marker.Some? ==>
      !ms[i].marker.value.dynamic && ResolveSource(scene, node, ms[i].marker.value).Some?
    ensures ManagerConnections(scene, node, ms) == RegistryProperties.StaticConnections(scene, node, ms)
  {
    if |ms| > 0 {
      AgreesWithProcessor(scene, node, ms[1..]);
      RegistryProperties.StaticConnectionsAppend(scene, node, [ms[0]], ms[1..]);
      assert [ms[0]] + ms[1..] == ms;
      assert [ms[0]][..0] == [];
    }
  }

  /** No idempotence guard: connecting a node twice doubles its list and its host links. */
  lemma ConnectTwiceDoubles(st: ManagerState, scene: Scene, node: NodeId)
    requires node !in st.connections
    ensures var cs := ManagerConnections(scene, node, MethodsOf(scene, node));
      var twice := ConnectedState(ConnectedState(st, scene, node), scene, node);
      && (|cs| > 0 ==> twice.connections[node] == cs + cs)
      && twice.links == st.links + LinksOf(cs) + LinksOf(cs)
  {
  }

  /** Disconnecting an untracked node changes nothing; otherwise exactly its key goes, with its links. */
  lemma DisconnectDropsOneKey(st: ManagerState, node: NodeId)
    ensures node !in st.connections ==> DisconnectedState(st, node) == st
    ensures var r := DisconnectedState(st, node);
      && r.connections == st.connections - {node}
      && (node in st.connections ==> forall l :: l in r.links ==> KeyOf(l) !in KeysOf(st.connections[node]))
  {
    if node in st.connections {
      WithoutDrops(st.links, KeysOf(st.connections[node]));
    }
  }

  /** Connecting a fresh node and disconnecting it restores the table and removes every link it added. */
  lemma {:induction false} ConnectThenDisconnect(st: ManagerState, scene: Scene, node: NodeId)
    requires node !in st.connections
    ensures var r := DisconnectedState(ConnectedState(st, scene, node), node);
      var cs := ManagerConnections(scene, node, MethodsOf(scene, node));
      && r.connections == st.connections
      && r.links == (if |cs| == 0 then st.links else Without(st.links, KeysOf(cs)))
  {
    var cs := ManagerConnections(scene, node, MethodsOf(scene, node));
    if |cs| > 0 {
      var w := ConnectedState(st, scene, node);
      assert w.connections[node] == cs;
      LinksOfKeys(cs);
      WithoutAll(LinksOf(cs), KeysOf(cs));
      WithoutAppend(st.links, LinksOf(cs), KeysOf(cs));
      assert w.connections - {node} == st.connections;
    }
  }

  lemma {:induction false} LinksOfKeys(cs: seq<SignalConnection>)
    ensures forall i :: 0 <= i < |LinksOf(cs)| ==> KeyOf(LinksOf(cs)[i]) in KeysOf(cs)
    ensures |LinksOf(cs)| == |cs|
  {
    if |cs| > 0 {
      LinksOfKeys(cs[..|cs| - 1]);
      forall i | 0 <= i < |LinksOf(cs)| ensures KeyOf(LinksOf(cs)[i]) in KeysOf(cs) {
        if i < |cs| - 1 {
          assert LinksOf(cs)[i] == LinksOf(cs[..|cs| - 1])[i];
          assert KeysOf(cs[..|cs| - 1]) <= KeysOf(cs);
        } else {
          assert cs[|cs| - 1] in cs;
        }
      }
    }
  }

  /** One more tracked connection: the step `ConnectSignals` takes per resolved marker. */
  lemma TrackedSnoc(st: ManagerState, node: NodeId, made: seq<SignalConnection>, c: SignalConnection,
                    before: ManagerState, after: ManagerState)
    requires before == Tracked(st, node, made)
    requires after == ManagerState(Track(before.connections, node, c), before.links + [LinkOf(c)])
    ensures after == Tracked(st, node, made + [c])
  {
    assert (made + [c])[..|made|] == made;
    assert LinksOf(made + [c]) == LinksOf(made) + [LinkOf(c)];
    var old_ := if node in st.connections then st.connections[node] else [];
    if |made| > 0 {
      assert Tracked(st, node, made).connections[node] == old_ + made;
      assert old_ + (made + [c]) == (old_ + made) + [c];
    }
  }

  /** The three ways one iteration of the `ConnectSignals` loop moves along `ManagerFrom`. */
  lemma ManagerFromSkip(scene: Scene, node: NodeId, ms: seq<MethodInfo>, i: nat,
                        made: seq<SignalConnection>, all: seq<SignalConnection>)
    requires i < |ms| && ms[i].marker.None?
    requires made + ManagerFrom(scene, node, ms, i) == all
    ensures made + ManagerFrom(scene, node, ms, i + 1) == all
  {
  }

  lemma ManagerFromStop(scene: Scene, node: NodeId, ms: seq<MethodInfo>, i: nat,
                        made: seq<SignalConnection>, all: seq<SignalConnection>)
    requires i < |ms| && ms[i].marker.Some? && ResolveSource(scene, node, ms[i].marker.value).None?
    requires made + ManagerFrom(scene, node, ms, i) == all
    ensures made == all
  {
    assert made + [] == made;
  }

  lemma ManagerFromTake(scene: Scene, node: NodeId, ms: seq<MethodInfo>, i: nat,
                        made: seq<SignalConnection>, all: seq<SignalConnection>, c: SignalConnection)
    requires i < |ms| && ms[i].marker.Some?
    requires ResolveSource(scene, node, ms[i].marker.value) == Some(c.source)
    requires c == SignalConnection(c.source, node, ms[i].marker.value.signalName, ms[i].name,
                                   ms[i].marker.value.connectionType)
    requires made + ManagerFrom(scene, node, ms, i) == all
    ensures (made + [c]) + ManagerFrom(scene, node, ms, i + 1) == all
  {
    assert made + ([c] + ManagerFrom(scene, node, ms, i + 1)) == (made + [c]) + ManagerFrom(scene, node, ms, i + 1);
  }

  // ---------------------------------------------------------------- the class

  class SignalManager {
    const host: Host
    var connections: map<NodeId, seq<SignalConnection>>

    function State(): ManagerState
      reads this, host
    {
      ManagerState(connections, host.links)
    }

    constructor(host: Host)
      ensures this.host == host && connections == map[]
    {
      this.host := host;
      connections := map[];
    }

    /** `ConnectSignal`: the same connection type to flags mapping, Normal passing 0. */
    method ConnectSignal(c: SignalConnection)
      modifies host
      ensures host.links == old(host.links) + [LinkOf(c)]
    {
      var flags: nat := match c.connectionType
        case Deferred => FLAG_DEFERRED
        case OneShot => FLAG_ONE_SHOT
        case Normal => 0;
      host.Connect(HostLink(c.source, c.signalName, c.target, c.methodName, flags));
    }

    /** `TrackConnection`: appends, creating the node's list when absent. */
    method TrackConnection(node: NodeId, c: SignalConnection)
      modifies this
      ensures connections == Track(old(connections), node, c)
    {
      if node !in connections {
        connections := connections[node := []];
      }
      connections := connections[node := connections[node] + [c]];
    }

    /** `ConnectSignals`. */
    method ConnectSignals(scene: Scene, node: NodeId)
      modifies this, host
      ensures State() == ConnectedState(old(State()), scene, node)
    {
      var ms := MethodsOf(scene, node);
      ghost var st0 := State();
      ghost var all := ManagerFrom(scene, node, ms, 0);
      ghost var made: seq<SignalConnection> := [];
      var i := 0;
      while i < |ms|
        invariant 0 <= i <= |ms|
        invariant made + ManagerFrom(scene, node, ms, i) == all
        invariant State() == Tracked(st0, node, made)
      {
        var m := ms[i];
        if m.marker.None? {
          ManagerFromSkip(scene, node, ms, i, made, all);
          i := i + 1;
          continue;
        }
        var a := m.marker.value;
        var source := ResolveSource(scene, node, a);
        if source.None? {
          ManagerFromStop(scene, node, ms, i, made, all);
          break;
        }
        var c := SignalConnection(source.value, node, a.signalName, m.name, a.connectionType);
        ManagerFromTake(scene, node, ms, i, made, all, c);
        ghost var before := State();
        ConnectSignal(c);
        TrackConnection(node, c);
        TrackedSnoc(st0, node, made, c, before, State());
        made := made + [c];
        i := i + 1;
      }
      if i == |ms| {
        assert made == all;
      }
      ManagerFromSuffix(scene, node, ms, 0);
      assert ms[0..] == ms;
    }

    /** `DisconnectSignals`: no liveness check before each disconnect. */
    method DisconnectSignals(node: NodeId)
      modifies this, host
      ensures State() == DisconnectedState(old(State()), node)
    {
      if node !in connections {
        return;
      }
      var cs := connections[node];
      WithoutNothing(host.links);
      assert KeysOf(cs[..0]) == {};
      var i := 0;
      while i < |cs|
        invariant 0 <= i <= |cs|
        invariant connections == old(connections)
        invariant host.links == Without(old(host.links), KeysOf(cs[..i]))
      {
        assert cs[..i + 1] == cs[..i] + [cs[i]];
        assert KeysOf(cs[..i + 1]) == KeysOf(cs[..i]) + {ConnKey(cs[i])};
        WithoutUnion(old(host.links), KeysOf(cs[..i]), {ConnKey(cs[i])});
        host.Disconnect(ConnKey(cs[i]));
        i := i + 1;
      }
      assert cs[..|cs|] == cs;
      connections := connections - {node};
    }
  }
}
