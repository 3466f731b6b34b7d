/**
  What the dynamic child monitor promises, proved about the Registry
  functions: the child monitors are subscribed at most once per owner, the
  path-resolution rule for children, and resolved connections are recorded
  under the child's key and dropped when the child leaves.
*/
module DynamicProperties {
  import opened Wrappers
  import opened Models
  import opened NodePaths
  import opened SceneModel
  import opened HostModel
  import opened Registry

  // ---------------------------------------------------------------- arming

  lemma HasKeyAppend(links: seq<HostLink>, extra: seq<HostLink>, k: LinkKey)
    requires HasKey(links, k)
    ensures HasKey(links + extra, k)
  {
    var i :| 0 <= i < |links| && KeyOf(links[i]) == k;
    assert (links + extra)[i] == links[i];
  }

  /** Subscribing an owner's monitors a second time changes nothing. */
  lemma SubscribeIdempotent(t: Tables, self: NodeId, owner: NodeId)
    ensures Subscribe(Subscribe(t, self, owner), self, owner) == Subscribe(t, self, owner)
  {
    var enter, exit := EnterMonitorKey(owner, self), ExitMonitorKey(owner, self);
    var l1 := SubscribeOnce(t.links, enter);
    assert HasKey(l1, enter) by {
      if !HasKey(t.links, enter) {
        assert KeyOf(l1[|l1| - 1]) == enter;
      }
    }
    var l2 := SubscribeOnce(l1, exit);
    assert HasKey(l2, exit) by {
      if !HasKey(l1, exit) {
        assert KeyOf(l2[|l2| - 1]) == exit;
      }
    }
    assert HasKey(l2, enter) by {
      if !HasKey(l1, exit) {
        HasKeyAppend(l1, [MonitorLink(exit)], enter);
      }
    }
  }

  /** Subscribing once leaves exactly one link for the key, if there was at most one. */
  lemma {:induction false} SubscribeOnceCount(links: seq<HostLink>, k: LinkKey, other: LinkKey)
    requires Count(links, k) <= 1
    requires other != k
    ensures Count(SubscribeOnce(links, k), k) == 1
    ensures Count(SubscribeOnce(links, other), k) == Count(links, k)
  {
    CountZero(links, k);
    CountAppend(links, [MonitorLink(k)], k);
    CountAppend(links, [MonitorLink(other)], k);
    assert [MonitorLink(other)][1..] == [];
    assert [MonitorLink(k)][1..] == [];
  }

  /** Trying the existing children only appends links, and every one of them targets the owner. */
  lemma {:induction false} ConnectExistingChildrenAppends(t: Tables, scene: Scene, rule: DynamicSignalConnection, cs: seq<NodeId>)
    ensures var r := ConnectExistingChildren(t, scene, rule, cs);
      && |t.links| <= |r.links| && r.links[..|t.links|] == t.links
      && forall i :: |t.links| <= i < |r.links| ==> r.links[i].target == rule.owner
  {
    if |cs| > 0 {
      ConnectExistingChildrenAppends(t, scene, rule, cs[..|cs| - 1]);
      var p := ConnectExistingChildren(t, scene, rule, cs[..|cs| - 1]);
      var r := TryConnectToChild(p, scene, cs[|cs| - 1], rule);
      if ChildConnection(scene, cs[|cs| - 1], rule).Some? {
        assert r.links == p.links + [LinkOf(ChildConnection(scene, cs[|cs| - 1], rule).value)];
        assert r.links[..|t.links|] == p.links[..|t.links|];
      }
    }
  }

  /** Links that all target someone else do not carry a key targeting `self`. */
  lemma {:induction false} CountOtherTargets(links: seq<HostLink>, k: LinkKey)
    requires forall i :: 0 <= i < |links| ==> links[i].target != k.target
    ensures Count(links, k) == 0
  {
    if |links| > 0 {
      CountOtherTargets(links[1..], k);
    }
  }

  /**
    Arming an owner (other than the processor itself) for a rule leaves exactly
    one child-entered and one child-exiting subscription, however often it is armed.
  */
  lemma ArmAtMostOnce(t: Tables, scene: Scene, self: NodeId, rule: DynamicSignalConnection)
    requires rule.owner != self
    requires Count(t.links, EnterMonitorKey(rule.owner, self)) <= 1
    requires Count(t.links, ExitMonitorKey(rule.owner, self)) <= 1
    ensures var r := SetupDynamicConnection(t, scene, self, rule);
      && Count(r.links, EnterMonitorKey(rule.owner, self)) == 1
      && Count(r.links, ExitMonitorKey(rule.owner, self)) == 1
  {
    var enter, exit := EnterMonitorKey(rule.owner, self), ExitMonitorKey(rule.owner, self);
    SubscribeOnceCount(t.links, enter, exit);
    var l1 := SubscribeOnce(t.links, enter);
    SubscribeOnceCount(t.links, exit, enter);
    assert Count(l1, exit) <= 1 by {
      SubscribeOnceCount(t.links, enter, exit);
      CountAppend(t.links, [MonitorLink(enter)], exit);
      assert [MonitorLink(enter)][1..] == [];
    }
    SubscribeOnceCount(l1, exit, enter);
    SubscribeOnceCount(l1, enter, exit);
    var s := Subscribe(t, self, rule.owner);
    assert Count(s.links, enter) == 1 && Count(s.links, exit) == 1;
    var cs := ChildrenOf(scene, rule.owner);
    ConnectExistingChildrenAppends(s, scene, rule, cs);
    var r := ConnectExistingChildren(s, scene, rule, cs);
    var extra := r.links[|s.links|..];
    assert r.links == s.links + extra;
    CountOtherTargets(extra, enter);
    CountOtherTargets(extra, exit);
    CountAppend(s.links, extra, enter);
    CountAppend(s.links, extra, exit);
  }

  // ---------------------------------------------------------------- path resolution

  /** An empty rule path makes the child itself the candidate source. */
  lemma EmptyRulePathIsChild(scene: Scene, child: NodeId)
    ensures DynamicTarget(scene, child, "") == Some(child)
  {
  }

  /** A path the child resolves in full is used as it is. */
  lemma FullPathFirst(scene: Scene, child: NodeId, path: string)
    requires path != "" && HasNode(scene, child, path)
    ensures DynamicTarget(scene, child, path) == GetNode(scene, child, path)
  {
  }

  /**
    A multi-segment path the child does not resolve in full: if the child's
    own name is the first segment, the rest of the path is resolved from the
    child ("Timer/Body" on a child named "Timer" yields its "Body").
  */
  lemma SuffixMatch(scene: Scene, child: NodeId, path: string, i: nat)
    requires i < |path| && path[i] == '/' && '/' !in path[..i]
    requires !HasNode(scene, child, path)
    requires NameOf(scene, child) == Some(path[..i])
    ensures path[i + 1..] == "" ==> DynamicTarget(scene, child, path) == Some(child)
    ensures path[i + 1..] != "" ==> DynamicTarget(scene, child, path) == GetNode(scene, child, path[i + 1..])
  {
    FirstAndRemaining(path, i);
  }

  /** A one-segment path the child does not have below it resolves to the child when the name matches. */
  lemma NameMatch(scene: Scene, child: NodeId, path: string)
    requires path != "" && '/' !in path
    requires !HasNode(scene, child, path)
    ensures DynamicTarget(scene, child, path) == if NameOf(scene, child) == Some(path) then Some(child) else None
  {
    SingleSegmentPath(path);
  }

  /** Whenever a non-empty path does not resolve and the first segment is not the child's name, nothing is bound. */
  lemma NoMatchNoTarget(scene: Scene, child: NodeId, path: string)
    requires path != "" && !HasNode(scene, child, path)
    requires NameOf(scene, child) != Some(FirstSegment(path))
    ensures DynamicTarget(scene, child, path) == None
  {
  }

  // ---------------------------------------------------------------- children entering and leaving

  /** Connecting a child through any list of rules touches only the child's key of the resolved table. */
  lemma {:induction false} ConnectRulesOnlyChild(t: Tables, scene: Scene, child: NodeId, rs: seq<DynamicSignalConnection>)
    ensures var r := ConnectRules(t, scene, child, rs);
      && r.tracked == t.tracked && r.rules == t.rules && r.types == t.types
      && r.resolved - {child} == t.resolved - {child}
      && (child in r.resolved ==> |r.resolved[child]| <= (if child in t.resolved then |t.resolved[child]| else 0) + |rs|)
  {
    if |rs| > 0 {
      ConnectRulesOnlyChild(t, scene, child, rs[..|rs| - 1]);
      var p := ConnectRules(t, scene, child, rs[..|rs| - 1]);
      var r := TryConnectToChild(p, scene, child, rs[|rs| - 1]);
      assert r.resolved - {child} == p.resolved - {child};
    }
  }

  /** `OnChildEnteredTree` changes only the child's entry of the resolved table. */
  lemma ChildEnteredOnlyChild(t: Tables, scene: Scene, child: NodeId)
    ensures var r := OnChildEnteredTree(t, scene, child);
      && r.tracked == t.tracked && r.rules == t.rules && r.types == t.types
      && r.resolved - {child} == t.resolved - {child}
  {
    var p := ParentOf(scene, child);
    if p.Some? && p.value in t.rules {
      ConnectRulesOnlyChild(t, scene, child, t.rules[p.value]);
    }
  }

  /**
    An owner armed with one rule for signal `sig` on an empty path: a new
    child exposing `sig` gets exactly one resolved connection, keyed by the
    child, from the child to the owner's handler; when the child leaves, the
    resolved table is as it was before.
  */
  lemma ChildRoundTrip(t: Tables, scene: Scene, child: NodeId, owner: NodeId, rule: DynamicSignalConnection)
    requires ParentOf(scene, child) == Some(owner)
    requires owner in t.rules && t.rules[owner] == [rule]
    requires rule.owner == owner && rule.nodePath == ""
    requires HasSignal(scene, child, rule.signalName)
    requires child !in t.resolved
    ensures var r := OnChildEnteredTree(t, scene, child);
      && child in r.resolved
      && r.resolved[child] == [SignalConnection(child, owner, rule.signalName, rule.methodName, rule.connectionType)]
      && OnChildExitedTree(r, scene, child).resolved == t.resolved
  {
    assert [rule][..0] == [];
    assert ConnectRules(t, scene, child, [rule]) == TryConnectToChild(t, scene, child, rule);
    var r := OnChildEnteredTree(t, scene, child);
    assert r == ConnectRules(t, scene, child, t.rules[owner]);
    assert r.resolved - {child} == t.resolved;
  }
}
