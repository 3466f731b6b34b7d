/**
  The host's connection list: every subscription the host holds, as
  (source, signal, target, method, flags). Only bookkeeping is modelled, not
  emission. A link is identified by (source, signal, target, method), which is
  what the host's `Disconnect` and `IsConnected` match on.
*/
module HostModel {
  import opened Models

  datatype HostLink = HostLink(source: NodeId, signal: string, target: NodeId, handler: string, flags: nat)

  datatype LinkKey = LinkKey(source: NodeId, signal: string, target: NodeId, handler: string)

  function KeyOf(l: HostLink): LinkKey
  {
    LinkKey(l.source, l.signal, l.target, l.handler)
  }

  /** The links whose key is not in `keys`, in their original order. */
  function Without(links: seq<HostLink>, keys: set<LinkKey>): (r: seq<HostLink>)
    ensures |r| <= |links|
  {
    if |links| == 0 then []
    else (if KeyOf(links[0]) in keys then [] else [links[0]]) + Without(links[1..], keys)
  }

  /** Disconnecting a set of keys keeps exactly the links whose key is not in the set. */
  lemma {:induction false} WithoutMembers(links: seq<HostLink>, keys: set<LinkKey>)
    ensures forall l :: l in Without(links, keys) <==> l in links && KeyOf(l) !in keys
  {
    if |links| > 0 {
      WithoutMembers(links[1..], keys);
      assert links == [links[0]] + links[1..];
    }
  }

  predicate HasKey(links: seq<HostLink>, k: LinkKey)
  {
    exists i :: 0 <= i < |links| && KeyOf(links[i]) == k
  }

  /** How many links carry key `k`. */
  function Count(links: seq<HostLink>, k: LinkKey): nat
  {
    if |links| == 0 then 0
    else (if KeyOf(links[0]) == k then 1 else 0) + Count(links[1..], k)
  }

  lemma {:induction false} CountZero(links: seq<HostLink>, k: LinkKey)
    ensures Count(links, k) == 0 <==> !HasKey(links, k)
  {
    if |links| > 0 {
      CountZero(links[1..], k);
      if HasKey(links[1..], k) {
        var i :| 0 <= i < |links[1..]| && KeyOf(links[1..][i]) == k;
        assert KeyOf(links[i + 1]) == k;
      }
      if HasKey(links, k) && KeyOf(links[0]) != k {
        var i :| 0 <= i < |links| && KeyOf(links[i]) == k;
        assert KeyOf(links[1..][i - 1]) == k;
      }
    }
  }

  lemma {:induction false} CountAppend(a: seq<HostLink>, b: seq<HostLink>, k: LinkKey)
    ensures Count(a + b, k) == Count(a, k) + Count(b, k)
  {
    if |a| > 0 {
      assert (a + b)[1..] == a[1..] + b;
      CountAppend(a[1..], b, k);
    } else {
      assert a + b == b;
    }
  }

  /** Removing two sets of keys one after the other removes their union. */
  lemma {:induction false} WithoutUnion(links: seq<HostLink>, a: set<LinkKey>, b: set<LinkKey>)
    ensures Without(Without(links, a), b) == Without(links, a + b)
  {
    if |links| > 0 {
      WithoutUnion(links[1..], a, b);
      var w := Without(links, a);
      if KeyOf(links[0]) !in a {
        assert w[0] == links[0] && w[1..] == Without(links[1..], a);
      } else {
        assert w == Without(links[1..], a);
      }
    }
  }

  /** Removing keys that no link carries changes nothing. */
  lemma {:induction false} WithoutAbsent(links: seq<HostLink>, keys: set<LinkKey>)
    requires forall i :: 0 <= i < |links| ==> KeyOf(links[i]) !in keys
    ensures Without(links, keys) == links
  {
    if |links| > 0 {
      WithoutAbsent(links[1..], keys);
      assert links == [links[0]] + links[1..];
    }
  }

  /** Removing every key the links carry leaves nothing. */
  lemma {:induction false} WithoutAll(links: seq<HostLink>, keys: set<LinkKey>)
    requires forall i :: 0 <= i < |links| ==> KeyOf(links[i]) in keys
    ensures Without(links, keys) == []
  {
    if |links| > 0 {
      WithoutAll(links[1..], keys);
    }
  }

  /** No link left by disconnecting a set of keys carries one of them. */
  lemma WithoutDrops(links: seq<HostLink>, keys: set<LinkKey>)
    ensures forall l :: l in Without(links, keys) ==> KeyOf(l) !in keys
    ensures forall k :: k in keys ==> !HasKey(Without(links, keys), k)
  {
    WithoutMembers(links, keys);
  }

  /** Removing no keys changes nothing. */
  lemma WithoutNothing(links: seq<HostLink>)
    ensures Without(links, {}) == links
  {
    WithoutAbsent(links, {});
  }

  /** Removing keys commutes with appending links. */
  lemma {:induction false} WithoutAppend(a: seq<HostLink>, b: seq<HostLink>, keys: set<LinkKey>)
    ensures Without(a + b, keys) == Without(a, keys) + Without(b, keys)
  {
    if |a| > 0 {
      assert (a + b)[1..] == a[1..] + b;
      WithoutAppend(a[1..], b, keys);
    } else {
      assert a + b == b;
    }
  }

  /** The host object: its connection list is the only state it has here. */
  class Host {
    var links: seq<HostLink>

    constructor()
      ensures links == []
    {
      links := [];
    }

    /** `IsConnected(signal, callable)` on the source. */
    predicate IsConnected(k: LinkKey)
      reads this
    {
      HasKey(links, k)
    }

    /** `Connect(signal, callable, flags)`: adds one link. */
    method Connect(l: HostLink)
      modifies this
      ensures links == old(links) + [l]
    {
      links := links + [l];
    }

    /** `Disconnect(signal, callable)`: drops the link(s) with that key, keeps every other. */
    method Disconnect(k: LinkKey)
      modifies this
      ensures links == Without(old(links), {k})
      ensures !HasKey(links, k)
    {
      WithoutDrops(links, {k});
      links := Without(links, {k});
    }
  }
}
