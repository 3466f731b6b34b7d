/**
  The abstract scene tree that stands in for the host: nodes with a name, a
  parent, ordered children, the signals they expose and their runtime type;
  the set of node handles that are still valid instances; and the explicit
  per-type table of methods and their markers that replaces reflection.
*/
module SceneModel {
  import opened Wrappers
  import opened Models
  import opened Attributes
  import opened NodePaths

  /** One method of a type as reflection lists it, with its `AutoSignal` marker if it has one. */
  datatype MethodInfo = MethodInfo(name: string, marker: Option<AutoSignalAttribute>)

  datatype NodeInfo = NodeInfo(
    name: string,
    parent: Option<NodeId>,
    children: seq<NodeId>,
    signals: set<string>,
    typ: TypeId)

  datatype Scene = Scene(
    nodes: map<NodeId, NodeInfo>,
    valid: set<NodeId>,
    methods: map<TypeId, seq<MethodInfo>>)

  function MethodsOfType(scene: Scene, t: TypeId): seq<MethodInfo>
  {
    if t in scene.methods then scene.methods[t] else []
  }

  function MethodsOf(scene: Scene, n: NodeId): seq<MethodInfo>
  {
    if n in scene.nodes then MethodsOfType(scene, scene.nodes[n].typ) else []
  }

  function ChildrenOf(scene: Scene, n: NodeId): seq<NodeId>
  {
    if n in scene.nodes then scene.nodes[n].children else []
  }

  function ParentOf(scene: Scene, n: NodeId): Option<NodeId>
  {
    if n in scene.nodes then scene.nodes[n].parent else None
  }

  function NameOf(scene: Scene, n: NodeId): Option<string>
  {
    if n in scene.nodes then Some(scene.nodes[n].name) else None
  }

  /** The host's `HasSignal`. */
  predicate HasSignal(scene: Scene, n: NodeId, signal: string)
  {
    n in scene.nodes && signal in scene.nodes[n].signals
  }

  /** The host's `IsInstanceValid`. */
  predicate IsInstanceValid(scene: Scene, n: NodeId)
  {
    n in scene.valid
  }

  /** The first of `cs` that is a node named `name`. */
  function FindChild(scene: Scene, cs: seq<NodeId>, name: string): (r: Option<NodeId>)
    ensures r.Some? ==> r.value in cs && r.value in scene.nodes && scene.nodes[r.value].name == name
    ensures r.None? <==> forall i :: 0 <= i < |cs| && cs[i] in scene.nodes ==> scene.nodes[cs[i]].name != name
  {
    if |cs| == 0 then None
    else if cs[0] in scene.nodes && scene.nodes[cs[0]].name == name then Some(cs[0])
    else FindChild(scene, cs[1..], name)
  }

  /** Follows child names one segment at a time; an empty list of segments is the node itself. */
  function Walk(scene: Scene, from: NodeId, segs: seq<string>): (r: Option<NodeId>)
    decreases |segs|
  {
    if |segs| == 0 then Some(from)
    else match FindChild(scene, ChildrenOf(scene, from), segs[0])
      case None => None
      case Some(c) => Walk(scene, c, segs[1..])
  }

  /** The host's `GetNode(path)` for a relative path of child names; `None` where it returns null. */
  function GetNode(scene: Scene, from: NodeId, path: string): Option<NodeId>
  {
    Walk(scene, from, Split(path))
  }

  /** The host's `HasNode(path)`. */
  predicate HasNode(scene: Scene, from: NodeId, path: string)
  {
    GetNode(scene, from, path).Some?
  }

  /** A path of one more segment than `a` goes through the node `a` names. */
  lemma {:induction false} GetNodeThrough(scene: Scene, from: NodeId, a: string, b: string)
    requires '/' !in a
    ensures GetNode(scene, from, a + "/" + b)
         == match FindChild(scene, ChildrenOf(scene, from), a)
            case None => None
            case Some(c) => GetNode(scene, c, b)
  {
    SplitAtSeparator(a, b);
    assert ([a] + Split(b))[1..] == Split(b);
  }
}
