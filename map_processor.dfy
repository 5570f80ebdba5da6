/** The display pass of the knowledge map (`processMapElementsForDisplay`):
    nodes are split into "understood" and "not started"; when nothing is
    understood, the node nearest the origin becomes the focus; the not-started
    neighbours of the understood nodes (or of the focus) are collected; and
    every node and edge gets an opacity from a fixed set of constants. */
module MapProcessor {
  import opened Wrappers
  import opened KnowledgeMapTypes

  const FullyOpaque: real := 1.0
  const ConnectedNotStartedOpacity: real := 0.7
  const IsolatedNotStartedOpacity: real := 0.7

  const EdgeFullyOpaque: real := 1.0
  const EdgeConnectedNotStartedOpacity: real := 0.7
  const EdgeIsolatedNotStartedOpacity: real := 0.1

  /** A level counts as understood when it is present and not `NotStarted`;
      an absent level counts as not started. */
  predicate IsUnderstood(n: Node) {
    n.data.level.Some? && n.data.level.value != NotStarted
  }

  /** `understoodNodeIds` once the classification loop has seen `nodes`. */
  function UnderstoodIds(nodes: seq<Node>): set<string> {
    set n | n in nodes && IsUnderstood(n) :: n.id
  }

  /** `notStartedNodeIds` once the classification loop has seen `nodes`. */
  function NotStartedIds(nodes: seq<Node>): set<string> {
    set n | n in nodes && !IsUnderstood(n) :: n.id
  }

  /** `allNodesEffectivelyNotStarted`. */
  predicate AllNotStarted(nodes: seq<Node>) {
    |nodes| > 0 && UnderstoodIds(nodes) == {}
  }

  /** The square of the distance to the origin; `Math.sqrt` is monotone, so
      comparing squares picks the same node. */
  function SquaredDistance(p: Position): int {
    p.x * p.x + p.y * p.y
  }

  /** `k` is the first index of a node at minimal distance from the origin. */
  predicate IsEarliestClosest(nodes: seq<Node>, k: int) {
    && 0 <= k < |nodes|
    && (forall j :: 0 <= j < |nodes| ==> SquaredDistance(nodes[k].position) <= SquaredDistance(nodes[j].position))
    && (forall j :: 0 <= j < k ==> SquaredDistance(nodes[k].position) < SquaredDistance(nodes[j].position))
  }

  /** The focus `reduce`: it starts from `null` (distance infinity), so the
      first node is always taken, and a later node replaces the current one
      only when it is strictly closer. Written as recursion on the prefix, as
      a left fold is. */
  function ClosestIndex(nodes: seq<Node>): (k: nat)
    requires |nodes| > 0
    ensures IsEarliestClosest(nodes, k)
  {
    if |nodes| == 1 then 0
    else
      var prefix := nodes[..|nodes| - 1];
      var c := ClosestIndex(prefix);
      assert forall j :: 0 <= j < |prefix| ==> prefix[j] == nodes[j];
      if SquaredDistance(nodes[|nodes| - 1].position) < SquaredDistance(nodes[c].position) then |nodes| - 1 else c
  }

  /** `firstFocusNodeId`: the id of the closest node when every node is not
      started; `?.id || null` turns an empty id into no focus at all. */
  function FocusId(nodes: seq<Node>): Option<string> {
    if AllNotStarted(nodes) then
      var id := nodes[ClosestIndex(nodes)].id;
      if id == "" then None else Some(id)
    else None
  }

  /** The not-started endpoints of edges whose other end is understood. */
  function UnderstoodFrontier(understood: set<string>, notStarted: set<string>, edges: seq<Edge>): set<string> {
    (set e | e in edges && e.source in understood && e.target in notStarted :: e.target)
    + (set e | e in edges && e.target in understood && e.source in notStarted :: e.source)
  }

  /** The not-started endpoints, other than the focus, of edges touching the focus. */
  function FocusFrontier(focus: string, notStarted: set<string>, edges: seq<Edge>): set<string> {
    (set e | e in edges && e.source == focus && e.target in notStarted && e.target != focus :: e.target)
    + (set e | e in edges && e.target == focus && e.source in notStarted && e.source != focus :: e.source)
  }

  /** Everything the opacity rules consult. */
  datatype Highlight = Highlight(
    understood: set<string>,
    notStarted: set<string>,
    allNotStarted: bool,
    focus: Option<string>,
    connected: set<string>)

  /** The sets the pass builds before it assigns opacities. */
  function Classify(nodes: seq<Node>, edges: seq<Edge>): Highlight {
    var understood := UnderstoodIds(nodes);
    var notStarted := NotStartedIds(nodes);
    var all := AllNotStarted(nodes);
    var focus := FocusId(nodes);
    var connected :=
      if !all && understood != {} then UnderstoodFrontier(understood, notStarted, edges)
      else if all && focus.Some? then FocusFrontier(focus.value, notStarted, edges) + {focus.value}
      else {};
    Highlight(understood, notStarted, all, focus, connected)
  }

  function NodeOpacity(h: Highlight, n: Node): real {
    if n.id in h.understood then FullyOpaque
    else if h.allNotStarted && h.focus == Some(n.id) then FullyOpaque
    else if n.id in h.notStarted then
      (if n.id in h.connected then ConnectedNotStartedOpacity else IsolatedNotStartedOpacity)
    else FullyOpaque
  }

  function EdgeOpacity(h: Highlight, e: Edge): real {
    var sourceIsUnderstood := e.source in h.understood;
    var targetIsUnderstood := e.target in h.understood;
    var sourceIsNotStarted := e.source in h.notStarted;
    var targetIsNotStarted := e.target in h.notStarted;
    var sourceIsFirstFocus := h.allNotStarted && h.focus == Some(e.source);
    var targetIsFirstFocus := h.allNotStarted && h.focus == Some(e.target);
    if sourceIsUnderstood && targetIsUnderstood then EdgeFullyOpaque
    else if (sourceIsUnderstood && targetIsNotStarted) || (targetIsUnderstood && sourceIsNotStarted) then
      EdgeConnectedNotStartedOpacity
    else if h.allNotStarted && (sourceIsFirstFocus || targetIsFirstFocus) then EdgeConnectedNotStartedOpacity
    else if sourceIsNotStarted && targetIsNotStarted then
      var sourceIsConnectedToFocus := e.source in h.connected;
      var targetIsConnectedToFocus := e.target in h.connected;
      if h.allNotStarted && (sourceIsConnectedToFocus || targetIsConnectedToFocus)
         && !(sourceIsFirstFocus || targetIsFirstFocus)
      then EdgeConnectedNotStartedOpacity
      else EdgeIsolatedNotStartedOpacity
    else EdgeFullyOpaque
  }

  /** `{ ...node, style: { ...node.style, opacity } }`: only the opacity of the
      style changes, and it becomes 1.0 or 0.7. */
  function DisplayNode(h: Highlight, n: Node): (r: Node)
    ensures r.id == n.id && r.kind == n.kind && r.data == n.data && r.position == n.position
    ensures r.style.strokeOpacity == n.style.strokeOpacity && r.style.other == n.style.other
    ensures r.style.opacity == Some(1.0) || r.style.opacity == Some(0.7)
  {
    n.(style := n.style.(opacity := Some(NodeOpacity(h, n))))
  }

  /** `{ ...edge, style: { ...edge.style, strokeOpacity: opacity, opacity } }`:
      both opacities are set to the same value, one of 1.0, 0.7 and 0.1. */
  function DisplayEdge(h: Highlight, e: Edge): (r: Edge)
    ensures r.id == e.id && r.source == e.source && r.target == e.target
    ensures r.style.other == e.style.other
    ensures r.style.opacity.Some? && r.style.strokeOpacity == r.style.opacity
    ensures r.style.opacity.value in {1.0, 0.7, 0.1}
  {
    var o := EdgeOpacity(h, e);
    e.(style := e.style.(opacity := Some(o), strokeOpacity := Some(o)))
  }

  lemma IdsSnoc(nodes: seq<Node>, n: Node)
    ensures UnderstoodIds(nodes + [n]) == UnderstoodIds(nodes) + (if IsUnderstood(n) then {n.id} else {})
    ensures NotStartedIds(nodes + [n]) == NotStartedIds(nodes) + (if IsUnderstood(n) then {} else {n.id})
  {
    assert forall m :: m in nodes + [n] <==> m in nodes || m == n;
  }

  lemma UnderstoodFrontierSnoc(understood: set<string>, notStarted: set<string>, edges: seq<Edge>, e: Edge)
    ensures UnderstoodFrontier(understood, notStarted, edges + [e])
         == UnderstoodFrontier(understood, notStarted, edges)
            + (if e.source in understood && e.target in notStarted then {e.target} else {})
            + (if e.target in understood && e.source in notStarted then {e.source} else {})
  {
    assert forall d :: d in edges + [e] <==> d in edges || d == e;
  }

  lemma FocusFrontierSnoc(focus: string, notStarted: set<string>, edges: seq<Edge>, e: Edge)
    ensures FocusFrontier(focus, notStarted, edges + [e])
         == FocusFrontier(focus, notStarted, edges)
            + (if e.source == focus && e.target in notStarted && e.target != focus then {e.target} else {})
            + (if e.target == focus && e.source in notStarted && e.source != focus then {e.source} else {})
  {
    assert forall d :: d in edges + [e] <==> d in edges || d == e;
  }

  /** The first `forEach`: every node's id goes into the set its level selects. */
  method SplitByLevel(currentNodes: seq<Node>) returns (understoodNodeIds: set<string>, notStartedNodeIds: set<string>)
    ensures understoodNodeIds == UnderstoodIds(currentNodes)
    ensures notStartedNodeIds == NotStartedIds(currentNodes)
  {
    understoodNodeIds := {};
    notStartedNodeIds := {};
    for i := 0 to |currentNodes|
      invariant understoodNodeIds == UnderstoodIds(currentNodes[..i])
      invariant notStartedNodeIds == NotStartedIds(currentNodes[..i])
    {
      var node := currentNodes[i];
      assert currentNodes[..i + 1] == currentNodes[..i] + [node];
      IdsSnoc(currentNodes[..i], node);
      if IsUnderstood(node) {
        understoodNodeIds := understoodNodeIds + {node.id};
      } else {
        notStartedNodeIds := notStartedNodeIds + {node.id};
      }
    }
    assert currentNodes[..|currentNodes|] == currentNodes;
  }

  /** The `forEach` over edges when something is understood. */
  method ConnectedToUnderstood(understoodNodeIds: set<string>, notStartedNodeIds: set<string>, currentEdges: seq<Edge>)
    returns (connected: set<string>)
    ensures connected == UnderstoodFrontier(understoodNodeIds, notStartedNodeIds, currentEdges)
  {
    connected := {};
    for j := 0 to |currentEdges|
      invariant connected == UnderstoodFrontier(understoodNodeIds, notStartedNodeIds, currentEdges[..j])
    {
      var edge := currentEdges[j];
      assert currentEdges[..j + 1] == currentEdges[..j] + [edge];
      UnderstoodFrontierSnoc(understoodNodeIds, notStartedNodeIds, currentEdges[..j], edge);
      if edge.source in understoodNodeIds && edge.target in notStartedNodeIds {
        connected := connected + {edge.target};
      }
      if edge.target in understoodNodeIds && edge.source in notStartedNodeIds {
        connected := connected + {edge.source};
      }
    }
    assert currentEdges[..|currentEdges|] == currentEdges;
  }

  /** The `forEach` over edges around the focus, which then joins the set itself. */
  method ConnectedToFocus(focus: string, notStartedNodeIds: set<string>, currentEdges: seq<Edge>)
    returns (connected: set<string>)
    ensures connected == FocusFrontier(focus, notStartedNodeIds, currentEdges) + {focus}
  {
    connected := {};
    for j := 0 to |currentEdges|
      invariant connected == FocusFrontier(focus, notStartedNodeIds, currentEdges[..j])
    {
      var edge := currentEdges[j];
      assert currentEdges[..j + 1] == currentEdges[..j] + [edge];
      FocusFrontierSnoc(focus, notStartedNodeIds, currentEdges[..j], edge);
      if edge.source == focus && edge.target in notStartedNodeIds && edge.target != focus {
        connected := connected + {edge.target};
      }
      if edge.target == focus && edge.source in notStartedNodeIds && edge.source != focus {
        connected := connected + {edge.source};
      }
    }
    assert currentEdges[..|currentEdges|] == currentEdges;
    connected := connected + {focus};
  }

  /** The pass itself: the id sets are filled, the focus is chosen, the
      neighbour set is filled, and the nodes and edges are mapped to their
      displayed versions, in order and one for one. */
  method ProcessMapElementsForDisplay(currentNodes: seq<Node>, currentEdges: seq<Edge>)
    returns (processedNodes: seq<Node>, processedEdges: seq<Edge>)
    ensures var h := Classify(currentNodes, currentEdges);
      && |processedNodes| == |currentNodes|
      && (forall i :: 0 <= i < |currentNodes| ==> processedNodes[i] == DisplayNode(h, currentNodes[i]))
      && |processedEdges| == |currentEdges|
      && (forall i :: 0 <= i < |currentEdges| ==> processedEdges[i] == DisplayEdge(h, currentEdges[i]))
  {
    var understoodNodeIds, notStartedNodeIds := SplitByLevel(currentNodes);

    var allNodesEffectivelyNotStarted := |currentNodes| > 0 && |understoodNodeIds| == 0;
    var firstFocusNodeId: Option<string> := None;
    if allNodesEffectivelyNotStarted {
      var closest := currentNodes[ClosestIndex(currentNodes)];
      firstFocusNodeId := if closest.id == "" then None else Some(closest.id);
    }

    var connected: set<string> := {};
    if !allNodesEffectivelyNotStarted && |understoodNodeIds| > 0 {
      connected := ConnectedToUnderstood(understoodNodeIds, notStartedNodeIds, currentEdges);
    } else if allNodesEffectivelyNotStarted && firstFocusNodeId.Some? {
      connected := ConnectedToFocus(firstFocusNodeId.value, notStartedNodeIds, currentEdges);
    }

    var h := Highlight(understoodNodeIds, notStartedNodeIds, allNodesEffectivelyNotStarted, firstFocusNodeId, connected);
    assert h == Classify(currentNodes, currentEdges);
    processedNodes := seq(|currentNodes|, i requires 0 <= i < |currentNodes| => DisplayNode(h, currentNodes[i]));
    processedEdges := seq(|currentEdges|, i requires 0 <= i < |currentEdges| => DisplayEdge(h, currentEdges[i]));
  }

  // ---------------------------------------------------------------------
  // Properties of the classification and of the opacity rules

  predicate UniqueIds(nodes: seq<Node>) {
    forall i, j :: 0 <= i < j < |nodes| ==> nodes[i].id != nodes[j].id
  }

  /** Every node's id lands in the set its own level selects; when ids are
      unique it lands in exactly one of the two sets. */
  lemma ClassificationPartition(nodes: seq<Node>, i: int)
    requires 0 <= i < |nodes|
    ensures IsUnderstood(nodes[i]) ==> nodes[i].id in UnderstoodIds(nodes)
    ensures !IsUnderstood(nodes[i]) ==> nodes[i].id in NotStartedIds(nodes)
    ensures UniqueIds(nodes) ==>
      && (nodes[i].id in UnderstoodIds(nodes) <==> IsUnderstood(nodes[i]))
      && (nodes[i].id in NotStartedIds(nodes) <==> !IsUnderstood(nodes[i]))
  {
    var n := nodes[i];
    assert n in nodes;
    if UniqueIds(nodes) && n.id in UnderstoodIds(nodes) {
      var m :| m in nodes && IsUnderstood(m) && m.id == n.id;
      var j :| 0 <= j < |nodes| && nodes[j] == m;
      assert j == i;
    }
    if UniqueIds(nodes) && n.id in NotStartedIds(nodes) {
      var m :| m in nodes && !IsUnderstood(m) && m.id == n.id;
      var j :| 0 <= j < |nodes| && nodes[j] == m;
      assert j == i;
    }
  }

  /** There is only one earliest closest node. */
  lemma EarliestClosestUnique(nodes: seq<Node>, k: int, k': int)
    requires IsEarliestClosest(nodes, k) && IsEarliestClosest(nodes, k')
    ensures k == k'
  {
    assert SquaredDistance(nodes[k].position) <= SquaredDistance(nodes[k'].position);
    assert SquaredDistance(nodes[k'].position) <= SquaredDistance(nodes[k].position);
  }

  /** The focus, stated without the fold: there is one exactly when the list
      is non-empty, nothing is understood and the earliest closest node has a
      non-empty id, and then it is that node's id. */
  lemma FocusIsEarliestClosest(nodes: seq<Node>, k: int)
    requires IsEarliestClosest(nodes, k)
    ensures FocusId(nodes) == if AllNotStarted(nodes) && nodes[k].id != "" then Some(nodes[k].id) else None
  {
    EarliestClosestUnique(nodes, k, ClosestIndex(nodes));
  }

  /** When nothing is understood every node is not started, so the focus is
      a not-started node. */
  lemma FocusIsNotStarted(nodes: seq<Node>)
    requires FocusId(nodes).Some?
    ensures FocusId(nodes).value in NotStartedIds(nodes)
    ensures FocusId(nodes).value !in UnderstoodIds(nodes)
  {
    var k := ClosestIndex(nodes);
    ClassificationPartition(nodes, k);
  }

  /** Understood nodes and the focus are fully opaque; every other node of
      the map gets 0.7. */
  lemma NodeOpacityRule(nodes: seq<Node>, edges: seq<Edge>, i: int)
    requires 0 <= i < |nodes|
    ensures var h := Classify(nodes, edges);
      && (NodeOpacity(h, nodes[i]) == 1.0 <==> nodes[i].id in UnderstoodIds(nodes) || FocusId(nodes) == Some(nodes[i].id))
      && (NodeOpacity(h, nodes[i]) != 1.0 ==> NodeOpacity(h, nodes[i]) == 0.7)
      && (IsUnderstood(nodes[i]) ==> NodeOpacity(h, nodes[i]) == 1.0)
  {
    ClassificationPartition(nodes, i);
  }

  /** An edge between two understood nodes is fully opaque, and one between
      an understood and a not-started node gets 0.7. */
  lemma EdgeOpacityUnderstood(nodes: seq<Node>, edges: seq<Edge>, e: Edge)
    ensures var h := Classify(nodes, edges);
      && (e.source in h.understood && e.target in h.understood ==> EdgeOpacity(h, e) == 1.0)
      && (!(e.source in h.understood && e.target in h.understood)
          && ((e.source in h.understood && e.target in h.notStarted) || (e.target in h.understood && e.source in h.notStarted))
          ==> EdgeOpacity(h, e) == 0.7)
  {
  }

  /** `x` is joined to the focus `f` by an edge, in either direction. */
  ghost predicate IsFocusNeighbour(edges: seq<Edge>, f: string, x: string) {
    exists e :: e in edges && ((e.source == f && e.target == x) || (e.target == f && e.source == x))
  }

  /** When every node is not started: an edge touching the focus gets 0.7; an
      edge between two other not-started nodes gets 0.7 when one of them is a
      neighbour of the focus and 0.1 otherwise. */
  lemma EdgeOpacityAllNotStarted(nodes: seq<Node>, edges: seq<Edge>, e: Edge)
    requires AllNotStarted(nodes)
    ensures var h := Classify(nodes, edges);
      && (FocusId(nodes).Some? && (e.source == FocusId(nodes).value || e.target == FocusId(nodes).value)
          ==> EdgeOpacity(h, e) == 0.7)
      && (e.source in h.notStarted && e.target in h.notStarted
          && FocusId(nodes) != Some(e.source) && FocusId(nodes) != Some(e.target)
          ==> (EdgeOpacity(h, e) == 0.7 <==>
                 FocusId(nodes).Some?
                 && (IsFocusNeighbour(edges, FocusId(nodes).value, e.source)
                     || IsFocusNeighbour(edges, FocusId(nodes).value, e.target)))
              && (EdgeOpacity(h, e) == 0.7 || EdgeOpacity(h, e) == 0.1))
  {
    var h := Classify(nodes, edges);
    assert h.understood == {};
    if FocusId(nodes).Some? {
      var f := FocusId(nodes).value;
      var ns := h.notStarted;
      assert h.connected == FocusFrontier(f, ns, edges) + {f};
      forall x | x in ns && x != f
        ensures x in h.connected <==> IsFocusNeighbour(edges, f, x)
      {
        if IsFocusNeighbour(edges, f, x) {
          var e' :| e' in edges && ((e'.source == f && e'.target == x) || (e'.target == f && e'.source == x));
          if e'.source == f && e'.target == x {
            assert x in (set e | e in edges && e.source == f && e.target in ns && e.target != f :: e.target);
          } else {
            assert x in (set e | e in edges && e.target == f && e.source in ns && e.source != f :: e.source);
          }
        }
      }
    }
  }

  /** Once something is understood, an edge between two nodes that are only
      not started gets 0.1; an edge whose ends are in neither set is fully
      opaque. */
  lemma EdgeOpacityOtherwise(nodes: seq<Node>, edges: seq<Edge>, e: Edge)
    ensures var h := Classify(nodes, edges);
      && (h.understood != {} && e.source in h.notStarted && e.target in h.notStarted
          && e.source !in h.understood && e.target !in h.understood
          ==> EdgeOpacity(h, e) == 0.1)
      && (e.source !in h.understood && e.source !in h.notStarted
          && e.target !in h.understood && e.target !in h.notStarted
          ==> EdgeOpacity(h, e) == 1.0)
  {
    if FocusId(nodes).Some? {
      FocusIsNotStarted(nodes);
    }
  }
}
