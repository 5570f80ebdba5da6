/** The single-map store of the web front end: one map's title, nodes and
    edges, plus the selected node and edge, with append, shallow data merge,
    position update, cascade delete and loading. */
module WebMapStore {
  import opened Wrappers
  import opened Seqs
  import opened KnowledgeMapTypes

  /** A value in a node's `data` object; `VUndefined` is a key spread in with
      the value `undefined`. */
  datatype Value = VStr(s: string) | VNum(n: real) | VUndefined

  datatype WebNode = WebNode(id: string, kind: string, position: Position, data: map<string, Value>)

  datatype WebEdge = WebEdge(id: string, source: string, target: string)

  /** A map as the database returns it; `nodes` and `edges` may be missing. */
  datatype StoredWebMap = StoredWebMap(id: string, title: string, nodes: Option<seq<WebNode>>, edges: Option<seq<WebEdge>>)

  /** What the database read produced: it threw, or it returned a map or nothing. */
  datatype LoadOutcome = LoadThrew | LoadReturned(found: Option<StoredWebMap>)

  /** Every field of the store, as one value. */
  datatype WebView = WebView(
    id: Option<string>,
    title: string,
    nodes: seq<WebNode>,
    edges: seq<WebEdge>,
    selectedNodeId: Option<string>,
    selectedEdgeId: Option<string>)

  const DefaultMapId: string := "0"

  const DefaultNode: WebNode :=
    WebNode("default-node", "conceptNode", Position(250, 200),
      map["title" := VStr("开始"), "content" := VStr("这是你的第一个概念节点"), "brightness" := VNum(50.0)])

  /** `DEFAULT_MAP`. */
  const DefaultMap: StoredWebMap := StoredWebMap(DefaultMapId, "默认地图", Some([DefaultNode]), Some([]))

  /** The default map as the store holds it once loaded. */
  const DefaultView: WebView := WebView(Some(DefaultMapId), "默认地图", [DefaultNode], [], None, None)

  /** `{ ...data, ...patch }`: patched keys take the patch's value, every
      other key keeps its value, and no key appears from nowhere. */
  function MergeData(data: map<string, Value>, patch: map<string, Value>): (r: map<string, Value>)
    ensures r.Keys == data.Keys + patch.Keys
    ensures forall k :: k in patch ==> r[k] == patch[k]
    ensures forall k :: k in data && k !in patch ==> r[k] == data[k]
  {
    data + patch
  }

  /** Merging an empty patch changes nothing, and merging the same patch
      twice is the same as merging it once. */
  lemma MergeDataIdempotent(data: map<string, Value>, patch: map<string, Value>)
    ensures MergeData(data, map[]) == data
    ensures MergeData(MergeData(data, patch), patch) == MergeData(data, patch)
  {
    assert MergeData(data, map[]) == data;
  }

  /** `updateNodeData`: matching nodes get the merged data, the rest are
      unchanged, and ids, kinds and positions are kept. */
  function MergedNodes(nodes: seq<WebNode>, nodeId: string, patch: map<string, Value>): (r: seq<WebNode>)
    ensures |r| == |nodes|
    ensures forall i :: 0 <= i < |nodes| && nodes[i].id != nodeId ==> r[i] == nodes[i]
    ensures forall i :: 0 <= i < |nodes| && nodes[i].id == nodeId ==>
      r[i].data == MergeData(nodes[i].data, patch) && r[i].(data := nodes[i].data) == nodes[i]
  {
    seq(|nodes|, i requires 0 <= i < |nodes| =>
      if nodes[i].id == nodeId then nodes[i].(data := MergeData(nodes[i].data, patch)) else nodes[i])
  }

  /** `updateNodePosition`: only the position of matching nodes changes. */
  function MovedNodes(nodes: seq<WebNode>, nodeId: string, position: Position): (r: seq<WebNode>)
    ensures |r| == |nodes|
    ensures forall i :: 0 <= i < |nodes| && nodes[i].id != nodeId ==> r[i] == nodes[i]
    ensures forall i :: 0 <= i < |nodes| && nodes[i].id == nodeId ==>
      r[i].position == position && r[i].(position := nodes[i].position) == nodes[i]
  {
    seq(|nodes|, i requires 0 <= i < |nodes| =>
      if nodes[i].id == nodeId then nodes[i].(position := position) else nodes[i])
  }

  /** The id `loadMap` uses: a missing or empty id means the default map. */
  function EffectiveMapId(mapId: Option<string>): (r: string)
    ensures r == DefaultMapId || (mapId.Some? && r == mapId.value)
    ensures r != "" && (mapId.Some? && mapId.value != "" ==> r == mapId.value)
  {
    if mapId.None? || mapId.value == "" then DefaultMapId else mapId.value
  }

  /** The state `loadMap` leaves: a thrown error, or the default map reported
      missing, gives the default map; a returned map is adopted with both
      selections cleared and missing lists as empty ones; a missing map other
      than the default leaves the state as it was. */
  function AfterLoad(v: WebView, mapId: Option<string>, outcome: LoadOutcome): (r: WebView)
    ensures outcome.LoadThrew? ==> r == DefaultView
    ensures outcome.LoadReturned? && outcome.found.Some? ==>
      var m := outcome.found.value;
      && r.id == Some(m.id) && r.title == m.title
      && r.nodes == (if m.nodes.Some? then m.nodes.value else [])
      && r.edges == (if m.edges.Some? then m.edges.value else [])
      && r.selectedNodeId.None? && r.selectedEdgeId.None?
    ensures outcome.LoadReturned? && outcome.found.None? ==>
      r == if EffectiveMapId(mapId) == DefaultMapId then DefaultView else v
    ensures r != v ==> r.selectedNodeId.None? && r.selectedEdgeId.None?
  {
    match outcome
    case LoadThrew => Adopt(DefaultMap)
    case LoadReturned(found) =>
      var mapData := if EffectiveMapId(mapId) == DefaultMapId && found.None? then Some(DefaultMap) else found;
      if mapData.Some? then Adopt(mapData.value) else v
  }

  /** The `set` of a loaded map. */
  function Adopt(m: StoredWebMap): (r: WebView)
    ensures r.selectedNodeId.None? && r.selectedEdgeId.None?
    ensures m == DefaultMap ==> r == DefaultView
  {
    WebView(Some(m.id), m.title,
      if m.nodes.Some? then m.nodes.value else [],
      if m.edges.Some? then m.edges.value else [],
      None, None)
  }

  class MapStore {
    var id: Option<string>
    var title: string
    var nodes: seq<WebNode>
    var edges: seq<WebEdge>
    var selectedNodeId: Option<string>
    var selectedEdgeId: Option<string>

    function View(): WebView
      reads this
    {
      WebView(id, title, nodes, edges, selectedNodeId, selectedEdgeId)
    }

    /** No selected node is missing from the map, and no selected edge either. */
    ghost predicate SelectionExists()
      reads this
    {
      && (selectedNodeId.Some? ==> exists n :: n in nodes && n.id == selectedNodeId.value)
      && (selectedEdgeId.Some? ==> exists e :: e in edges && e.id == selectedEdgeId.value)
    }

    constructor ()
      ensures View() == WebView(Some(DefaultMapId), "新地图", [], [], None, None)
      ensures SelectionExists()
    {
      id := Some(DefaultMapId);
      title := "新地图";
      nodes := [];
      edges := [];
      selectedNodeId := None;
      selectedEdgeId := None;
    }

    method AddNode(node: WebNode)
      modifies this
      ensures View() == old(View()).(nodes := old(nodes) + [node])
      ensures old(SelectionExists()) ==> SelectionExists()
    {
      nodes := nodes + [node];
      assert forall n :: n in old(nodes) ==> n in nodes;
    }

    method UpdateNodeData(nodeId: string, patch: map<string, Value>)
      modifies this
      ensures View() == old(View()).(nodes := MergedNodes(old(nodes), nodeId, patch))
    {
      nodes := MergedNodes(nodes, nodeId, patch);
    }

    method UpdateNodePosition(nodeId: string, position: Position)
      modifies this
      ensures View() == old(View()).(nodes := MovedNodes(old(nodes), nodeId, position))
    {
      nodes := MovedNodes(nodes, nodeId, position);
    }

    /** `removeNode`: the node and every edge touching it go; a selection of
        that node is cleared and any other selection is kept. */
    method RemoveNode(nodeId: string)
      modifies this
      ensures View() == old(View()).(
        nodes := Filter(old(nodes), (n: WebNode) => n.id != nodeId),
        edges := Filter(old(edges), (e: WebEdge) => e.source != nodeId && e.target != nodeId),
        selectedNodeId := if old(selectedNodeId) == Some(nodeId) then None else old(selectedNodeId))
      ensures forall n :: n in nodes <==> n in old(nodes) && n.id != nodeId
      ensures forall e :: e in edges <==> e in old(edges) && e.source != nodeId && e.target != nodeId
    {
      var keepNode := (n: WebNode) => n.id != nodeId;
      var keepEdge := (e: WebEdge) => e.source != nodeId && e.target != nodeId;
      FilterMembers(nodes, keepNode);
      FilterMembers(edges, keepEdge);
      nodes := Filter(nodes, keepNode);
      edges := Filter(edges, keepEdge);
      selectedNodeId := if selectedNodeId == Some(nodeId) then None else selectedNodeId;
    }

    method AddEdge(edge: WebEdge)
      modifies this
      ensures View() == old(View()).(edges := old(edges) + [edge])
      ensures old(SelectionExists()) ==> SelectionExists()
    {
      edges := edges + [edge];
      assert forall e :: e in old(edges) ==> e in edges;
    }

    /** `removeEdge`: edges with the id go, the nodes stay; a selection of
        that edge is cleared and any other selection is kept. */
    method RemoveEdge(edgeId: string)
      modifies this
      ensures View() == old(View()).(
        edges := Filter(old(edges), (e: WebEdge) => e.id != edgeId),
        selectedEdgeId := if old(selectedEdgeId) == Some(edgeId) then None else old(selectedEdgeId))
      ensures forall e :: e in edges <==> e in old(edges) && e.id != edgeId
      ensures old(SelectionExists()) ==> SelectionExists()
    {
      var keepEdge := (e: WebEdge) => e.id != edgeId;
      FilterMembers(edges, keepEdge);
      edges := Filter(edges, keepEdge);
      selectedEdgeId := if selectedEdgeId == Some(edgeId) then None else selectedEdgeId;
    }

    method SelectNode(nodeId: Option<string>)
      modifies this
      ensures View() == old(View()).(selectedNodeId := nodeId)
    {
      selectedNodeId := nodeId;
    }

    method SelectEdge(edgeId: Option<string>)
      modifies this
      ensures View() == old(View()).(selectedEdgeId := edgeId)
    {
      selectedEdgeId := edgeId;
    }

    /** `loadMap`, with the database's answer as a parameter. */
    method LoadMap(mapId: Option<string>, outcome: LoadOutcome)
      modifies this
      ensures View() == AfterLoad(old(View()), mapId, outcome)
    {
      var effectiveId := if mapId.None? || mapId.value == "" then DefaultMapId else mapId.value;
      var mapData: Option<StoredWebMap>;
      match outcome {
        case LoadThrew =>
          mapData := Some(DefaultMap);
        case LoadReturned(found) =>
          mapData := found;
          if effectiveId == DefaultMapId && mapData.None? {
            mapData := Some(DefaultMap);
          }
      }
      if mapData.Some? {
        var m := mapData.value;
        id, title := Some(m.id), m.title;
        nodes := if m.nodes.Some? then m.nodes.value else [];
        edges := if m.edges.Some? then m.edges.value else [];
        selectedNodeId, selectedEdgeId := None, None;
      }
    }
  }
}
