/** The multi-map store of the knowledge-map application: a list of maps,
    each with nodes, edges, a chat history and a token count, one of them
    active; node and edge edits apply to the active map, map management keeps
    at least one map, and the chat history is trimmed under a token budget. */
module KnowledgeMapStore {
  import opened Wrappers
  import opened Seqs
  import opened JsText
  import opened KnowledgeMapTypes

  datatype KnowledgeMap = KnowledgeMap(
    id: string,
    name: string,
    nodes: seq<Node>,
    edges: seq<Edge>,
    chatHistory: seq<Message>,
    tokenCount: int)

  /** A map as the database hands it back: maps saved by older versions may
      lack a chat history or a token count. */
  datatype StoredMap = StoredMap(
    id: string,
    name: string,
    nodes: seq<Node>,
    edges: seq<Edge>,
    chatHistory: Option<seq<Message>>,
    tokenCount: Option<int>)

  datatype ContextMenu = ContextMenu(visible: bool, x: int, y: int, edgeId: Option<string>, nodeId: Option<string>)

  const ClosedContextMenu: ContextMenu := ContextMenu(false, 0, 0, None, None)

  /** What loading from the database produced: either some step threw, or the
      stored maps and the stored active id were read (and any repaired active
      id was saved). */
  datatype InitOutcome = LoadFailed | Loaded(stored: seq<StoredMap>, savedActiveId: Option<string>)

  /** The list of maps together with the active id. */
  datatype MapList = MapList(maps: seq<KnowledgeMap>, activeMapId: string)

  const MaxTokenLimit: int := 300000

  /** `Math.ceil(text.length / 4)`. */
  function EstimateTokenCount(text: string): (r: nat)
    ensures 4 * r >= |text| && 4 * r < |text| + 4
  {
    (|text| + 3) / 4
  }

  // ---------------------------------------------------------------------
  // Initial data

  const WelcomeMessage: Message :=
    Message("welcome", Assistant, "你好！我是你的AI助手，可以帮你解答关于知识地图的问题，或者提供学习建议。")

  const InitialChatHistory: seq<Message> := [WelcomeMessage]

  function InitialNode(id: string, labelText: string, content: string, level: int, x: int, y: int): Node {
    Node(id, "custom", NodeData(Some(labelText), Some(content), Some(level)), Position(x, y), EmptyStyle)
  }

  const InitialNodes: seq<Node> := [
    InitialNode("1", "知识点 1", "<h2>主要概念</h2><p>这是关于知识点1的详细描述内容。</p><ul><li>要点一</li><li>要点二</li></ul>", Advanced, 250, 5),
    InitialNode("2", "知识点 2", "<p>这是关于知识点2的详细描述内容。</p><blockquote>引用的内容</blockquote>", Basic, 100, 100),
    InitialNode("3", "知识点 3", "<p>这是关于知识点3的详细描述内容。</p><pre><code>console.log('代码示例');</code></pre>", Intermediate, 400, 100),
    InitialNode("4", "知识点 4", "<p>这是关于知识点4的详细描述内容。</p><ul class='task-list'><li data-type='taskItem' data-checked='true'>已完成任务</li><li data-type='taskItem' data-checked='false'>未完成任务</li></ul>", NotStarted, 250, 200),
    InitialNode("5", "知识点 5", "<p>这是一个已经完全掌握的知识点。</p>", Mastered, 400, 200)
  ]

  function StrokeStyle(colour: string): Style {
    Style(None, None, map["stroke" := colour])
  }

  const InitialEdges: seq<Edge> := [
    Edge("e1-2", "1", "2", StrokeStyle("#a8a29e")),
    Edge("e1-3", "1", "3", StrokeStyle("#a8a29e")),
    Edge("e2-4", "2", "4", StrokeStyle("#d6d3d1")),
    Edge("e3-4", "3", "4", StrokeStyle("#d6d3d1")),
    Edge("e1-5", "1", "5", StrokeStyle("#a3e635"))
  ]

  /** `createDefaultMap`, with the fresh uuid as a parameter. */
  function DefaultMap(id: string): KnowledgeMap {
    KnowledgeMap(id, "默认知识地图", InitialNodes, InitialEdges, InitialChatHistory, 0)
  }

  /** The default map is well formed: its node ids are distinct, every edge
      joins two of its nodes, and its chat history is the welcome message. */
  lemma DefaultMapWellFormed(id: string)
    ensures var m := DefaultMap(id);
      && (forall i, j :: 0 <= i < j < |m.nodes| ==> m.nodes[i].id != m.nodes[j].id)
      && (forall e :: e in m.edges ==>
            (exists i :: 0 <= i < |m.nodes| && m.nodes[i].id == e.source)
            && (exists j :: 0 <= j < |m.nodes| && m.nodes[j].id == e.target))
      && m.chatHistory == [WelcomeMessage] && m.tokenCount == 0
  {
    InitialNodeIdsDistinct();
    InitialEdgesJoinNodes();
  }

  /** The initial node ids "1" to "5" are distinct. */
  lemma InitialNodeIdsDistinct()
    ensures forall i, j :: 0 <= i < j < |InitialNodes| ==> InitialNodes[i].id != InitialNodes[j].id
  {
    assert InitialNodes[0].id == "1" && InitialNodes[1].id == "2" && InitialNodes[2].id == "3";
    assert InitialNodes[3].id == "4" && InitialNodes[4].id == "5";
  }

  /** Every initial edge joins two initial nodes. */
  lemma InitialEdgesJoinNodes()
    ensures forall e :: e in InitialEdges ==>
      (exists i :: 0 <= i < |InitialNodes| && InitialNodes[i].id == e.source)
      && (exists j :: 0 <= j < |InitialNodes| && InitialNodes[j].id == e.target)
  {
    assert InitialNodes[0].id == "1" && InitialNodes[1].id == "2" && InitialNodes[2].id == "3";
    assert InitialNodes[3].id == "4" && InitialNodes[4].id == "5";
  }

  // ---------------------------------------------------------------------
  // Finding and replacing maps

  function MapIds(maps: seq<KnowledgeMap>): set<string> {
    set i | 0 <= i < |maps| :: maps[i].id
  }

  predicate UniqueMapIds(maps: seq<KnowledgeMap>) {
    forall i, j :: 0 <= i < j < |maps| ==> maps[i].id != maps[j].id
  }

  /** `maps.find((map) => map.id === id)`, as the index of the first match. */
  function FindIndex(maps: seq<KnowledgeMap>, id: string): (r: Option<nat>)
    ensures r.Some? ==> r.value < |maps| && maps[r.value].id == id
    ensures r.Some? ==> forall j :: 0 <= j < r.value ==> maps[j].id != id
    ensures r.None? <==> id !in MapIds(maps)
  {
    if maps == [] then None
    else if maps[0].id == id then Some(0)
    else match FindIndex(maps[1..], id)
      case None =>
        assert MapIds(maps) == {maps[0].id} + MapIds(maps[1..]) by {
          forall x | x in MapIds(maps) ensures x in {maps[0].id} + MapIds(maps[1..]) {
            var i :| 0 <= i < |maps| && maps[i].id == x;
            if i > 0 { assert maps[1..][i - 1].id == x; }
          }
        }
        None
      case Some(k) => Some(k + 1)
  }

  /** `maps.map((map) => (map.id === id ? updated : map))`. With no map
      carrying the id nothing changes; an update that keeps the id keeps the
      set of ids and their distinctness. */
  function ReplaceWhere(maps: seq<KnowledgeMap>, id: string, updated: KnowledgeMap): (r: seq<KnowledgeMap>)
    ensures |r| == |maps|
    ensures forall i :: 0 <= i < |maps| ==> r[i] == if maps[i].id == id then updated else maps[i]
    ensures id !in MapIds(maps) ==> r == maps
    ensures updated.id == id ==> MapIds(r) == MapIds(maps) && (UniqueMapIds(maps) ==> UniqueMapIds(r))
  {
    var r := seq(|maps|, i requires 0 <= i < |maps| => if maps[i].id == id then updated else maps[i]);
    assert id !in MapIds(maps) ==> r == maps by {
      if id !in MapIds(maps) {
        assert forall i :: 0 <= i < |maps| ==> maps[i].id in MapIds(maps);
      }
    }
    assert updated.id == id ==> MapIds(r) == MapIds(maps) by {
      if updated.id == id {
        assert forall i :: 0 <= i < |maps| ==> r[i].id == maps[i].id;
        forall x | x in MapIds(maps) ensures x in MapIds(r) {
          var i :| 0 <= i < |maps| && maps[i].id == x;
          assert r[i].id == x;
        }
      }
    }
    r
  }

  /** The pattern every per-map operation follows: find the active map; if
      there is none, nothing changes; otherwise every map with the active id
      is replaced by the updated copy of the first one. */
  function ApplyToActive(maps: seq<KnowledgeMap>, active: string, f: KnowledgeMap -> KnowledgeMap): seq<KnowledgeMap> {
    match FindIndex(maps, active)
    case None => maps
    case Some(k) => ReplaceWhere(maps, active, f(maps[k]))
  }

  /** Only the active map changes: other maps keep their place and value, and
      when the update keeps ids the set of ids and their uniqueness survive. */
  lemma ApplyToActiveFrame(maps: seq<KnowledgeMap>, active: string, f: KnowledgeMap -> KnowledgeMap)
    ensures var r := ApplyToActive(maps, active, f);
      && |r| == |maps|
      && (forall i :: 0 <= i < |maps| && maps[i].id != active ==> r[i] == maps[i])
      && (active !in MapIds(maps) ==> r == maps)
      && (forall i :: 0 <= i < |maps| && maps[i].id == active ==> r[i] == f(maps[FindIndex(maps, active).value]))
      && ((forall m :: f(m).id == m.id) ==> MapIds(r) == MapIds(maps) && (UniqueMapIds(maps) ==> UniqueMapIds(r)))
  {
    var r := ApplyToActive(maps, active, f);
    if (forall m :: f(m).id == m.id) && FindIndex(maps, active).Some? {
      assert forall i :: 0 <= i < |maps| ==> r[i].id == maps[i].id;
      assert MapIds(r) == MapIds(maps) by {
        forall x | x in MapIds(maps) ensures x in MapIds(r) {
          var i :| 0 <= i < |maps| && maps[i].id == x;
          assert r[i].id == x;
        }
      }
    }
  }

  // ---------------------------------------------------------------------
  // Per-map operations

  /** `deleteNode`: drop every node with the id and every edge that starts or
      ends at it; nothing else about the map changes. */
  function WithoutNode(m: KnowledgeMap, nodeId: string): (r: KnowledgeMap)
    ensures r.id == m.id && r.name == m.name && r.chatHistory == m.chatHistory && r.tokenCount == m.tokenCount
    ensures forall n :: n in r.nodes <==> n in m.nodes && n.id != nodeId
    ensures forall e :: e in r.edges <==> e in m.edges && e.source != nodeId && e.target != nodeId
  {
    var nodes := Filter(m.nodes, (n: Node) => n.id != nodeId);
    var edges := Filter(m.edges, (e: Edge) => e.source != nodeId && e.target != nodeId);
    assert forall n :: n in m.nodes ==> exists i :: 0 <= i < |m.nodes| && m.nodes[i] == n;
    assert forall n :: n in nodes ==> exists i :: 0 <= i < |nodes| && nodes[i] == n;
    assert forall e :: e in m.edges ==> exists i :: 0 <= i < |m.edges| && m.edges[i] == e;
    assert forall e :: e in edges ==> exists i :: 0 <= i < |edges| && edges[i] == e;
    m.(nodes := nodes, edges := edges)
  }

  /** `deleteEdge`: drop every edge with the id; the nodes are untouched. */
  function WithoutEdge(m: KnowledgeMap, edgeId: string): (r: KnowledgeMap)
    ensures r.id == m.id && r.name == m.name && r.nodes == m.nodes
    ensures r.chatHistory == m.chatHistory && r.tokenCount == m.tokenCount
    ensures forall e :: e in r.edges <==> e in m.edges && e.id != edgeId
  {
    var edges := Filter(m.edges, (e: Edge) => e.id != edgeId);
    assert forall e :: e in m.edges ==> exists i :: 0 <= i < |m.edges| && m.edges[i] == e;
    assert forall e :: e in edges ==> exists i :: 0 <= i < |edges| && edges[i] == e;
    m.(edges := edges)
  }

  /** Deleting keeps the survivors in their original order: removing a node
      from a map that ends in another node still ends in that node, and so on
      for any split of the list. */
  lemma WithoutNodeKeepsOrder(m: KnowledgeMap, nodeId: string, front: seq<Node>, back: seq<Node>)
    requires m.nodes == front + back
    ensures WithoutNode(m, nodeId).nodes
         == Filter(front, (n: Node) => n.id != nodeId) + Filter(back, (n: Node) => n.id != nodeId)
  {
    FilterConcat(front, back, (n: Node) => n.id != nodeId);
  }

  /** Deleting a node that does not occur changes nothing but may drop
      dangling edges; deleting it when no edge touches it changes nothing. */
  lemma WithoutAbsentNode(m: KnowledgeMap, nodeId: string)
    requires forall i :: 0 <= i < |m.nodes| ==> m.nodes[i].id != nodeId
    requires forall i :: 0 <= i < |m.edges| ==> m.edges[i].source != nodeId && m.edges[i].target != nodeId
    ensures WithoutNode(m, nodeId) == m
  {
    FilterKeepsAll(m.nodes, (n: Node) => n.id != nodeId);
    FilterKeepsAll(m.edges, (e: Edge) => e.source != nodeId && e.target != nodeId);
  }

  /** `updateNodeContent`: matching nodes get the new label and content and
      keep their level; every other node and all edges stay as they were. */
  function WithContent(m: KnowledgeMap, id: string, labelText: string, content: string): (r: KnowledgeMap)
    ensures r.id == m.id && r.name == m.name && r.edges == m.edges
    ensures r.chatHistory == m.chatHistory && r.tokenCount == m.tokenCount
    ensures |r.nodes| == |m.nodes|
    ensures forall i :: 0 <= i < |m.nodes| && m.nodes[i].id != id ==> r.nodes[i] == m.nodes[i]
    ensures forall i :: 0 <= i < |m.nodes| && m.nodes[i].id == id ==>
      && r.nodes[i].data.labelText == Some(labelText) && r.nodes[i].data.content == Some(content)
      && r.nodes[i].data.level == m.nodes[i].data.level
      && r.nodes[i].(data := m.nodes[i].data) == m.nodes[i]
  {
    var nodes := seq(|m.nodes|, i requires 0 <= i < |m.nodes| =>
      var node := m.nodes[i];
      if node.id == id then node.(data := node.data.(labelText := Some(labelText), content := Some(content))) else node);
    m.(nodes := nodes)
  }

  /** `updateNodeUnderstandingLevel`: matching nodes get the new level and
      keep their label and content; everything else stays as it was. */
  function WithLevel(m: KnowledgeMap, id: string, level: int): (r: KnowledgeMap)
    ensures r.id == m.id && r.name == m.name && r.edges == m.edges
    ensures r.chatHistory == m.chatHistory && r.tokenCount == m.tokenCount
    ensures |r.nodes| == |m.nodes|
    ensures forall i :: 0 <= i < |m.nodes| && m.nodes[i].id != id ==> r.nodes[i] == m.nodes[i]
    ensures forall i :: 0 <= i < |m.nodes| && m.nodes[i].id == id ==>
      && r.nodes[i].data.level == Some(level)
      && r.nodes[i].data.labelText == m.nodes[i].data.labelText
      && r.nodes[i].data.content == m.nodes[i].data.content
      && r.nodes[i].(data := m.nodes[i].data) == m.nodes[i]
  {
    var nodes := seq(|m.nodes|, i requires 0 <= i < |m.nodes| =>
      var node := m.nodes[i];
      if node.id == id then node.(data := node.data.(level := Some(level))) else node);
    m.(nodes := nodes)
  }

  /** The id `addNewNode` derives from the current node count. */
  function NewNodeId(count: nat): string {
    "node-" + NatToString(count + 1)
  }

  /** The node `addNewNode` appends; its random position is a parameter. */
  function NewNode(count: nat, x: int, y: int): Node {
    Node(NewNodeId(count), "custom", NodeData(Some("新知识点"), Some("<p>在此输入内容...</p>"), Some(NotStarted)), Position(x, y), EmptyStyle)
  }

  /** The new node's id reads back as one more than the old node count, and
      it starts not started. */
  lemma NewNodeIdReadsBack(count: nat, x: int, y: int)
    ensures var n := NewNode(count, x, y);
      && |n.id| > 5 && n.id[..5] == "node-" && ParseInt(n.id[5..]) == Some(count + 1)
      && n.data.level == Some(NotStarted)
  {
    var n := NewNode(count, x, y);
    assert n.id[5..] == NatToString(count + 1);
    ParseIntOfNatToString(count + 1);
  }

  /** The derived id is not always fresh: after `node-1` is deleted from a map
      holding `node-1` and `node-2`, the next node added is `node-2` again. */
  lemma NewNodeIdCanCollide(x: int, y: int)
    ensures var m := KnowledgeMap("m", "m", [NewNode(0, 0, 0), NewNode(1, 0, 0)], [], [], 0);
      var after := WithoutNode(m, "node-1");
      && after.nodes == [NewNode(1, 0, 0)]
      && NewNode(|after.nodes|, x, y).id == after.nodes[0].id
  {
    var m := KnowledgeMap("m", "m", [NewNode(0, 0, 0), NewNode(1, 0, 0)], [], [], 0);
    assert NewNodeId(0) == "node-1" && NewNodeId(1) == "node-2";
    assert m.nodes[1..][1..] == [];
  }

  /** `createNodesFromAI`: the map's nodes and edges are replaced wholesale. */
  function WithGraph(m: KnowledgeMap, nodes: seq<Node>, edges: seq<Edge>): (r: KnowledgeMap)
    ensures r.nodes == nodes && r.edges == edges
    ensures r.id == m.id && r.name == m.name && r.chatHistory == m.chatHistory && r.tokenCount == m.tokenCount
  {
    m.(nodes := nodes, edges := edges)
  }

  // ---------------------------------------------------------------------
  // Chat history under a token budget

  datatype History = History(messages: seq<Message>, tokenCount: int)

  /** The estimated tokens of a list of messages. */
  function Tokens(ms: seq<Message>): nat {
    if ms == [] then 0 else EstimateTokenCount(ms[0].content) + Tokens(ms[1..])
  }

  /** The trimming `while` loop: while the count is over the limit and more
      than two messages remain, the oldest is dropped and its estimate taken
      off the count. */
  function DropOldest(rest: seq<Message>, count: int): History
    decreases |rest|
  {
    if count > MaxTokenLimit && |rest| > 2 then DropOldest(rest[1..], count - EstimateTokenCount(rest[0].content))
    else History(rest, count)
  }

  /** `addChatMessage` on one map's history: append the message and its
      estimate; if the count is then over the limit, keep the first message
      and trim the rest. */
  function AddToHistory(h: History, message: Message): History {
    var full := h.messages + [message];
    var count := h.tokenCount + EstimateTokenCount(message.content);
    if count > MaxTokenLimit then
      var trimmed := DropOldest(full[1..], count);
      History([full[0]] + trimmed.messages, trimmed.tokenCount)
    else History(full, count)
  }

  /** What the loop leaves: a suffix of its input, whose count is the input
      count less exactly the estimates of the dropped prefix; it stops at the
      first point where the count is within the limit or at most two
      messages remain, and it never drops below two messages. */
  lemma {:induction false} DropOldestShape(rest: seq<Message>, count: int)
    ensures var r := DropOldest(rest, count); var d := |rest| - |r.messages|;
      && |r.messages| <= |rest| && r.messages == rest[d..]
      && r.tokenCount == count - Tokens(rest[..d])
      && (r.tokenCount <= MaxTokenLimit || |r.messages| <= 2)
      && (forall j :: 0 <= j < d ==> count - Tokens(rest[..j]) > MaxTokenLimit && |rest| - j > 2)
      && (|rest| <= 2 ==> r.messages == rest)
      && (|rest| > 2 ==> |r.messages| >= 2)
    decreases |rest|
  {
    if count > MaxTokenLimit && |rest| > 2 {
      var tail := rest[1..];
      var e0 := EstimateTokenCount(rest[0].content);
      DropOldestShape(tail, count - e0);
      var r := DropOldest(tail, count - e0);
      var d := |rest| - |r.messages|;
      assert r.messages == rest[d..] by { assert tail[d - 1..] == rest[d..]; }
      forall j | 1 <= j <= d
        ensures Tokens(rest[..j]) == e0 + Tokens(tail[..j - 1])
      {
        assert rest[..j][1..] == tail[..j - 1];
      }
      assert Tokens(rest[..0]) == 0 by { assert rest[..0] == []; }
    } else {
      assert rest[..0] == [];
    }
  }

  /** The trimming promise of `addChatMessage`. Within the limit the message
      is appended and its estimate added. Over it, the first message is kept,
      the rest is a suffix of the old rest followed by the message, the
      message itself is never dropped, and the count falls by exactly the
      estimates of the dropped messages. */
  lemma AddToHistoryTrims(h: History, message: Message)
    ensures var full := h.messages + [message];
      var count := h.tokenCount + EstimateTokenCount(message.content);
      var r := AddToHistory(h, message);
      var d := |full| - |r.messages|;
      && (count <= MaxTokenLimit ==> r == History(full, count))
      && (count > MaxTokenLimit ==>
           && 1 <= |r.messages| <= |full|
           && r.messages[0] == full[0]
           && r.messages[1..] == full[1..][d..]
           && r.messages[|r.messages| - 1] == message
           && r.tokenCount == count - Tokens(full[1..][..d])
           && (r.tokenCount <= MaxTokenLimit || |r.messages| <= 3))
  {
    var full := h.messages + [message];
    var count := h.tokenCount + EstimateTokenCount(message.content);
    if count > MaxTokenLimit {
      DropOldestShape(full[1..], count);
      var r := AddToHistory(h, message);
      assert r.messages[1..] == DropOldest(full[1..], count).messages;
    }
  }

  /** The trimming loop itself, on values: `shift` as dropping the first
      element, `newTokenCount -=` as the decrement. */
  method AppendMessage(chatHistory: seq<Message>, tokenCount: int, message: Message)
    returns (updatedChatHistory: seq<Message>, newTokenCount: int)
    ensures History(updatedChatHistory, newTokenCount) == AddToHistory(History(chatHistory, tokenCount), message)
  {
    var messageTokens := EstimateTokenCount(message.content);
    newTokenCount := tokenCount + messageTokens;
    updatedChatHistory := chatHistory + [message];
    if newTokenCount > MaxTokenLimit {
      var welcomeMessage := updatedChatHistory[0];
      updatedChatHistory := updatedChatHistory[1..];
      ghost var rest0, count0 := updatedChatHistory, newTokenCount;
      while newTokenCount > MaxTokenLimit && |updatedChatHistory| > 2
        invariant DropOldest(updatedChatHistory, newTokenCount) == DropOldest(rest0, count0)
        decreases |updatedChatHistory|
      {
        var oldestMessage := updatedChatHistory[0];
        updatedChatHistory := updatedChatHistory[1..];
        newTokenCount := newTokenCount - EstimateTokenCount(oldestMessage.content);
      }
      updatedChatHistory := [welcomeMessage] + updatedChatHistory;
    }
  }

  function WithHistory(m: KnowledgeMap, h: History): KnowledgeMap {
    m.(chatHistory := h.messages, tokenCount := h.tokenCount)
  }

  /** The update `addChatMessage` applies to the active map. */
  function AddMessage(message: Message): KnowledgeMap -> KnowledgeMap {
    (m: KnowledgeMap) => WithHistory(m, AddToHistory(History(m.chatHistory, m.tokenCount), message))
  }

  // ---------------------------------------------------------------------
  // Map management

  /** Each stored map gets the initial history and a zero count when it has
      none (`map.chatHistory || [...]`, `map.tokenCount || 0`). */
  function Normalize(s: StoredMap): (m: KnowledgeMap)
    ensures m.id == s.id && m.name == s.name && m.nodes == s.nodes && m.edges == s.edges
    ensures m.chatHistory == (if s.chatHistory.Some? then s.chatHistory.value else InitialChatHistory)
    ensures m.tokenCount == (if s.tokenCount.Some? then s.tokenCount.value else 0)
  {
    KnowledgeMap(s.id, s.name, s.nodes, s.edges,
      if s.chatHistory.Some? then s.chatHistory.value else InitialChatHistory,
      if s.tokenCount.Some? && s.tokenCount.value != 0 then s.tokenCount.value else 0)
  }

  /** Every stored map, in order, normalised: each keeps its id at its
      position, so the ids and their distinctness are those of the stored
      maps. */
  function NormalizeAll(stored: seq<StoredMap>): (r: seq<KnowledgeMap>)
    ensures |r| == |stored| && forall i :: 0 <= i < |stored| ==> r[i] == Normalize(stored[i])
    ensures forall i :: 0 <= i < |stored| ==> r[i].id == stored[i].id
    ensures MapIds(r) == set i | 0 <= i < |stored| :: stored[i].id
    ensures UniqueMapIds(r) <==> forall i, j :: 0 <= i < j < |stored| ==> stored[i].id != stored[j].id
  {
    var r := seq(|stored|, i requires 0 <= i < |stored| => Normalize(stored[i]));
    assert forall i :: 0 <= i < |stored| ==> r[i].id == stored[i].id;
    assert MapIds(r) == set i | 0 <= i < |stored| :: stored[i].id by {
      forall x | x in (set i | 0 <= i < |stored| :: stored[i].id) ensures x in MapIds(r) {
        var i :| 0 <= i < |stored| && stored[i].id == x;
        assert r[i].id == x;
      }
    }
    r
  }

  /** `initialize`: a failure or an empty database gives the default map; a
      stored active id is kept only when it is non-empty and names a map, and
      is otherwise replaced by the first map's id. */
  function Initialized(outcome: InitOutcome, defaultId: string): (r: MapList)
    ensures |r.maps| >= 1 && r.activeMapId in MapIds(r.maps)
    ensures (outcome.LoadFailed? || |outcome.stored| == 0) ==> r == MapList([DefaultMap(defaultId)], defaultId)
    ensures outcome.Loaded? && |outcome.stored| > 0 ==>
      && r.maps == NormalizeAll(outcome.stored)
      && (r.activeMapId == (if outcome.savedActiveId.Some? && outcome.savedActiveId.value != ""
                              && outcome.savedActiveId.value in MapIds(r.maps)
                            then outcome.savedActiveId.value else outcome.stored[0].id))
  {
    if outcome.LoadFailed? || |outcome.stored| == 0 then
      assert DefaultMap(defaultId) == [DefaultMap(defaultId)][0];
      MapList([DefaultMap(defaultId)], defaultId)
    else
      var updatedMaps := NormalizeAll(outcome.stored);
      var saved := outcome.savedActiveId;
      var activeMapId :=
        if saved.None? || saved.value == "" || FindIndex(updatedMaps, saved.value).None? then updatedMaps[0].id
        else saved.value;
      MapList(updatedMaps, activeMapId)
  }

  /** `createMap`: an empty map with the initial history, appended and made
      active. */
  function NewMap(id: string, name: string): (m: KnowledgeMap)
    ensures m.id == id && m.name == name && m.nodes == [] && m.edges == []
    ensures m.chatHistory == InitialChatHistory && m.tokenCount == 0
  {
    KnowledgeMap(id, name, [], [], InitialChatHistory, 0)
  }

  /** `renameMap`: every map with the id gets the name, nothing else changes. */
  function Renamed(maps: seq<KnowledgeMap>, id: string, name: string): (r: seq<KnowledgeMap>)
    ensures |r| == |maps| && MapIds(r) == MapIds(maps)
    ensures forall i :: 0 <= i < |maps| ==> r[i] == if maps[i].id == id then maps[i].(name := name) else maps[i]
  {
    var r := seq(|maps|, i requires 0 <= i < |maps| => if maps[i].id == id then maps[i].(name := name) else maps[i]);
    assert forall i :: 0 <= i < |maps| ==> r[i].id == maps[i].id;
    assert MapIds(r) == MapIds(maps) by {
      forall x | x in MapIds(maps) ensures x in MapIds(r) {
        var i :| 0 <= i < |maps| && maps[i].id == x;
        assert r[i].id == x;
      }
    }
    r
  }

  /** `deleteMap`. With at most one map nothing changes. Otherwise the maps
      with the id are dropped and, when the active map was deleted, the first
      remaining map becomes active. `None` is the `TypeError` the source
      catches and rethrows when no map remains to take over. */
  function DeleteMapIn(l: MapList, id: string): (r: Option<MapList>)
    ensures |l.maps| <= 1 ==> r == Some(l)
    ensures r.None? <==> |l.maps| > 1 && l.activeMapId == id && MapIds(l.maps) <= {id}
    ensures r.Some? && |l.maps| > 1 ==>
      && MapIds(r.value.maps) == MapIds(l.maps) - {id}
      && (forall m :: m in r.value.maps <==> m in l.maps && m.id != id)
      && r.value.activeMapId == (if l.activeMapId == id then r.value.maps[0].id else l.activeMapId)
    ensures r.Some? && |l.maps| > 1 ==> r.value.maps == Filter(l.maps, (m: KnowledgeMap) => m.id != id)
  {
    if |l.maps| <= 1 then Some(l)
    else
      var newMaps := Filter(l.maps, (m: KnowledgeMap) => m.id != id);
      FilterWithoutId(l.maps, id);
      if l.activeMapId == id then
        if |newMaps| == 0 then None
        else
          assert newMaps[0].id in MapIds(newMaps);
          Some(MapList(newMaps, newMaps[0].id))
      else Some(MapList(newMaps, l.activeMapId))
  }

  /** Deleting the active map hands over to the first map, in the original
      order, whose id differs from the deleted one. */
  lemma DeleteMapHandsToFirst(l: MapList, id: string) returns (k: int)
    requires |l.maps| > 1 && l.activeMapId == id && DeleteMapIn(l, id).Some?
    ensures 0 <= k < |l.maps| && l.maps[k].id != id
    ensures forall j :: 0 <= j < k ==> l.maps[j].id == id
    ensures DeleteMapIn(l, id).value.activeMapId == l.maps[k].id
  {
    k := FilterStartsAtFirstKept(l.maps, (m: KnowledgeMap) => m.id != id);
  }

  /** The maps that survive a deletion keep their original relative order. */
  lemma DeleteMapKeepsOrder(l: MapList, id: string, front: seq<KnowledgeMap>, back: seq<KnowledgeMap>)
    requires |l.maps| > 1 && l.maps == front + back && DeleteMapIn(l, id).Some?
    ensures DeleteMapIn(l, id).value.maps
         == Filter(front, (m: KnowledgeMap) => m.id != id) + Filter(back, (m: KnowledgeMap) => m.id != id)
  {
    FilterConcat(front, back, (m: KnowledgeMap) => m.id != id);
  }

  /** Dropping the maps with an id keeps every other map, and only those,
      so the ids left are the old ones less that id. */
  lemma FilterWithoutId(maps: seq<KnowledgeMap>, id: string)
    ensures var r := Filter(maps, (m: KnowledgeMap) => m.id != id);
      && (forall m :: m in r <==> m in maps && m.id != id)
      && MapIds(r) == MapIds(maps) - {id}
  {
    var r := Filter(maps, (m: KnowledgeMap) => m.id != id);
    assert forall m :: m in maps ==> exists i :: 0 <= i < |maps| && maps[i] == m;
    assert forall m :: m in r ==> exists i :: 0 <= i < |r| && r[i] == m;
    forall x | x in MapIds(maps) - {id} ensures x in MapIds(r) {
      var i :| 0 <= i < |maps| && maps[i].id == x;
      assert maps[i] in r;
      var j :| 0 <= j < |r| && r[j] == maps[i];
    }
    forall x | x in MapIds(r) ensures x in MapIds(maps) - {id} {
      var j :| 0 <= j < |r| && r[j].id == x;
      assert r[j] in maps;
    }
  }

  /** With distinct ids, deleting a map from two or more never fails, leaves
      at least one map, keeps the ids distinct and keeps the active id naming
      a map. */
  lemma DeleteMapKeepsOne(l: MapList, id: string)
    requires |l.maps| >= 1 && UniqueMapIds(l.maps) && l.activeMapId in MapIds(l.maps)
    ensures var r := DeleteMapIn(l, id);
      && r.Some? && |r.value.maps| >= 1 && UniqueMapIds(r.value.maps)
      && r.value.activeMapId in MapIds(r.value.maps)
  {
    if |l.maps| > 1 {
      assert l.maps[0].id != l.maps[1].id;
      assert l.maps[0].id in MapIds(l.maps) && l.maps[1].id in MapIds(l.maps);
      assert !(MapIds(l.maps) <= {id});
      var r := DeleteMapIn(l, id);
      var newMaps := r.value.maps;
      assert newMaps == Filter(l.maps, (m: KnowledgeMap) => m.id != id);
      var x := if l.maps[0].id != id then l.maps[0].id else l.maps[1].id;
      assert x in MapIds(newMaps);
      FilterUnique(l.maps, id);
    }
  }

  /** Filtering maps keeps their ids distinct. */
  lemma {:induction false} FilterUnique(maps: seq<KnowledgeMap>, id: string)
    requires UniqueMapIds(maps)
    ensures UniqueMapIds(Filter(maps, (m: KnowledgeMap) => m.id != id))
  {
    var keep := (m: KnowledgeMap) => m.id != id;
    if maps != [] {
      TailUnique(maps);
      FilterUnique(maps[1..], id);
      var tail := Filter(maps[1..], keep);
      forall k | 0 <= k < |tail| ensures tail[k].id != maps[0].id {
        var i :| 0 <= i < |maps[1..]| && maps[1..][i] == tail[k];
        assert maps[i + 1] == tail[k];
      }
      assert Filter(maps, keep) == (if keep(maps[0]) then [maps[0]] else []) + tail;
      if keep(maps[0]) {
        ConsUnique(maps[0], tail);
      } else {
        assert [] + tail == tail;
      }
    }
  }

  /** Dropping the first map keeps the ids distinct. */
  lemma TailUnique(maps: seq<KnowledgeMap>)
    requires maps != [] && UniqueMapIds(maps)
    ensures UniqueMapIds(maps[1..])
  {
    forall i, j | 0 <= i < j < |maps[1..]| ensures maps[1..][i].id != maps[1..][j].id {
      assert maps[1..][i] == maps[i + 1] && maps[1..][j] == maps[j + 1];
    }
  }

  /** A map whose id no other map has can go in front. */
  lemma ConsUnique(m: KnowledgeMap, tail: seq<KnowledgeMap>)
    requires UniqueMapIds(tail) && forall k :: 0 <= k < |tail| ==> tail[k].id != m.id
    ensures UniqueMapIds([m] + tail)
  {
    var s := [m] + tail;
    forall i, j | 0 <= i < j < |s| ensures s[i].id != s[j].id {
      assert s[j] == tail[j - 1];
      if i > 0 {
        assert s[i] == tail[i - 1];
      }
    }
  }

  // ---------------------------------------------------------------------
  // The store

  /** Every field of the store, as one value. */
  datatype StoreView = StoreView(
    maps: seq<KnowledgeMap>,
    activeMapId: string,
    isLoading: bool,
    selectedNode: Option<Node>,
    isDialogOpen: bool,
    contextMenu: ContextMenu)

  class Store {
    var maps: seq<KnowledgeMap>
    var activeMapId: string
    var isLoading: bool
    var selectedNode: Option<Node>
    var isDialogOpen: bool
    var contextMenu: ContextMenu

    function View(): StoreView
      reads this
    {
      StoreView(maps, activeMapId, isLoading, selectedNode, isDialogOpen, contextMenu)
    }

    /** The store once loading has finished: at least one map, distinct ids. */
    predicate Valid()
      reads this
    {
      |maps| >= 1 && UniqueMapIds(maps)
    }

    /** The active id names a map (`switchMap` does not check it does). */
    predicate ActiveExists()
      reads this
    {
      activeMapId in MapIds(maps)
    }

    /** The state before `initialize` has run. */
    constructor ()
      ensures View() == StoreView([], "", true, None, false, ClosedContextMenu)
    {
      maps := [];
      activeMapId := "";
      isLoading := true;
      selectedNode := None;
      isDialogOpen := false;
      contextMenu := ClosedContextMenu;
    }

    method Initialize(outcome: InitOutcome, defaultId: string)
      modifies this
      ensures var l := Initialized(outcome, defaultId);
        View() == old(View()).(maps := l.maps, activeMapId := l.activeMapId, isLoading := false)
      ensures ActiveExists()
      ensures outcome.LoadFailed? ==> Valid()
      ensures outcome.Loaded? && UniqueMapIds(NormalizeAll(outcome.stored)) ==> Valid()
    {
      isLoading := true;
      var l := Initialized(outcome, defaultId);
      maps, activeMapId := l.maps, l.activeMapId;
      isLoading := false;
    }

    /** `createMap`; `persisted` is whether both database writes succeeded (a
        failure is thrown to the caller and the state is kept). */
    method CreateMap(name: string, newId: string, persisted: bool) returns (ok: bool)
      modifies this
      ensures ok == persisted
      ensures View() == if ok then old(View()).(maps := old(maps) + [NewMap(newId, name)], activeMapId := newId)
                        else old(View())
      ensures ok ==> ActiveExists()
      ensures old(Valid()) && newId !in old(MapIds(maps)) ==> Valid()
    {
      ok := persisted;
      if ok {
        var newMap := NewMap(newId, name);
        maps := maps + [newMap];
        activeMapId := newMap.id;
        assert maps[|maps| - 1].id == newId;
      }
    }

    /** `switchMap`; the id is not checked against the maps. */
    method SwitchMap(id: string, persisted: bool)
      modifies this
      ensures View() == if persisted then old(View()).(activeMapId := id) else old(View())
    {
      if persisted {
        activeMapId := id;
      }
    }

    method RenameMap(id: string, name: string)
      modifies this
      ensures View() == old(View()).(maps := Renamed(old(maps), id, name))
      ensures MapIds(maps) == old(MapIds(maps))
      ensures old(Valid()) ==> Valid()
    {
      maps := Renamed(maps, id, name);
    }

    /** `deleteMap`; `ok` is false when the source throws. */
    method DeleteMap(id: string) returns (ok: bool)
      modifies this
      ensures var r := DeleteMapIn(MapList(old(maps), old(activeMapId)), id);
        && ok == r.Some?
        && View() == if ok then old(View()).(maps := r.value.maps, activeMapId := r.value.activeMapId) else old(View())
      ensures old(Valid()) && old(ActiveExists()) ==> ok && Valid() && ActiveExists()
    {
      if |maps| <= 1 {
        return true;
      }
      if Valid() && ActiveExists() {
        DeleteMapKeepsOne(MapList(maps, activeMapId), id);
      }
      var newMaps := Filter(maps, (m: KnowledgeMap) => m.id != id);
      if activeMapId == id && |newMaps| == 0 {
        return false;
      }
      var newActiveId := if activeMapId == id then newMaps[0].id else activeMapId;
      maps, activeMapId := newMaps, newActiveId;
      ok := true;
    }

    method UpdateNodeContent(id: string, labelText: string, content: string)
      modifies this
      ensures View() == old(View()).(maps := ApplyToActive(old(maps), old(activeMapId), (m: KnowledgeMap) => WithContent(m, id, labelText, content)))
      ensures old(Valid()) ==> Valid()
    {
      ApplyToActiveFrame(maps, activeMapId, (m: KnowledgeMap) => WithContent(m, id, labelText, content));
      var k := FindIndex(maps, activeMapId);
      if k.None? {
        return;
      }
      var updatedMap := WithContent(maps[k.value], id, labelText, content);
      maps := ReplaceWhere(maps, activeMapId, updatedMap);
    }

    method UpdateNodeUnderstandingLevel(id: string, level: int)
      modifies this
      ensures View() == old(View()).(maps := ApplyToActive(old(maps), old(activeMapId), (m: KnowledgeMap) => WithLevel(m, id, level)))
      ensures old(Valid()) ==> Valid()
    {
      ApplyToActiveFrame(maps, activeMapId, (m: KnowledgeMap) => WithLevel(m, id, level));
      var k := FindIndex(maps, activeMapId);
      if k.None? {
        return;
      }
      var updatedMap := WithLevel(maps[k.value], id, level);
      maps := ReplaceWhere(maps, activeMapId, updatedMap);
    }

    /** `addNewNode`; `x` and `y` are the random position. The new node is
        also selected and the node dialog opened. */
    method AddNewNode(x: int, y: int)
      modifies this
      ensures match FindIndex(old(maps), old(activeMapId))
        case None => View() == old(View())
        case Some(k) =>
          var current := old(maps)[k];
          var newNode := NewNode(|current.nodes|, x, y);
          View() == old(View()).(
            maps := ReplaceWhere(old(maps), old(activeMapId), current.(nodes := current.nodes + [newNode])),
            selectedNode := Some(newNode),
            isDialogOpen := true)
      ensures old(Valid()) ==> Valid()
    {
      ApplyToActiveFrame(maps, activeMapId, (m: KnowledgeMap) => m.(nodes := m.nodes + [NewNode(|m.nodes|, x, y)]));
      var k := FindIndex(maps, activeMapId);
      if k.None? {
        return;
      }
      var currentMap := maps[k.value];
      var newNode := NewNode(|currentMap.nodes|, x, y);
      var updatedMap := currentMap.(nodes := currentMap.nodes + [newNode]);
      maps := ReplaceWhere(maps, activeMapId, updatedMap);
      selectedNode := Some(newNode);
      isDialogOpen := true;
    }

    method DeleteNode(nodeId: string)
      modifies this
      ensures View() == old(View()).(maps := ApplyToActive(old(maps), old(activeMapId), (m: KnowledgeMap) => WithoutNode(m, nodeId)))
      ensures old(Valid()) ==> Valid()
    {
      ApplyToActiveFrame(maps, activeMapId, (m: KnowledgeMap) => WithoutNode(m, nodeId));
      var k := FindIndex(maps, activeMapId);
      if k.None? {
        return;
      }
      var updatedMap := WithoutNode(maps[k.value], nodeId);
      maps := ReplaceWhere(maps, activeMapId, updatedMap);
    }

    method DeleteEdge(edgeId: string)
      modifies this
      ensures View() == old(View()).(maps := ApplyToActive(old(maps), old(activeMapId), (m: KnowledgeMap) => WithoutEdge(m, edgeId)))
      ensures old(Valid()) ==> Valid()
    {
      ApplyToActiveFrame(maps, activeMapId, (m: KnowledgeMap) => WithoutEdge(m, edgeId));
      var k := FindIndex(maps, activeMapId);
      if k.None? {
        return;
      }
      var updatedMap := WithoutEdge(maps[k.value], edgeId);
      maps := ReplaceWhere(maps, activeMapId, updatedMap);
    }

    method CreateNodesFromAI(nodes: seq<Node>, edges: seq<Edge>)
      modifies this
      ensures View() == old(View()).(maps := ApplyToActive(old(maps), old(activeMapId), (m: KnowledgeMap) => WithGraph(m, nodes, edges)))
      ensures old(Valid()) ==> Valid()
    {
      ApplyToActiveFrame(maps, activeMapId, (m: KnowledgeMap) => WithGraph(m, nodes, edges));
      var k := FindIndex(maps, activeMapId);
      if k.None? {
        return;
      }
      var updatedMap := WithGraph(maps[k.value], nodes, edges);
      maps := ReplaceWhere(maps, activeMapId, updatedMap);
    }

    method AddChatMessage(message: Message)
      modifies this
      ensures View() == old(View()).(maps := ApplyToActive(old(maps), old(activeMapId), AddMessage(message)))
      ensures old(Valid()) ==> Valid()
    {
      ApplyToActiveFrame(maps, activeMapId, AddMessage(message));
      var k := FindIndex(maps, activeMapId);
      if k.None? {
        return;
      }
      var currentMap := maps[k.value];
      var updatedChatHistory, newTokenCount := AppendMessage(currentMap.chatHistory, currentMap.tokenCount, message);
      var updatedMap := currentMap.(chatHistory := updatedChatHistory, tokenCount := newTokenCount);
      maps := ReplaceWhere(maps, activeMapId, updatedMap);
    }

    method ClearChatHistory()
      modifies this
      ensures View() == old(View()).(maps := ApplyToActive(old(maps), old(activeMapId),
                          (m: KnowledgeMap) => WithHistory(m, History(InitialChatHistory, 0))))
      ensures old(Valid()) ==> Valid()
    {
      ApplyToActiveFrame(maps, activeMapId, (m: KnowledgeMap) => WithHistory(m, History(InitialChatHistory, 0)));
      var k := FindIndex(maps, activeMapId);
      if k.None? {
        return;
      }
      var updatedMap := maps[k.value].(chatHistory := InitialChatHistory, tokenCount := 0);
      maps := ReplaceWhere(maps, activeMapId, updatedMap);
    }

    /** `getChatHistory`: the active map's history, or nothing without one. */
    function ChatHistory(): (r: seq<Message>)
      reads this
      ensures activeMapId !in MapIds(maps) ==> r == []
      ensures forall i :: (0 <= i < |maps| && maps[i].id == activeMapId
                           && forall j :: 0 <= j < i ==> maps[j].id != activeMapId) ==> r == maps[i].chatHistory
    {
      match FindIndex(maps, activeMapId)
      case None => []
      case Some(k) => maps[k].chatHistory
    }

    /** `getTokenCount`: the active map's count, or 0 without one. */
    function TokenCount(): (r: int)
      reads this
      ensures activeMapId !in MapIds(maps) ==> r == 0
      ensures forall i :: (0 <= i < |maps| && maps[i].id == activeMapId
                           && forall j :: 0 <= j < i ==> maps[j].id != activeMapId) ==> r == maps[i].tokenCount
    {
      match FindIndex(maps, activeMapId)
      case None => 0
      case Some(k) => maps[k].tokenCount
    }

    method OpenNodeDialog(node: Node)
      modifies this
      ensures View() == old(View()).(selectedNode := Some(node), isDialogOpen := true)
    {
      selectedNode := Some(node);
      isDialogOpen := true;
    }

    /** The selected node is kept; only the dialog closes. */
    method CloseNodeDialog()
      modifies this
      ensures View() == old(View()).(isDialogOpen := false)
    {
      isDialogOpen := false;
    }

    method OpenContextMenu(x: int, y: int, edgeId: Option<string>, nodeId: Option<string>)
      modifies this
      ensures View() == old(View()).(contextMenu := ContextMenu(true, x, y, edgeId, nodeId))
    {
      contextMenu := ContextMenu(true, x, y, edgeId, nodeId);
    }

    /** Only `visible` is cleared; position and targets are kept. */
    method CloseContextMenu()
      modifies this
      ensures View() == old(View()).(contextMenu := old(contextMenu).(visible := false))
    {
      contextMenu := contextMenu.(visible := false);
    }
  }
}
