/** The records of the knowledge-map application: the understanding levels,
    the graph library's node and edge records as the application fills them,
    and chat messages. */
module KnowledgeMapTypes {
  import opened Wrappers

  /** `UnderstandingLevel`: a node's level is a number, normally one of these. */
  const NotStarted: int := 0
  const Basic: int := 1
  const Intermediate: int := 2
  const Advanced: int := 3
  const Mastered: int := 4

  datatype Position = Position(x: int, y: int)

  /** A node's or edge's `style` object: the two opacities the display pass
      writes, and every other style property (such as `stroke`) by name. */
  datatype Style = Style(opacity: Option<real>, strokeOpacity: Option<real>, other: map<string, string>)

  const EmptyStyle: Style := Style(None, None, map[])

  /** `node.data` (`label` as `labelText`, `label` being a keyword here): a missing
      `understandingLevel` is `None`. */
  datatype NodeData = NodeData(labelText: Option<string>, content: Option<string>, level: Option<int>)

  datatype Node = Node(id: string, kind: string, data: NodeData, position: Position, style: Style)

  datatype Edge = Edge(id: string, source: string, target: string, style: Style)

  datatype Role = System | User | Assistant

  /** A stored chat message (its `timestamp` is not modelled). */
  datatype Message = Message(id: string, role: Role, content: string)

  /** A message as sent to the chat-completion service: role and content only. */
  datatype ChatTurn = ChatTurn(role: Role, content: string)

  function Turn(m: Message): ChatTurn {
    ChatTurn(m.role, m.content)
  }

  function Turns(ms: seq<Message>): (r: seq<ChatTurn>)
    ensures |r| == |ms| && forall i :: 0 <= i < |ms| ==> r[i] == Turn(ms[i])
  {
    seq(|ms|, i requires 0 <= i < |ms| => Turn(ms[i]))
  }

  /** Stripping a conversation strips each part, so a conversation extended
      by a new message is sent as the old turns followed by the new one. */
  lemma TurnsConcat(a: seq<Message>, b: seq<Message>)
    ensures Turns(a + b) == Turns(a) + Turns(b)
  {
  }
}
