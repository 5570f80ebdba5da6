# Knowledge map: a verified model of its stores, display pass and AI text handling

The knowledge-map application lets a learner build a graph of concepts. Each
node carries an understanding level from "not started" to "mastered". An AI
side panel chats about the map, and on an empty map it first holds a short
guidance conversation. That conversation collects the learning goal, and the
AI then generates a base map. A second, smaller front end (`web/`) keeps a
single map in its own store.

This project models the logic of that application in Dafny:

- `MapProcessor`: the display pass. It splits nodes into understood and not
  started and, when nothing is understood, picks a focus node: the earliest
  node nearest the origin. It collects the not-started neighbours, then gives
  every node and edge an opacity from a fixed set.
- `KnowledgeMapStore`: the multi-map store.
  - Every map has nodes, edges, a chat history and a token count.
  - Node and edge edits apply to the active map only.
  - Map creation, renaming and deletion always keep at least one map, and
    loading repairs the active id.
  - The chat history is trimmed under a 300000-token budget by a
    `while`/`shift` loop. That loop is modelled as a method with its own loop
    invariant.
- `WebMapStore`: the single-map store of the web front end. It covers append,
  shallow data merge, position update, cascade delete that clears a stale
  selection, selection, and the state set on loading.
- `KnowledgeMapAi` and `BaseNodes`: the text handling around the AI service.
  - Extracting the `<user_info>` payload with a lazy match.
  - The request lists and the user prompt.
  - Stripping a `json` Markdown fence.
  - Falling back to the greedy `{ … }` span.
  - Checking that the result has `nodes` and `edges` arrays.
- `AiPanel`: the side panel.
  - The width clamp to [320, 640] and the stored-width check.
  - The chat request: system prompt, the last ten messages, then the new
    message.
  - Enter-key routing.
  - The five-state guidance machine, driven by handlers that update the
    panel's fields in place.
- `CustomNode`: the node card. It covers the 50-character preview, the
  placeholders, and the total level → style, label and shadow mappings.
- Support modules:
  - `JsText`: the JavaScript built-ins used. These are `\s`, `trim`,
    `trimStart`, `trimEnd`, `indexOf`, `lastIndexOf`, `parseInt` without a
    radix, and `toString` on naturals.
  - `Json`: JSON values and their truthiness.
  - `KnowledgeMapTypes`: the records.
  - `Seqs`: `filter`.
  - `Wrappers`: `Option` and `Result`.

Stateful parts are classes whose fields the methods update, under `modifies
this`. Each method's postcondition gives the whole new state as a `View()`
record: the old view with the changed fields replaced. Where the source
computes something, the method's postcondition ties the new value to a
specification function, and the promised properties are proved about that
function as lemmas.

The following values are parameters: the chat service (as a function from
request to `Option` reply, where `None` is a thrown request), `JSON.parse`,
the database's answers, `Date.now()`, `uuidv4` and `Math.random()`.

## Model

| member | source | states |
|---|---|---|
| MapProcessor.ClosestIndex | knowledge-map/utils/map-processor.ts:41-56 | the focus fold returns the first index of a node at minimal distance from the origin: no node is closer, and every earlier node is strictly farther |
| MapProcessor.EarliestClosestUnique | knowledge-map/utils/map-processor.ts:41-56 | there is only one earliest closest index |
| MapProcessor.FocusIsEarliestClosest | knowledge-map/utils/map-processor.ts:36-57 | for the earliest closest index k, the focus is node k's id when no node is understood and that id is non-empty, and there is no focus otherwise |
| MapProcessor.FocusIsNotStarted | knowledge-map/utils/map-processor.ts:36-57 | the focus is a not-started node's id and never an understood one |
| MapProcessor.SplitByLevel | knowledge-map/utils/map-processor.ts:23-34 | the classification loop puts exactly the ids of understood nodes (level present and non-zero) in one set and all other ids in the other |
| MapProcessor.ClassificationPartition | knowledge-map/utils/map-processor.ts:26-34 | each node's id is in the set its own level selects; with distinct ids, it is in exactly one set, and understood iff its level is present and not NotStarted |
| MapProcessor.ConnectedToUnderstood | knowledge-map/utils/map-processor.ts:61-75 | the edge loop collects exactly the not-started endpoints of edges whose other endpoint is understood |
| MapProcessor.ConnectedToFocus | knowledge-map/utils/map-processor.ts:76-90 | the edge loop collects exactly the not-started endpoints other than the focus of edges touching the focus, and then the focus itself |
| MapProcessor.DisplayNode | knowledge-map/utils/map-processor.ts:108-111 | a displayed node keeps id, type, data, position and every other style property; its opacity is 1.0 or 0.7 |
| MapProcessor.DisplayEdge | knowledge-map/utils/map-processor.ts:155-158 | a displayed edge keeps id, endpoints and other style properties; its opacity and stroke opacity are equal and one of 1.0, 0.7, 0.1 |
| MapProcessor.ProcessMapElementsForDisplay | knowledge-map/utils/map-processor.ts:18-162 | the output has one node per input node and one edge per input edge, in order, each the displayed version under the classification of the whole map |
| MapProcessor.NodeOpacityRule | knowledge-map/utils/map-processor.ts:92-107 | a node is fully opaque iff its id is understood or it is the focus; every other node gets 0.7; an understood node always gets 1.0 |
| MapProcessor.EdgeOpacityUnderstood | knowledge-map/utils/map-processor.ts:124-127 | an edge between two understood nodes gets 1.0; an edge joining an understood and a not-started node gets 0.7 |
| MapProcessor.EdgeOpacityAllNotStarted | knowledge-map/utils/map-processor.ts:128-150 | when every node is not started, an edge touching the focus gets 0.7; an edge between two other not-started nodes gets 0.7 iff one endpoint is a neighbour of the focus, else 0.1 |
| MapProcessor.EdgeOpacityOtherwise | knowledge-map/utils/map-processor.ts:131-153 | once something is understood, an edge between two only-not-started nodes gets 0.1; an edge whose endpoints are in neither set gets 1.0 |
| KnowledgeMapStore.EstimateTokenCount | knowledge-map/store/use-knowledge-map-store.ts:169-172 | the estimate is the ceiling of a quarter of the length: 4·r ≥ len and 4·r < len + 4 |
| KnowledgeMapStore.DefaultMapWellFormed | knowledge-map/store/use-knowledge-map-store.ts:147-154 | the default map's node ids are distinct, every edge joins two of its nodes, its history is the welcome message and its count 0 |
| KnowledgeMapStore.FindIndex | knowledge-map/store/use-knowledge-map-store.ts:465 | `find` by id: the result is the first map with the id, and there is none iff no map has the id |
| KnowledgeMapStore.ReplaceWhere | knowledge-map/store/use-knowledge-map-store.ts:488 | the update reaches exactly the maps with the id and keeps every other map in place; with no map carrying the id nothing changes; an update that keeps the id keeps the set of ids and their distinctness |
| KnowledgeMapStore.ApplyToActiveFrame | knowledge-map/store/use-knowledge-map-store.ts:378-391 | a per-map update leaves every other map in place and unchanged, changes nothing without an active map, and keeps the ids and their distinctness when it keeps ids |
| KnowledgeMapStore.WithoutNode | knowledge-map/store/use-knowledge-map-store.ts:577-581 | after deleting a node, a node survives iff it was there with another id, and an edge survives iff it was there and neither endpoint is the id; the other fields are kept |
| KnowledgeMapStore.WithoutNodeKeepsOrder | knowledge-map/store/use-knowledge-map-store.ts:577 | node deletion keeps the survivors in their original relative order |
| KnowledgeMapStore.WithoutAbsentNode | knowledge-map/store/use-knowledge-map-store.ts:577-579 | deleting an id that no node has and no edge touches leaves the map equal to what it was |
| KnowledgeMapStore.WithoutEdge | knowledge-map/store/use-knowledge-map-store.ts:602-603 | an edge survives edge deletion iff it was there with another id; nodes and every other field are unchanged |
| KnowledgeMapStore.WithContent | knowledge-map/store/use-knowledge-map-store.ts:468-482 | matching nodes get the new label and content and keep their level and all other fields; other nodes, edges and the map's other fields are unchanged |
| KnowledgeMapStore.WithLevel | knowledge-map/store/use-knowledge-map-store.ts:503-516 | matching nodes get the new level and keep label, content and all other fields; everything else is unchanged |
| KnowledgeMapStore.NewNodeIdReadsBack | knowledge-map/store/use-knowledge-map-store.ts:537-550 | the appended node's id is `node-` followed by one more than the old node count, and it starts NotStarted |
| KnowledgeMapStore.NewNodeIdCanCollide | knowledge-map/store/use-knowledge-map-store.ts:537 | a concrete map where, after a deletion, the derived id repeats an id already present |
| KnowledgeMapStore.WithGraph | knowledge-map/store/use-knowledge-map-store.ts:752-756 | AI-generated nodes and edges replace the map's own; id, name, history and count are kept |
| KnowledgeMapStore.DropOldestShape | knowledge-map/store/use-knowledge-map-store.ts:691-696 | the trimming loop leaves a suffix of its input whose count is the input count less exactly the estimates of the dropped prefix; it stops at the first point where the count is within the limit or at most two messages remain |
| KnowledgeMapStore.AddToHistoryTrims | knowledge-map/store/use-knowledge-map-store.ts:676-700 | within the limit, the message is appended and its estimate added; over it, the first message is kept, the rest is a suffix of old rest + message, the new message is last, and the count falls by exactly the dropped estimates |
| KnowledgeMapStore.AppendMessage | knowledge-map/store/use-knowledge-map-store.ts:676-700 | the `while`/`shift` loop computes exactly the trimmed history and count of the specification |
| KnowledgeMapStore.Normalize | knowledge-map/store/use-knowledge-map-store.ts:255-259 | a stored map without a history gets the initial history and one without a count gets 0; all else is copied |
| KnowledgeMapStore.NormalizeAll | knowledge-map/store/use-knowledge-map-store.ts:255-259 | every stored map, in order, is normalised; each keeps its id at its position, so the loaded ids are the stored ids, distinct iff the stored ones are |
| KnowledgeMapStore.Initialized | knowledge-map/store/use-knowledge-map-store.ts:242-280 | after loading there is at least one map and the active id names one; a failure or an empty database gives the default map; a saved id is kept only when non-empty and present, else the first map's id |
| KnowledgeMapStore.NewMap | knowledge-map/store/use-knowledge-map-store.ts:284-291 | a created map is empty, with the initial history and a zero count |
| KnowledgeMapStore.Renamed | knowledge-map/store/use-knowledge-map-store.ts:324 | maps with the id get the name, the others are unchanged, and the set of ids is kept |
| KnowledgeMapStore.DeleteMapIn | knowledge-map/store/use-knowledge-map-store.ts:341-369 | with at most one map nothing changes; the call fails iff there are several maps, the active one is deleted and no other id remains; otherwise the maps left are the `filter` of the old list (exactly the maps with other ids, in their order), and a deleted active map hands over to the first of them |
| KnowledgeMapStore.DeleteMapHandsToFirst | knowledge-map/store/use-knowledge-map-store.ts:349-350 | when the active map is deleted, the new active id is that of the first map in the original list whose id differs from the deleted one |
| KnowledgeMapStore.DeleteMapKeepsOrder | knowledge-map/store/use-knowledge-map-store.ts:349 | the maps that survive a deletion keep their original relative order, for any split of the list |
| KnowledgeMapStore.FilterWithoutId | knowledge-map/store/use-knowledge-map-store.ts:349 | filtering by id keeps exactly the maps with other ids, so the ids left are the old ones less that id |
| KnowledgeMapStore.DeleteMapKeepsOne | knowledge-map/store/use-knowledge-map-store.ts:343-363 | with distinct ids and a valid active id, deletion never fails, keeps at least one map and distinct ids, and the active id still names a map |
| KnowledgeMapStore.Store.constructor | knowledge-map/store/use-knowledge-map-store.ts:224-239 | the store starts with no maps, an empty active id, loading, nothing selected and the context menu closed |
| KnowledgeMapStore.Store.Initialize | knowledge-map/store/use-knowledge-map-store.ts:242-280 | the store takes the loaded maps and active id and stops loading; the active id names a map; after a failed load, or a load with distinct ids, the store is valid |
| KnowledgeMapStore.Store.CreateMap | knowledge-map/store/use-knowledge-map-store.ts:283-307 | after both writes succeed, the new map is appended and made active; a failed write changes nothing |
| KnowledgeMapStore.Store.SwitchMap | knowledge-map/store/use-knowledge-map-store.ts:310-317 | the active id becomes the given id once the write succeeds, unchecked; otherwise nothing changes |
| KnowledgeMapStore.Store.RenameMap | knowledge-map/store/use-knowledge-map-store.ts:320-338 | the maps become the renamed list; ids and validity are kept |
| KnowledgeMapStore.Store.DeleteMap | knowledge-map/store/use-knowledge-map-store.ts:341-369 | the state follows the deletion specification, and a valid store stays valid with its active id naming a map |
| KnowledgeMapStore.Store.UpdateNodeContent | knowledge-map/store/use-knowledge-map-store.ts:462-494 | only the active map changes, by the content update |
| KnowledgeMapStore.Store.UpdateNodeUnderstandingLevel | knowledge-map/store/use-knowledge-map-store.ts:497-528 | only the active map changes, by the level update |
| KnowledgeMapStore.Store.AddNewNode | knowledge-map/store/use-knowledge-map-store.ts:531-567 | the active map gains one node at the end with the derived id; that node is selected and the dialog opens; without an active map nothing changes |
| KnowledgeMapStore.Store.DeleteNode | knowledge-map/store/use-knowledge-map-store.ts:570-593 | only the active map changes, by the cascade delete |
| KnowledgeMapStore.Store.DeleteEdge | knowledge-map/store/use-knowledge-map-store.ts:596-615 | only the active map changes, by the edge delete |
| KnowledgeMapStore.Store.CreateNodesFromAI | knowledge-map/store/use-knowledge-map-store.ts:746-768 | only the active map changes, its graph being replaced |
| KnowledgeMapStore.Store.AddChatMessage | knowledge-map/store/use-knowledge-map-store.ts:670-718 | only the active map changes, its history and count following the trimming specification |
| KnowledgeMapStore.Store.ClearChatHistory | knowledge-map/store/use-knowledge-map-store.ts:721-743 | the active map's history returns to the welcome message and its count to 0 |
| KnowledgeMapStore.Store.ChatHistory | knowledge-map/store/use-knowledge-map-store.ts:656-660 | the first active map's history, or nothing without an active map |
| KnowledgeMapStore.Store.TokenCount | knowledge-map/store/use-knowledge-map-store.ts:663-667 | the first active map's count, or 0 without an active map |
| KnowledgeMapStore.Store.OpenNodeDialog | knowledge-map/store/use-knowledge-map-store.ts:618-623 | the node is selected and the dialog opens; nothing else changes |
| KnowledgeMapStore.Store.CloseNodeDialog | knowledge-map/store/use-knowledge-map-store.ts:626-630 | only the dialog closes; the selection is kept |
| KnowledgeMapStore.Store.OpenContextMenu | knowledge-map/store/use-knowledge-map-store.ts:633-643 | the menu becomes visible at the position with the given targets |
| KnowledgeMapStore.Store.CloseContextMenu | knowledge-map/store/use-knowledge-map-store.ts:646-653 | only the menu's visibility is cleared; position and targets are kept |
| Seqs.Filter | web/src/store/mapStore.ts:109 | `filter` keeps only elements that were there and pass, and keeps every element that passes |
| Seqs.FilterMembers | web/src/store/mapStore.ts:109-112 | an element is in the filtered sequence iff it was in the input and passes |
| Seqs.FilterConcat | web/src/store/mapStore.ts:109 | filtering a concatenation filters each part, so the kept elements keep their relative order |
| WebMapStore.MergeData | web/src/store/mapStore.ts:92 | the spread merge has the union of keys, patched keys take the patch's value, and the other keys keep theirs |
| WebMapStore.MergeDataIdempotent | web/src/store/mapStore.ts:92 | merging an empty patch changes nothing, and merging one patch twice equals merging it once |
| WebMapStore.MergedNodes | web/src/store/mapStore.ts:89-94 | matching nodes get the merged data and keep id, type and position; other nodes are unchanged; the length is kept |
| WebMapStore.MovedNodes | web/src/store/mapStore.ts:98-103 | only the position of matching nodes changes |
| WebMapStore.EffectiveMapId | web/src/store/mapStore.ts:158-160 | a missing or empty id becomes `'0'`; any other id is used as given |
| WebMapStore.Adopt | web/src/store/mapStore.ts:170-178 | a loaded map clears both selections, and adopting the default map gives the default state |
| WebMapStore.AfterLoad | web/src/store/mapStore.ts:156-192 | a thrown read gives the default map; a found map is adopted with missing lists as empty and both selections cleared; a missing default map is replaced by the default; a missing other map changes nothing; any change clears both selections |
| WebMapStore.MapStore.constructor | web/src/store/mapStore.ts:70-76 | the store starts on map `'0'` titled "新地图" with nothing in it or selected |
| WebMapStore.MapStore.AddNode | web/src/store/mapStore.ts:84-87 | the node is appended at the end, nothing else changes, and existing selections stay valid |
| WebMapStore.MapStore.UpdateNodeData | web/src/store/mapStore.ts:89-96 | only the nodes change, by the shallow merge on matching nodes |
| WebMapStore.MapStore.UpdateNodePosition | web/src/store/mapStore.ts:98-105 | only the nodes change, by the position update on matching nodes |
| WebMapStore.MapStore.RemoveNode | web/src/store/mapStore.ts:107-116 | the node and every edge touching it go, in order; the selected node becomes null iff it was the removed id |
| WebMapStore.MapStore.AddEdge | web/src/store/mapStore.ts:118-121 | the edge is appended at the end, nothing else changes, and existing selections stay valid |
| WebMapStore.MapStore.RemoveEdge | web/src/store/mapStore.ts:123-129 | edges with the id go, nodes stay; the selected edge becomes null iff it was the removed id; valid selections stay valid |
| WebMapStore.MapStore.SelectNode | web/src/store/mapStore.ts:131 | only the selected node changes |
| WebMapStore.MapStore.SelectEdge | web/src/store/mapStore.ts:133 | only the selected edge changes |
| WebMapStore.MapStore.LoadMap | web/src/store/mapStore.ts:156-192 | the new state is the load specification applied to the old state |
| JsText.TrimStart | knowledge-map/services/knowledge-map-ai.ts:77 | drops exactly the leading whitespace: the result is a suffix, what was dropped is all whitespace, and the result does not start with whitespace |
| JsText.TrimEnd | knowledge-map/services/knowledge-map-ai.ts:78 | drops exactly the trailing whitespace: the result is a prefix, what was dropped is all whitespace, and the result does not end with whitespace |
| JsText.Trim | knowledge-map/services/knowledge-map-ai.ts:79 | the result is the slice of the text that starts after its leading whitespace and leaves only whitespace after it; it neither starts nor ends with whitespace |
| JsText.TrimUnique | knowledge-map/services/knowledge-map-ai.ts:79 | any slice with only whitespace around it that neither starts nor ends with whitespace is the trimmed text, so `trim` is fully determined |
| JsText.TrimOfTrimmed | knowledge-map/services/knowledge-map-ai.ts:79 | trimming is idempotent |
| JsText.TrimIsSlice | knowledge-map/services/knowledge-map-ai.ts:24 | the trimmed text is one contiguous slice of the original |
| JsText.NoOccurrenceInTrim | knowledge-map/services/knowledge-map-ai.ts:24 | a pattern absent from a text is absent from its trimmed form |
| JsText.IndexOf | knowledge-map/services/knowledge-map-ai.ts:19 | the first occurrence at or after the start position, or none when there is no occurrence there |
| JsText.LastIndexOfChar | knowledge-map/services/knowledge-map-ai.ts:88 | the last position of the character, or none when it does not occur |
| JsText.DigitPrefix | knowledge-map/components/ai-panel.tsx:67 | the longest prefix made of digits of the radix |
| JsText.ParseMagnitude | knowledge-map/components/ai-panel.tsx:67 | a number results iff at least one digit follows (radix 16 after `0x`, else 10) |
| JsText.NatToString | knowledge-map/components/ai-panel.tsx:113 | the decimal form of a natural is a non-empty run of decimal digits (JavaScript agrees below 10^21, which covers widths and timestamps) |
| JsText.ParseIntOfDigits | knowledge-map/components/ai-panel.tsx:67 | `parseInt` of a non-empty run of decimal digits is their value |
| JsText.ParseIntOfNatToString | knowledge-map/components/ai-panel.tsx:67 | `parseInt` reads the decimal form of a natural back as that natural (for JavaScript numbers: widths and timestamps, below 2^53) |
| KnowledgeMapAi.UserInfoGroup | knowledge-map/services/knowledge-map-ai.ts:19-22 | there is no match iff no closing tag follows an opening tag; a match is the text between the first opening tag and a later closing tag, and holds no closing tag |
| KnowledgeMapAi.ParseUserInfo | knowledge-map/services/knowledge-map-ai.ts:16-30 | no tag pair or an empty payload gives null; a non-empty payload gives exactly the parse of its trimmed text (null where that parse throws); nothing is thrown |
| KnowledgeMapAi.UserInfoPayloadHasNoCloseTag | knowledge-map/services/knowledge-map-ai.ts:19-24 | the trimmed payload handed to the parser never holds a closing tag |
| KnowledgeMapAi.GuidanceRequest | knowledge-map/services/knowledge-map-ai.ts:35 | the request is exactly the guidance system prompt followed by the conversation, in order |
| KnowledgeMapTypes.TurnsConcat | knowledge-map/components/ai-panel.tsx:211-223 | stripping messages to role and content distributes over concatenation |
| KnowledgeMapAi.MapRequest | knowledge-map/services/knowledge-map-ai.ts:66-69 | the request is exactly the system prompt and then the user prompt |
| KnowledgeMapAi.GoalIsQuoted | knowledge-map/services/knowledge-map-ai.ts:57-59 | the goal appears in double quotes right after the lead |
| KnowledgeMapAi.KnowledgeLinePresent | knowledge-map/services/knowledge-map-ai.ts:61 | with non-empty knowledge, the knowledge-background line follows the quoted goal and its blank line |
| KnowledgeMapAi.KnowledgeLineAbsent | knowledge-map/services/knowledge-map-ai.ts:57-64 | with empty knowledge and a goal without the line's opening words, the prompt holds no knowledge-background line |
| KnowledgeMapAi.KnowledgeLineIff | knowledge-map/services/knowledge-map-ai.ts:57-64 | for a goal without the line's opening words, the prompt holds the knowledge-background line iff the knowledge is non-empty |
| KnowledgeMapAi.StripLeadingFence | knowledge-map/services/knowledge-map-ai.ts:77 | a leading ```` ```json ```` in any case is removed together with the whitespace after it; any other text is kept |
| KnowledgeMapAi.TrailingFenceStripped | knowledge-map/services/knowledge-map-ai.ts:78 | when the text before its trailing whitespace ends in three backticks, the strip keeps a proper prefix ending where the leftmost match starts |
| KnowledgeMapAi.StripTrailingFenceIsLeftmostMatch | knowledge-map/services/knowledge-map-ai.ts:78 | the second `replace` removes exactly the leftmost match of whitespace, backticks, whitespace, end; with no match the text is unchanged |
| KnowledgeMapAi.StripFences | knowledge-map/services/knowledge-map-ai.ts:76-79 | the stripped text neither starts nor ends with whitespace |
| KnowledgeMapAi.FenceRoundTrip | knowledge-map/services/knowledge-map-ai.ts:76-79 | for a body with no surrounding whitespace and no trailing backticks, stripping the fenced body gives the body back, and the bare body is unchanged |
| KnowledgeMapAi.BraceSpan | knowledge-map/services/knowledge-map-ai.ts:88 | a span exists iff a `{` precedes a `}`; it then runs from the first `{` to the last `}` |
| KnowledgeMapAi.CheckShape | knowledge-map/services/knowledge-map-ai.ts:103-113 | accepted iff an object whose `nodes` and `edges` are arrays, yielding those arrays; otherwise the invalid-structure error |
| KnowledgeMapAi.ParseReply | knowledge-map/services/knowledge-map-ai.ts:76-116 | a result always comes from a value of the right shape, and the errors are parse or shape errors, never a request failure |
| KnowledgeMapAi.ParseReplyCases | knowledge-map/services/knowledge-map-ai.ts:82-101 | the stripped text is parsed first; the span is tried only when that fails; a missing span and a failing span give their own errors; a parsed value is shape-checked |
| KnowledgeMapAi.GenerateBaseKnowledgeMap | knowledge-map/services/knowledge-map-ai.ts:51-121 | a failed request gives the request error; otherwise the result is the reply handling of the reply |
| BaseNodes.BaseMapRequest | knowledge-map/services/base-nodes.ts:16-26 | the request is exactly the system prompt and then the user prompt |
| BaseNodes.BaseGoalIsQuoted | knowledge-map/services/base-nodes.ts:16-21 | the goal appears in double quotes right after the lead |
| BaseNodes.BasePromptHasNoKnowledgeLine | knowledge-map/services/base-nodes.ts:16-21 | for a goal without the line's opening words, this prompt never holds a knowledge-background line |
| BaseNodes.GenerateBaseKnowledgeMap | knowledge-map/services/base-nodes.ts:11-76 | a failed request gives the request error; otherwise the reply goes through the same strip, fallback and shape check |
| KnowledgeMapTypes.Turns | knowledge-map/components/ai-panel.tsx:341 | stripping messages to role and content keeps their number and order |
| AiPanel.ClampWidth | knowledge-map/components/ai-panel.tsx:103 | the width is always within [320, 640]: unchanged inside, the nearest bound outside |
| AiPanel.ClampWidthMonotone | knowledge-map/components/ai-panel.tsx:103 | clamping keeps the order of widths and is idempotent |
| AiPanel.DragWidth | knowledge-map/components/ai-panel.tsx:100-106 | a drag keeps the width within the bounds; moving the pointer left by d widens the panel by d while within them |
| AiPanel.StoredWidth | knowledge-map/components/ai-panel.tsx:64-72 | a saved width is adopted iff it is non-empty and `parseInt` reads it as a number in [320, 640]; otherwise the current width stays |
| AiPanel.StoredWidthRoundTrip | knowledge-map/components/ai-panel.tsx:108-114 | a saved width within the bounds reads back as itself; one outside them is never adopted |
| AiPanel.LastN | knowledge-map/components/ai-panel.tsx:341 | `slice(-n)` is the suffix of length min(n, length) |
| AiPanel.ChatRequest | knowledge-map/components/ai-panel.tsx:336-343 | the request is the system prompt, the last ≤ 10 history messages in order, then the new message, so it has 2 to 12 entries |
| AiPanel.IsMapEmpty | knowledge-map/components/ai-panel.tsx:50-51 | false without an active map; otherwise true iff the first map with the active id has no nodes |
| AiPanel.RouteKey | knowledge-map/components/ai-panel.tsx:396-405 | Enter without Shift goes to the guidance handler iff the guidance view shows (empty map, guidance started), else to the chat handler; other keys do nothing |
| AiPanel.ExtractedInfo | knowledge-map/components/ai-panel.tsx:241-242 | no reply gives no user info; a reply gives info iff `parseUserInfo` of it is present and truthy, and then it is that value, so a payload of `null`, `false`, `0` or `""` carries none |
| AiPanel.GuidanceReplyMessages | knowledge-map/components/ai-panel.tsx:229-270 | a failed request adds the error notice; a reply is added, followed by the generation notice iff it carried user info; each message id comes from its own clock reading |
| AiPanel.GuidanceRequestAppends | knowledge-map/components/ai-panel.tsx:211-223 | each guidance request is the previous request with the new user message as one more turn at the end |
| AiPanel.ChatAnswer | knowledge-map/components/ai-panel.tsx:360-381 | the assistant's entry is the reply, or the error notice when the request failed |
| AiPanel.Panel.constructor | knowledge-map/components/ai-panel.tsx:34-57 | the panel starts collapsed, idle, guidance not started, width 384 |
| AiPanel.Panel.LoadWidth | knowledge-map/components/ai-panel.tsx:64-72 | only the width changes, to the stored-width result |
| AiPanel.Panel.StartDragging | knowledge-map/components/ai-panel.tsx:131-136 | dragging starts and records the pointer and the current width |
| AiPanel.Panel.MouseMove | knowledge-map/components/ai-panel.tsx:97-106 | while dragging, the width follows the drag rule; otherwise nothing changes |
| AiPanel.Panel.MouseUp | knowledge-map/components/ai-panel.tsx:108-114 | dragging ends and the width is saved as decimal text, which reads back as the same width |
| AiPanel.Panel.SetInput | knowledge-map/components/ai-panel.tsx:470 | only the input changes |
| AiPanel.Panel.ToggleExpanded | knowledge-map/components/ai-panel.tsx:604 | only the expansion flips |
| AiPanel.Panel.Collapse | knowledge-map/components/ai-panel.tsx:514 | only the panel collapses |
| AiPanel.Panel.StartGuidance | knowledge-map/components/ai-panel.tsx:139-192 | the guidance shows the welcome and then the reply, state InProgress; a failed start shows the start-failure notice, state Error |
| AiPanel.Panel.MaybeStartGuidance | knowledge-map/components/ai-panel.tsx:75-80 | guidance starts only on an empty map with guidance not started; then the panel opens, the guidance view shows, and the rest of the new state is exactly what `startGuidance` leaves (welcome message plus the reply or the start-failure notice); otherwise nothing changes |
| AiPanel.Panel.HandleGuidanceMessage | knowledge-map/components/ai-panel.tsx:195-274 | blank input or a pending request changes nothing; otherwise the request is the conversation with the trimmed input, and a reply with truthy user info keeps it and moves the state to GeneratingMap |
| AiPanel.Panel.SubmitGuidanceInput | knowledge-map/components/ai-panel.tsx:198-207 | the trimmed input is appended to the conversation as the user's message, the input clears and loading starts |
| AiPanel.Panel.ReceiveGuidanceReply | knowledge-map/components/ai-panel.tsx:229-273 | loading ends; the reply messages are appended; with truthy user info parsed from the reply the state ends at GeneratingMap and the info is kept; a failed request leaves the guidance state and user info as they were |
| AiPanel.Panel.FinishMapGeneration | knowledge-map/components/ai-panel.tsx:280-315 | success posts the success notice; failure moves to Error with the failure notice |
| AiPanel.Panel.ResetGuidance | knowledge-map/components/ai-panel.tsx:298-302 | the delayed reset returns the state to NotStarted and clears the guidance messages |
| AiPanel.Panel.HandleSendMessage | knowledge-map/components/ai-panel.tsx:319-386 | blank input or a pending request changes nothing; otherwise the user's message and then the answer enter the active history, and the request is built from the history before the send |
| AiPanel.Panel.SubmitChatInput | knowledge-map/components/ai-panel.tsx:320-332 | the trimmed input enters the active history as the user's message, the input clears and loading starts |
| CustomNode.TextPreview | knowledge-map/components/custom-node.tsx:13 | text over 50 characters becomes its first 50 plus "..." (53 in all); shorter text is kept |
| CustomNode.TextPreviewIsPrefix | knowledge-map/components/custom-node.tsx:13 | the preview is the whole text or a prefix of it followed by the ellipsis |
| CustomNode.TitleText | knowledge-map/components/custom-node.tsx:114 | a missing or empty label shows "无标题", any other label shows itself |
| CustomNode.ContentText | knowledge-map/components/custom-node.tsx:116 | missing or empty content shows "空白内容...", other content its preview |
| CustomNode.EffectiveLevel | knowledge-map/components/custom-node.tsx:18 | a missing level is NotStarted; a present level, 0 included, is itself |
| CustomNode.LevelRow | knowledge-map/components/custom-node.tsx:21-34 | levels 1 to 4 select their own row and everything else the NotStarted row |
| CustomNode.MappingsFollowTables | knowledge-map/components/custom-node.tsx:17-96 | each of the four mappings is total and agrees with its five-entry table at the selected row |
| CustomNode.UnknownLevelLooksNotStarted | knowledge-map/components/custom-node.tsx:17-96 | a missing, falsy or unknown level looks exactly like NotStarted in every mapping |
| CustomNode.UnderstandingLabelsDistinct | knowledge-map/components/custom-node.tsx:58-75 | levels 0 to 4 have five different labels |

## Left out

- Persistence: the database service, `localStorage`, the fire-and-forget
  saves inside the store updates, `saveCurrentMap` and `autoSave`. These are
  browser I/O. Their results enter the model as parameters where the state
  depends on them (`persisted`, `InitOutcome`, `LoadOutcome`, the saved
  width).
- The chat service and its streaming: `sendChatRequest`, the streamed chunks
  and `tempMessage`. The service is a function from request to an optional
  reply, with `None` for a thrown request.
- The graph library's change handlers `onNodesChange`, `onEdgesChange` and
  `onConnect` in both stores. The library's behaviour is not visible.
- `getCurrentMap`, whose fallback to the first map nothing in the modelled
  core uses.
- `setMapData`, `setNodes` and `setEdges` of the web store. They set
  whatever object they are given.
- `Date.now()`, `uuidv4`, `crypto.randomUUID` and `Math.random()`. These are
  parameters; generated ids are assumed fresh only where a lemma says so.
- Message timestamps (`new Date()`). Message ids are the decimal text of the
  `Date.now()` parameter.
- Floating-point positions. Positions are integers and the focus compares
  squared distances, which pick the same node because `Math.sqrt` is
  monotone.
- A `NaN` token count. Counts are integers, and `tokenCount || 0` maps only
  0 to 0.
- Null inputs to the display pass (`!currentNodes || !currentEdges`) and a
  `null` understanding level. Sequences are always present, and a level is
  present or absent.
- The DOM text extraction in `getTextPreview`. The truncation is modelled on
  already-extracted text.
- UTF-16: JavaScript string lengths count UTF-16 code units, while a Dafny
  `string` counts characters. The 50-character preview and the token
  estimate therefore differ for characters outside the Basic Multilingual
  Plane.
- `JSON.parse`, as a parameter: a partial function whose `None` is a thrown
  `SyntaxError`.
- The prompt constants of the prompts module: the system prompts are
  parameters. That module is not part of this model.
- The conversion of parsed user info into the goal and knowledge strings for
  `generateBaseKnowledgeMap`, and the call of `createNodesFromAI` with its
  result. The panel's generation is `FinishMapGeneration` with the outcome as
  a parameter, next to the store's `CreateNodesFromAI`.
- Edge handle, `animated` and `type` fields, which no modelled operation
  reads or changes.
- `setTimeout`. The delayed reset is the separate step `ResetGuidance`, and
  the input-focus timer is not modelled.
- `window.confirm` before clearing the chat. Clearing is the store's
  `ClearChatHistory`.
- The node assistant dialog, which assembles its request like the panel
  with a last-5 window, and the other UI-only components.
- ClassificationPartition: "exactly one of the two sets" is stated for maps
  with distinct node ids. With a repeated id, one id can be in both sets,
  and the model keeps that behaviour.
- DeleteMapKeepsOne: stated for distinct map ids. With repeated ids, deleting
  the active map can remove every map; `DeleteMapIn` models that case as the
  error the source throws and catches.
- KnowledgeLineIff, KnowledgeLineAbsent and BasePromptHasNoKnowledgeLine:
  stated for goals that do not themselves contain the line's opening words.
  Such a goal puts those words into the prompt whatever the knowledge is.
- FenceRoundTrip: stated for bodies with no surrounding whitespace that do
  not end in three backticks. Whitespace is trimmed, and a body's own
  trailing backticks would be stripped too.
- StoredWidth: a saved value `parseInt` reads as `-0` is the integer 0 here.
  Either way it is outside the bounds and is not adopted.
- NatToString and ParseIntOfNatToString: the model writes every natural in
  plain decimal digits. JavaScript's `Number.prototype.toString` switches to
  exponent form from 10^21, and integers above 2^53 lose precision. So the
  two agree only below those bounds. That covers every value the source
  writes this way: panel widths and `Date.now()` timestamps.
- HandleSendMessage, StartGuidance and HandleGuidanceMessage: each async
  handler is modelled as one atomic step, so interleavings at its `await`s
  are not captured.
  - HandleSendMessage writes the user's message and the answer to the map
    that was active when the call began. In the source, the user can switch
    maps while the request is pending, and `addChatMessage` then stores the
    answer in the newly active map.
  - StartGuidance awaits its opening reply while `isLoading` is still false.
    In the source, a guidance message sent meanwhile can land before that
    reply; the model has no such interleaving.
