/** The AI side panel: its resizable width, the chat request it assembles,
    the Enter-key routing, and the guidance conversation that, on an empty
    map, collects the learner's goal and starts the map generation. */
module AiPanel {
  import opened Wrappers
  import opened JsText
  import opened Json
  import opened KnowledgeMapTypes
  import opened KnowledgeMapAi
  import KnowledgeMapStore

  // ---------------------------------------------------------------------
  // Width

  const DefaultWidth: nat := 384
  const MinWidth: nat := 320
  const MaxWidth: nat := 640

  /** `Math.max(MIN_WIDTH, Math.min(MAX_WIDTH, w))`. */
  function ClampWidth(w: int): (r: nat)
    ensures MinWidth <= r <= MaxWidth
    ensures MinWidth <= w <= MaxWidth ==> r == w
    ensures w < MinWidth ==> r == MinWidth
    ensures w > MaxWidth ==> r == MaxWidth
  {
    if w < MinWidth then MinWidth else if w > MaxWidth then MaxWidth else w
  }

  /** Clamping keeps the order of widths and changes nothing the second time. */
  lemma ClampWidthMonotone(a: int, b: int)
    requires a <= b
    ensures ClampWidth(a) <= ClampWidth(b)
    ensures ClampWidth(ClampWidth(a)) == ClampWidth(a)
  {
  }

  /** The width while dragging: the panel sits on the right, so moving the
      pointer left by `d` widens it by `d`, within the bounds. */
  function DragWidth(initialWidth: int, dragStartX: int, clientX: int): (r: nat)
    ensures MinWidth <= r <= MaxWidth
    ensures MinWidth <= initialWidth - (clientX - dragStartX) <= MaxWidth ==> r == initialWidth + dragStartX - clientX
  {
    ClampWidth(initialWidth - (clientX - dragStartX))
  }

  /** The width after reading the saved value: adopted only when there is a
      non-empty saved value that `parseInt` reads as a number within the
      bounds; otherwise the current width stays. */
  function StoredWidth(saved: Option<string>, current: nat): (r: nat)
    ensures r == current || (MinWidth <= r <= MaxWidth && saved.Some? && ParseInt(saved.value) == Some(r))
    ensures saved.None? || saved == Some("") ==> r == current
    ensures saved.Some? && ParseInt(saved.value).Some? && MinWidth <= ParseInt(saved.value).value <= MaxWidth
            ==> r == ParseInt(saved.value).value
    ensures MinWidth <= current <= MaxWidth ==> MinWidth <= r <= MaxWidth
  {
    if saved.None? || saved.value == "" then current
    else match ParseInt(saved.value)
      case None => current
      case Some(width) => if MinWidth <= width <= MaxWidth then width else current
  }

  /** Saving a width within the bounds as its decimal text and reading it
      back gives that width; a width outside the bounds is never adopted. */
  lemma StoredWidthRoundTrip(w: nat, current: nat)
    ensures MinWidth <= w <= MaxWidth ==> StoredWidth(Some(NatToString(w)), current) == w
    ensures !(MinWidth <= w <= MaxWidth) ==> StoredWidth(Some(NatToString(w)), current) == current
  {
    ParseIntOfNatToString(w);
  }

  // ---------------------------------------------------------------------
  // The chat request

  /** `s.slice(-n)` for `n > 0`: the last `n` elements, or all of them. */
  function LastN<T>(s: seq<T>, n: nat): (r: seq<T>)
    requires n > 0
    ensures |r| == (if |s| < n then |s| else n)
    ensures r == s[|s| - |r|..]
  {
    if |s| <= n then s else s[|s| - n..]
  }

  /** The request of `handleSendMessage`: the system prompt, at most the ten
      most recent history messages in order, then the new message. */
  function ChatRequest(systemPrompt: string, history: seq<Message>, userMessage: Message): (r: seq<ChatTurn>)
    ensures 2 <= |r| <= 12
    ensures |r| == 2 + (if |history| < 10 then |history| else 10)
    ensures r[0] == ChatTurn(System, systemPrompt)
    ensures r[|r| - 1] == ChatTurn(userMessage.role, userMessage.content)
    ensures forall i :: 1 <= i < |r| - 1 ==> r[i] == Turn(history[|history| - (|r| - 2) + (i - 1)])
  {
    [ChatTurn(System, systemPrompt)] + Turns(LastN(history, 10)) + [Turn(userMessage)]
  }

  /** A send goes ahead only with non-blank input and no request in flight. */
  predicate CanSend(input: string, isLoading: bool) {
    Trim(input) != "" && !isLoading
  }

  // ---------------------------------------------------------------------
  // Guidance and key routing

  /** `GuidanceState`, numbered 0 to 4 in this order. */
  datatype GuidanceState = NotStarted | InProgress | Completed | GeneratingMap | Error

  /** `isMapEmpty`: the active map exists and has no nodes. */
  function IsMapEmpty(maps: seq<KnowledgeMapStore.KnowledgeMap>, activeMapId: string): (r: bool)
    ensures activeMapId !in KnowledgeMapStore.MapIds(maps) ==> !r
    ensures forall i :: (0 <= i < |maps| && maps[i].id == activeMapId
                         && forall j :: 0 <= j < i ==> maps[j].id != activeMapId) ==> (r <==> maps[i].nodes == [])
  {
    match KnowledgeMapStore.FindIndex(maps, activeMapId)
    case None => false
    case Some(k) => maps[k].nodes == []
  }

  /** The guidance view replaces the chat view on an empty map once guidance
      has left `NotStarted`. */
  predicate ShowsGuidance(isMapEmpty: bool, state: GuidanceState) {
    isMapEmpty && state != NotStarted
  }

  datatype KeyAction = NoAction | SendGuidance | SendChat

  /** `handleKeyDown`: Enter without Shift sends, to the guidance handler
      exactly when the guidance view is shown; any other key does nothing. */
  function RouteKey(key: string, shiftKey: bool, isMapEmpty: bool, state: GuidanceState): (r: KeyAction)
    ensures r == SendGuidance <==> key == "Enter" && !shiftKey && ShowsGuidance(isMapEmpty, state)
    ensures r == SendChat <==> key == "Enter" && !shiftKey && !ShowsGuidance(isMapEmpty, state)
  {
    if key == "Enter" && !shiftKey then
      if isMapEmpty && state != NotStarted then SendGuidance else SendChat
    else NoAction
  }

  const WelcomeGuidanceText: string := "你好！我注意到你的知识地图还是空的。你有想要学习的领域吗？我帮你创建一个基础的知识地图。"
  const FirstGuidanceTurn: string := "我想创建一个知识地图"
  const StartFailedText: string := "抱歉，启动引导对话时出现了问题。请稍后再试。"
  const ReplyFailedText: string := "抱歉，我遇到了一些问题。请稍后再试。"
  const GeneratingText: string := "感谢你提供的信息！我现在将为你生成一个基础的知识地图。这可能需要一点时间，请稍候..."
  const GeneratedText: string := "✅ 知识地图已成功生成！你现在可以开始探索和编辑这些概念节点了。"
  const GenerateFailedText: string := "抱歉，生成知识地图时出现了问题。请稍后再试。"

  const WelcomeGuidanceMessage: Message := Message("welcome", Assistant, WelcomeGuidanceText)

  /** The request that opens the guidance conversation. */
  function OpeningGuidanceRequest(guidancePrompt: string): seq<ChatTurn> {
    GuidanceRequest(guidancePrompt, [ChatTurn(User, FirstGuidanceTurn)])
  }

  /** Each guidance request is the previous conversation's request with the
      new user message as one more turn at the end. */
  lemma GuidanceRequestAppends(guidancePrompt: string, messages: seq<Message>, userMessage: Message)
    ensures GuidanceRequest(guidancePrompt, Turns(messages + [userMessage]))
         == GuidanceRequest(guidancePrompt, Turns(messages)) + [ChatTurn(userMessage.role, userMessage.content)]
  {
    TurnsConcat(messages, [userMessage]);
  }

  /** The user info a guidance reply carries, if it arrived: `parseUserInfo`
      of the reply when that is truthy (`if (extractedUserInfo)`), so a
      payload that parses to `null`, `false`, `0` or `""` carries none. */
  function ExtractedInfo(reply: Option<string>, parse: Parser): (r: Option<Json>)
    ensures reply.None? ==> r.None?
    ensures reply.Some? ==>
      (r.Some? <==> ParseUserInfo(reply.value, parse).Some? && Truthy(ParseUserInfo(reply.value, parse).value))
    ensures r.Some? ==> r == ParseUserInfo(reply.value, parse) && Truthy(r.value)
  {
    if reply.Some? then
      var info := ParseUserInfo(reply.value, parse);
      if info.Some? && Truthy(info.value) then info else None
    else None
  }

  /** What `handleGuidanceMessage` appends after the user's message, given
      the user info extracted from the reply: the error notice when the
      request failed; otherwise the reply, followed by the generation notice
      when the reply carried user info. `repliedAt` is the `Date.now()`
      reading for the reply's (or the error notice's) id and `noticedAt` the
      later one for the generation notice's id. */
  function GuidanceReplyMessages(reply: Option<string>, repliedAt: nat, noticedAt: nat, info: Option<Json>): (r: seq<Message>)
    ensures 1 <= |r| <= 2
    ensures reply.None? ==> r == [Message("error-" + NatToString(repliedAt), Assistant, ReplyFailedText)]
    ensures reply.Some? ==> r[0] == Message(NatToString(repliedAt), Assistant, reply.value)
    ensures |r| == 2 <==> reply.Some? && info.Some?
    ensures |r| == 2 ==> r[1] == Message("generate-" + NatToString(noticedAt), Assistant, GeneratingText)
  {
    match reply
    case None => [Message("error-" + NatToString(repliedAt), Assistant, ReplyFailedText)]
    case Some(text) =>
      [Message(NatToString(repliedAt), Assistant, text)]
      + (if info.Some? then [Message("generate-" + NatToString(noticedAt), Assistant, GeneratingText)] else [])
  }

  /** The assistant's entry `handleSendMessage` adds to the history: the
      reply, or the error notice when the request failed. */
  function ChatAnswer(reply: Option<string>, repliedAt: nat): (m: Message)
    ensures m.role == Assistant
    ensures reply.Some? ==> m == Message(NatToString(repliedAt), Assistant, reply.value)
    ensures reply.None? ==> m == Message("error-" + NatToString(repliedAt), Assistant, ReplyFailedText)
  {
    match reply
    case Some(text) => Message(NatToString(repliedAt), Assistant, text)
    case None => Message("error-" + NatToString(repliedAt), Assistant, ReplyFailedText)
  }

  /** Every field of the panel, as one value. */
  datatype PanelView = PanelView(
    isExpanded: bool,
    input: string,
    isLoading: bool,
    guidanceState: GuidanceState,
    guidanceMessages: seq<Message>,
    userInfo: Option<Json>,
    panelWidth: nat,
    isDragging: bool,
    dragStartX: int,
    initialWidth: nat)

  const InitialPanel: PanelView := PanelView(false, "", false, NotStarted, [], None, DefaultWidth, false, 0, DefaultWidth)

  class Panel {
    var isExpanded: bool
    var input: string
    var isLoading: bool
    var guidanceState: GuidanceState
    var guidanceMessages: seq<Message>
    var userInfo: Option<Json>
    var panelWidth: nat
    var isDragging: bool
    var dragStartX: int
    var initialWidth: nat

    function View(): PanelView
      reads this
    {
      PanelView(isExpanded, input, isLoading, guidanceState, guidanceMessages, userInfo,
        panelWidth, isDragging, dragStartX, initialWidth)
    }

    /** The width is within its bounds; guidance that has started has
        something to show; and a completed or generating guidance has the
        user info it extracted. */
    predicate Valid()
      reads this
    {
      && MinWidth <= panelWidth <= MaxWidth
      && (guidanceState != NotStarted ==> guidanceMessages != [])
      && (guidanceState == Completed || guidanceState == GeneratingMap ==> userInfo.Some?)
    }

    constructor ()
      ensures View() == InitialPanel && Valid()
    {
      isExpanded, input, isLoading := false, "", false;
      guidanceState, guidanceMessages, userInfo := NotStarted, [], None;
      panelWidth, isDragging, dragStartX, initialWidth := DefaultWidth, false, 0, DefaultWidth;
    }

    /** The width effect on mount, with the saved value as a parameter. */
    method LoadWidth(saved: Option<string>)
      modifies this
      ensures View() == old(View()).(panelWidth := StoredWidth(saved, old(panelWidth)))
      ensures old(Valid()) ==> Valid()
    {
      if saved.Some? && saved.value != "" {
        var width := ParseInt(saved.value);
        if width.Some? && MinWidth <= width.value <= MaxWidth {
          panelWidth := width.value;
        }
      }
    }

    method StartDragging(clientX: int)
      modifies this
      ensures View() == old(View()).(isDragging := true, dragStartX := clientX, initialWidth := old(panelWidth))
      ensures old(Valid()) ==> Valid()
    {
      isDragging, dragStartX, initialWidth := true, clientX, panelWidth;
    }

    /** The pointer-move listener, live only while dragging. */
    method MouseMove(clientX: int)
      modifies this
      ensures View() == if old(isDragging) then old(View()).(panelWidth := DragWidth(old(initialWidth), old(dragStartX), clientX)) else old(View())
      ensures old(Valid()) ==> Valid()
    {
      if isDragging {
        var deltaX := clientX - dragStartX;
        panelWidth := ClampWidth(initialWidth - deltaX);
      }
    }

    /** The pointer-up listener: dragging ends and the width is saved as its
        decimal text, which the width effect then reads back unchanged. */
    method MouseUp() returns (saved: Option<string>)
      modifies this
      ensures View() == if old(isDragging) then old(View()).(isDragging := false) else old(View())
      ensures old(isDragging) <==> saved.Some?
      ensures saved.Some? ==> saved.value == NatToString(panelWidth)
      ensures saved.Some? && Valid() ==> StoredWidth(saved, DefaultWidth) == panelWidth
      ensures old(Valid()) ==> Valid()
    {
      if !isDragging {
        return None;
      }
      isDragging := false;
      saved := Some(NatToString(panelWidth));
      StoredWidthRoundTrip(panelWidth, DefaultWidth);
    }

    method SetInput(text: string)
      modifies this
      ensures View() == old(View()).(input := text)
      ensures old(Valid()) ==> Valid()
    {
      input := text;
    }

    method ToggleExpanded()
      modifies this
      ensures View() == old(View()).(isExpanded := !old(isExpanded))
      ensures old(Valid()) ==> Valid()
    {
      isExpanded := !isExpanded;
    }

    /** The minimise button. */
    method Collapse()
      modifies this
      ensures View() == old(View()).(isExpanded := false)
      ensures old(Valid()) ==> Valid()
    {
      isExpanded := false;
    }

    /** `startGuidance`, with the service's reply to the opening request as a
        parameter (`None` is a failed request) and `now` for `Date.now()`. */
    method StartGuidance(guidancePrompt: string, now: nat, complete: seq<ChatTurn> -> Option<string>)
      modifies this
      ensures var reply := complete(OpeningGuidanceRequest(guidancePrompt));
        View() == old(View()).(
          guidanceState := if reply.Some? then InProgress else Error,
          guidanceMessages := [WelcomeGuidanceMessage] + [
            if reply.Some? then Message(NatToString(now), Assistant, reply.value)
            else Message("error-" + NatToString(now), Assistant, StartFailedText)])
      ensures old(Valid()) ==> Valid()
    {
      guidanceState := InProgress;
      guidanceMessages := [WelcomeGuidanceMessage];
      var reply := complete(OpeningGuidanceRequest(guidancePrompt));
      if reply.Some? {
        guidanceMessages := guidanceMessages + [Message(NatToString(now), Assistant, reply.value)];
      } else {
        guidanceState := Error;
        guidanceMessages := guidanceMessages + [Message("error-" + NatToString(now), Assistant, StartFailedText)];
      }
    }

    /** The auto-start effect: on an empty map with guidance not started, the
        panel opens and guidance starts; otherwise nothing happens. */
    method MaybeStartGuidance(isMapEmpty: bool, guidancePrompt: string, now: nat, complete: seq<ChatTurn> -> Option<string>)
      modifies this
      ensures !(isMapEmpty && old(guidanceState) == NotStarted) ==> View() == old(View())
      ensures isMapEmpty && old(guidanceState) == NotStarted ==>
        && isExpanded
        && guidanceState == (if complete(OpeningGuidanceRequest(guidancePrompt)).Some? then InProgress else Error)
        && ShowsGuidance(isMapEmpty, guidanceState)
        && |guidanceMessages| == 2 && guidanceMessages[0] == WelcomeGuidanceMessage
      ensures isMapEmpty && old(guidanceState) == NotStarted ==>
        var reply := complete(OpeningGuidanceRequest(guidancePrompt));
        View() == old(View()).(
          isExpanded := true,
          guidanceState := if reply.Some? then InProgress else Error,
          guidanceMessages := [WelcomeGuidanceMessage] + [
            if reply.Some? then Message(NatToString(now), Assistant, reply.value)
            else Message("error-" + NatToString(now), Assistant, StartFailedText)])
      ensures old(Valid()) ==> Valid()
    {
      if isMapEmpty && guidanceState == NotStarted {
        isExpanded := true;
        StartGuidance(guidancePrompt, now, complete);
      }
    }

    /** `handleGuidanceMessage`, with the service as a parameter and
        `sentAt`, `repliedAt` and `noticedAt` for the `Date.now()` readings
        (the user's message, the reply or error notice, the generation
        notice). The request carries the whole guidance conversation; a reply
        with user info completes the guidance and starts the generation. */
    method HandleGuidanceMessage(guidancePrompt: string, sentAt: nat, repliedAt: nat, noticedAt: nat,
                                 complete: seq<ChatTurn> -> Option<string>, parse: Parser)
      returns (request: Option<seq<ChatTurn>>)
      modifies this
      ensures !CanSend(old(input), old(isLoading)) ==> View() == old(View()) && request.None?
      ensures CanSend(old(input), old(isLoading)) ==>
        var userMessage := Message(NatToString(sentAt), User, Trim(old(input)));
        var req := GuidanceRequest(guidancePrompt, Turns(old(guidanceMessages) + [userMessage]));
        var info := ExtractedInfo(complete(req), parse);
        && request == Some(req)
        && View() == old(View()).(
             input := "", isLoading := false,
             guidanceMessages := old(guidanceMessages) + [userMessage] + GuidanceReplyMessages(complete(req), repliedAt, noticedAt, info),
             guidanceState := if info.Some? then GeneratingMap else old(guidanceState),
             userInfo := if info.Some? then info else old(userInfo))
      ensures old(Valid()) ==> Valid()
    {
      if !CanSend(input, isLoading) {
        return None;
      }
      ghost var before := View();
      var updatedMessages := SubmitGuidanceInput(sentAt);
      ghost var submitted := View();
      var req := GuidanceRequest(guidancePrompt, Turns(updatedMessages));
      request := Some(req);
      ReceiveGuidanceReply(complete(req), repliedAt, noticedAt, parse);
      assert submitted.guidanceState == before.guidanceState && submitted.userInfo == before.userInfo;
    }

    /** The part of `handleGuidanceMessage` before the request: the trimmed
        input joins the conversation as the user's message, the input is
        cleared and the panel is loading. */
    method SubmitGuidanceInput(sentAt: nat) returns (updatedMessages: seq<Message>)
      modifies this
      ensures updatedMessages == old(guidanceMessages) + [Message(NatToString(sentAt), User, Trim(old(input)))]
      ensures View() == old(View()).(input := "", isLoading := true, guidanceMessages := updatedMessages)
      ensures old(Valid()) ==> Valid()
    {
      updatedMessages := guidanceMessages + [Message(NatToString(sentAt), User, Trim(input))];
      guidanceMessages, input, isLoading := updatedMessages, "", true;
    }

    /** The part of `handleGuidanceMessage` after the reply: loading ends;
        the reply and, when it carried user info, the generation notice are
        appended, the info is kept, and the synchronous start of
        `generateKnowledgeMap` moves the state through `Completed` to
        `GeneratingMap`. A failed request carries no info. */
    method ReceiveGuidanceReply(reply: Option<string>, repliedAt: nat, noticedAt: nat, parse: Parser)
      modifies this
      ensures var info := ExtractedInfo(reply, parse);
        View() == old(View()).(
        isLoading := false,
        guidanceMessages := old(guidanceMessages) + GuidanceReplyMessages(reply, repliedAt, noticedAt, info),
        guidanceState := if info.Some? then GeneratingMap else old(guidanceState),
        userInfo := if info.Some? then info else old(userInfo))
      ensures old(Valid()) ==> Valid()
      ensures reply.None? ==> guidanceState == old(guidanceState) && userInfo == old(userInfo)
    {
      var info := ExtractedInfo(reply, parse);
      var added := GuidanceReplyMessages(reply, repliedAt, noticedAt, info);
      guidanceMessages, isLoading := guidanceMessages + added, false;
      if info.Some? {
        userInfo := info;
        guidanceState := Completed;
        // `generateKnowledgeMap` runs up to its first `await` at once
        guidanceState := GeneratingMap;
      }
    }

    /** The rest of `generateKnowledgeMap`, with the generation's outcome as
        a parameter: success posts the notice and leaves the state for the
        delayed reset; failure moves to `Error` with the failure notice. */
    method FinishMapGeneration(outcome: Result<MapResponse, MapError>, now: nat)
      modifies this
      ensures outcome.Ok? ==> View() == old(View()).(
        guidanceMessages := old(guidanceMessages) + [Message("success-" + NatToString(now), Assistant, GeneratedText)])
      ensures outcome.Err? ==> View() == old(View()).(
        guidanceState := Error,
        guidanceMessages := old(guidanceMessages) + [Message("error-" + NatToString(now), Assistant, GenerateFailedText)])
      ensures old(Valid()) ==> Valid()
    {
      if outcome.Ok? {
        guidanceMessages := guidanceMessages + [Message("success-" + NatToString(now), Assistant, GeneratedText)];
      } else {
        guidanceState := Error;
        guidanceMessages := guidanceMessages + [Message("error-" + NatToString(now), Assistant, GenerateFailedText)];
      }
    }

    /** The delayed reset after a successful generation. */
    method ResetGuidance()
      modifies this
      ensures View() == old(View()).(guidanceState := NotStarted, guidanceMessages := [])
      ensures old(Valid()) ==> Valid()
    {
      guidanceState := NotStarted;
      guidanceMessages := [];
    }

    /** `handleSendMessage` against the store, with the service as a
        parameter and `sentAt`/`repliedAt` for the two `Date.now()` readings:
        the user's message goes into the active map's history, the request is
        built from the history as it was before, and the reply (or the error
        notice) goes into the history after it. */
    method HandleSendMessage(store: KnowledgeMapStore.Store, systemPrompt: string, sentAt: nat, repliedAt: nat,
                             complete: seq<ChatTurn> -> Option<string>)
      returns (request: Option<seq<ChatTurn>>)
      modifies this, store
      ensures !CanSend(old(input), old(isLoading)) ==> View() == old(View()) && store.View() == old(store.View()) && request.None?
      ensures CanSend(old(input), old(isLoading)) ==>
        var userMessage := Message(NatToString(sentAt), User, Trim(old(input)));
        var req := ChatRequest(systemPrompt, old(store.ChatHistory()), userMessage);
        var answer := ChatAnswer(complete(req), repliedAt);
        && request == Some(req)
        && View() == old(View()).(input := "", isLoading := false)
        && store.View() == old(store.View()).(maps :=
             KnowledgeMapStore.ApplyToActive(
               KnowledgeMapStore.ApplyToActive(old(store.maps), old(store.activeMapId), KnowledgeMapStore.AddMessage(userMessage)),
               old(store.activeMapId), KnowledgeMapStore.AddMessage(answer)))
      ensures old(Valid()) ==> Valid()
      ensures old(store.Valid()) ==> store.Valid()
    {
      if !CanSend(input, isLoading) {
        return None;
      }
      var history := store.ChatHistory();
      var userMessage := SubmitChatInput(store, sentAt);
      var req := ChatRequest(systemPrompt, history, userMessage);
      request := Some(req);
      store.AddChatMessage(ChatAnswer(complete(req), repliedAt));
      isLoading := false;
    }

    /** The part of `handleSendMessage` before the request: the trimmed
        input goes into the active map's history as the user's message, the
        input is cleared and the panel is loading. */
    method SubmitChatInput(store: KnowledgeMapStore.Store, sentAt: nat) returns (userMessage: Message)
      modifies this, store
      ensures userMessage == Message(NatToString(sentAt), User, Trim(old(input)))
      ensures View() == old(View()).(input := "", isLoading := true)
      ensures store.View() == old(store.View()).(maps :=
        KnowledgeMapStore.ApplyToActive(old(store.maps), old(store.activeMapId), KnowledgeMapStore.AddMessage(userMessage)))
      ensures old(Valid()) ==> Valid()
      ensures old(store.Valid()) ==> store.Valid()
    {
      userMessage := Message(NatToString(sentAt), User, Trim(input));
      store.AddChatMessage(userMessage);
      input, isLoading := "", true;
    }
  }
}
