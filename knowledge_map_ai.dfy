/** The text handling around the AI service: pulling the `<user_info>`
    payload out of a guidance reply, the message lists sent to the service,
    the map-generation prompt, and turning a reply into a map by stripping a
    Markdown code fence, falling back to the outermost `{ … }` span, and
    checking that the result has `nodes` and `edges` arrays. */
module KnowledgeMapAi {
  import opened Wrappers
  import opened JsText
  import opened Json
  import opened KnowledgeMapTypes

  // ---------------------------------------------------------------------
  // The user-info payload

  const UserInfoOpen: string := "<user_info>"
  const UserInfoClose: string := "</user_info>"

  /** The capture group of `/<user_info>([\s\S]*?)<\/user_info>/`: the text
      between the first opening tag and the first closing tag after it. A
      later opening tag could not do better, since any closing tag after it
      also follows the first one. */
  function UserInfoGroup(s: string): (r: Option<string>)
    ensures r.None? <==> forall i, j :: OccursAt(s, UserInfoOpen, i) && i + |UserInfoOpen| <= j ==> !OccursAt(s, UserInfoClose, j)
    ensures r.Some? ==> exists i, j ::
      && OccursAt(s, UserInfoOpen, i) && OccursAt(s, UserInfoClose, j)
      && i + |UserInfoOpen| <= j && r.value == s[i + |UserInfoOpen|..j]
      && (forall k :: 0 <= k < i ==> !OccursAt(s, UserInfoOpen, k))
    ensures r.Some? ==> forall k :: !OccursAt(r.value, UserInfoClose, k)
  {
    match IndexOf(s, UserInfoOpen, 0)
    case None => None
    case Some(i) =>
      match IndexOf(s, UserInfoClose, i + |UserInfoOpen|)
      case None => None
      case Some(j) =>
        var g := s[i + |UserInfoOpen|..j];
        forall k | OccursAt(g, UserInfoClose, k) ensures false {
          OccursInSlice(s, i + |UserInfoOpen|, j, UserInfoClose, k);
        }
        Some(g)
  }

  /** `parseUserInfo`: no tag pair or an empty payload gives `null`, as does
      a payload that does not parse; otherwise the trimmed payload is parsed.
      Nothing is thrown. */
  function ParseUserInfo(s: string, parse: Parser): (r: Option<Json>)
    ensures UserInfoGroup(s).None? ==> r.None?
    ensures UserInfoGroup(s) == Some("") ==> r.None?
    ensures r.Some? ==> UserInfoGroup(s).Some? && parse(Trim(UserInfoGroup(s).value)) == r
    ensures UserInfoGroup(s).Some? && UserInfoGroup(s).value != "" ==> r == parse(Trim(UserInfoGroup(s).value))
  {
    match UserInfoGroup(s)
    case None => None
    case Some(g) => if g == "" then None else parse(Trim(g))
  }

  /** The payload handed to the parser never holds a closing tag: the lazy
      match stops at the first one. */
  lemma UserInfoPayloadHasNoCloseTag(s: string)
    requires UserInfoGroup(s).Some?
    ensures forall k :: !OccursAt(Trim(UserInfoGroup(s).value), UserInfoClose, k)
  {
    NoOccurrenceInTrim(UserInfoGroup(s).value, UserInfoClose);
  }

  // ---------------------------------------------------------------------
  // Requests

  /** `guidanceConversation`: the guidance system prompt, then the
      conversation so far, in order. */
  function GuidanceRequest(guidancePrompt: string, messages: seq<ChatTurn>): (r: seq<ChatTurn>)
    ensures |r| == |messages| + 1
    ensures r[0] == ChatTurn(System, guidancePrompt) && r[1..] == messages
  {
    [ChatTurn(System, guidancePrompt)] + messages
  }

  /** The opening lines of the user prompt, up to the quoted goal. */
  const GoalLead: string := "\n用户的学习目标如下：\n"
  /** The closing request of the user prompt, after a blank line. */
  const PromptTail: string := "\n\n请根据上述要求，为该学习目标生成知识地图的 JSON 数据。\n"
  /** The words that open the knowledge-background line. */
  const KnowledgeMarker: string := "用户当前的知识背景"

  function Quoted(s: string): string {
    "\"" + s + "\""
  }

  /** The knowledge-background line, present only for non-empty knowledge. */
  function KnowledgeLine(currentKnowledge: string): string {
    if currentKnowledge != "" then KnowledgeMarker + ("：\n" + Quoted(currentKnowledge)) else ""
  }

  /** The user prompt of `generateBaseKnowledgeMap`: the lead, the quoted
      goal, a blank line, the knowledge line and the closing request. */
  function UserPrompt(userLearningGoal: string, currentKnowledge: string): string {
    GoalLead + (Quoted(userLearningGoal) + ("\n\n" + (KnowledgeLine(currentKnowledge) + PromptTail)))
  }

  /** The request of `generateBaseKnowledgeMap`: system prompt, then user prompt. */
  function MapRequest(systemPrompt: string, userLearningGoal: string, currentKnowledge: string): (r: seq<ChatTurn>)
    ensures |r| == 2 && r[0] == ChatTurn(System, systemPrompt)
    ensures r[1] == ChatTurn(User, UserPrompt(userLearningGoal, currentKnowledge))
  {
    [ChatTurn(System, systemPrompt), ChatTurn(User, UserPrompt(userLearningGoal, currentKnowledge))]
  }

  /** The goal appears in the prompt between double quotes, right after the
      lead. */
  lemma GoalIsQuoted(userLearningGoal: string, currentKnowledge: string)
    ensures OccursAt(UserPrompt(userLearningGoal, currentKnowledge), Quoted(userLearningGoal), |GoalLead|)
  {
    var q := Quoted(userLearningGoal);
    var rest := "\n\n" + (KnowledgeLine(currentKnowledge) + PromptTail);
    ConcatSlices(q, rest);
    OccursAfterPrefix(GoalLead, q + rest, q);
  }

  /** A marker that occurs in `a + g + b`, whose characters do not appear at
      the joins and whose third character does not occur in `a` or `b`,
      occurs in `g`. */
  lemma MarkerInsideMiddle(a: string, g: string, b: string, i: int)
    requires OccursAt(a + g + b, KnowledgeMarker, i)
    requires KnowledgeMarker[2] !in a && KnowledgeMarker[2] !in b
    requires |a| >= 2 && a[|a| - 2] != KnowledgeMarker[0] && a[|a| - 1] != KnowledgeMarker[0]
    requires a[|a| - 1] != KnowledgeMarker[1]
    requires |b| >= 1 && b[0] !in KnowledgeMarker
    ensures OccursAt(g, KnowledgeMarker, i - |a|)
  {
    var s := a + g + b;
    var m := KnowledgeMarker;
    assert forall k :: 0 <= k < |m| ==> s[i + k] == m[k] by {
      assert s[i..i + |m|] == m;
    }
    assert s[i + 2] == m[2];
    assert i + 2 >= |a|;
    assert i + 2 < |a| + |g|;
    assert s[i] == m[0];
    assert i >= |a|;
    forall t | i <= t < i + |m| ensures s[t] != b[0] {
      assert s[i..i + |m|][t - i] == s[t];
    }
    assert s[|a| + |g|] == b[0];
    assert i + |m| <= |a| + |g|;
    SliceOfSlice(s, 0, |a| + |g|, i, i + |m|);
    assert (a + g + b)[..|a| + |g|] == a + g;
    SliceOfSlice(a + g, |a|, |a| + |g|, i - |a|, i - |a| + |m|);
    assert (a + g)[|a|..|a| + |g|] == g;
  }

  /** With non-empty knowledge the prompt carries the knowledge line,
      right after the quoted goal and its blank line. */
  lemma KnowledgeLinePresent(userLearningGoal: string, currentKnowledge: string)
    requires currentKnowledge != ""
    ensures OccursAt(UserPrompt(userLearningGoal, currentKnowledge), KnowledgeMarker,
                     |GoalLead| + |Quoted(userLearningGoal)| + 2)
  {
    var q := Quoted(userLearningGoal);
    var line := KnowledgeLine(currentKnowledge);
    var y := line + PromptTail;
    OccursAtFront(KnowledgeMarker, "：\n" + Quoted(currentKnowledge));
    OccursInPrefix(line, PromptTail, KnowledgeMarker, 0);
    OccursInSuffix("\n\n", y, KnowledgeMarker, 0);
    OccursInSuffix(q, "\n\n" + y, KnowledgeMarker, 2);
    OccursInSuffix(GoalLead, q + ("\n\n" + y), KnowledgeMarker, |q| + 2);
  }

  /** The lead and the closing request hold no character of the marker
      that could start or continue it across a join. */
  lemma PromptPiecesAvoidMarker()
    ensures KnowledgeMarker[2] !in GoalLead && KnowledgeMarker[2] !in PromptTail
    ensures GoalLead[|GoalLead| - 1] == '\n'
    ensures '"' !in KnowledgeMarker && '\n' !in KnowledgeMarker && KnowledgeMarker[2] != '"'
  {
    LeadAvoidsMarker();
    TailAvoidsMarker();
  }

  lemma LeadAvoidsMarker()
    ensures KnowledgeMarker[2] !in GoalLead
  {
  }

  lemma TailAvoidsMarker()
    ensures KnowledgeMarker[2] !in PromptTail
  {
  }

  /** No marker can straddle `lead + "\"" + goal + "\"" + tail` unless it
      lies inside the goal. */
  lemma MarkerOnlyInGoal(lead: string, goal: string, tail: string)
    requires !Contains(goal, KnowledgeMarker)
    requires KnowledgeMarker[2] !in lead && KnowledgeMarker[2] !in tail
    requires |lead| >= 1 && lead[|lead| - 1] == '\n'
    ensures !Contains(lead + (Quoted(goal) + tail), KnowledgeMarker)
  {
    PromptPiecesAvoidMarker();
    var a := lead + "\"";
    var b := "\"" + tail;
    QuotedSplit(lead, goal, tail);
    assert a[|a| - 1] == '"' && a[|a| - 2] == '\n';
    assert b[0] == '"';
    forall i | OccursAt(a + goal + b, KnowledgeMarker, i) ensures false {
      MarkerInsideMiddle(a, goal, b, i);
    }
  }

  /** With empty knowledge the prompt has no knowledge line (for a goal that
      does not itself contain the line's opening words). */
  lemma KnowledgeLineAbsent(userLearningGoal: string)
    requires !Contains(userLearningGoal, KnowledgeMarker)
    ensures !Contains(UserPrompt(userLearningGoal, ""), KnowledgeMarker)
  {
    PromptPiecesAvoidMarker();
    assert "" + PromptTail == PromptTail;
    MarkerOnlyInGoal(GoalLead, userLearningGoal, "\n\n" + PromptTail);
  }

  /** Regrouping a quoted middle part. */
  lemma QuotedSplit(lead: string, g: string, tail: string)
    ensures lead + (Quoted(g) + tail) == (lead + "\"") + g + ("\"" + tail)
  {
  }

  /** The user prompt carries the knowledge-background line exactly when the
      current knowledge is non-empty (for a goal that does not itself contain
      the line's opening words). */
  lemma KnowledgeLineIff(userLearningGoal: string, currentKnowledge: string)
    requires !Contains(userLearningGoal, KnowledgeMarker)
    ensures Contains(UserPrompt(userLearningGoal, currentKnowledge), KnowledgeMarker) <==> currentKnowledge != ""
  {
    if currentKnowledge != "" {
      KnowledgeLinePresent(userLearningGoal, currentKnowledge);
    } else {
      KnowledgeLineAbsent(userLearningGoal);
    }
  }

  // ---------------------------------------------------------------------
  // From the reply text to a map

  predicate IsAsciiCaseless(c: char, lower: char) {
    c == lower || c as int == lower as int - 32
  }

  /** The reply starts with the `^```json` of the first `replace`, in any case. */
  predicate StartsWithJsonFence(s: string) {
    && |s| >= 7 && s[..3] == "```"
    && IsAsciiCaseless(s[3], 'j') && IsAsciiCaseless(s[4], 's')
    && IsAsciiCaseless(s[5], 'o') && IsAsciiCaseless(s[6], 'n')
  }

  /** `.replace(/^```json\s*\/i, "")`. */
  function StripLeadingFence(s: string): (r: string)
    ensures StartsWithJsonFence(s) ==> r == TrimStart(s[7..])
    ensures !StartsWithJsonFence(s) ==> r == s
  {
    if StartsWithJsonFence(s) then TrimStart(s[7..]) else s
  }

  /** `\s*```\s*$` matches starting at `p`. */
  ghost predicate TrailingFenceAt(s: string, p: int) {
    exists k :: 0 <= p <= k && k + 3 <= |s| && AllSpace(s[p..k]) && s[k..k + 3] == "```" && AllSpace(s[k + 3..])
  }

  /** `.replace(/\s*```\s*$/, "")`: when the text, less its trailing
      whitespace, ends in three backticks, they go together with the
      whitespace on both sides of them. */
  function StripTrailingFence(s: string): string {
    var t := TrimEnd(s);
    if |t| >= 3 && t[|t| - 3..] == "```" then TrimEnd(t[..|t| - 3]) else s
  }

  /** The last non-space character of `s` is at `m`: trimming the end keeps
      exactly `m + 1` characters. */
  lemma TrimEndLength(s: string, m: int)
    requires 0 <= m < |s| && !IsSpace(s[m]) && AllSpace(s[m + 1..])
    ensures |TrimEnd(s)| == m + 1
  {
    var r := TrimEnd(s);
    forall t | |r| <= t < |s| ensures IsSpace(s[t]) {
      assert s[|r|..][t - |r|] == s[t];
    }
    assert |r| > m;
    forall t | m + 1 <= t < |s| ensures IsSpace(s[t]) {
      assert s[m + 1..][t - (m + 1)] == s[t];
    }
    assert r[|r| - 1] == s[|r| - 1];
  }

  /** Any match of `\s*```\s*$` pins its backticks to the end of the text
      less its trailing whitespace. */
  lemma TrailingFencePinned(s: string, q: int, k: int)
    requires 0 <= q <= k && k + 3 <= |s| && AllSpace(s[q..k]) && s[k..k + 3] == "```" && AllSpace(s[k + 3..])
    ensures |TrimEnd(s)| == k + 3 && TrimEnd(s)[k..] == "```"
  {
    assert s[k + 2] == '`';
    assert s[k + 3..] == s[k + 2 + 1..];
    TrimEndLength(s, k + 2);
    assert TrimEnd(s) == s[..k + 3];
  }

  /** A run holding a non-space character is not all whitespace. */
  lemma NotAllSpace(s: string, q: int, k: int, m: int)
    requires 0 <= q <= m < k <= |s| && !IsSpace(s[m])
    ensures !AllSpace(s[q..k])
  {
    assert s[q..k][m - q] == s[m];
  }

  /** When the trimmed text ends in backticks, the pattern matches right
      after the last non-space character before them. */
  lemma TrailingFenceMatches(s: string)
    requires var t := TrimEnd(s); |t| >= 3 && t[|t| - 3..] == "```"
    ensures TrailingFenceAt(s, |StripTrailingFence(s)|)
  {
    var t := TrimEnd(s);
    var k := |t| - 3;
    var u := t[..k];
    PrefixOfPrefix(s, t, u);
    var p := |TrimEnd(u)|;
    assert AllSpace(s[p..k]) by { assert s[p..k] == u[p..]; }
    assert s[k..k + 3] == "```" by { assert s[k..k + 3] == t[k..]; }
    assert s[k + 3..] == s[|t|..];
  }

  /** ... and nowhere earlier. */
  lemma LeftmostTrailingFence(s: string, k: int, u: string)
    requires 0 <= k && |TrimEnd(s)| == k + 3 && k <= |s| && u == s[..k]
    ensures forall q :: 0 <= q < |TrimEnd(u)| ==> !TrailingFenceAt(s, q)
  {
    var p := |TrimEnd(u)|;
    if p > 0 {
      TrimEndLastKept(u);
      assert u[p - 1] == s[p - 1];
      forall q | 0 <= q < p ensures !TrailingFenceAt(s, q) {
        NoEarlierFence(s, q, k, p - 1);
      }
    }
  }

  /** No match starts before a non-space character that precedes the final
      backticks. */
  lemma NoEarlierFence(s: string, q: int, k: int, m: int)
    requires 0 <= q <= m < k && |TrimEnd(s)| == k + 3 && !IsSpace(s[m])
    ensures !TrailingFenceAt(s, q)
  {
    forall k' | q <= k' && k' + 3 <= |s| && AllSpace(s[q..k']) && s[k'..k' + 3] == "```" && AllSpace(s[k' + 3..])
      ensures false
    {
      TrailingFencePinned(s, q, k');
      NotAllSpace(s, q, k', m);
    }
  }

  /** When the trimmed text does not end in backticks, the pattern matches
      nowhere. */
  lemma NoTrailingFence(s: string)
    requires var t := TrimEnd(s); !(|t| >= 3 && t[|t| - 3..] == "```")
    ensures forall q :: 0 <= q <= |s| ==> !TrailingFenceAt(s, q)
  {
    forall q, k | 0 <= q <= k && k + 3 <= |s| && AllSpace(s[q..k]) && s[k..k + 3] == "```" && AllSpace(s[k + 3..])
      ensures false
    {
      TrailingFencePinned(s, q, k);
    }
  }

  /** When the trimmed text ends in backticks, the strip keeps a proper
      prefix, and that prefix ends where the leftmost match starts. */
  lemma TrailingFenceStripped(s: string)
    requires var t := TrimEnd(s); |t| >= 3 && t[|t| - 3..] == "```"
    ensures var r := StripTrailingFence(s);
      && |r| < |s| && r == s[..|r|]
      && TrailingFenceAt(s, |r|) && forall q :: 0 <= q < |r| ==> !TrailingFenceAt(s, q)
  {
    var t := TrimEnd(s);
    var u := t[..|t| - 3];
    PrefixOfPrefix(s, t, u);
    PrefixOfPrefix(s, u, TrimEnd(u));
    TrailingFenceMatches(s);
    LeftmostTrailingFence(s, |t| - 3, u);
  }

  /** The second `replace` removes exactly the leftmost match of the
      pattern, and leaves the text alone when there is none. */
  lemma StripTrailingFenceIsLeftmostMatch(s: string)
    ensures var r := StripTrailingFence(s);
      && |r| <= |s| && r == s[..|r|]
      && (r != s ==> TrailingFenceAt(s, |r|) && forall q :: 0 <= q < |r| ==> !TrailingFenceAt(s, q))
      && (r == s ==> forall q :: 0 <= q <= |s| ==> !TrailingFenceAt(s, q))
  {
    var t := TrimEnd(s);
    if |t| >= 3 && t[|t| - 3..] == "```" {
      TrailingFenceStripped(s);
    } else {
      NoTrailingFence(s);
    }
  }

  /** The whole strip: leading fence, trailing fence, then `trim`. */
  function StripFences(s: string): (r: string)
    ensures r != [] ==> !IsSpace(r[0]) && !IsSpace(r[|r| - 1])
  {
    Trim(StripTrailingFence(StripLeadingFence(s)))
  }

  const Fence: string := "```"

  /** A reply wrapped in a fence: ```` ```json ````, a newline, the body, a
      newline, ```` ``` ```` and a final newline. */
  function Fenced(body: string): string {
    "```json" + ("\n" + (body + ("\n" + (Fence + "\n"))))
  }

  /** Text that starts with ```` ```json ```` matches the first pattern. */
  lemma StartsWithJsonFenceOf(x: string)
    ensures StartsWithJsonFence("```json" + x)
  {
    var s := "```json" + x;
    ConcatSlices("```json", x);
    assert s[..3] == "```" by { assert s[..3] == s[..7][..3]; }
    assert s[3] == s[..7][3] && s[4] == s[..7][4] && s[5] == s[..7][5] && s[6] == s[..7][6];
  }

  /** After ```` ```json ```` the first `replace` removes the whitespace. */
  lemma StripLeadingOfJsonFence(x: string)
    ensures StripLeadingFence("```json" + x) == TrimStart(x)
  {
    StartsWithJsonFenceOf(x);
    ConcatSlices("```json", x);
  }

  /** The leading fence of a fenced reply goes with the whitespace after it. */
  lemma StripLeadingOfFenced(body: string)
    requires body != [] ==> !IsSpace(body[0])
    ensures StripLeadingFence(Fenced(body)) == if body == [] then Fence + "\n" else body + ("\n" + (Fence + "\n"))
  {
    var a := body + ("\n" + (Fence + "\n"));
    StripLeadingOfJsonFence("\n" + a);
    TrimStartSkipsSpace('\n', a);
    if body == [] {
      BareFenceTrimStart(a);
    } else {
      assert a[0] == body[0];
      TrimStartKeeps(a);
    }
  }

  /** With an empty body the whitespace runs up to the closing fence. */
  lemma BareFenceTrimStart(a: string)
    requires a == [] + ("\n" + (Fence + "\n"))
    ensures TrimStart(a) == Fence + "\n"
  {
    assert a == "\n" + (Fence + "\n");
    TrimStartSkipsSpace('\n', Fence + "\n");
    TrimStartKeeps(Fence + "\n");
  }

  /** The trailing fence goes with the whitespace before and after it. */
  lemma StripTrailingOfFenced(body: string)
    requires body != [] ==> !IsSpace(body[|body| - 1])
    ensures StripTrailingFence(body + ("\n" + (Fence + "\n"))) == body
  {
    var t := (body + "\n") + Fence;
    assert body + ("\n" + (Fence + "\n")) == t + "\n";
    TrimEndSkipsSpace(t, '\n');
    TrimEndKeeps(t);
    ConcatSlices(body + "\n", Fence);
    TrimEndSkipsSpace(body, '\n');
    if body != [] {
      TrimEndKeeps(body);
    }
  }

  /** An empty fenced body leaves only the closing fence, which then goes. */
  lemma StripTrailingOfBareFence()
    ensures StripTrailingFence(Fence + "\n") == ""
  {
    TrimEndSkipsSpace(Fence, '\n');
    TrimEndKeeps(Fence);
    assert Fence[..0] == "";
  }

  /** A bare reply with no surrounding whitespace and no trailing fence is
      left as it is. */
  lemma StripBare(body: string)
    requires body != [] ==> !IsSpace(body[0]) && !IsSpace(body[|body| - 1])
    requires !(|body| >= 3 && body[|body| - 3..] == "```")
    requires !StartsWithJsonFence(body)
    ensures StripFences(body) == body
  {
    assert StripLeadingFence(body) == body;
    assert TrimEnd(body) == body;
    assert StripTrailingFence(body) == body;
    TrimOfTrimmed(body);
  }

  /** A bare reply is only trimmed, and a reply wrapped in a fence loses the
      fence: stripping gives the body back whenever the body has no
      surrounding whitespace and does not itself end in three backticks. */
  lemma FenceRoundTrip(body: string)
    requires body != [] ==> !IsSpace(body[0]) && !IsSpace(body[|body| - 1])
    requires !(|body| >= 3 && body[|body| - 3..] == "```")
    ensures StripFences(Fenced(body)) == body
    ensures !StartsWithJsonFence(body) ==> StripFences(body) == body
  {
    StripLeadingOfFenced(body);
    if body == [] {
      StripTrailingOfBareFence();
    } else {
      StripTrailingOfFenced(body);
      TrimOfTrimmed(body);
    }
    if !StartsWithJsonFence(body) {
      StripBare(body);
    }
  }

  /** `match(/\{[\s\S]*\}/)`: from the first `{` to the last `}` after it. */
  function BraceSpan(s: string): (r: Option<string>)
    ensures r.Some? <==> exists i, j :: 0 <= i < j < |s| && s[i] == '{' && s[j] == '}'
    ensures r.Some? ==> |r.value| >= 2 && r.value[0] == '{' && r.value[|r.value| - 1] == '}'
    ensures r.Some? ==> exists i, j ::
      && 0 <= i < j < |s| && s[i] == '{' && s[j] == '}' && r.value == s[i..j + 1]
      && (forall a :: 0 <= a < i ==> s[a] != '{')
      && (forall b :: j < b < |s| ==> s[b] != '}')
  {
    match IndexOf(s, "{", 0)
    case None =>
      forall i | 0 <= i < |s| ensures s[i] != '{' {
        CharOccurs(s, '{', i);
      }
      None
    case Some(i) =>
      CharOccurs(s, '{', i);
      match LastIndexOfChar(s, '}')
      case None => None
      case Some(j) =>
        if i < j then
          forall a | 0 <= a < i ensures s[a] != '{' {
            CharOccurs(s, '{', a);
          }
          Some(s[i..j + 1])
        else
          forall a | 0 <= a < |s| ensures s[a] == '{' ==> a >= i {
            CharOccurs(s, '{', a);
          }
          None
  }

  /** The parsed map: the `nodes` and `edges` arrays as the service sent them. */
  datatype MapResponse = MapResponse(nodes: seq<Json>, edges: seq<Json>)

  datatype MapError =
    | RequestFailed           // the chat request itself threw
    | NotJson                 // no parse, and no `{ … }` span to retry on
    | NotJsonAfterExtraction  // the `{ … }` span did not parse either
    | InvalidStructure        // parsed, but not an object with two arrays

  /** The shape check: an object whose `nodes` and `edges` are arrays. */
  predicate IsMapShape(j: Json) {
    && j.JObject?
    && "nodes" in j.fields && j.fields["nodes"].JArray?
    && "edges" in j.fields && j.fields["edges"].JArray?
  }

  function CheckShape(j: Json): (r: Result<MapResponse, MapError>)
    ensures r.Ok? <==> IsMapShape(j)
    ensures r.Ok? ==> r.value == MapResponse(j.fields["nodes"].items, j.fields["edges"].items)
    ensures r.Err? ==> r.error == InvalidStructure
  {
    if j.JObject? && "nodes" in j.fields && Truthy(j.fields["nodes"]) && "edges" in j.fields && Truthy(j.fields["edges"])
       && j.fields["nodes"].JArray? && j.fields["edges"].JArray?
    then Ok(MapResponse(j.fields["nodes"].items, j.fields["edges"].items))
    else Err(InvalidStructure)
  }

  /** The parse with its one fallback. */
  function ParseWithFallback(text: string, parse: Parser): Result<Json, MapError> {
    match parse(text)
    case Some(j) => Ok(j)
    case None =>
      match BraceSpan(text)
      case None => Err(NotJson)
      case Some(span) =>
        match parse(span)
        case None => Err(NotJsonAfterExtraction)
        case Some(j) => Ok(j)
  }

  /** The reply handling of `generateBaseKnowledgeMap`. */
  function ParseReply(reply: string, parse: Parser): (r: Result<MapResponse, MapError>)
    ensures r.Ok? ==> exists j :: IsMapShape(j) && r.value == MapResponse(j.fields["nodes"].items, j.fields["edges"].items)
    ensures r.Err? ==> r.error != RequestFailed
  {
    match ParseWithFallback(StripFences(reply), parse)
    case Err(e) => Err(e)
    case Ok(j) => CheckShape(j)
  }

  /** Every outcome of the reply handling, case by case: the stripped text is
      parsed first; only when that fails is the `{ … }` span tried; with no
      span, or a span that fails too, the call fails; and whatever parsed is
      accepted only with the right shape. */
  lemma ParseReplyCases(reply: string, parse: Parser)
    ensures var text := StripFences(reply); var r := ParseReply(reply, parse);
      && (parse(text).Some? ==> r == CheckShape(parse(text).value))
      && (parse(text).None? && BraceSpan(text).None? ==> r == Err(NotJson))
      && (parse(text).None? && BraceSpan(text).Some? && parse(BraceSpan(text).value).None?
          ==> r == Err(NotJsonAfterExtraction))
      && (parse(text).None? && BraceSpan(text).Some? && parse(BraceSpan(text).value).Some?
          ==> r == CheckShape(parse(BraceSpan(text).value).value))
  {
  }

  /** `generateBaseKnowledgeMap` end to end, with the chat request as a
      parameter (`None` is a thrown request). */
  function GenerateBaseKnowledgeMap(
    systemPrompt: string, userLearningGoal: string, currentKnowledge: string,
    complete: seq<ChatTurn> -> Option<string>, parse: Parser): (r: Result<MapResponse, MapError>)
    ensures complete(MapRequest(systemPrompt, userLearningGoal, currentKnowledge)).None? ==> r == Err(RequestFailed)
    ensures complete(MapRequest(systemPrompt, userLearningGoal, currentKnowledge)).Some? ==>
      r == ParseReply(complete(MapRequest(systemPrompt, userLearningGoal, currentKnowledge)).value, parse)
  {
    match complete(MapRequest(systemPrompt, userLearningGoal, currentKnowledge))
    case None => Err(RequestFailed)
    case Some(reply) => ParseReply(reply, parse)
  }
}
