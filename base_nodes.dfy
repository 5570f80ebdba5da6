/** The older generator of a base map: the same reply handling as the
    knowledge-aware one, with a prompt that carries the learning goal only. */
module BaseNodes {
  import opened Wrappers
  import opened JsText
  import opened Json
  import opened KnowledgeMapTypes
  import opened KnowledgeMapAi

  /** The user prompt: the lead, the quoted goal and the closing request
      after a blank line. */
  function BaseUserPrompt(userLearningGoal: string): string {
    GoalLead + (Quoted(userLearningGoal) + PromptTail)
  }

  /** The request: exactly the system prompt, then the user prompt. */
  function BaseMapRequest(systemPrompt: string, userLearningGoal: string): (r: seq<ChatTurn>)
    ensures |r| == 2 && r[0] == ChatTurn(System, systemPrompt)
    ensures r[1] == ChatTurn(User, BaseUserPrompt(userLearningGoal))
  {
    [ChatTurn(System, systemPrompt), ChatTurn(User, BaseUserPrompt(userLearningGoal))]
  }

  /** The goal appears in the prompt between double quotes, right after the
      lead. */
  lemma BaseGoalIsQuoted(userLearningGoal: string)
    ensures OccursAt(BaseUserPrompt(userLearningGoal), Quoted(userLearningGoal), |GoalLead|)
  {
    var q := Quoted(userLearningGoal);
    ConcatSlices(q, PromptTail);
    OccursAfterPrefix(GoalLead, q + PromptTail, q);
  }

  /** Unlike the knowledge-aware prompt, this one never carries a
      knowledge-background line (for a goal that does not itself contain the
      line's opening words). */
  lemma BasePromptHasNoKnowledgeLine(userLearningGoal: string)
    requires !Contains(userLearningGoal, KnowledgeMarker)
    ensures !Contains(BaseUserPrompt(userLearningGoal), KnowledgeMarker)
  {
    PromptPiecesAvoidMarker();
    MarkerOnlyInGoal(GoalLead, userLearningGoal, PromptTail);
  }

  /** `generateBaseKnowledgeMap`, with the chat request as a parameter
      (`None` is a thrown request): the reply goes through the same strip,
      fallback and shape check as the knowledge-aware generator's. */
  function GenerateBaseKnowledgeMap(
    systemPrompt: string, userLearningGoal: string,
    complete: seq<ChatTurn> -> Option<string>, parse: Parser): (r: Result<MapResponse, MapError>)
    ensures complete(BaseMapRequest(systemPrompt, userLearningGoal)).None? ==> r == Err(RequestFailed)
    ensures complete(BaseMapRequest(systemPrompt, userLearningGoal)).Some? ==>
      r == ParseReply(complete(BaseMapRequest(systemPrompt, userLearningGoal)).value, parse)
  {
    match complete(BaseMapRequest(systemPrompt, userLearningGoal))
    case None => Err(RequestFailed)
    case Some(reply) => ParseReply(reply, parse)
  }
}
