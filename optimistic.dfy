/** The optimistic specialist (CODE/optimistic.py): its confidence heuristic and the way
    `optimistic_node` fills the optimist slot, with its two fallbacks. Web search, memory and the
    prompt chain are collaborators; only their outcomes enter the model. */
module Optimistic {
  import opened Wrappers
  import opened Text
  import opened Turn

  const OpportunityIndicators: seq<string> := [
    "want", "hope", "dream", "future", "better", "improve", "learn",
    "grow", "opportunity", "excited", "interested", "passion", "goal"]

  const SuccessIndicators: seq<string> := [
    "success", "achieve", "potential", "possible", "can", "will",
    "progress", "advance", "develop", "master", "excel"]

  /** `topic_confidence.get(topic_type, 0.0)` */
  function TopicBase(topicType: Option<string>): (r: real)
    ensures 0.0 <= r <= 0.3
  {
    if topicType == Some(Career) then 0.3
    else if topicType == Some(Education) then 0.3
    else if topicType == Some(Technical) then 0.2
    else 0.0
  }

  /** `calculate_optimist_confidence(user_input, topic_type)` */
  function CalculateOptimistConfidence(userInput: string, topicType: Option<string>): (r: real)
    ensures 0.0 <= r <= 1.0
  {
    var lowered := Lower(userInput);
    AtMostOne(TopicBase(topicType) + KeywordBonus(lowered, OpportunityIndicators, 0.4)
      + KeywordBonus(lowered, SuccessIndicators, 0.3))
  }

  /** The input mentions hope or growth: some opportunity indicator occurs in it, lowered. */
  predicate SoundsHopeful(userInput: string)
  {
    exists k :: 0 <= k < |OpportunityIndicators| && Contains(Lower(userInput), OpportunityIndicators[k])
  }

  /** The input mentions achievement: some success indicator occurs in it, lowered. */
  predicate SoundsAmbitious(userInput: string)
  {
    exists k :: 0 <= k < |SuccessIndicators| && Contains(Lower(userInput), SuccessIndicators[k])
  }

  /** The heuristic is the topic base plus 0.4 for hope and 0.3 for ambition, exactly; the cap at
      1.0 never has anything to cut. */
  lemma OptimistConfidenceIsSum(userInput: string, topicType: Option<string>)
    ensures CalculateOptimistConfidence(userInput, topicType) ==
      TopicBase(topicType) + (if SoundsHopeful(userInput) then 0.4 else 0.0)
      + (if SoundsAmbitious(userInput) then 0.3 else 0.0)
  {
    ContainsAnyIff(Lower(userInput), OpportunityIndicators);
    ContainsAnyIff(Lower(userInput), SuccessIndicators);
  }

  /** The base is 0.3 for career and education, 0.2 for technical and 0 for any other topic,
      `None` included. */
  lemma OptimistTopicBaseTable(topicType: Option<string>)
    ensures topicType == Some(Career) || topicType == Some(Education) ==> TopicBase(topicType) == 0.3
    ensures topicType == Some(Technical) ==> TopicBase(topicType) == 0.2
    ensures topicType !in {Some(Career), Some(Education), Some(Technical)} ==> TopicBase(topicType) == 0.0
  {
  }

  /** Saying more never makes the optimist less confident: appending text to the input keeps
      every keyword match it had. */
  lemma OptimistConfidenceGrowsWithInput(userInput: string, more: string, topicType: Option<string>)
    ensures CalculateOptimistConfidence(userInput, topicType) <= CalculateOptimistConfidence(userInput + more, topicType)
  {
    KeywordBonusGrows(userInput, more, OpportunityIndicators, 0.4);
    KeywordBonusGrows(userInput, more, SuccessIndicators, 0.3);
  }

  /** The query `optimistic_node` sends to the web search for the topic it reads. */
  function OptimistQuery(userInput: string, topicType: Option<string>): string
  {
    var topic := TopicOrGeneral(topicType);
    if topic == Career then "success stories " + userInput + " positive outcomes career growth"
    else if topic == Education then "benefits advantages " + userInput + " student success stories"
    else if topic == Technical then "exciting developments " + userInput + " future potential innovations"
    else userInput
  }

  /** Every query mentions the user's input, and for a topic without a query of its own the query
      is the input itself. */
  lemma OptimistQueryMentionsInput(userInput: string, topicType: Option<string>)
    ensures Contains(OptimistQuery(userInput, topicType), userInput)
    ensures TopicOrGeneral(topicType) !in {Career, Education, Technical} ==> OptimistQuery(userInput, topicType) == userInput
  {
    ContainsSelf(userInput);
    var topic := TopicOrGeneral(topicType);
    if topic == Career {
      ContainsExtend("success stories ", userInput, " positive outcomes career growth", userInput);
    } else if topic == Education {
      ContainsExtend("benefits advantages ", userInput, " student success stories", userInput);
    } else if topic == Technical {
      ContainsExtend("exciting developments ", userInput, " future potential innovations", userInput);
    }
  }

  // The long canned texts are written in short pieces, starting with their first word, so that
  // the verifier can read off both ends of the text (and so see that stripping leaves it
  // unchanged) without unfolding one long literal.

  const EmptyReplyFallback: string :=
    "That's " + "an interesting question " + "about internships and " + "final year projects! "
    + "Looking at it positively, " + "both paths offer unique " + "opportunities for growth. "
    + "Internships provide " + "valuable real-world " + "experience and networking, "
    + "while final year projects " + "let you showcase your " + "expertise and innovation. "
    + "Let's explore what " + "excites you most " + "about each option!"

  const FailureFallback: string :=
    "Looking " + "at this optimistically, " + "both internships and " + "final year projects offer "
    + "amazing opportunities! " + "Would you like to explore " + "the exciting potential " + "of each path?"

  const FailureConfidence: real := 0.5

  /** The first canned text is non-empty and already stripped. */
  lemma EmptyReplyFallbackTrimmed()
    ensures EmptyReplyFallback != [] && Strip(EmptyReplyFallback) == EmptyReplyFallback
  {
    StripOfTrimmed(EmptyReplyFallback);
  }

  /** The second canned text is non-empty and already stripped. */
  lemma FailureFallbackTrimmed()
    ensures FailureFallback != [] && Strip(FailureFallback) == FailureFallback
  {
    StripOfTrimmed(FailureFallback);
  }

  /** What the optimist's collaborators did: the web search text (the search reports its own
      failures as text) and the outcome of the memory lookup plus prompt chain. */
  datatype OptimistCall = OptimistCall(search: string, reply: Reply)

  /** The text `optimistic_node` hands to `update_agent_response`: the chain's stripped reply, the
      first fixed paragraph when that is empty, the second when anything raised. */
  function HandedText(reply: Reply): (r: string)
    ensures r != [] && Strip(r) == r
    ensures reply.Ok? && !IsBlank(reply.text) ==> r == Strip(reply.text)
    ensures reply.Ok? && IsBlank(reply.text) ==> r == EmptyReplyFallback
    ensures reply.Fail? ==> r == FailureFallback
  {
    EmptyReplyFallbackTrimmed();
    FailureFallbackTrimmed();
    match reply
    case Ok(text) =>
      StripIdempotent(text);
      if Strip(text) == "" then EmptyReplyFallback else Strip(text)
    case Fail => FailureFallback
  }

  /** The confidence `optimistic_node` hands on: the heuristic's, or 0.5 when anything raised. */
  function HandedConfidence(s: TurnState, reply: Reply): (r: real)
    ensures 0.0 <= r <= 1.0
    ensures reply.Fail? ==> r == FailureConfidence
  {
    match reply
    case Ok(_) => CalculateOptimistConfidence(s.userInput, s.topicType)
    case Fail => FailureConfidence
  }

  /** `optimistic_node(state)`, given what its collaborators did. */
  function NodeResult(s: TurnState, call: OptimistCall): (r: TurnState)
    // the optimist slot always ends up answered, with the handed text and confidence ...
    ensures ResponseOf(r, Optimist) == Some(HandedText(call.reply)) && Filled(r, Optimist)
    ensures ConfidenceOf(r, Optimist) == HandedConfidence(s, call.reply)
    // ... and exactly one audit entry records them
    ensures r.conversationHistory ==
      s.conversationHistory + [ConversationEntry(Name(Optimist), HandedText(call.reply), HandedConfidence(s, call.reply))]
    // the other two slots are untouched
    ensures forall a :: a != Optimist ==> ResponseOf(r, a) == ResponseOf(s, a) && ConfidenceOf(r, a) == ConfidenceOf(s, a)
    // the rest is the copy the node starts from, with the search text recorded
    ensures Frame(r) == Frame(Copy(s).(webResults := Some(call.search)))
  {
    var st := Copy(s).(webResults := Some(call.search));
    CopyFacts(s);
    assert forall a :: ResponseOf(st, a) == ResponseOf(s, a) && ConfidenceOf(st, a) == ConfidenceOf(s, a);
    assert st.conversationHistory == s.conversationHistory;
    ApplyTrimmedResponse(st, Optimist, HandedText(call.reply), HandedConfidence(s, call.reply));
    ApplyResponse(st, Name(Optimist), HandedText(call.reply), HandedConfidence(s, call.reply))
  }

  /** The branches of `optimistic_node` that pick the text to store: the stripped reply, or a
      fallback paragraph. */
  method ChooseResponse(reply: Reply) returns (response: string)
    ensures response == HandedText(reply)
  {
    match reply {
      case Ok(text) =>
        response := Strip(text);
        if response == "" {
          response := EmptyReplyFallback;
        }
      case Fail =>
        response := FailureFallback;
    }
  }

  /** `optimistic_node` as the source writes it: copy the state, then update the copy in place. */
  method OptimisticNode(state: AgentState, call: OptimistCall) returns (next: AgentState)
    ensures fresh(next)
    ensures next.Values() == NodeResult(state.Values(), call)
  {
    next := CopyState(state);
    next.SetWebResults(Some(call.search));
    var response := ChooseResponse(call.reply);
    var confidence := if call.reply.Ok? then CalculateOptimistConfidence(state.userInput, state.topicType)
                      else FailureConfidence;
    next.UpdateAgentResponse(Name(Optimist), response, confidence);
  }
}
