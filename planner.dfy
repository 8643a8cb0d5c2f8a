/** The planning specialist (CODE/planner.py): the label check of `analyze_topic_type`, the
    fallback of `generate_expert_response`, the expert confidence heuristic, and `planner_node`,
    which writes its slot directly rather than through `update_agent_response`. The language
    model, the web search and both memories are collaborators; only their outcomes enter the
    model. */
module Planner {
  import opened Wrappers
  import opened Text
  import opened Turn

  // ---------------------------------------------------------------------------------------------
  // analyze_topic_type

  /** The tail of `analyze_topic_type`: the model's label, stripped and lowered, when it is one of
      the three known topics; `general` for any other label and when the call raised. */
  function AnalyzeTopicType(classified: Reply): (r: string)
    ensures IsValidTopic(r)
    ensures r != General ==> classified.Ok? && Lower(Strip(classified.text)) == r
    ensures classified.Ok? && Lower(Strip(classified.text)) in {Career, Education, Technical} ==> r == Lower(Strip(classified.text))
  {
    match classified
    case Ok(text) =>
      var response := Lower(Strip(text));
      if response in {Career, Education, Technical} then response else General
    case Fail => General
  }

  /** Only the label's letters matter, not their case nor the whitespace around them: a label
      that is already stripped and lowered reads the same. */
  lemma AnalyzeTopicTypeNormalForm(text: string)
    ensures AnalyzeTopicType(Ok(text)) == AnalyzeTopicType(Ok(Lower(Strip(text))))
  {
    NormalFormStable(text);
  }

  /** Stripping and lowering a label a second time changes nothing. */
  lemma NormalFormStable(text: string)
    ensures Lower(Strip(Lower(Strip(text)))) == Lower(Strip(text))
  {
    var u := Strip(text);
    var v := Lower(u);
    if v != [] {
      LowerAt(u, 0);
      LowerAt(u, |u| - 1);
      LowerCharKeepsSpace(u[0]);
      LowerCharKeepsSpace(u[|u| - 1]);
      StripOfTrimmed(v);
    }
    LowerIdempotent(u);
  }

  // ---------------------------------------------------------------------------------------------
  // generate_expert_response

  const NeedMoreInformation: string :=
    "I " + "need more information " + "to provide expert guidance. " + "Could you provide more details?"

  /** `generate_expert_response(...)`: the model's reply stripped, or a request for more detail
      when the call raised. Either way the text is its own strip. */
  function GenerateExpertResponse(reply: Reply): (r: string)
    ensures Strip(r) == r
    ensures reply.Ok? ==> r == Strip(reply.text)
    ensures reply.Fail? ==> r == NeedMoreInformation
  {
    match reply
    case Ok(text) =>
      StripIdempotent(text);
      Strip(text)
    case Fail =>
      StripOfTrimmed(NeedMoreInformation);
      NeedMoreInformation
  }

  /** The expert answer is empty exactly when the model answered with nothing but whitespace. */
  lemma ExpertResponseEmptyIff(reply: Reply)
    ensures GenerateExpertResponse(reply) == "" <==> reply.Ok? && IsBlank(reply.text)
  {
    if reply.Fail? {
      assert NeedMoreInformation[0] == 'I';
    }
  }

  // ---------------------------------------------------------------------------------------------
  // calculate_expert_confidence

  const ExpertIndicators: seq<string> := [
    "how", "compare", "difference", "best", "recommend", "explain",
    "analyze", "steps", "guide", "learn", "implement"]

  /** `topic_confidence.get(topic_type, 0.0)` */
  function TopicBase(topicType: string): (r: real)
    ensures 0.0 <= r <= 0.4
  {
    if topicType == Career then 0.3
    else if topicType == Education then 0.3
    else if topicType == Technical then 0.4
    else 0.0
  }

  /** `calculate_expert_confidence(user_input, topic_type, web_results)` */
  function CalculateExpertConfidence(userInput: string, topicType: string, webResults: string): (r: real)
    ensures 0.0 <= r <= 1.0
  {
    AtMostOne(TopicBase(topicType) + WebBonus(webResults)
      + KeywordBonus(Lower(userInput), ExpertIndicators, 0.3))
  }

  /** The input asks for expertise: some expert indicator occurs in it, lowered. */
  predicate SoundsExpert(userInput: string)
  {
    exists k :: 0 <= k < |ExpertIndicators| && Contains(Lower(userInput), ExpertIndicators[k])
  }

  /** The heuristic is the topic base, plus 0.3 when the search found any visible text, plus 0.3
      for a question asking for expertise, exactly; the cap at 1.0 never has anything to cut. */
  lemma ExpertConfidenceIsSum(userInput: string, topicType: string, webResults: string)
    ensures CalculateExpertConfidence(userInput, topicType, webResults) ==
      TopicBase(topicType) + (if IsBlank(webResults) then 0.0 else 0.3)
      + (if SoundsExpert(userInput) then 0.3 else 0.0)
  {
    ContainsAnyIff(Lower(userInput), ExpertIndicators);
  }

  /** The base is 0.4 for technical, 0.3 for career and education and 0 for any other topic. */
  lemma ExpertTopicBaseTable(topicType: string)
    ensures topicType == Career || topicType == Education ==> TopicBase(topicType) == 0.3
    ensures topicType == Technical ==> TopicBase(topicType) == 0.4
    ensures topicType !in {Career, Education, Technical} ==> TopicBase(topicType) == 0.0
  {
  }

  /** Saying more never makes the planner less confident. */
  lemma ExpertConfidenceGrowsWithInput(userInput: string, more: string, topicType: string, webResults: string)
    ensures CalculateExpertConfidence(userInput, topicType, webResults)
      <= CalculateExpertConfidence(userInput + more, topicType, webResults)
  {
    KeywordBonusGrows(userInput, more, ExpertIndicators, 0.3);
  }

  /** A search that found visible text earns exactly 0.3 more than one that found none. */
  lemma ExpertWebBonus(userInput: string, topicType: string, found: string, blank: string)
    requires !IsBlank(found) && IsBlank(blank)
    ensures CalculateExpertConfidence(userInput, topicType, found)
      == CalculateExpertConfidence(userInput, topicType, blank) + 0.3
  {
    ExpertConfidenceIsSum(userInput, topicType, found);
    ExpertConfidenceIsSum(userInput, topicType, blank);
  }

  // ---------------------------------------------------------------------------------------------
  // planner_node

  /** The query `planner_node` sends to the web search for the topic it found; every topic has one,
      and a topic outside the table gets the general query. */
  function PlannerQuery(userInput: string, topicType: string): string
  {
    if topicType == Career then "career planning methodology " + userInput + " expert advice steps timeline"
    else if topicType == Education then "learning path methodology " + userInput + " expert guidance timeline"
    else if topicType == Technical then "technical implementation guide " + userInput + " best practices timeline"
    else "step by step guide " + userInput + " methodology timeline"
  }

  /** Every planner query mentions the user's input. */
  lemma PlannerQueryMentionsInput(userInput: string, topicType: string)
    ensures Contains(PlannerQuery(userInput, topicType), userInput)
  {
    ContainsSelf(userInput);
    if topicType == Career {
      ContainsExtend("career planning methodology ", userInput, " expert advice steps timeline", userInput);
    } else if topicType == Education {
      ContainsExtend("learning path methodology ", userInput, " expert guidance timeline", userInput);
    } else if topicType == Technical {
      ContainsExtend("technical implementation guide ", userInput, " best practices timeline", userInput);
    } else {
      ContainsExtend("step by step guide ", userInput, " methodology timeline", userInput);
    }
  }

  const PlannerErrorText: string := "I " + "encountered an error while processing your request."

  const PlannerErrorConfidence: real := 0.0

  /** What the planner's collaborators did: the topic label the model gave (or its failure), the
      web search text (the search reports its own failures as text), the expert reply, and whether
      the memory lookup before it and the archival after it both went through; either of those
      raising sends the node to its error path. Saving to the conversation memory swallows its own
      errors and so does not appear. */
  datatype PlannerCall = PlannerCall(classified: Reply, search: string, reply: Reply, archived: bool)

  /** `planner_node(state)`, given what its collaborators did. */
  function NodeResult(s: TurnState, call: PlannerCall): (r: TurnState)
    // the topic is overwritten by the model's classification, and the search text recorded
    ensures r.topicType == Some(AnalyzeTopicType(call.classified)) && r.webResults == Some(call.search)
    // the slot is written directly: no audit entry, and the buffer is not refreshed
    ensures r.conversationHistory == s.conversationHistory
    ensures r.responseBuffer == Copy(s).responseBuffer
    // the expert answer and its heuristic when everything went through ...
    ensures call.archived ==>
      ResponseOf(r, Planner) == Some(GenerateExpertResponse(call.reply))
      && ConfidenceOf(r, Planner) == CalculateExpertConfidence(s.userInput, AnalyzeTopicType(call.classified), call.search)
    // ... the error text at 0.0 otherwise
    ensures !call.archived ==> ResponseOf(r, Planner) == Some(PlannerErrorText) && ConfidenceOf(r, Planner) == 0.0
    ensures 0.0 <= ConfidenceOf(r, Planner) <= 1.0
    // the other two slots are untouched
    ensures forall a :: a != Planner ==> ResponseOf(r, a) == ResponseOf(s, a) && ConfidenceOf(r, a) == ConfidenceOf(s, a)
    // the rest is the copy the node starts from
    ensures Frame(r) == Frame(Copy(s).(topicType := r.topicType, webResults := r.webResults))
  {
    var topic := AnalyzeTopicType(call.classified);
    var st := Copy(s).(topicType := Some(topic), webResults := Some(call.search));
    CopyFacts(s);
    assert forall a :: ResponseOf(st, a) == ResponseOf(s, a) && ConfidenceOf(st, a) == ConfidenceOf(s, a);
    var r := if call.archived then
        st.(plannerResponse := Some(GenerateExpertResponse(call.reply)),
            plannerConfidence := CalculateExpertConfidence(s.userInput, topic, call.search))
      else
        st.(plannerResponse := Some(PlannerErrorText), plannerConfidence := PlannerErrorConfidence);
    assert r.realistResponse == s.realistResponse && r.realistConfidence == s.realistConfidence;
    assert r.optimistResponse == s.optimistResponse && r.optimistConfidence == s.optimistConfidence;
    r
  }

  /** After the planner ran, its slot counts as answered unless the expert reply was blank: then
      the slot holds `""`, which the router reads as still unanswered. */
  lemma PlannerFilledIff(s: TurnState, call: PlannerCall)
    ensures Filled(NodeResult(s, call), Planner) <==> !(call.archived && call.reply.Ok? && IsBlank(call.reply.text))
  {
    ExpertResponseEmptyIff(call.reply);
    assert PlannerErrorText[0] == 'I';
  }

  /** `planner_node` as the source writes it: copy the state, then assign the copy's fields. */
  method PlannerNode(state: AgentState, call: PlannerCall) returns (next: AgentState)
    ensures fresh(next)
    ensures next.Values() == NodeResult(state.Values(), call)
  {
    next := CopyState(state);
    var topic := AnalyzeTopicType(call.classified);
    next.SetTopicType(Some(topic));
    next.SetWebResults(Some(call.search));
    var response := GenerateExpertResponse(call.reply);
    var confidence := CalculateExpertConfidence(state.userInput, topic, call.search);
    next.SetPlannerSlot(response, confidence);
    if !call.archived {
      next.SetPlannerSlot(PlannerErrorText, PlannerErrorConfidence);
    }
  }
}
