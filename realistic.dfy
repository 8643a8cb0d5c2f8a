/** The realistic specialist (CODE/realistic.py): its confidence heuristic, the search query it
    builds, and the way `realistic_node` fills the realist slot, sources block included. Web
    search, memory and the prompt chain are collaborators; only their outcomes enter the model. */
module Realistic {
  import opened Wrappers
  import opened Text
  import opened Turn

  const PracticalIndicators: seq<string> := [
    "how", "what steps", "practical", "realistic", "actually", "really",
    "implementation", "specific", "detail", "consider", "challenge"]

  /** `topic_confidence.get(topic_type, 0.0)` */
  function TopicBase(topicType: Option<string>): (r: real)
    ensures 0.0 <= r <= 0.3
  {
    if topicType == Some(Career) then 0.3
    else if topicType == Some(Education) then 0.3
    else if topicType == Some(Technical) then 0.2
    else 0.0
  }

  /** `calculate_realist_confidence(user_input, web_results, topic_type)` */
  function CalculateRealistConfidence(userInput: string, webResults: string, topicType: Option<string>): (r: real)
    ensures 0.0 <= r <= 1.0
  {
    AtMostOne(TopicBase(topicType) + WebBonus(webResults)
      + KeywordBonus(Lower(userInput), PracticalIndicators, 0.4))
  }

  /** The input asks for practicalities: some practical indicator occurs in it, lowered. */
  predicate SoundsPractical(userInput: string)
  {
    exists k :: 0 <= k < |PracticalIndicators| && Contains(Lower(userInput), PracticalIndicators[k])
  }

  /** The heuristic is the topic base, plus 0.3 when the search found any visible text, plus 0.4
      for a practical question, exactly; the cap at 1.0 never has anything to cut. */
  lemma RealistConfidenceIsSum(userInput: string, webResults: string, topicType: Option<string>)
    ensures CalculateRealistConfidence(userInput, webResults, topicType) ==
      TopicBase(topicType) + (if IsBlank(webResults) then 0.0 else 0.3)
      + (if SoundsPractical(userInput) then 0.4 else 0.0)
  {
    ContainsAnyIff(Lower(userInput), PracticalIndicators);
  }

  /** The base is 0.3 for career and education, 0.2 for technical and 0 for any other topic,
      `None` included. */
  lemma RealistTopicBaseTable(topicType: Option<string>)
    ensures topicType == Some(Career) || topicType == Some(Education) ==> TopicBase(topicType) == 0.3
    ensures topicType == Some(Technical) ==> TopicBase(topicType) == 0.2
    ensures topicType !in {Some(Career), Some(Education), Some(Technical)} ==> TopicBase(topicType) == 0.0
  {
  }

  /** Saying more never makes the realist less confident. */
  lemma RealistConfidenceGrowsWithInput(userInput: string, more: string, webResults: string, topicType: Option<string>)
    ensures CalculateRealistConfidence(userInput, webResults, topicType)
      <= CalculateRealistConfidence(userInput + more, webResults, topicType)
  {
    KeywordBonusGrows(userInput, more, PracticalIndicators, 0.4);
  }

  /** A search that found visible text earns exactly 0.3 more than one that found none. */
  lemma RealistWebBonus(userInput: string, found: string, blank: string, topicType: Option<string>)
    requires !IsBlank(found) && IsBlank(blank)
    ensures CalculateRealistConfidence(userInput, found, topicType)
      == CalculateRealistConfidence(userInput, blank, topicType) + 0.3
  {
    RealistConfidenceIsSum(userInput, found, topicType);
    RealistConfidenceIsSum(userInput, blank, topicType);
  }

  /** The query `realistic_node` sends to the web search for the topic it reads. */
  function RealistQuery(userInput: string, topicType: Option<string>): string
  {
    var topic := TopicOrGeneral(topicType);
    if topic == Career then "latest statistics " + userInput + " job market data practical considerations"
    else if topic == Education then "practical advice " + userInput + " student experiences requirements costs"
    else if topic == Technical then "real-world usage " + userInput + " industry adoption challenges comparison"
    else userInput
  }

  /** Every query mentions the user's input, and for a topic without a query of its own the query
      is the input itself. */
  lemma RealistQueryMentionsInput(userInput: string, topicType: Option<string>)
    ensures Contains(RealistQuery(userInput, topicType), userInput)
    ensures TopicOrGeneral(topicType) !in {Career, Education, Technical} ==> RealistQuery(userInput, topicType) == userInput
  {
    ContainsSelf(userInput);
    var topic := TopicOrGeneral(topicType);
    if topic == Career {
      ContainsExtend("latest statistics ", userInput, " job market data practical considerations", userInput);
    } else if topic == Education {
      ContainsExtend("practical advice ", userInput, " student experiences requirements costs", userInput);
    } else if topic == Technical {
      ContainsExtend("real-world usage ", userInput, " industry adoption challenges comparison", userInput);
    }
  }

  const SourcesHeading: string := "\n\n" + "Sources :" + " \n"

  const TroubleText: string := "I'm " + "having trouble processing that right now."

  const TroubleConfidence: real := 0.1

  /** `if search_result in search_result: response += f"\n\nSources : \n{search_result}"` */
  function WithSources(response: string, search: string): string
  {
    if Contains(search, search) then response + SourcesHeading + search else response
  }

  /** The guard before the sources block tests whether a string contains itself, which always
      holds: the block is appended whatever the search returned, failure texts included. */
  lemma SourcesAlwaysAppended(response: string, search: string)
    ensures WithSources(response, search) == response + SourcesHeading + search
  {
    ContainsSelf(search);
  }

  /** However the reply and the search text look, stripping a reply with its sources block appended
      keeps the words "Sources :", so the result is never blank. */
  lemma SourcesBlockSurvivesStrip(response: string, search: string)
    ensures Contains(Strip(response + SourcesHeading + search), "Sources :")
    ensures !IsBlank(response + SourcesHeading + search)
  {
    assert response + SourcesHeading + search == (response + "\n\n") + "Sources :" + (" \n" + search);
    VisiblePieceSurvivesStrip(response + "\n\n", "Sources :", " \n" + search);
  }

  /** A reply with visible text and a search text that ends in a visible character reach the
      state as the stripped reply, the heading and the search text, exactly. */
  lemma SourcesBlockKeptWhole(response: string, search: string)
    requires !IsBlank(response) && search != [] && !IsSpace(search[|search| - 1])
    ensures Strip(Strip(response) + SourcesHeading + search) == Strip(response) + SourcesHeading + search
  {
    var x := Strip(response) + SourcesHeading + search;
    assert x[0] == Strip(response)[0];
    assert x[|x| - 1] == search[|search| - 1];
    StripOfTrimmed(x);
  }

  /** What the realist's collaborators did: the web search text (the search reports its own
      failures as text) and the outcome of the memory lookup plus prompt chain. */
  datatype RealistCall = RealistCall(search: string, reply: Reply)

  /** The text `realistic_node` hands to `update_agent_response`: the chain's stripped reply with
      the sources block appended, or the fixed apology when anything raised. */
  function HandedText(call: RealistCall): (r: string)
    ensures !IsBlank(r)
    ensures call.reply.Ok? ==> r == Strip(call.reply.text) + SourcesHeading + call.search
    ensures call.reply.Ok? ==> Contains(Strip(r), "Sources :")
    ensures call.reply.Fail? ==> r == TroubleText
  {
    match call.reply
    case Ok(text) =>
      SourcesAlwaysAppended(Strip(text), call.search);
      SourcesBlockSurvivesStrip(Strip(text), call.search);
      WithSources(Strip(text), call.search)
    case Fail =>
      LastVisibleNotBlank(TroubleText);
      TroubleText
  }

  /** The confidence `realistic_node` hands on: the heuristic's on the search text, or 0.1 when
      anything raised. */
  function HandedConfidence(s: TurnState, call: RealistCall): (r: real)
    ensures 0.0 <= r <= 1.0
    ensures call.reply.Fail? ==> r == TroubleConfidence
    ensures call.reply.Ok? ==> r == CalculateRealistConfidence(s.userInput, call.search, s.topicType)
  {
    match call.reply
    case Ok(_) => CalculateRealistConfidence(s.userInput, call.search, s.topicType)
    case Fail => TroubleConfidence
  }

  /** The fixed apology is stored as it is written. */
  lemma TroubleTextTrimmed()
    ensures Strip(TroubleText) == TroubleText
  {
    StripOfTrimmed(TroubleText);
  }

  /** `realistic_node(state)`, given what its collaborators did. */
  function NodeResult(s: TurnState, call: RealistCall): (r: TurnState)
    // the realist slot always ends up answered, with the handed text stripped once more ...
    ensures ResponseOf(r, Realist) == Some(Strip(HandedText(call))) && Filled(r, Realist)
    ensures ConfidenceOf(r, Realist) == HandedConfidence(s, call)
    // ... and exactly one audit entry records them
    ensures r.conversationHistory ==
      s.conversationHistory + [ConversationEntry(Name(Realist), Strip(HandedText(call)), HandedConfidence(s, call))]
    // the other two slots are untouched
    ensures forall a :: a != Realist ==> ResponseOf(r, a) == ResponseOf(s, a) && ConfidenceOf(r, a) == ConfidenceOf(s, a)
    // the rest is the copy the node starts from, with the search text recorded
    ensures Frame(r) == Frame(Copy(s).(webResults := Some(call.search)))
  {
    var st := Copy(s).(webResults := Some(call.search));
    CopyFacts(s);
    assert forall a :: ResponseOf(st, a) == ResponseOf(s, a) && ConfidenceOf(st, a) == ConfidenceOf(s, a);
    assert st.conversationHistory == s.conversationHistory;
    ApplyVisibleResponse(st, Realist, HandedText(call), HandedConfidence(s, call));
    ApplyResponse(st, Name(Realist), HandedText(call), HandedConfidence(s, call))
  }

  /** Whatever the search and the chain did, the realist's answer in the state names its sources
      unless the node failed, in which case it is the fixed apology at 0.1. */
  lemma RealistAnswerShape(s: TurnState, call: RealistCall)
    ensures call.reply.Ok? ==>
      TextOf(NodeResult(s, call), Realist) == Strip(Strip(call.reply.text) + SourcesHeading + call.search)
    ensures call.reply.Ok? ==> Contains(TextOf(NodeResult(s, call), Realist), "Sources :")
    ensures call.reply.Fail? ==>
      TextOf(NodeResult(s, call), Realist) == TroubleText && ConfidenceOf(NodeResult(s, call), Realist) == 0.1
  {
    var r := NodeResult(s, call);
    assert TextOf(r, Realist) == Strip(HandedText(call));
    if call.reply.Ok? {
      SourcesAlwaysAppended(Strip(call.reply.text), call.search);
    }
    if call.reply.Fail? {
      assert HandedText(call) == TroubleText;
      TroubleTextTrimmed();
    }
  }

  /** `realistic_node` as the source writes it: copy the state, then update the copy in place. */
  method RealisticNode(state: AgentState, call: RealistCall) returns (next: AgentState)
    ensures fresh(next)
    ensures next.Values() == NodeResult(state.Values(), call)
  {
    next := CopyState(state);
    next.SetWebResults(Some(call.search));
    var response: string, confidence: real;
    match call.reply {
      case Ok(text) =>
        response := Strip(text);
        if Contains(call.search, call.search) {
          response := response + SourcesHeading + call.search;
        }
        confidence := CalculateRealistConfidence(state.userInput, call.search, state.topicType);
      case Fail =>
        response := TroubleText;
        confidence := TroubleConfidence;
    }
    assert response == HandedText(call);
    next.UpdateAgentResponse(Name(Realist), response, confidence);
  }
}
