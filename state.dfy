/** The per-turn state record (`AgentState` of CODE/state.py): its fields, the two pydantic
    validators that run whenever a state is built from keyword values, the in-place
    `update_agent_response`, and the pure `get_best_response`.

    The record is modelled twice: `TurnState` is its value (what `state.dict()` returns) and the
    specification functions below act on it; `AgentState` is the mutable object, and each of its
    methods is proved to change its fields exactly as the matching specification function says. */
module Turn {
  import opened Wrappers
  import opened Text

  // ---------------------------------------------------------------------------------------------
  // Names and topics

  /** The three personas that own a response slot. */
  datatype Specialist = Realist | Optimist | Planner

  /** The agent name the source uses for a persona. */
  function Name(a: Specialist): string
  {
    match a
    case Realist => "realist"
    case Optimist => "optimist"
    case Planner => "planner"
  }

  /** Distinct personas have distinct names. */
  lemma NamesDistinct()
    ensures forall a, b :: Name(a) == Name(b) ==> a == b
  {
    assert Name(Realist)[0] == 'r' && Name(Optimist)[0] == 'o' && Name(Planner)[0] == 'p';
  }

  const SystemAgent: string := "system"

  const Career: string := "career"
  const Education: string := "education"
  const Technical: string := "technical"
  const General: string := "general"

  /** The topics the state validator accepts. */
  predicate IsValidTopic(t: string)
  {
    t == Career || t == Education || t == Technical || t == General
  }

  const DefaultUserId: string := "user_001"

  // ---------------------------------------------------------------------------------------------
  // The record

  datatype ConversationEntry = ConversationEntry(agent: string, message: string, confidence: real)

  /** One key/value pair of `response_buffer`; the buffer is a dictionary, kept here as the
      sequence of its items in insertion order. */
  datatype BufferEntry = BufferEntry(agent: string, text: string)

  datatype TurnState = TurnState(
    userInput: string,
    activeAgent: Option<string>,
    finalResponse: Option<string>,
    realistResponse: Option<string>,
    optimistResponse: Option<string>,
    plannerResponse: Option<string>,
    realistConfidence: real,
    optimistConfidence: real,
    plannerConfidence: real,
    topicType: Option<string>,
    webResults: Option<string>,
    responseBuffer: seq<BufferEntry>,
    conversationHistory: seq<ConversationEntry>,
    userId: string,
    sessionId: Option<string>)

  /** Python truthiness of an optional string: present and not empty. */
  predicate Truthy(o: Option<string>)
  {
    o.Some? && o.value != ""
  }

  function ResponseOf(s: TurnState, a: Specialist): Option<string>
  {
    match a
    case Realist => s.realistResponse
    case Optimist => s.optimistResponse
    case Planner => s.plannerResponse
  }

  function ConfidenceOf(s: TurnState, a: Specialist): real
  {
    match a
    case Realist => s.realistConfidence
    case Optimist => s.optimistConfidence
    case Planner => s.plannerConfidence
  }

  /** `self.<agent>_response or ""` */
  function TextOf(s: TurnState, a: Specialist): string
  {
    var r := ResponseOf(s, a);
    if r.Some? then r.value else ""
  }

  /** A slot counts as answered when its response is truthy. */
  predicate Filled(s: TurnState, a: Specialist)
  {
    Truthy(ResponseOf(s, a))
  }

  /** All three slots are answered. */
  predicate AllAnswered(s: TurnState)
  {
    Filled(s, Realist) && Filled(s, Optimist) && Filled(s, Planner)
  }

  /** The number of slots still unanswered. */
  function EmptySlots(s: TurnState): (r: nat)
    ensures r <= 3
  {
    (if Filled(s, Realist) then 0 else 1)
    + (if Filled(s, Optimist) then 0 else 1)
    + (if Filled(s, Planner) then 0 else 1)
  }

  /** The part of the state a specialist's answer leaves alone: everything but the three slots,
      their confidences and the history. */
  function Frame(s: TurnState): TurnState
  {
    s.(realistResponse := None, optimistResponse := None, plannerResponse := None,
       realistConfidence := 0.0, optimistConfidence := 0.0, plannerConfidence := 0.0,
       conversationHistory := [])
  }

  // ---------------------------------------------------------------------------------------------
  // update_agent_response

  /** `max(0.0, min(1.0, c))` */
  function Clamp(c: real): (r: real)
    ensures 0.0 <= r <= 1.0
    ensures 0.0 <= c <= 1.0 ==> r == c
    ensures c < 0.0 ==> r == 0.0
    ensures 1.0 < c ==> r == 1.0
  {
    var m := if c < 1.0 then c else 1.0;
    if 0.0 < m then m else 0.0
  }

  /** `min(confidence, 1.0)`, the cap each specialist's heuristic applies last. */
  function AtMostOne(c: real): (r: real)
    ensures r <= 1.0 && (r == c || r == 1.0)
    ensures 0.0 <= c ==> 0.0 <= r
  {
    if 1.0 < c then 1.0 else c
  }

  /** One keyword bonus of a heuristic: `amount` when the lowered input contains one of the
      words (`any(indicator in user_input.lower() for indicator in words)`), nothing otherwise. */
  function KeywordBonus(lowered: string, words: seq<string>, amount: real): (r: real)
    ensures r == 0.0 || r == amount
  {
    if ContainsAny(lowered, words) then amount else 0.0
  }

  /** The web bonus of the realist's and the planner's heuristics: 0.3 when
      `web_results and len(web_results.strip()) > 0`, nothing otherwise. */
  function WebBonus(webResults: string): (r: real)
    ensures r == 0.3 <==> !IsBlank(webResults)
    ensures r == 0.0 <==> IsBlank(webResults)
  {
    if IsBlank(webResults) then 0.0 else 0.3
  }

  /** `state.topic_type or "general"`: an absent or empty topic reads as the general one. */
  function TopicOrGeneral(topicType: Option<string>): (r: string)
    ensures r != ""
    ensures topicType.Some? && topicType.value != "" ==> r == topicType.value
  {
    if topicType.Some? && topicType.value != "" then topicType.value else General
  }

  /** A keyword bonus, once earned, survives text appended to the input. */
  lemma KeywordBonusGrows(userInput: string, more: string, words: seq<string>, amount: real)
    requires 0.0 <= amount
    ensures KeywordBonus(Lower(userInput), words, amount) <= KeywordBonus(Lower(userInput + more), words, amount)
  {
    LowerAppend(userInput, more);
    assert Lower(userInput + more) == [] + Lower(userInput) + Lower(more);
    if ContainsAny(Lower(userInput), words) {
      ContainsAnyExtend([], Lower(userInput), Lower(more), words);
    }
  }

  /** The slot `update_agent_response` writes for an agent name; an unknown name writes none. */
  function SetSlot(s: TurnState, agentType: string, text: string, c: real): TurnState
  {
    if agentType == "realist" then s.(realistResponse := Some(text), realistConfidence := c)
    else if agentType == "optimist" then s.(optimistResponse := Some(text), optimistConfidence := c)
    else if agentType == "planner" then s.(plannerResponse := Some(text), plannerConfidence := c)
    else s
  }

  /** What `update_agent_response(agentType, response, confidence)` does to the state. */
  function ApplyResponse(s: TurnState, agentType: string, response: string, confidence: real): TurnState
  {
    if response == "" then s
    else
      var text := Strip(response);
      var c := Clamp(confidence);
      SetSlot(s, agentType, text, c).(conversationHistory := s.conversationHistory + [ConversationEntry(agentType, text, c)])
  }

  /** `SetSlot` writes exactly the named persona's response and confidence. */
  lemma SetSlotFacts(s: TurnState, agentType: string, text: string, c: real)
    ensures var r := SetSlot(s, agentType, text, c);
      && (forall a :: ResponseOf(r, a) == if agentType == Name(a) then Some(text) else ResponseOf(s, a))
      && (forall a :: ConfidenceOf(r, a) == if agentType == Name(a) then c else ConfidenceOf(s, a))
      && Frame(r) == Frame(s)
  {
    NamesDistinct();
    var r := SetSlot(s, agentType, text, c);
    forall a
      ensures ResponseOf(r, a) == (if agentType == Name(a) then Some(text) else ResponseOf(s, a))
      ensures ConfidenceOf(r, a) == (if agentType == Name(a) then c else ConfidenceOf(s, a))
    {
      match a
      case Realist =>
      case Optimist =>
      case Planner =>
    }
  }

  /** What `update_agent_response` promises: an empty response changes nothing; otherwise one
      audit entry holding the stripped text and the clamped confidence is appended, and only the
      named persona's slot changes (an unknown name changes no slot). */
  lemma ApplyResponseFacts(s: TurnState, agentType: string, response: string, confidence: real)
    ensures var r := ApplyResponse(s, agentType, response, confidence);
      && (response == "" ==> r == s)
      && (response != "" ==>
            r.conversationHistory == s.conversationHistory + [ConversationEntry(agentType, Strip(response), Clamp(confidence))])
      && (forall a :: ResponseOf(r, a) ==
            if response != "" && agentType == Name(a) then Some(Strip(response)) else ResponseOf(s, a))
      && (forall a :: ConfidenceOf(r, a) ==
            if response != "" && agentType == Name(a) then Clamp(confidence) else ConfidenceOf(s, a))
      && Frame(r) == Frame(s)
  {
    if response != "" {
      SetSlotFacts(s, agentType, Strip(response), Clamp(confidence));
    }
  }

  /** Handing a persona an already stripped, non-empty text with an in-range confidence stores
      exactly that text and confidence in its slot and in one new audit entry. */
  lemma ApplyTrimmedResponse(s: TurnState, a: Specialist, text: string, confidence: real)
    requires text != [] && Strip(text) == text && 0.0 <= confidence <= 1.0
    ensures var r := ApplyResponse(s, Name(a), text, confidence);
      && ResponseOf(r, a) == Some(text) && ConfidenceOf(r, a) == confidence
      && r.conversationHistory == s.conversationHistory + [ConversationEntry(Name(a), text, confidence)]
      && (forall b :: b != a ==> ResponseOf(r, b) == ResponseOf(s, b) && ConfidenceOf(r, b) == ConfidenceOf(s, b))
      && Frame(r) == Frame(s)
  {
    ApplyResponseFacts(s, Name(a), text, confidence);
    NamesDistinct();
  }

  /** Handing a persona a text that is not blank, with an in-range confidence, stores the text
      stripped, and that confidence, in its slot and in one new audit entry; the slot is then
      answered. */
  lemma ApplyVisibleResponse(s: TurnState, a: Specialist, text: string, confidence: real)
    requires !IsBlank(text) && 0.0 <= confidence <= 1.0
    ensures var r := ApplyResponse(s, Name(a), text, confidence);
      && ResponseOf(r, a) == Some(Strip(text)) && Filled(r, a) && ConfidenceOf(r, a) == confidence
      && r.conversationHistory == s.conversationHistory + [ConversationEntry(Name(a), Strip(text), confidence)]
      && (forall b :: b != a ==> ResponseOf(r, b) == ResponseOf(s, b) && ConfidenceOf(r, b) == ConfidenceOf(s, b))
      && Frame(r) == Frame(s)
  {
    assert text != [];
    ApplyResponseFacts(s, Name(a), text, confidence);
    NamesDistinct();
  }

  /** Every confidence `update_agent_response` records lies in [0, 1], whatever it was given. */
  lemma {:induction false} ApplyResponseKeepsHistoryInRange(s: TurnState, agentType: string, response: string, confidence: real)
    requires forall k :: 0 <= k < |s.conversationHistory| ==> 0.0 <= s.conversationHistory[k].confidence <= 1.0
    ensures var r := ApplyResponse(s, agentType, response, confidence);
      forall k :: 0 <= k < |r.conversationHistory| ==> 0.0 <= r.conversationHistory[k].confidence <= 1.0
  {
    var r := ApplyResponse(s, agentType, response, confidence);
    ApplyResponseFacts(s, agentType, response, confidence);
    if response != "" {
      assert forall k :: 0 <= k < |s.conversationHistory| ==> r.conversationHistory[k] == s.conversationHistory[k];
      assert r.conversationHistory[|s.conversationHistory|].confidence == Clamp(confidence);
    }
  }

  // ---------------------------------------------------------------------------------------------
  // get_best_response

  const NoAnswerPlaceholder: string :=
    "I'm here with " + "my colleagues to help you " + "make the best decision. " + "Could you tell us more "
    + "about what you're considering?"

  /** Iteration order of the source's `confidences` dictionary, which decides ties. */
  function Rank(a: Specialist): nat
  {
    match a
    case Realist => 0
    case Optimist => 1
    case Planner => 2
  }

  /** Python's `max(agents, key=confidence)`: the first agent whose confidence is largest. */
  function MaxByConfidence(s: TurnState, agents: seq<Specialist>): (b: Specialist)
    requires |agents| > 0
    ensures b in agents
    ensures forall a :: a in agents ==> ConfidenceOf(s, a) <= ConfidenceOf(s, b)
    ensures exists j :: (0 <= j < |agents| && agents[j] == b &&
      forall i :: 0 <= i < j ==> ConfidenceOf(s, agents[i]) < ConfidenceOf(s, b))
    decreases |agents|
  {
    if |agents| == 1 then
      assert agents[0] == agents[0];
      agents[0]
    else
      var rest := MaxByConfidence(s, agents[1..]);
      if ConfidenceOf(s, rest) > ConfidenceOf(s, agents[0]) then
        var j :| 0 <= j < |agents[1..]| && agents[1..][j] == rest &&
          forall i :: 0 <= i < j ==> ConfidenceOf(s, agents[1..][i]) < ConfidenceOf(s, rest);
        assert agents[j + 1] == rest;
        assert forall i :: 1 <= i < j + 1 ==> agents[i] == agents[1..][i - 1];
        rest
      else
        assert agents[0] == agents[0];
        agents[0]
  }

  /** The agents with a non-empty response, in `Rank` order. */
  function Answered(s: TurnState): seq<Specialist>
  {
    (if TextOf(s, Realist) != "" then [Realist] else [])
    + (if TextOf(s, Optimist) != "" then [Optimist] else [])
    + (if TextOf(s, Planner) != "" then [Planner] else [])
  }

  /** The persona `get_best_response()` picks: an answered one of highest confidence, ties going
      to the earlier persona in the order realist, optimist, planner; none when nobody answered. */
  function BestAgent(s: TurnState): (r: Option<Specialist>)
    ensures r.None? <==> forall a :: TextOf(s, a) == ""
    ensures r.Some? ==> TextOf(s, r.value) != ""
    ensures r.Some? ==> forall a :: TextOf(s, a) != "" ==> ConfidenceOf(s, a) <= ConfidenceOf(s, r.value)
    ensures r.Some? ==> forall a :: TextOf(s, a) != "" && Rank(a) < Rank(r.value) ==> ConfidenceOf(s, a) < ConfidenceOf(s, r.value)
  {
    var valid := Answered(s);
    AnsweredFacts(s);
    if valid == [] then
      None
    else
      var b := MaxByConfidence(s, valid);
      BestAmongAnswered(s, valid, b);
      Some(b)
  }

  /** The first maximum of a list sorted by rank, such as `Answered(s)`, beats every persona of
      the list of smaller rank. */
  lemma BestAmongAnswered(s: TurnState, valid: seq<Specialist>, b: Specialist)
    requires valid != [] && b == MaxByConfidence(s, valid)
    requires forall i, k :: 0 <= i < k < |valid| ==> Rank(valid[i]) < Rank(valid[k])
    ensures forall a :: a in valid && Rank(a) < Rank(b) ==> ConfidenceOf(s, a) < ConfidenceOf(s, b)
  {
    var j :| 0 <= j < |valid| && valid[j] == b &&
      forall i :: 0 <= i < j ==> ConfidenceOf(s, valid[i]) < ConfidenceOf(s, b);
    FirstMaxBeatsEarlier(s, valid, b, j);
  }

  /** In a list sorted by rank, an item that beats every item before it beats every item of
      smaller rank. */
  lemma FirstMaxBeatsEarlier(s: TurnState, valid: seq<Specialist>, b: Specialist, j: nat)
    requires j < |valid| && valid[j] == b
    requires forall i :: 0 <= i < j ==> ConfidenceOf(s, valid[i]) < ConfidenceOf(s, b)
    requires forall i, k :: 0 <= i < k < |valid| ==> Rank(valid[i]) < Rank(valid[k])
    ensures forall a :: a in valid && Rank(a) < Rank(b) ==> ConfidenceOf(s, a) < ConfidenceOf(s, b)
  {
    EarlierRankEarlierIndex(valid, b, j);
    forall a | a in valid && Rank(a) < Rank(b) ensures ConfidenceOf(s, a) < ConfidenceOf(s, b) {
      var i :| 0 <= i < j && valid[i] == a;
    }
  }

  /** `get_best_response()`: the best persona's name and text, or a fixed system placeholder when
      nobody answered. */
  function GetBestResponse(s: TurnState): (r: (string, string))
    ensures (forall a :: TextOf(s, a) == "") ==> r == (SystemAgent, NoAnswerPlaceholder)
    ensures BestAgent(s).Some? ==> r == (Name(BestAgent(s).value), TextOf(s, BestAgent(s).value))
  {
    match BestAgent(s)
    case None => (SystemAgent, NoAnswerPlaceholder)
    case Some(b) => (Name(b), TextOf(s, b))
  }

  lemma AnsweredFacts(s: TurnState)
    ensures forall a :: TextOf(s, a) != "" <==> a in Answered(s)
    ensures forall i, k :: 0 <= i < k < |Answered(s)| ==> Rank(Answered(s)[i]) < Rank(Answered(s)[k])
  {
  }

  /** In a list sorted by strictly increasing rank, an element of smaller rank than `valid[j]`
      sits before index `j`. */
  lemma EarlierRankEarlierIndex(valid: seq<Specialist>, b: Specialist, j: nat)
    requires j < |valid| && valid[j] == b
    requires forall i, k :: 0 <= i < k < |valid| ==> Rank(valid[i]) < Rank(valid[k])
    ensures forall a :: a in valid && Rank(a) < Rank(b) ==> exists i :: 0 <= i < j && valid[i] == a
  {
    forall a | a in valid && Rank(a) < Rank(b) ensures exists i :: 0 <= i < j && valid[i] == a {
      var i :| 0 <= i < |valid| && valid[i] == a;
    }
  }

  // ---------------------------------------------------------------------------------------------
  // update_response_buffer (the `mode='after'` validator)

  predicate HasKey(buffer: seq<BufferEntry>, key: string)
  {
    exists e :: e in buffer && e.agent == key
  }

  /** The value stored under `key`. */
  function Lookup(buffer: seq<BufferEntry>, key: string): (r: Option<string>)
    ensures r.Some? <==> HasKey(buffer, key)
  {
    if buffer == [] then None
    else if buffer[0].agent == key then Some(buffer[0].text)
    else
      assert forall e :: e in buffer ==> e == buffer[0] || e in buffer[1..];
      Lookup(buffer[1..], key)
  }

  /** A buffer is a dictionary: no key twice. */
  predicate DistinctKeys(buffer: seq<BufferEntry>)
  {
    forall i, j :: 0 <= i < j < |buffer| ==> buffer[i].agent != buffer[j].agent
  }

  /** Insert `key: text` when the response is truthy and the key is not there yet. */
  function AddFirst(buffer: seq<BufferEntry>, key: string, response: Option<string>): seq<BufferEntry>
  {
    if Truthy(response) && !HasKey(buffer, key) then buffer + [BufferEntry(key, response.value)] else buffer
  }

  /** What `update_response_buffer` does: optimist, then realist, then planner. */
  function FillBuffer(s: TurnState): (r: TurnState)
    // only the buffer changes
    ensures r == s.(responseBuffer := r.responseBuffer)
    // first write wins: every existing entry stays, in place
    ensures s.responseBuffer <= r.responseBuffer
    // a key is present afterwards iff it was before or its slot holds a non-empty response
    ensures forall a :: HasKey(r.responseBuffer, Name(a)) <==> HasKey(s.responseBuffer, Name(a)) || Filled(s, a)
    // a newly added key holds that slot's response
    ensures forall a :: !HasKey(s.responseBuffer, Name(a)) && Filled(s, a) ==>
      Lookup(r.responseBuffer, Name(a)) == ResponseOf(s, a)
    // the keys stay distinct
    ensures DistinctKeys(s.responseBuffer) ==> DistinctKeys(r.responseBuffer)
  {
    FillBufferSteps(s);
    s.(responseBuffer := FillSteps(s).2)
  }

  /** The entry `update_response_buffer` appends for `a`: one when its slot is answered and its key
      is not in the buffer yet, none otherwise. */
  function Added(s: TurnState, a: Specialist): seq<BufferEntry>
  {
    if Filled(s, a) && !HasKey(s.responseBuffer, Name(a)) then [BufferEntry(Name(a), ResponseOf(s, a).value)] else []
  }

  /** The buffer `update_response_buffer` leaves is the old one followed by exactly the entries of
      the answered slots whose keys were missing, optimist, then realist, then planner: nothing
      else is appended and nothing is reordered. */
  lemma FillBufferAppends(s: TurnState)
    ensures FillBuffer(s).responseBuffer == s.responseBuffer + Added(s, Optimist) + Added(s, Realist) + Added(s, Planner)
  {
    var b0 := s.responseBuffer;
    var (b1, b2, b3) := FillSteps(s);
    AddFirstFacts(b0, "optimist", s.optimistResponse);
    AddFirstFacts(b1, "realist", s.realistResponse);
    assert b1 == b0 + Added(s, Optimist);
    assert b2 == b1 + Added(s, Realist);
    assert b3 == b2 + Added(s, Planner);
  }

  /** The three insertions `update_response_buffer` makes, one per persona. */
  function FillSteps(s: TurnState): (b: (seq<BufferEntry>, seq<BufferEntry>, seq<BufferEntry>))
  {
    var b1 := AddFirst(s.responseBuffer, "optimist", s.optimistResponse);
    var b2 := AddFirst(b1, "realist", s.realistResponse);
    var b3 := AddFirst(b2, "planner", s.plannerResponse);
    (b1, b2, b3)
  }

  lemma FillBufferSteps(s: TurnState)
    ensures var b3 := FillSteps(s).2;
      && s.responseBuffer <= b3
      && (forall a :: HasKey(b3, Name(a)) <==> HasKey(s.responseBuffer, Name(a)) || Filled(s, a))
      && (forall a :: !HasKey(s.responseBuffer, Name(a)) && Filled(s, a) ==> Lookup(b3, Name(a)) == ResponseOf(s, a))
      && (DistinctKeys(s.responseBuffer) ==> DistinctKeys(b3))
  {
    var b0 := s.responseBuffer;
    var (b1, b2, b3) := FillSteps(s);
    AddFirstFacts(b0, "optimist", s.optimistResponse);
    AddFirstFacts(b1, "realist", s.realistResponse);
    AddFirstFacts(b2, "planner", s.plannerResponse);
    FillBufferKeys(s);
    FillBufferLookups(s);
  }

  lemma FillBufferKeys(s: TurnState)
    ensures forall a :: HasKey(FillSteps(s).2, Name(a)) <==> HasKey(s.responseBuffer, Name(a)) || Filled(s, a)
  {
    var b0 := s.responseBuffer;
    var (b1, b2, b3) := FillSteps(s);
    AddFirstFacts(b0, "optimist", s.optimistResponse);
    AddFirstFacts(b1, "realist", s.realistResponse);
    AddFirstFacts(b2, "planner", s.plannerResponse);
    forall a ensures HasKey(b3, Name(a)) <==> HasKey(b0, Name(a)) || Filled(s, a) {
      match a
      case Optimist =>
        assert HasKey(b1, "optimist") <==> HasKey(b0, "optimist") || Truthy(s.optimistResponse);
      case Realist =>
        assert HasKey(b1, "realist") <==> HasKey(b0, "realist");
      case Planner =>
        assert HasKey(b2, "planner") <==> HasKey(b0, "planner");
    }
  }

  lemma FillBufferLookups(s: TurnState)
    ensures forall a :: !HasKey(s.responseBuffer, Name(a)) && Filled(s, a) ==>
      Lookup(FillSteps(s).2, Name(a)) == ResponseOf(s, a)
  {
    forall a | !HasKey(s.responseBuffer, Name(a)) && Filled(s, a)
      ensures Lookup(FillSteps(s).2, Name(a)) == ResponseOf(s, a)
    {
      FillBufferLookup(s, a);
    }
  }

  lemma FillBufferLookup(s: TurnState, a: Specialist)
    requires !HasKey(s.responseBuffer, Name(a)) && Filled(s, a)
    ensures Lookup(FillSteps(s).2, Name(a)) == ResponseOf(s, a)
  {
    var b0 := s.responseBuffer;
    var (b1, b2, b3) := FillSteps(s);
    match a
    case Optimist =>
      AddFirstFacts(b0, "optimist", s.optimistResponse);
      AddFirstFacts(b1, "realist", s.realistResponse);
      AddFirstFacts(b2, "planner", s.plannerResponse);
      LookupPrefix(b1, b3, "optimist");
    case Realist =>
      AddFirstFacts(b0, "optimist", s.optimistResponse);
      AddFirstFacts(b1, "realist", s.realistResponse);
      AddFirstFacts(b2, "planner", s.plannerResponse);
      assert !HasKey(b1, "realist");
      LookupPrefix(b2, b3, "realist");
    case Planner =>
      AddFirstFacts(b0, "optimist", s.optimistResponse);
      AddFirstFacts(b1, "realist", s.realistResponse);
      AddFirstFacts(b2, "planner", s.plannerResponse);
      assert !HasKey(b2, "planner");
  }

  lemma AddFirstFacts(buffer: seq<BufferEntry>, key: string, response: Option<string>)
    ensures var b := AddFirst(buffer, key, response);
      && buffer <= b
      && (HasKey(b, key) <==> HasKey(buffer, key) || Truthy(response))
      && (forall k :: k != key ==> (HasKey(b, k) <==> HasKey(buffer, k)))
      && (!HasKey(buffer, key) && Truthy(response) ==> Lookup(b, key) == response)
      && (DistinctKeys(buffer) ==> DistinctKeys(b))
  {
    var b := AddFirst(buffer, key, response);
    if Truthy(response) && !HasKey(buffer, key) {
      var e := BufferEntry(key, response.value);
      assert b == buffer + [e];
      assert forall x :: x in b <==> x in buffer || x == e;
      assert e in b;
      LookupAppendNew(buffer, e);
      if DistinctKeys(buffer) {
        forall i, j | 0 <= i < j < |b| ensures b[i].agent != b[j].agent {
          if j == |buffer| { assert b[i] in buffer; }
        }
      }
    }
  }

  lemma {:induction false} LookupAppendNew(buffer: seq<BufferEntry>, e: BufferEntry)
    requires !HasKey(buffer, e.agent)
    ensures Lookup(buffer + [e], e.agent) == Some(e.text)
    decreases |buffer|
  {
    if buffer == [] {
      assert buffer + [e] == [e];
    } else {
      assert buffer[0] in buffer;
      assert (buffer + [e])[1..] == buffer[1..] + [e];
      assert forall x :: x in buffer[1..] ==> x in buffer;
      LookupAppendNew(buffer[1..], e);
    }
  }

  /** Appending to a buffer never changes what an existing key maps to. */
  lemma {:induction false} LookupPrefix(b: seq<BufferEntry>, c: seq<BufferEntry>, key: string)
    requires b <= c && HasKey(b, key)
    ensures Lookup(c, key) == Lookup(b, key)
    decreases |b|
  {
    assert b[0] == c[0];
    if b[0].agent != key {
      assert b[1..] <= c[1..];
      assert forall x :: x in b ==> x == b[0] || x in b[1..];
      LookupPrefix(b[1..], c[1..], key);
    }
  }

  /** Running the buffer validator a second time changes nothing. */
  lemma FillBufferIdempotent(s: TurnState)
    ensures FillBuffer(FillBuffer(s)) == FillBuffer(s)
  {
    var t := FillBuffer(s);
    assert forall a :: Filled(t, a) ==> HasKey(t.responseBuffer, Name(a)) by {
      forall a ensures Filled(t, a) ==> HasKey(t.responseBuffer, Name(a)) {
        assert ResponseOf(t, a) == ResponseOf(s, a);
      }
    }
    assert HasKey(t.responseBuffer, "optimist") || !Truthy(t.optimistResponse) by {
      assert Filled(t, Optimist) == Truthy(t.optimistResponse);
    }
    assert HasKey(t.responseBuffer, "realist") || !Truthy(t.realistResponse) by {
      assert Filled(t, Realist) == Truthy(t.realistResponse);
    }
    assert HasKey(t.responseBuffer, "planner") || !Truthy(t.plannerResponse) by {
      assert Filled(t, Planner) == Truthy(t.plannerResponse);
    }
  }

  // ---------------------------------------------------------------------------------------------
  // validate_state (the `mode='before'` validator) and construction from keyword values

  /** A value given for a `float` field: `float(x)` either succeeds or raises. Which texts
      `float` accepts is not modelled. */
  datatype RawConfidence = Numeric(r: real) | NotNumeric

  /** One item of a `conversation_history` value: a dictionary with the entry's keys
      (`confidence` possibly missing), or anything else. */
  datatype RawEntry = EntryDict(agent: string, message: string, confidence: Field<RawConfidence>) | NotADict

  datatype RawHistory = HistoryList(items: seq<RawEntry>) | NotAList

  /** The keyword values a state is built from (`AgentState(**values)`); `Absent` is a key that
      was not passed. */
  datatype StateValues = StateValues(
    userInput: Field<Option<string>>,
    activeAgent: Field<Option<string>>,
    finalResponse: Field<Option<string>>,
    realistResponse: Field<Option<string>>,
    optimistResponse: Field<Option<string>>,
    plannerResponse: Field<Option<string>>,
    realistConfidence: Field<RawConfidence>,
    optimistConfidence: Field<RawConfidence>,
    plannerConfidence: Field<RawConfidence>,
    topicType: Field<Option<string>>,
    webResults: Field<Option<string>>,
    responseBuffer: Field<seq<BufferEntry>>,
    conversationHistory: Field<RawHistory>,
    userId: Field<string>,
    sessionId: Field<Option<string>>)

  /** Error raised while validating: the history entry at `index` had an unconvertible confidence. */
  datatype ValidationError = BadHistoryConfidence(index: nat)

  /** The state that `AgentState()` builds from no values at all. */
  const NoValues: StateValues := StateValues(
    Absent, Absent, Absent, Absent, Absent, Absent, Absent, Absent, Absent,
    Absent, Absent, Absent, Absent, Absent, Absent)

  /** `str(x) if x is not None else ""` for a string value. */
  function UserInputText(x: Option<string>): string
  {
    if x.Some? then x.value else ""
  }

  /** The `float(...)` step for one confidence key; an unconvertible value becomes 0.0. */
  function NormalizeConfidence(f: Field<RawConfidence>): (r: Field<RawConfidence>)
    ensures f.Absent? <==> r.Absent?
    ensures r.Given? ==> r.value.Numeric?
    ensures f == Given(NotNumeric) ==> r == Given(Numeric(0.0))
    ensures f.Given? && f.value.Numeric? ==> r == f
  {
    match f
    case Absent => Absent
    case Given(NotNumeric) => Given(Numeric(0.0))
    case Given(Numeric(c)) => Given(Numeric(c))
  }

  /** The set of accepted topics, with anything else (including `None`) mapped to `general`. */
  function NormalizeTopic(t: Option<string>): (r: Option<string>)
    ensures r.Some? && IsValidTopic(r.value)
    ensures t.Some? && IsValidTopic(t.value) ==> r == t
    ensures !(t.Some? && IsValidTopic(t.value)) ==> r == Some(General)
  {
    if t.Some? && IsValidTopic(t.value) then t else Some(General)
  }

  /** The loop over the history entries: dictionaries get their confidence converted
      (missing means 0.0), anything else is dropped; an unconvertible confidence raises. */
  function NormalizeHistory(items: seq<RawEntry>): Result<seq<RawEntry>, ValidationError>
    decreases |items|
  {
    if items == [] then Success([])
    else
      var last := |items| - 1;
      match NormalizeHistory(items[..last])
      case Failure(e) => Failure(e)
      case Success(done) =>
        match items[last]
        case NotADict => Success(done)
        case EntryDict(agent, message, conf) =>
          match conf
          case Absent => Success(done + [EntryDict(agent, message, Given(Numeric(0.0)))])
          case Given(Numeric(c)) => Success(done + [EntryDict(agent, message, Given(Numeric(c)))])
          case Given(NotNumeric) => Failure(BadHistoryConfidence(last))
  }

  predicate IsBadEntry(e: RawEntry)
  {
    e.EntryDict? && e.confidence == Given(NotNumeric)
  }

  /** The history loop raises exactly when some dictionary entry has an unconvertible confidence,
      and it reports the first such entry. */
  lemma {:induction false} NormalizeHistoryFailsIff(items: seq<RawEntry>)
    ensures NormalizeHistory(items).Failure? <==> exists i :: 0 <= i < |items| && IsBadEntry(items[i])
    ensures NormalizeHistory(items).Failure? ==>
      var i := NormalizeHistory(items).error.index;
      i < |items| && IsBadEntry(items[i]) && forall k :: 0 <= k < i ==> !IsBadEntry(items[k])
    decreases |items|
  {
    if items != [] {
      var last := |items| - 1;
      NormalizeHistoryFailsIff(items[..last]);
      assert forall k :: 0 <= k < last ==> items[..last][k] == items[k];
    }
  }

  /** Once the loop has raised on a prefix it raises with the same error on the whole list. */
  lemma {:induction false} NormalizeHistoryFailurePersists(items: seq<RawEntry>, n: nat)
    requires n <= |items| && NormalizeHistory(items[..n]).Failure?
    ensures NormalizeHistory(items) == NormalizeHistory(items[..n])
    decreases |items| - n
  {
    if n < |items| {
      var m := n + 1;
      assert items[..m][..n] == items[..n];
      NormalizeHistoryFailurePersists(items, m);
    } else {
      assert items[..n] == items;
    }
  }

  /** `validate_state(values)`: the fixed-up keyword values, or the error it raises. */
  function Validated(values: StateValues): (r: Result<StateValues, ValidationError>)
  {
    var v1 := values.(
      userInput := if values.userInput.Given? then Given(Some(UserInputText(values.userInput.value))) else Absent,
      realistConfidence := NormalizeConfidence(values.realistConfidence),
      optimistConfidence := NormalizeConfidence(values.optimistConfidence),
      plannerConfidence := NormalizeConfidence(values.plannerConfidence));
    var history: Result<Field<RawHistory>, ValidationError> :=
      match values.conversationHistory
      case Absent => Success(Absent)
      case Given(NotAList) => Success(Given(HistoryList([])))
      case Given(HistoryList(items)) =>
        match NormalizeHistory(items)
        case Failure(e) => Failure(e)
        case Success(h) => Success(Given(HistoryList(h)));
    match history
    case Failure(e) => Failure(e)
    case Success(h) =>
      Success(v1.(
        conversationHistory := h,
        topicType := if values.topicType.Given? then Given(NormalizeTopic(values.topicType.value)) else Absent))
  }

  /** What `validate_state` promises about a present `topic_type`, `user_input` and confidence. */
  lemma ValidatedNormalizes(values: StateValues)
    requires Validated(values).Success?
    ensures var v := Validated(values).value;
      && (values.topicType.Given? ==> v.topicType.Given? && v.topicType.value.Some? && IsValidTopic(v.topicType.value.value))
      && (values.topicType == Given(None) ==> v.topicType == Given(Some(General)))
      && (values.userInput == Given(None) ==> v.userInput == Given(Some("")))
      && (values.realistConfidence == Given(NotNumeric) ==> v.realistConfidence == Given(Numeric(0.0)))
      && (values.optimistConfidence == Given(NotNumeric) ==> v.optimistConfidence == Given(Numeric(0.0)))
      && (values.plannerConfidence == Given(NotNumeric) ==> v.plannerConfidence == Given(Numeric(0.0)))
      && v.responseBuffer == values.responseBuffer
      && v.activeAgent == values.activeAgent
  {
  }

  /** The only way validation fails is a history entry whose confidence cannot be converted. */
  lemma ValidatedFailsIff(values: StateValues)
    ensures Validated(values).Failure? <==>
      exists items :: values.conversationHistory == Given(HistoryList(items))
        && exists i :: 0 <= i < |items| && IsBadEntry(items[i])
  {
    if values.conversationHistory.Given? && values.conversationHistory.value.HistoryList? {
      NormalizeHistoryFailsIff(values.conversationHistory.value.items);
    }
  }

  /** `validate_state` as the source writes it: a sequence of in-place rewrites of `values`,
      with a loop over the history entries. */
  method ValidateState(values: StateValues) returns (r: Result<StateValues, ValidationError>)
    ensures r == Validated(values)
  {
    var v := values;
    if v.userInput.Given? {
      v := v.(userInput := Given(Some(UserInputText(v.userInput.value))));
    }
    v := v.(realistConfidence := NormalizeConfidence(v.realistConfidence));
    v := v.(optimistConfidence := NormalizeConfidence(v.optimistConfidence));
    v := v.(plannerConfidence := NormalizeConfidence(v.plannerConfidence));
    if v.conversationHistory.Given? {
      match v.conversationHistory.value
      case NotAList =>
        v := v.(conversationHistory := Given(HistoryList([])));
      case HistoryList(items) =>
        var history: seq<RawEntry> := [];
        var i := 0;
        while i < |items|
          invariant 0 <= i <= |items|
          invariant NormalizeHistory(items[..i]) == Success(history)
        {
          assert items[..i + 1][..i] == items[..i];
          match items[i] {
            case NotADict =>
            case EntryDict(agent, message, conf) =>
              var c: real;
              match conf {
                case Absent =>
                  c := 0.0;
                case Given(Numeric(x)) =>
                  c := x;
                case Given(NotNumeric) =>
                  NormalizeHistoryFailurePersists(items, i + 1);
                  r := Failure(BadHistoryConfidence(i));
                  return;
              }
              history := history + [EntryDict(agent, message, Given(Numeric(c)))];
          }
          i := i + 1;
        }
        assert items[..i] == items;
        v := v.(conversationHistory := Given(HistoryList(history)));
    }
    if v.topicType.Given? {
      v := v.(topicType := Given(NormalizeTopic(v.topicType.value)));
    }
    r := Success(v);
  }

  /** The history entries pydantic builds from validated items. */
  function EntriesOf(items: seq<RawEntry>): seq<ConversationEntry>
    decreases |items|
  {
    if items == [] then []
    else
      var rest := EntriesOf(items[1..]);
      match items[0]
      case NotADict => rest
      case EntryDict(agent, message, conf) =>
        [ConversationEntry(agent, message, if conf.Given? && conf.value.Numeric? then conf.value.r else 0.0)] + rest
  }

  /** Pydantic's field step: a missing key takes the field's default. */
  function Build(v: StateValues): TurnState
  {
    TurnState(
      userInput := if v.userInput.Given? then UserInputText(v.userInput.value) else "",
      activeAgent := if v.activeAgent.Given? then v.activeAgent.value else None,
      finalResponse := if v.finalResponse.Given? then v.finalResponse.value else None,
      realistResponse := if v.realistResponse.Given? then v.realistResponse.value else None,
      optimistResponse := if v.optimistResponse.Given? then v.optimistResponse.value else None,
      plannerResponse := if v.plannerResponse.Given? then v.plannerResponse.value else None,
      realistConfidence := if v.realistConfidence.Given? && v.realistConfidence.value.Numeric? then v.realistConfidence.value.r else 0.0,
      optimistConfidence := if v.optimistConfidence.Given? && v.optimistConfidence.value.Numeric? then v.optimistConfidence.value.r else 0.0,
      plannerConfidence := if v.plannerConfidence.Given? && v.plannerConfidence.value.Numeric? then v.plannerConfidence.value.r else 0.0,
      topicType := if v.topicType.Given? then v.topicType.value else None,
      webResults := if v.webResults.Given? then v.webResults.value else None,
      responseBuffer := if v.responseBuffer.Given? then v.responseBuffer.value else [],
      conversationHistory := if v.conversationHistory.Given? && v.conversationHistory.value.HistoryList? then EntriesOf(v.conversationHistory.value.items) else [],
      userId := if v.userId.Given? then v.userId.value else DefaultUserId,
      sessionId := if v.sessionId.Given? then v.sessionId.value else None)
  }

  /** `AgentState(**values)`: validate, fill in defaults, then fill the response buffer. */
  function NewState(values: StateValues): Result<TurnState, ValidationError>
  {
    match Validated(values)
    case Failure(e) => Failure(e)
    case Success(v) => Success(FillBuffer(Build(v)))
  }

  /** `state.dict()` */
  function ToValues(s: TurnState): StateValues
  {
    StateValues(
      Given(Some(s.userInput)), Given(s.activeAgent), Given(s.finalResponse),
      Given(s.realistResponse), Given(s.optimistResponse), Given(s.plannerResponse),
      Given(Numeric(s.realistConfidence)), Given(Numeric(s.optimistConfidence)), Given(Numeric(s.plannerConfidence)),
      Given(s.topicType), Given(s.webResults), Given(s.responseBuffer),
      Given(HistoryList(RawHistoryOf(s.conversationHistory))),
      Given(s.userId), Given(s.sessionId))
  }

  /** How `state.dict()` writes the history: one dictionary per entry. */
  function RawHistoryOf(h: seq<ConversationEntry>): (r: seq<RawEntry>)
    ensures |r| == |h|
    ensures forall k :: 0 <= k < |h| ==> r[k] == EntryDict(h[k].agent, h[k].message, Given(Numeric(h[k].confidence)))
  {
    seq(|h|, k requires 0 <= k < |h| => EntryDict(h[k].agent, h[k].message, Given(Numeric(h[k].confidence))))
  }

  /** `AgentState(**state.dict())`, the copy each specialist starts from. */
  function Copy(s: TurnState): TurnState
  {
    FillBuffer(s.(topicType := NormalizeTopic(s.topicType)))
  }

  lemma {:induction false} NormalizeRawHistory(h: seq<ConversationEntry>)
    ensures NormalizeHistory(RawHistoryOf(h)) == Success(RawHistoryOf(h))
    decreases |h|
  {
    if h != [] {
      var last := |h| - 1;
      assert RawHistoryOf(h)[..last] == RawHistoryOf(h[..last]);
      NormalizeRawHistory(h[..last]);
      assert RawHistoryOf(h) == RawHistoryOf(h[..last]) + [RawHistoryOf(h)[last]];
    }
  }

  lemma {:induction false} EntriesOfRawHistory(h: seq<ConversationEntry>)
    ensures EntriesOf(RawHistoryOf(h)) == h
    decreases |h|
  {
    if h != [] {
      assert RawHistoryOf(h)[1..] == RawHistoryOf(h[1..]);
      EntriesOfRawHistory(h[1..]);
    }
  }

  /** Rebuilding a state from its own `dict()` validates, keeps every field but `topic_type`
      (which is normalised), and fills the buffer: exactly `Copy`. */
  lemma CopyIsReconstruction(s: TurnState)
    ensures NewState(ToValues(s)) == Success(Copy(s))
  {
    NormalizeRawHistory(s.conversationHistory);
    EntriesOfRawHistory(s.conversationHistory);
  }

  /** A copy keeps the slots, confidences and history, makes the topic a valid one and leaves
      the buffer holding every answered slot. */
  lemma CopyFacts(s: TurnState)
    ensures var c := Copy(s);
      && (forall a :: ResponseOf(c, a) == ResponseOf(s, a) && ConfidenceOf(c, a) == ConfidenceOf(s, a))
      && c.conversationHistory == s.conversationHistory
      && c.topicType == NormalizeTopic(s.topicType)
      && (forall a :: Filled(s, a) ==> HasKey(c.responseBuffer, Name(a)))
      && s.responseBuffer <= c.responseBuffer
      && c.userInput == s.userInput && c.activeAgent == s.activeAgent && c.finalResponse == s.finalResponse
  {
    var t := s.(topicType := NormalizeTopic(s.topicType));
    assert forall a :: ResponseOf(t, a) == ResponseOf(s, a);
  }

  /** `AgentState(**state.dict())`: a fresh object holding exactly `Copy` of the state's value. */
  method CopyState(state: AgentState) returns (next: AgentState)
    ensures fresh(next)
    ensures next.Values() == Copy(state.Values())
  {
    var before := state.Values();
    CopyIsReconstruction(before);
    next := new AgentState.FromValues(ToValues(before));
  }

  // ---------------------------------------------------------------------------------------------
  // The mutable object

  class AgentState {
    var userInput: string
    var activeAgent: Option<string>
    var finalResponse: Option<string>
    var realistResponse: Option<string>
    var optimistResponse: Option<string>
    var plannerResponse: Option<string>
    var realistConfidence: real
    var optimistConfidence: real
    var plannerConfidence: real
    var topicType: Option<string>
    var webResults: Option<string>
    var responseBuffer: seq<BufferEntry>
    var conversationHistory: seq<ConversationEntry>
    var userId: string
    var sessionId: Option<string>

    /** The object's value, as `dict()` would give it. */
    function Values(): TurnState
      reads this
    {
      TurnState(userInput, activeAgent, finalResponse,
                realistResponse, optimistResponse, plannerResponse,
                realistConfidence, optimistConfidence, plannerConfidence,
                topicType, webResults, responseBuffer, conversationHistory, userId, sessionId)
    }

    /** `AgentState(**values)`; the source raises a validation error when `NewState` fails. */
    constructor FromValues(values: StateValues)
      requires NewState(values).Success?
      ensures Values() == NewState(values).value
    {
      var checked := ValidateState(values);
      var st := Build(checked.value);
      userInput := st.userInput;
      activeAgent := st.activeAgent;
      finalResponse := st.finalResponse;
      realistResponse := st.realistResponse;
      optimistResponse := st.optimistResponse;
      plannerResponse := st.plannerResponse;
      realistConfidence := st.realistConfidence;
      optimistConfidence := st.optimistConfidence;
      plannerConfidence := st.plannerConfidence;
      topicType := st.topicType;
      webResults := st.webResults;
      responseBuffer := st.responseBuffer;
      conversationHistory := st.conversationHistory;
      userId := st.userId;
      sessionId := st.sessionId;
      new;
      UpdateResponseBuffer();
    }

    /** `update_agent_response(agent_type, response, confidence)` */
    method UpdateAgentResponse(agentType: string, response: string, confidence: real)
      modifies this
      ensures Values() == ApplyResponse(old(Values()), agentType, response, confidence)
    {
      if response == "" {
        return;
      }
      var text := Strip(response);
      var c := Clamp(confidence);
      StoreInSlot(agentType, text, c);
      conversationHistory := conversationHistory + [ConversationEntry(agentType, text, c)];
    }

    /** The `if agent_type == ...` chain inside `update_agent_response`. */
    method StoreInSlot(agentType: string, text: string, c: real)
      modifies this
      ensures Values() == SetSlot(old(Values()), agentType, text, c)
    {
      if agentType == "realist" {
        realistResponse := Some(text);
        realistConfidence := c;
      } else if agentType == "optimist" {
        optimistResponse := Some(text);
        optimistConfidence := c;
      } else if agentType == "planner" {
        plannerResponse := Some(text);
        plannerConfidence := c;
      }
    }

    /** `state.topic_type = topic`, an attribute assignment (no validator runs). */
    method SetTopicType(topic: Option<string>)
      modifies this
      ensures Values() == old(Values()).(topicType := topic)
    {
      topicType := topic;
    }

    /** `state.active_agent = agent`, an attribute assignment. */
    method SetActiveAgent(agent: Option<string>)
      modifies this
      ensures Values() == old(Values()).(activeAgent := agent)
    {
      activeAgent := agent;
    }

    /** `state.final_response = text`, an attribute assignment. */
    method SetFinalResponse(text: Option<string>)
      modifies this
      ensures Values() == old(Values()).(finalResponse := text)
    {
      finalResponse := text;
    }

    /** `state.web_results = search`, an attribute assignment. */
    method SetWebResults(search: Option<string>)
      modifies this
      ensures Values() == old(Values()).(webResults := search)
    {
      webResults := search;
    }

    /** `state.planner_response = text; state.planner_confidence = c`: the planner's slot written
        directly, with no clamping, no audit entry and no buffer refresh. */
    method SetPlannerSlot(text: string, c: real)
      modifies this
      ensures Values() == old(Values()).(plannerResponse := Some(text), plannerConfidence := c)
    {
      plannerResponse := Some(text);
      plannerConfidence := c;
    }

    /** `update_response_buffer()` */
    method UpdateResponseBuffer()
      modifies this
      ensures Values() == FillBuffer(old(Values()))
    {
      if Truthy(optimistResponse) && !HasKey(responseBuffer, "optimist") {
        responseBuffer := responseBuffer + [BufferEntry("optimist", optimistResponse.value)];
      }
      if Truthy(realistResponse) && !HasKey(responseBuffer, "realist") {
        responseBuffer := responseBuffer + [BufferEntry("realist", realistResponse.value)];
      }
      if Truthy(plannerResponse) && !HasKey(responseBuffer, "planner") {
        responseBuffer := responseBuffer + [BufferEntry("planner", plannerResponse.value)];
      }
    }
  }
}
