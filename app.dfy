/** The entry point of CODE/app.py: `system_intro_node`, `create_initial_state`, and
    `run_conversation`, which guards the input, pre-seeds the topic, drives the graph, and renders
    a transcript when the graph left no final response. */
module App {
  import opened Wrappers
  import opened Text
  import opened Turn
  import opened Routing

  // ---------------------------------------------------------------------------------------------
  // system_intro_node

  const IntroGreeting: string :=
    "Hi! " + "I'm here with " + "my colleagues to discuss " + "any topic you'd like. "
    + "What would you like " + "us to explore together?"

  /** `system_intro_node(state)`: a copy of the state with the system active and the greeting as
      its final response; the slots, confidences, input, history, web results and ids are those of
      the state, and the buffer is the copy's. */
  function SystemIntro(s: TurnState): (r: TurnState)
    ensures r.activeAgent == Some(SystemAgent) && r.finalResponse == Some(IntroGreeting)
    ensures forall a :: ResponseOf(r, a) == ResponseOf(s, a)
    ensures r.userInput == s.userInput && r.conversationHistory == s.conversationHistory
    ensures r.topicType == NormalizeTopic(s.topicType)
    ensures forall a :: ConfidenceOf(r, a) == ConfidenceOf(s, a)
    ensures r.responseBuffer == Copy(s).responseBuffer
    ensures r.webResults == s.webResults && r.sessionId == s.sessionId && r.userId == s.userId
  {
    CopyFacts(s);
    CopyIsReconstruction(s);
    Copy(s).(activeAgent := Some(SystemAgent), finalResponse := Some(IntroGreeting))
  }

  /** `system_intro_node` as the source writes it: copy the state, then assign two fields. */
  method SystemIntroNode(state: AgentState) returns (next: AgentState)
    ensures fresh(next)
    ensures next.Values() == SystemIntro(state.Values())
  {
    next := CopyState(state);
    next.SetActiveAgent(Some(SystemAgent));
    next.SetFinalResponse(Some(IntroGreeting));
  }

  // ---------------------------------------------------------------------------------------------
  // create_initial_state

  /** The keyword values `create_initial_state` passes; the buffer, the history and the user id
      are left to their defaults. */
  function InitialValues(userInput: string, sessionId: string): StateValues
  {
    NoValues.(
      userInput := Given(Some(userInput)), sessionId := Given(Some(sessionId)),
      activeAgent := Given(None), finalResponse := Given(None), topicType := Given(None),
      realistResponse := Given(None), optimistResponse := Given(None), plannerResponse := Given(None),
      realistConfidence := Given(Numeric(0.0)), optimistConfidence := Given(Numeric(0.0)),
      plannerConfidence := Given(Numeric(0.0)), webResults := Given(None))
  }

  /** `create_initial_state(user_input)` with the generated session id as a parameter: nobody has
      answered, and the `None` topic it passes reaches the state as `general`. */
  function CreateInitialState(userInput: string, sessionId: string): (r: TurnState)
    ensures r.userInput == userInput && r.sessionId == Some(sessionId) && r.userId == DefaultUserId
    ensures r.activeAgent == None && r.finalResponse == None
    ensures forall a :: ResponseOf(r, a) == None && ConfidenceOf(r, a) == 0.0
    ensures r.topicType == Some(General)
    ensures r.webResults == None && r.responseBuffer == [] && r.conversationHistory == []
  {
    var v := InitialValues(userInput, sessionId);
    assert Validated(v).Success?;
    NewState(v).value
  }

  /** `create_initial_state` on the object. */
  method CreateInitialStateOn(userInput: string, sessionId: string) returns (state: AgentState)
    ensures fresh(state)
    ensures state.Values() == CreateInitialState(userInput, sessionId)
  {
    var v := InitialValues(userInput, sessionId);
    assert Validated(v).Success?;
    state := new AgentState.FromValues(v);
  }

  // ---------------------------------------------------------------------------------------------
  // The replies `run_conversation` builds itself

  const InvalidInputText: string := "I " + "didn't receive " + "valid input. " + "Could you try again?"

  const WorkflowErrorText: string :=
    "I'm " + "sorry, I had trouble " + "processing that. " + "For questions about "
    + "internships or projects, " + "I can help you weigh " + "the pros and cons. " + "Would you like to try again?"

  /** `str(user_input)` for an input that is a string or `None`. */
  function PyStr(userInput: Option<string>): string
  {
    if userInput.Some? then userInput.value else "None"
  }

  /** The guard of `run_conversation`: the input is a non-empty string. */
  predicate ValidInput(userInput: Option<string>)
  {
    userInput.Some? && userInput.value != ""
  }

  /** `AgentState(user_input=..., final_response=text, active_agent="system")`: a state that
      carries only the input and the system's reply. */
  function SystemReply(userInput: string, text: string): (r: TurnState)
    ensures r.userInput == userInput && r.finalResponse == Some(text) && r.activeAgent == Some(SystemAgent)
    ensures forall a :: ResponseOf(r, a) == None
    ensures r.topicType == None && r.responseBuffer == [] && r.conversationHistory == []
  {
    var v := NoValues.(userInput := Given(Some(userInput)), finalResponse := Given(Some(text)),
                       activeAgent := Given(Some(SystemAgent)));
    assert Validated(v).Success?;
    NewState(v).value
  }

  // ---------------------------------------------------------------------------------------------
  // The topic pre-seed

  const CareerWords: seq<string> := ["internship", "project", "job", "career", "work"]

  /** The assignment `run_conversation` makes before invoking the graph: career when the lowered
      input mentions any career word. */
  function PreSeed(s: TurnState): TurnState
  {
    if ContainsAny(Lower(s.userInput), CareerWords) then s.(topicType := Some(Career)) else s
  }

  // ---------------------------------------------------------------------------------------------
  // The transcript

  /** An entry of `agent_configs`. */
  datatype Persona = Persona(icon: string, tone: string)

  function AgentConfig(agentType: string): Option<Persona>
  {
    if agentType == "optimist" then Some(Persona("Optimist Agent", "in a hopeful tone"))
    else if agentType == "realist" then Some(Persona("Realist Agent", "in a factual tone"))
    else if agentType == "planner" then Some(Persona("Planner Agent", "in a strategic tone"))
    else None
  }

  const GreetingLine: string := "**System**:\"" + IntroGreeting + "\""

  function UserLine(userInput: string): string
  {
    "**User**: \"" + Strip(userInput) + "\""
  }

  function AgentLine(p: Persona, response: string): string
  {
    "**" + p.icon + "** *(" + p.tone + ")*: \"" + Strip(response) + "\""
  }

  const CareerClosing: string :=
    "**System**:" + "\"Would you like to " + "explore more specific " + "aspects of either " + "the internship or " + "project path?\""

  const GenericClosing: string := "**System**:" + "\"Would you like to " + "go deeper into " + "any of those points?\""

  /** The closing question: about the two paths on a career turn, generic otherwise. */
  function Closing(topicType: Option<string>): string
  {
    if topicType == Some(Career) then CareerClosing else GenericClosing
  }

  /** The lines one buffer item contributes: its line when the response is not empty and the key
      is one of the three personas, nothing otherwise. */
  function EntryLines(e: BufferEntry): seq<string>
  {
    if e.text != "" && AgentConfig(e.agent).Some? then [AgentLine(AgentConfig(e.agent).value, e.text)] else []
  }

  /** The loop over `response_buffer.items()`, in the buffer's order. */
  function AgentLines(buffer: seq<BufferEntry>): seq<string>
    decreases |buffer|
  {
    if buffer == [] then []
    else AgentLines(buffer[..|buffer| - 1]) + EntryLines(buffer[|buffer| - 1])
  }

  /** The lines of two buffers one after the other are the lines of the first, then those of
      the second: every item is rendered on its own and in buffer order. */
  lemma {:induction false} AgentLinesAppend(b: seq<BufferEntry>, c: seq<BufferEntry>)
    ensures AgentLines(b + c) == AgentLines(b) + AgentLines(c)
    decreases |c|
  {
    if c != [] {
      var last := |c| - 1;
      assert (b + c)[..|b + c| - 1] == b + c[..last];
      assert (b + c)[|b + c| - 1] == c[last];
      AgentLinesAppend(b, c[..last]);
    } else {
      assert b + c == b;
    }
  }

  /** Every displayable item of the buffer has its line among the agent lines. */
  lemma AgentLinesShowEntry(buffer: seq<BufferEntry>, i: nat)
    requires i < |buffer| && buffer[i].text != "" && AgentConfig(buffer[i].agent).Some?
    ensures AgentLine(AgentConfig(buffer[i].agent).value, buffer[i].text) in AgentLines(buffer)
  {
    var e, pre, post := buffer[i], buffer[..i], buffer[i + 1..];
    SplitAt(buffer, i);
    AgentLinesAppend(pre + [e], post);
    AgentLinesAppend(pre, [e]);
    AgentLinesSingle(e);
    var lines := AgentLines(pre) + EntryLines(e) + AgentLines(post);
    assert lines[|AgentLines(pre)|] == EntryLines(e)[0];
  }

  /** A sequence is its part before `i`, its item at `i`, and its part after. */
  lemma SplitAt<T>(xs: seq<T>, i: nat)
    requires i < |xs|
    ensures xs == xs[..i] + [xs[i]] + xs[i + 1..]
  {
    assert xs == xs[..i] + xs[i..];
    assert xs[i..] == [xs[i]] + xs[i + 1..];
  }

  /** A buffer of one item shows just that item's lines. */
  lemma AgentLinesSingle(e: BufferEntry)
    ensures AgentLines([e]) == EntryLines(e)
  {
    assert [e][..0] == [];
  }

  /** The greeting line, on a turn with no history only. */
  function Opening(history: seq<ConversationEntry>): seq<string>
  {
    if history == [] then [GreetingLine] else []
  }

  /** The greeting and the user's line are non-empty and tell apart at their third character. */
  lemma LineShapes(userInput: string)
    ensures 2 < |GreetingLine| && GreetingLine[2] == 'S'
    ensures 2 < |UserLine(userInput)| && UserLine(userInput)[2] == 'U'
  {
  }

  /** The lines `run_conversation` renders: the greeting on a first turn, the user's stripped
      input, one line per displayable buffer item, and a closing question chosen by the topic. */
  function TranscriptLines(s: TurnState): seq<string>
  {
    Opening(s.conversationHistory)
    + [UserLine(s.userInput)]
    + AgentLines(s.responseBuffer)
    + [Closing(s.topicType)]
  }

  function Render(s: TurnState): string
  {
    Join(TranscriptLines(s), "\n\n")
  }

  /** The greeting opens the transcript exactly on a turn with no history. */
  lemma RenderGreetsFirstTurn(s: TurnState)
    ensures TranscriptLines(s)[0] == GreetingLine <==> s.conversationHistory == []
  {
    LineShapes(s.userInput);
    if s.conversationHistory != [] {
      assert TranscriptLines(s)[0] == UserLine(s.userInput);
    }
  }

  /** The two closing questions part at their thirty-first character. */
  lemma ClosingsDiffer()
    ensures 30 < |CareerClosing| && 30 < |GenericClosing|
    ensures CareerClosing[30] == 'e' && GenericClosing[30] == 'g'
  {
  }

  /** The layout of the transcript: the user's stripped input right after the optional greeting,
      then the agent lines in buffer order, and last the closing question, which is the career one
      exactly on a career turn. */
  lemma RenderLayout(s: TurnState)
    ensures var lines, o := TranscriptLines(s), |Opening(s.conversationHistory)|;
      && |lines| == o + 2 + |AgentLines(s.responseBuffer)|
      && lines[o] == UserLine(s.userInput)
      && lines[o + 1..|lines| - 1] == AgentLines(s.responseBuffer)
      && (lines[|lines| - 1] == CareerClosing <==> s.topicType == Some(Career))
  {
    ClosingsDiffer();
    var lines, o := TranscriptLines(s), |Opening(s.conversationHistory)|;
    assert lines[|lines| - 1] == Closing(s.topicType);
  }

  /** The transcript names every specialist answer the buffer holds. */
  lemma RenderShowsEveryAnswer(s: TurnState, i: nat)
    requires i < |s.responseBuffer| && s.responseBuffer[i].text != "" && AgentConfig(s.responseBuffer[i].agent).Some?
    ensures Contains(Render(s), AgentLine(AgentConfig(s.responseBuffer[i].agent).value, s.responseBuffer[i].text))
  {
    var line := AgentLine(AgentConfig(s.responseBuffer[i].agent).value, s.responseBuffer[i].text);
    AgentLinesShowEntry(s.responseBuffer, i);
    var lines := TranscriptLines(s);
    var k :| 0 <= k < |AgentLines(s.responseBuffer)| && AgentLines(s.responseBuffer)[k] == line;
    var before := Opening(s.conversationHistory) + [UserLine(s.userInput)];
    assert lines[|before| + k] == line;
    JoinContainsPart(lines, "\n\n", |before| + k);
  }

  /** A transcript is never empty: it starts with a non-empty line. */
  lemma RenderNotEmpty(s: TurnState)
    ensures Render(s) != ""
  {
    var lines := TranscriptLines(s);
    LineShapes(s.userInput);
    assert lines[0] == GreetingLine || lines[0] == UserLine(s.userInput);
    JoinCoversFirst(lines, "\n\n");
  }

  /** The tail of `run_conversation`: when the graph left no final response, the transcript
      becomes one and the system the active agent; otherwise the state stays as it is. */
  function FinishTurn(s: TurnState): TurnState
  {
    if Truthy(s.finalResponse) then s
    else s.(finalResponse := Some(Render(s)), activeAgent := Some(SystemAgent))
  }

  /** After the tail there is always a final response, and running the tail again changes
      nothing. */
  lemma FinishTurnIdempotent(s: TurnState)
    ensures Truthy(FinishTurn(s).finalResponse)
    ensures FinishTurn(FinishTurn(s)) == FinishTurn(s)
    ensures Truthy(s.finalResponse) ==> FinishTurn(s) == s
  {
    RenderNotEmpty(s);
  }

  lemma AppendAssoc<T>(a: seq<T>, b: seq<T>, c: seq<T>)
    ensures (a + b) + c == a + (b + c)
  {
  }

  /** The loop over the buffer: each item's lines appended, in order, to the lines so far. */
  method AppendAgentLines(lines: seq<string>, buffer: seq<BufferEntry>) returns (out: seq<string>)
    ensures out == lines + AgentLines(buffer)
  {
    out := lines;
    var i := 0;
    while i < |buffer|
      invariant 0 <= i <= |buffer|
      invariant out == lines + AgentLines(buffer[..i])
    {
      var e := buffer[i];
      assert buffer[..i + 1][..i] == buffer[..i];
      assert AgentLines(buffer[..i + 1]) == AgentLines(buffer[..i]) + EntryLines(e);
      out := out + EntryLines(e);
      AppendAssoc(lines, AgentLines(buffer[..i]), EntryLines(e));
      i := i + 1;
    }
    assert buffer[..i] == buffer;
  }

  /** The transcript as the source builds it: a list of lines grown step by step, then joined. */
  method BuildTranscript(state: AgentState) returns (text: string)
    ensures text == Render(state.Values())
  {
    ghost var v := state.Values();
    assert state.responseBuffer == v.responseBuffer && state.userInput == v.userInput;
    assert state.conversationHistory == v.conversationHistory && state.topicType == v.topicType;
    var lines: seq<string> := [];
    if state.conversationHistory == [] {
      lines := lines + [GreetingLine];
    }
    lines := lines + [UserLine(state.userInput)];
    lines := AppendAgentLines(lines, state.responseBuffer);
    lines := lines + [Closing(state.topicType)];
    assert lines == TranscriptLines(v);
    text := Join(lines, "\n\n");
  }

  /** The tail of `run_conversation` on the object. */
  method FinishTurnOn(state: AgentState)
    modifies state
    ensures state.Values() == FinishTurn(old(state.Values()))
  {
    if !Truthy(state.finalResponse) {
      var text := BuildTranscript(state);
      state.SetFinalResponse(Some(text));
      state.SetActiveAgent(Some(SystemAgent));
    }
  }

  // ---------------------------------------------------------------------------------------------
  // run_conversation

  /** The state the graph starts from on a valid input: the initial state, pre-seeded, after the
      entry node. */
  function StartState(userInput: string, sessionId: string): TurnState
  {
    SystemIntro(PreSeed(CreateInitialState(userInput, sessionId)))
  }

  /** `run_conversation(user_input)` over a graph with the given node table: the guard, the
      graph run from the start state under a step budget (running out of it raises, which the
      source turns into the workflow apology), and the transcript tail. */
  function RunGraph(userInput: Option<string>, sessionId: string, nodes: NodeTable, fuel: nat): TurnState
  {
    if !ValidInput(userInput) then SystemReply(PyStr(userInput), InvalidInputText)
    else
      var d := Drive(StartState(userInput.value, sessionId), SelectNext, nodes, fuel, 0);
      if !d.finished then SystemReply(userInput.value, WorkflowErrorText) else FinishTurn(d.state)
  }

  /** `run_conversation(user_input)` on the graph the module wires, given the session id, what the
      specialists' collaborators do on each step, and the step budget. */
  function RunConversation(userInput: Option<string>, sessionId: string, calls: Calls, fuel: nat): TurnState
  {
    RunGraph(userInput, sessionId, Nodes(calls), fuel)
  }

  /** The topic a turn runs under is fixed before the graph starts: career when the input mentions
      a career word, `general` otherwise. Either way it is set, so the router's own classifier
      never runs. */
  lemma StartTopic(userInput: string, sessionId: string)
    ensures StartState(userInput, sessionId).topicType ==
      Some(if ContainsAny(Lower(userInput), CareerWords) then Career else General)
    ensures Classified(StartState(userInput, sessionId)) == StartState(userInput, sessionId)
  {
  }

  /** The start state: the system is active, the greeting is its final response, and the input
      is the user's. */
  lemma StartStateFacts(userInput: string, sessionId: string)
    ensures var s := StartState(userInput, sessionId);
      && s.activeAgent == Some(SystemAgent) && s.finalResponse == Some(IntroGreeting)
      && Truthy(s.finalResponse) && s.userInput == userInput
  {
    assert IntroGreeting[0] == 'H';
  }

  /** From a state where the system is active on visible input, with nodes that each answer their
      slot and keep the rest, three steps are enough for `select_next` to end the turn with every
      slot answered; the input, the active agent and the final response come back unchanged. */
  lemma DriveAnswersAll(s: TurnState, nodes: NodeTable, fuel: nat)
    requires s.activeAgent == Some(SystemAgent) && !IsBlank(s.userInput) && 3 <= fuel
    requires forall t, a, j :: StepKeeps(nodes, t, a, j)
    requires forall t, a, j :: Filled(nodes(t, a, j), a)
    ensures var d := Drive(s, SelectNext, nodes, fuel, 0);
      && d.finished && AllAnswered(d.state) && d.state.userInput == s.userInput
      && d.state.activeAgent == s.activeAgent && d.state.finalResponse == s.finalResponse
  {
    SelectNextIsRouter();
    DriveFinishes(s, SelectNext, nodes, fuel, 0);
    DriveFromSystemFillsAll(s, SelectNext, nodes, fuel, 0);
    DriveKeeps(s, SelectNext, nodes, fuel, 0);
  }

  /** `None` and the empty string are turned away with the fixed request for valid input. */
  lemma RunGraphRejects(userInput: Option<string>, sessionId: string, nodes: NodeTable, fuel: nat)
    requires !ValidInput(userInput)
    ensures var r := RunGraph(userInput, sessionId, nodes, fuel);
      && r.finalResponse == Some(InvalidInputText) && r.activeAgent == Some(SystemAgent)
      && r.userInput == PyStr(userInput) && forall a :: !Filled(r, a)
  {
  }

  /** Input of nothing but whitespace gets past the guard, but the router ends the turn at once:
      the turn ends with the greeting and no answer. */
  lemma RunGraphWhitespace(userInput: string, sessionId: string, nodes: NodeTable, fuel: nat)
    requires userInput != "" && IsBlank(userInput)
    ensures var r := RunGraph(Some(userInput), sessionId, nodes, fuel);
      && r.finalResponse == Some(IntroGreeting) && forall a :: !Filled(r, a)
  {
    var s := StartState(userInput, sessionId);
    SelectNextBlankEnds(s);
    DriveStep(s, SelectNext, nodes, fuel, 0);
    assert IntroGreeting[0] == 'H';
  }

  /** On visible input, with nodes that each answer their slot and keep the rest, and a budget of
      three nodes, every specialist answers; the greeting the entry node set is still the final
      response, so the transcript is never rendered. */
  lemma RunGraphAnswersAll(userInput: string, sessionId: string, nodes: NodeTable, fuel: nat)
    requires !IsBlank(userInput) && 3 <= fuel
    requires forall t, a, j :: StepKeeps(nodes, t, a, j)
    requires forall t, a, j :: Filled(nodes(t, a, j), a)
    ensures var r := RunGraph(Some(userInput), sessionId, nodes, fuel);
      && AllAnswered(r) && r.finalResponse == Some(IntroGreeting) && r.activeAgent == Some(SystemAgent)
      && r.userInput == userInput
  {
    var s := StartState(userInput, sessionId);
    StartStateFacts(userInput, sessionId);
    DriveAnswersAll(s, nodes, fuel);
  }

  /** On visible input, a planner node that never answers keeps the router asking for it until
      the step budget runs out, whatever the budget: the turn ends with the workflow apology. */
  lemma RunGraphBlankPlanner(userInput: string, sessionId: string, nodes: NodeTable, fuel: nat)
    requires !IsBlank(userInput)
    requires forall t, a, j :: StepKeeps(nodes, t, a, j)
    requires forall t, j :: !Filled(nodes(t, Planner, j), Planner)
    ensures RunGraph(Some(userInput), sessionId, nodes, fuel) == SystemReply(userInput, WorkflowErrorText)
  {
    var s := StartState(userInput, sessionId);
    assert userInput != [];
    SelectNextIsRouter();
    BlankPlannerNeverFinishes(s, SelectNext, nodes, fuel, 0);
  }

  /** On the wired graph: with visible input, a planner that answers and a budget of three nodes,
      every specialist answers and the greeting stays the final response. */
  lemma RunConversationAnswersAll(userInput: string, sessionId: string, calls: Calls, fuel: nat)
    requires !IsBlank(userInput) && 3 <= fuel
    requires forall j :: PlannerAnswers(calls.planner(j))
    ensures var r := RunConversation(Some(userInput), sessionId, calls, fuel);
      && AllAnswered(r) && r.finalResponse == Some(IntroGreeting) && r.activeAgent == Some(SystemAgent)
  {
    NodesKeep(calls);
    NodesAnswer(calls);
    RunGraphAnswersAll(userInput, sessionId, Nodes(calls), fuel);
  }

  /** On the wired graph: a planner that keeps archiving a blank reply makes every visible input
      end in the workflow apology. */
  lemma RunConversationBlankPlanner(userInput: string, sessionId: string, calls: Calls, fuel: nat)
    requires !IsBlank(userInput)
    requires forall j :: !PlannerAnswers(calls.planner(j))
    ensures RunConversation(Some(userInput), sessionId, calls, fuel) == SystemReply(userInput, WorkflowErrorText)
  {
    NodesKeep(calls);
    NodesAnswer(calls);
    RunGraphBlankPlanner(userInput, sessionId, Nodes(calls), fuel);
  }
}
