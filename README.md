# Multi-agent conversation turn, modelled in Dafny

The system answers one user message with three persona "specialists": an optimist, a realist and a
planner. The model covers five parts:

- The turn state record. It has three response/confidence slots, a first-write-wins response
  buffer, an audit history of conversation entries, a topic, and the validator that normalises
  the values a state is built from.
- The router `select_next`. It ends the turn on blank input. It classifies the topic by keyword.
  It picks the first unanswered specialist in a fixed order: one order on the system's turn, and
  one per topic otherwise.
- The three confidence heuristics. Each is a topic-base table plus keyword bonuses, capped at 1.0.
- The three specialist nodes. Each copies the state and fills its own slot. The collaborators
  (language model, web search, memory) are parameters, each either a reply or a failure.
- `run_conversation`. It covers the input guard, the career pre-seed, the entry node
  `system_intro_node`, the run of the graph, the workflow apology and the transcript renderer.

Layout, one module per source file:

- `wrappers.dfy` (`Wrappers`): `Option`, `Result`, `Field` (absent key or given value) and
  `Reply` (what a collaborator did).
- `text.dfy` (`Text`): Python's `strip`, `lower` and `in` on strings, and `"\n\n".join`.
- `state.dfy` (`Turn`): the state, in two layers.
  - A `TurnState` datatype with specification functions.
  - A class `AgentState` whose methods change its fields exactly as those functions say. Each is
    stated as `Values() == F(old(Values()))`.
- `optimistic.dfy`, `realistic.dfy`, `planner.dfy`: one module per specialist.
- `routing.dfy` (`Routing`): `select_next`, and a driver `Drive` that stands for the graph run.
- `app.dfy` (`App`): `system_intro_node`, `create_initial_state` and `run_conversation`.

Each imperative operation of the source is a method proved against its specification function,
and the properties are proved about that function. The operations are `update_agent_response`,
`update_response_buffer`, `validate_state`, the three nodes, `select_next`'s topic
assignment and the transcript loop.

Confidences are exact `real`s, so `0.3 + 0.3 + 0.3 == 0.9` holds here, unlike IEEE floats.

Behaviours of the code that the model keeps as written:

- `planner_node` writes its slot directly (CODE/planner.py:95-96), so it adds no audit entry
  to the history.
- `planner_node` overwrites the topic with the language model's label (CODE/planner.py:69-70),
  even when the router has already set one.
- Outside the system's turn, `general` and any unknown topic end the turn (CODE/app.py:48-70).
  On the system's turn the order is optimist, realist, planner for every topic.
- A `None` topic passed at construction becomes `general` (CODE/state.py:62-65). The initial
  state therefore never has an unset topic, so `select_next`'s own classifier never runs in a real
  turn (`App.StartTopic`).
- The entry node sets the greeting as the final response (CODE/app.py:19). The transcript
  renderer of `run_conversation` therefore never runs after a graph run that finished
  (`App.RunGraphAnswersAll`).
- The realist's test `search_result in search_result` always holds, so a sources block is always
  appended, failure texts included (`Realistic.SourcesAlwaysAppended`).
- A planner whose expert reply is blank stores `""`, which still counts as unanswered. The router
  then names the planner again on every step until the step budget is exhausted
  (`Routing.BlankPlannerNeverFinishes`, `App.RunGraphBlankPlanner`).

## Model

| member | source | states |
|---|---|---|
| Turn.Clamp | CODE/state.py:73 | the stored confidence lies in [0, 1]; it equals the input inside the range, 0 below it and 1 above it |
| Turn.ApplyResponseFacts | CODE/state.py:68-89 | an empty response changes nothing; otherwise exactly one entry (agent name, stripped text, clamped confidence) is appended to the history, only the named persona's slot changes, an unknown name changes no slot, and every other field is kept |
| Turn.ApplyTrimmedResponse | CODE/state.py:68-89 | an already stripped, non-empty text with an in-range confidence is stored exactly, in the slot and in one new history entry |
| Turn.ApplyVisibleResponse | CODE/state.py:68-89 | a non-blank text is stored stripped and leaves the slot answered; the other slots are kept |
| Turn.ApplyResponseKeepsHistoryInRange | CODE/state.py:73-89 | if every history confidence lies in [0, 1] before the update, every one still does after it |
| Turn.AgentState.UpdateAgentResponse | CODE/state.py:68-89 | the object's new value is `ApplyResponse` of its old value |
| Turn.AgentState.StoreInSlot | CODE/state.py:75-83 | the object's new value is `SetSlot` of its old value |
| Turn.SetSlotFacts | CODE/state.py:75-83 | exactly the named persona's response and confidence are written; an unknown name writes none and nothing else changes |
| Turn.NamesDistinct | CODE/state.py:75-83 | the three persona names are pairwise different |
| Turn.MaxByConfidence | CODE/state.py:105 | the result is one of the candidates, has the highest confidence among them, and no earlier candidate has the same confidence |
| Turn.BestAgent | CODE/state.py:91-106 | none exactly when no slot has text; otherwise an answered persona whose confidence is at least every answered persona's and strictly above every answered persona earlier in realist, optimist, planner order |
| Turn.BestAmongAnswered | CODE/state.py:102-105 | in a list sorted by rank, such as the answered list, the first maximum has strictly higher confidence than every listed persona of lower rank |
| Turn.FirstMaxBeatsEarlier | CODE/state.py:105 | in a list sorted by rank, an item that beats every item before it beats every listed persona of lower rank |
| Turn.AnsweredFacts | CODE/state.py:102 | the answered list holds exactly the personas with text, in realist, optimist, planner order |
| Turn.EarlierRankEarlierIndex | CODE/state.py:102-105 | in a list ordered by rank, every persona of lower rank sits before the chosen one |
| Turn.GetBestResponse | CODE/state.py:91-106 | with no answer, the pair ("system", fixed placeholder); otherwise the best persona's name and text |
| Turn.Lookup | CODE/state.py:110-115 | a buffer key is found exactly when it is present |
| Turn.FillBuffer | CODE/state.py:108-116 | only the buffer changes; the old buffer is kept as a prefix, so nothing is overwritten; a persona's key is present afterwards exactly when it was before or its slot is answered; a new key holds the slot's text; keys stay distinct |
| Turn.FillBufferSteps | CODE/state.py:110-115 | the three conditional insertions keep the buffer as a prefix and change nothing else |
| Turn.FillBufferKeys | CODE/state.py:110-115 | after the three insertions, a persona's key is present exactly when it was before or its slot is answered |
| Turn.FillBufferLookups | CODE/state.py:110-115 | every key the insertions add holds the matching slot's text |
| Turn.FillBufferLookup | CODE/state.py:110-115 | a key added for one persona holds that persona's text |
| Turn.AddFirstFacts | CODE/state.py:110-115 | one conditional insertion adds the key only for a non-empty response and an absent key, and never touches an existing key |
| Turn.LookupAppendNew | CODE/state.py:111 | a key appended to a buffer without it is found with its value |
| Turn.LookupPrefix | CODE/state.py:110-115 | a key present in a prefix keeps its value in every extension |
| Turn.FillBufferAppends | CODE/state.py:108-116 | the new buffer is the old one followed by exactly one entry per answered slot whose key was missing, in optimist, realist, planner order, and by nothing else |
| Turn.FillBufferIdempotent | CODE/state.py:108-116 | running the buffer validator twice gives the same state as running it once |
| Turn.AgentState.UpdateResponseBuffer | CODE/state.py:108-116 | the object's new value is `FillBuffer` of its old value |
| Turn.NormalizeConfidence | CODE/state.py:44-49 | an absent key stays absent; an unconvertible value becomes 0.0; a number is kept |
| Turn.NormalizeTopic | CODE/state.py:62-65 | the result is always one of the four topics; a valid topic is kept, anything else, `None` included, becomes `general` |
| Turn.NormalizeHistoryFailsIff | CODE/state.py:55-60 | the history loop raises exactly when some dictionary entry has an unconvertible confidence, and it reports the first such entry |
| Turn.NormalizeHistoryFailurePersists | CODE/state.py:56-59 | once the loop raised on a prefix, it raises with the same error on the whole list |
| Turn.ValidatedNormalizes | CODE/state.py:37-66 | a present topic becomes a valid one (`None` becomes `general`), a `None` input becomes `""`, unconvertible confidences become 0.0, and the buffer and active agent are untouched |
| Turn.ValidatedFailsIff | CODE/state.py:51-60 | validation fails exactly when the history is a list with an entry whose confidence cannot be converted |
| Turn.ValidateState | CODE/state.py:37-66 | the step-by-step rewrite with its loop over the history returns exactly `Validated` of the values |
| Turn.AgentState.FromValues | CODE/state.py:37-116 | a new object holds the validated, defaulted values with the buffer filled |
| Turn.RawHistoryOf | CODE/optimistic.py:38 | `state.dict()` writes one dictionary per history entry, with its fields and numeric confidence |
| Turn.NormalizeRawHistory | CODE/optimistic.py:38 | a history written by `dict()` passes the history loop unchanged |
| Turn.EntriesOfRawHistory | CODE/optimistic.py:38 | rebuilding entries from a dumped history gives the same history back |
| Turn.CopyIsReconstruction | CODE/optimistic.py:38 | rebuilding a state from its own `dict()` always succeeds and yields `Copy` (round trip) |
| Turn.CopyFacts | CODE/realistic.py:30 | a copy keeps the slots, confidences, history, input, active agent and final response; it makes the topic valid and lists every answered slot in the buffer, keeping the old buffer as a prefix |
| Turn.CopyState | CODE/planner.py:66 | a fresh object holding `Copy` of the state's value |
| Turn.AgentState.SetTopicType | CODE/app.py:33-39 | only the topic changes |
| Turn.AgentState.SetActiveAgent | CODE/app.py:18 | only the active agent changes |
| Turn.AgentState.SetFinalResponse | CODE/app.py:19 | only the final response changes |
| Turn.AgentState.SetWebResults | CODE/realistic.py:40 | only the web results change |
| Turn.AgentState.SetPlannerSlot | CODE/planner.py:95-96 | only the planner's response and confidence change |
| Turn.WebBonus | CODE/realistic.py:19-20 | 0.3 exactly when the search text is not blank after stripping, 0 otherwise |
| Turn.KeywordBonus | CODE/optimistic.py:24-25 | a keyword bonus is either nothing or the full amount |
| Turn.KeywordBonusGrows | CODE/optimistic.py:24-32 | appending text to the input never loses a keyword bonus |
| Turn.AtMostOne | CODE/optimistic.py:34 | `min(c, 1.0)` is at most 1, is the input or 1, and is not negative for a non-negative input |
| Turn.TopicOrGeneral | CODE/optimistic.py:48 | `topic_type or "general"` is never empty and keeps a non-empty topic |
| Turn.EmptySlots | CODE/app.py:41-46 | at most three slots are unanswered |
| Text.BlankIffAllSpace | CODE/app.py:28 | a string strips to empty exactly when every character is whitespace |
| Text.StripIdempotent | CODE/state.py:72 | stripping twice is stripping once |
| Text.LowerIdempotent | CODE/app.py:32 | lowering twice is lowering once |
| Text.ContainsAnyIff | CODE/optimistic.py:24 | `any(w in s for w in words)` holds exactly when some word of the list occurs in the string |
| Text.JoinContainsPart | CODE/app.py:171 | every line appears in the joined transcript |
| Optimistic.CalculateOptimistConfidence | CODE/optimistic.py:12-34 | the optimist's confidence lies in [0, 1] |
| Optimistic.OptimistConfidenceIsSum | CODE/optimistic.py:12-34 | the confidence is the topic base plus 0.4 exactly when an opportunity word occurs, plus 0.3 exactly when a success word occurs; the cap never cuts anything |
| Optimistic.OptimistTopicBaseTable | CODE/optimistic.py:13-19 | the base is 0.3 for career and education, 0.2 for technical, 0 otherwise, `None` included |
| Optimistic.OptimistConfidenceGrowsWithInput | CODE/optimistic.py:20-32 | appending text to the input never lowers the confidence |
| Optimistic.OptimistQueryMentionsInput | CODE/optimistic.py:42-49 | every search query contains the input; a topic without its own query searches for the input itself |
| Optimistic.HandedText | CODE/optimistic.py:66-86 | the text handed on is non-empty and already stripped: the stripped reply, the first fallback paragraph for a blank reply, the second when anything raised |
| Optimistic.ChooseResponse | CODE/optimistic.py:66-69 | the branch-by-branch choice of the text equals `HandedText` |
| Optimistic.EmptyReplyFallbackTrimmed | CODE/optimistic.py:69 | the first fallback paragraph is non-empty and its own strip |
| Optimistic.FailureFallbackTrimmed | CODE/optimistic.py:82-85 | the second fallback paragraph is non-empty and its own strip |
| Optimistic.HandedConfidence | CODE/optimistic.py:71-86 | the confidence handed on lies in [0, 1] and is 0.5 when anything raised |
| Optimistic.NodeResult | CODE/optimistic.py:36-88 | the optimist slot always ends up answered with the handed text and confidence; one history entry records them; the other slots are untouched; the rest is the copy with the search text recorded |
| Optimistic.OptimisticNode | CODE/optimistic.py:36-88 | the method builds a fresh object holding `NodeResult` |
| Realistic.CalculateRealistConfidence | CODE/realistic.py:11-27 | the realist's confidence lies in [0, 1] |
| Realistic.RealistConfidenceIsSum | CODE/realistic.py:11-27 | the confidence is the topic base, plus 0.3 exactly when the search text is not blank, plus 0.4 exactly when a practical word occurs |
| Realistic.RealistTopicBaseTable | CODE/realistic.py:13-18 | the base is 0.3 for career and education, 0.2 for technical, 0 otherwise |
| Realistic.RealistWebBonus | CODE/realistic.py:19-20 | a non-blank search text earns exactly 0.3 more than a blank one |
| Realistic.RealistConfidenceGrowsWithInput | CODE/realistic.py:21-26 | appending text to the input never lowers the confidence |
| Realistic.RealistQueryMentionsInput | CODE/realistic.py:32-38 | every search query contains the input; a topic without its own query searches for the input itself |
| Realistic.SourcesAlwaysAppended | CODE/realistic.py:56-57 | the guard always holds, so the sources block is appended whatever the search returned |
| Realistic.SourcesBlockSurvivesStrip | CODE/realistic.py:54-60 | the stored text always contains "Sources :" and is never blank |
| Realistic.SourcesBlockKeptWhole | CODE/realistic.py:54-60 | a visible reply with a search text ending in a visible character is stored as reply, heading and search text, exactly |
| Realistic.HandedText | CODE/realistic.py:54-71 | the text handed on is never blank; after a reply it is the stripped reply followed by the sources heading and the search text, so it names its sources; after a failure it is the fixed apology |
| Realistic.HandedConfidence | CODE/realistic.py:59-71 | the heuristic on the search text after a reply, 0.1 when anything raised; always in [0, 1] |
| Realistic.TroubleTextTrimmed | CODE/realistic.py:69 | the apology is its own strip |
| Realistic.NodeResult | CODE/realistic.py:28-72 | the realist slot always ends up answered with the handed text stripped; one history entry records it; the other slots are untouched; the rest is the copy with the search text recorded |
| Realistic.RealistAnswerShape | CODE/realistic.py:54-71 | after a reply the stored answer is the strip of the stripped reply, the sources heading and the search text, and names its sources; after a failure it is the fixed apology at 0.1 |
| Realistic.RealisticNode | CODE/realistic.py:28-72 | the method builds a fresh object holding `NodeResult` |
| Planner.AnalyzeTopicType | CODE/planner.py:14-26 | the label is always one of the four topics; a non-`general` label is the model's reply, stripped and lowered; a known reply is taken as is |
| Planner.AnalyzeTopicTypeNormalForm | CODE/planner.py:22-23 | only the reply's letters matter, not its case or surrounding whitespace |
| Planner.GenerateExpertResponse | CODE/planner.py:28-44 | the expert text is the model's reply stripped, hence its own strip, and is the request for more detail when the call raised |
| Planner.ExpertResponseEmptyIff | CODE/planner.py:41-44 | the expert text is empty exactly when the model's reply was blank |
| Planner.CalculateExpertConfidence | CODE/planner.py:46-62 | the planner's confidence lies in [0, 1] |
| Planner.ExpertConfidenceIsSum | CODE/planner.py:46-62 | the confidence is the topic base, plus 0.3 exactly when the search text is not blank, plus 0.3 exactly when an expert word occurs |
| Planner.ExpertTopicBaseTable | CODE/planner.py:48-53 | the base is 0.4 for technical, 0.3 for career and education, 0 otherwise |
| Planner.ExpertWebBonus | CODE/planner.py:54-55 | a non-blank search text earns exactly 0.3 more than a blank one |
| Planner.ExpertConfidenceGrowsWithInput | CODE/planner.py:56-61 | appending text to the input never lowers the confidence |
| Planner.PlannerQueryMentionsInput | CODE/planner.py:71-77 | every search query contains the input |
| Planner.NodeResult | CODE/planner.py:64-106 | the topic is overwritten by the label and the search text recorded; no history entry and no buffer refresh; the expert text and heuristic on success, the error text at 0.0 on failure; the other slots are untouched |
| Planner.PlannerFilledIff | CODE/planner.py:87-106 | the planner slot counts as answered afterwards unless the node completed with a blank expert reply; the error path always answers |
| Planner.PlannerNode | CODE/planner.py:64-106 | the method builds a fresh object holding `NodeResult` |
| Routing.ClassifyTopic | CODE/app.py:31-39 | the classifier yields career, education or technical, never anything else |
| Routing.ClassifyTopicRules | CODE/app.py:32-39 | internship or job gives career; else study or course gives education; else a technology word gives technical; else career |
| Routing.ClassifyTopicIgnoresCase | CODE/app.py:32-36 | the classifier reads the lowered input |
| Routing.CareerWordsWin | CODE/app.py:32-33 | once "internship" or "job" occurs, no further text changes the verdict |
| Routing.FirstEmpty | CODE/app.py:41-68 | a named specialist is listed in the order and unanswered, and every one before it in the order is answered; the turn ends exactly when all three are answered |
| Routing.ClassifiedKeepsSlots | CODE/app.py:31-39 | assigning the topic changes no slot and no routing verdict of any order |
| Routing.SelectNextChangesOnlyTopic | CODE/app.py:26-74 | the router changes at most the topic, and only on the system's turn with visible input and an unset or empty topic; in that case it always sets the classifier's topic; the slots are kept |
| Routing.SelectNextKeeps | CODE/app.py:26-74 | the router keeps the slots, the input, the active agent and the final response |
| Routing.SelectNextBlankEnds | CODE/app.py:28-29 | blank input ends the turn and leaves the state as it is, whatever the other fields |
| Routing.SelectNextNeverNamesAnswered | CODE/app.py:41-68 | the router never names a specialist whose slot is answered |
| Routing.SelectNextSystemOrder | CODE/app.py:30-46 | on the system's turn with visible input, the route is the first unanswered slot in optimist, realist, planner order, whatever the topic |
| Routing.SelectNextTopicOrder | CODE/app.py:48-70 | otherwise the route is the first unanswered slot in the topic's order, and any other topic ends the turn |
| Routing.SelectNextRoutesIff | CODE/app.py:26-70 | the router names a specialist exactly when the input is visible, some slot is unanswered, and it is the system's turn or the topic has an order |
| Routing.SelectNextOn | CODE/app.py:26-74 | the method assigns the topic in place and returns the route, together exactly `SelectNext` |
| Routing.SelectNextKeepsAt | CODE/app.py:26-74 | `select_next` meets the driver's requirements on a state |
| Routing.SelectNextAsksAllAt | CODE/app.py:30-46 | on the system's turn with visible input, `select_next` ends the turn exactly when every slot is answered |
| Routing.SelectNextIsRouter | CODE/app.py:26-74 | both of the above, on every state |
| Routing.RunNodeFacts | CODE/app.py:12-14 | a node answers its own slot (the planner unless its reply was blank) and keeps the other slots, the input, the active agent and the final response |
| Routing.NodesKeep | CODE/app.py:12-14 | every node of the wired table keeps what the driver relies on |
| Routing.NodesAnswer | CODE/app.py:12-14 | with a planner that answers, every node answers its slot; a planner with a blank reply leaves its slot unanswered |
| Routing.Drive | CODE/app.py:76-85 | the driver runs at most its budget of nodes |
| Routing.DriveStep | CODE/app.py:76-85 | one driver round: the end, the budget running out, or one node and the rest of the run |
| Routing.AnswerOneSlot | CODE/app.py:41-68 | answering one unanswered slot and touching no other leaves one unanswered slot fewer |
| Routing.DriveFinishes | CODE/app.py:26-85 | when every node answers its slot, the run ends on its own after at most as many nodes as there are unanswered slots, three at most |
| Routing.DriveKeeps | CODE/app.py:76-85 | the run hands back the input, the active agent and the final response it started with |
| Routing.DriveFromSystemFillsAll | CODE/app.py:30-46 | a run from the system's turn on visible input that ends on its own ends with all three slots answered |
| Routing.BlankPlannerNeverFinishes | CODE/app.py:45-46 | with a planner that never answers, the run never ends on its own and uses the whole budget |
| App.SystemIntro | CODE/app.py:16-20 | the copy has the system active and the greeting as its final response; slots, confidences, input, history, web results and ids are kept, the buffer is the validated copy's and the topic is normalised |
| App.SystemIntroNode | CODE/app.py:16-20 | the method builds a fresh object holding `SystemIntro` |
| App.CreateInitialState | CODE/app.py:87-105 | the initial state has the input and session id, no answer, zero confidences, empty buffer and history, the default user id, and the topic `general` |
| App.CreateInitialStateOn | CODE/app.py:87-105 | the constructor call builds a fresh object holding `CreateInitialState` |
| App.SystemReply | CODE/app.py:124-129 | a reply state carries the input and the system's text, has the system active, no answer, no topic, and empty buffer and history |
| App.StartTopic | CODE/app.py:130-133 | the topic at the start of the graph is career when the lowered input contains a career word, `general` otherwise; the router's classifier then leaves the state unchanged |
| App.StartStateFacts | CODE/app.py:16-23 | the graph starts with the system active and the greeting as final response |
| App.AgentLinesAppend | CODE/app.py:162-165 | the agent lines of two buffers one after the other are those of the first, then those of the second |
| App.AgentLinesShowEntry | CODE/app.py:162-165 | every buffer item with text and a known persona key has its labelled line among the agent lines |
| App.RenderGreetsFirstTurn | CODE/app.py:151-152 | the transcript opens with the greeting exactly when the history is empty |
| App.RenderLayout | CODE/app.py:149-171 | the user's stripped line follows the optional greeting, then the agent lines in buffer order, then the closing question, which is the career one exactly on a career turn |
| App.RenderShowsEveryAnswer | CODE/app.py:162-171 | the transcript contains the labelled line of every displayable buffer item |
| App.RenderNotEmpty | CODE/app.py:149-171 | the transcript is never empty |
| App.FinishTurnIdempotent | CODE/app.py:148-173 | afterwards there is always a final response; running the tail twice is running it once; a state with a final response is left as it is |
| App.AppendAgentLines | CODE/app.py:162-165 | the loop appends exactly the agent lines of the buffer |
| App.BuildTranscript | CODE/app.py:149-171 | the lines built step by step and joined are exactly `Render` of the state |
| App.FinishTurnOn | CODE/app.py:148-173 | the object's new value is `FinishTurn` of its old value |
| App.DriveAnswersAll | CODE/app.py:135-137 | from the system's turn on visible input, with nodes that answer, three steps suffice: the run ends on its own with every slot answered and the input, active agent and final response unchanged |
| App.RunGraphRejects | CODE/app.py:123-129 | `None` or the empty string gets the fixed request for valid input, with the system active, `str(input)` as input and no answer |
| App.RunGraphWhitespace | CODE/app.py:130-173 | whitespace-only input passes the guard, and the turn ends at once with the greeting and no answer |
| App.RunGraphAnswersAll | CODE/app.py:130-173 | on visible input, with nodes that answer and a budget of three, every specialist answers and the greeting remains the final response, so no transcript is rendered |
| App.RunGraphBlankPlanner | CODE/app.py:135-146 | on visible input, a planner that never answers makes the turn end with the workflow apology, whatever the budget |
| App.RunConversationAnswersAll | CODE/app.py:121-173 | the same on the wired graph, for a planner whose reply is never blank |
| App.RunConversationBlankPlanner | CODE/app.py:135-146 | the same on the wired graph, for a planner that always completes with a blank expert reply |

## Left out

- Graph wiring (CODE/app.py:10-14, 22-23, 76-85) is not modelled. The library calls are replaced
  by `Routing.Drive`: ask `select_next`, run the node it names, repeat.
  - As written, the wiring could not run. `add_transition` is not a method of the graph class, and
    the registered node names `relaistic` and `optimistic` do not match the router's labels
    `realist` and `optimist`. `Drive` models the evident intent.
- `Routing.Drive`: the graph engine's recursion limit is the `fuel` budget. Running out of it
  stands for the exception that `run_conversation` turns into the workflow apology.
- `extract_final_state` (CODE/app.py:107-119): the graph's result is taken to be the state itself.
- The outer exception handler of `run_conversation` (CODE/app.py:175-183). Nothing in the model
  raises outside the collaborators.
- Language model, web search, conversation memory and vector store calls. Their outcomes are
  parameters: `Reply` values, search texts, and a flag for the planner's memory calls. The
  optimist's and realist's memory saves are dropped, since the nodes do not use their result.
- `print`, tracebacks and `load_dotenv`.
- `uuid4`: the session id is a parameter.
- The fields `is_voice_input`, `user_emotion`, `user_intent`, `memory_context` and
  `is_concurrent` are carried but never read, so they are not modelled.
- `initialize_state` (CODE/state.py:118-119) builds a state from no values. It is not part of
  this model.
- Non-string input to `run_conversation` is modelled only as `None`. `str(x)` of other objects
  is not modelled.
- `float(x)` on arbitrary values is abstracted to "numeric or not". Which texts are numeric is
  not modelled.
- `lower` is ASCII-only; `strip` uses Python's `str.isspace` set.
- IEEE float rounding: confidences are exact reals.
- Pydantic field type coercion beyond `validate_state` and `update_response_buffer`.
- CODE/memory.py, CODE/memory_store.py, websearch, speech and UI modules, and prompt templates.
- The response buffer is a sequence of (key, text) pairs in insertion order, standing for
  Python's insertion-ordered dict.
