/** The hand-off logic of CODE/app.py: `select_next`, which classifies the topic on the system's
    turn and names the first unanswered specialist in a fixed order, and an abstract driver that
    runs the named specialist until the router says the turn is over. */
module Routing {
  import opened Wrappers
  import opened Text
  import opened Turn
  import Optimistic
  import Realistic
  import Plan = Planner

  /** What `select_next` returns: a specialist's label, or `END`. */
  datatype Route = Next(agent: Specialist) | End

  /** The order in which a chain of tests in `select_next` looks at the three slots. */
  datatype Order = Order(first: Specialist, second: Specialist, third: Specialist)

  /** The order on the system's turn, whatever the topic. */
  const SystemOrder: Order := Order(Optimist, Realist, Planner)

  const CareerOrder: Order := Order(Optimist, Realist, Planner)
  const EducationOrder: Order := Order(Realist, Optimist, Planner)
  const TechnicalOrder: Order := Order(Planner, Realist, Optimist)

  /** `a` is one of the three places of `o`. */
  predicate Lists(o: Order, a: Specialist)
  {
    a == o.first || a == o.second || a == o.third
  }

  const TechnicalWords: seq<string> := ["programming", "software", "technology", "code"]

  // ---------------------------------------------------------------------------------------------
  // The keyword classifier

  /** The topic `select_next` assigns on the system's turn when none is set: the first rule that
      matches the lowered input wins, and career is also the default. */
  function ClassifyTopic(userInput: string): (r: string)
    ensures r == Career || r == Education || r == Technical
  {
    var lowered := Lower(userInput);
    if Contains(lowered, "internship") || Contains(lowered, "job") then Career
    else if Contains(lowered, "study") || Contains(lowered, "course") then Education
    else if ContainsAny(lowered, TechnicalWords) then Technical
    else Career
  }

  /** The rules by priority: education needs a study word and no career word, technical needs a
      technology word and neither of the others, everything else is career. */
  lemma ClassifyTopicRules(userInput: string)
    ensures var l := Lower(userInput);
      && (ClassifyTopic(userInput) == Education <==>
            !Contains(l, "internship") && !Contains(l, "job") && (Contains(l, "study") || Contains(l, "course")))
      && (ClassifyTopic(userInput) == Technical <==>
            !Contains(l, "internship") && !Contains(l, "job") && !Contains(l, "study") && !Contains(l, "course")
            && exists k :: 0 <= k < |TechnicalWords| && Contains(l, TechnicalWords[k]))
  {
    ContainsAnyIff(Lower(userInput), TechnicalWords);
  }

  /** Case does not matter to the classifier. */
  lemma ClassifyTopicIgnoresCase(userInput: string)
    ensures ClassifyTopic(Lower(userInput)) == ClassifyTopic(userInput)
  {
    LowerIdempotent(userInput);
  }

  /** Once the input mentions an internship or a job, nothing said after it changes the topic
      from career. */
  lemma CareerWordsWin(userInput: string, more: string)
    requires Contains(Lower(userInput), "internship") || Contains(Lower(userInput), "job")
    ensures ClassifyTopic(userInput + more) == Career
  {
    LowerAppend(userInput, more);
    assert Lower(userInput + more) == [] + Lower(userInput) + Lower(more);
    if Contains(Lower(userInput), "internship") {
      ContainsExtend([], Lower(userInput), Lower(more), "internship");
    } else {
      ContainsExtend([], Lower(userInput), Lower(more), "job");
    }
  }

  // ---------------------------------------------------------------------------------------------
  // select_next

  /** The first specialist of `o` whose slot is unanswered, or `End` when all three are answered:
      it names a specialist of `o` that has not answered and skips only those that have. */
  function FirstEmpty(s: TurnState, o: Order): (r: Route)
    ensures r.Next? ==> Lists(o, r.agent) && !Filled(s, r.agent)
    ensures r.End? <==> Filled(s, o.first) && Filled(s, o.second) && Filled(s, o.third)
    ensures r == Next(o.second) && o.second != o.first ==> Filled(s, o.first)
    ensures r == Next(o.third) && o.third != o.first && o.third != o.second ==> Filled(s, o.first) && Filled(s, o.second)
  {
    if !Filled(s, o.first) then Next(o.first)
    else if !Filled(s, o.second) then Next(o.second)
    else if !Filled(s, o.third) then Next(o.third)
    else End
  }

  /** The router's own topic assignment changes no slot. */
  lemma ClassifiedKeepsSlots(s: TurnState)
    ensures forall a :: ResponseOf(Classified(s), a) == ResponseOf(s, a)
    ensures forall o :: FirstEmpty(Classified(s), o) == FirstEmpty(s, o)
  {
    var t := Classified(s);
    assert t.realistResponse == s.realistResponse && t.optimistResponse == s.optimistResponse
      && t.plannerResponse == s.plannerResponse;
  }

  /** The fixed order for each known topic. */
  function TopicOrder(topicType: Option<string>): Option<Order>
  {
    if topicType == Some(Career) then Some(CareerOrder)
    else if topicType == Some(Education) then Some(EducationOrder)
    else if topicType == Some(Technical) then Some(TechnicalOrder)
    else None
  }

  /** The topic-specific part of `select_next`; any other topic, `general` included, ends the turn. */
  function TopicRoute(s: TurnState): Route
  {
    match TopicOrder(s.topicType)
    case None => End
    case Some(order) => FirstEmpty(s, order)
  }

  /** The topic assignment on the system's turn: a falsy topic is replaced by the classifier's. */
  function Classified(s: TurnState): TurnState
  {
    if s.activeAgent == Some(SystemAgent) && !Truthy(s.topicType) then s.(topicType := Some(ClassifyTopic(s.userInput)))
    else s
  }

  /** What one call of `select_next` produces: the state as it leaves it, and the route. */
  datatype Decision = Decision(state: TurnState, route: Route)

  /** `select_next(state)`: the state as the router leaves it (it may assign the topic), and the
      route it returns. */
  function SelectNext(s: TurnState): Decision
  {
    Decision(RouterState(s), RouteOf(s))
  }

  /** The state `select_next` leaves behind: on visible input, the topic assignment. */
  function RouterState(s: TurnState): TurnState
  {
    if IsBlank(s.userInput) then s else Classified(s)
  }

  /** The label `select_next` returns: `END` on blank input, else the first unanswered slot of the
      system's order on the system's turn, else the topic's route. */
  function RouteOf(s: TurnState): Route
  {
    if IsBlank(s.userInput) then End
    else
      var t := Classified(s);
      var first := if s.activeAgent == Some(SystemAgent) then FirstEmpty(t, SystemOrder) else End;
      if first.Next? then first else TopicRoute(t)
  }

  /** The router only ever assigns the topic, and only on the system's turn with no topic set. */
  lemma SelectNextChangesOnlyTopic(s: TurnState)
    ensures var t := SelectNext(s).state;
      t == s || (s.activeAgent == Some(SystemAgent) && !Truthy(s.topicType) && !IsBlank(s.userInput)
                 && t == s.(topicType := Some(ClassifyTopic(s.userInput))))
    ensures s.activeAgent == Some(SystemAgent) && !Truthy(s.topicType) && !IsBlank(s.userInput) ==>
      SelectNext(s).state.topicType == Some(ClassifyTopic(s.userInput))
    ensures forall a :: ResponseOf(SelectNext(s).state, a) == ResponseOf(s, a)
  {
    var t := RouterState(s);
    assert t.realistResponse == s.realistResponse && t.optimistResponse == s.optimistResponse
      && t.plannerResponse == s.plannerResponse;
  }

  /** The router leaves the slots, the input, the active agent and the final response alone. */
  lemma SelectNextKeeps(s: TurnState)
    ensures var t := SelectNext(s).state;
      && (forall a :: ResponseOf(t, a) == ResponseOf(s, a))
      && t.userInput == s.userInput && t.activeAgent == s.activeAgent && t.finalResponse == s.finalResponse
  {
    var t := Classified(s);
    assert t.realistResponse == s.realistResponse && t.optimistResponse == s.optimistResponse
      && t.plannerResponse == s.plannerResponse;
  }

  /** Blank input ends the turn whatever else the state holds. */
  lemma SelectNextBlankEnds(s: TurnState)
    requires IsBlank(s.userInput)
    ensures SelectNext(s) == Decision(s, End)
  {
  }

  /** The router never names a specialist that has already answered. */
  lemma SelectNextNeverNamesAnswered(s: TurnState)
    ensures SelectNext(s).route.Next? ==> !Filled(s, SelectNext(s).route.agent)
  {
    SelectNextChangesOnlyTopic(s);
  }

  /** On the system's turn the order is optimist, realist, planner, whatever the topic. */
  lemma SelectNextSystemOrder(s: TurnState)
    requires !IsBlank(s.userInput) && s.activeAgent == Some(SystemAgent)
    ensures SelectNext(s).route == FirstEmpty(s, SystemOrder)
  {
    ClassifiedKeepsSlots(s);
  }

  /** Off the system's turn the order is the topic's own, and an unknown topic ends the turn. */
  lemma SelectNextTopicOrder(s: TurnState)
    requires !IsBlank(s.userInput) && s.activeAgent != Some(SystemAgent)
    ensures SelectNext(s).route == (if TopicOrder(s.topicType).Some? then FirstEmpty(s, TopicOrder(s.topicType).value) else End)
  {
  }

  /** The router names a specialist exactly when the input is not blank, someone has not answered,
      and it is the system's turn or the topic is one of the three known ones. */
  lemma SelectNextRoutesIff(s: TurnState)
    ensures SelectNext(s).route.Next? <==>
      !IsBlank(s.userInput) && (exists a :: !Filled(s, a))
      && (s.activeAgent == Some(SystemAgent) || TopicOrder(s.topicType).Some?)
  {
    var t := Classified(s);
    assert forall a :: Filled(t, a) == Filled(s, a);
  }

  /** `select_next` on the object: it assigns the object's topic in place. */
  method SelectNextOn(state: AgentState) returns (route: Route)
    modifies state
    ensures Decision(state.Values(), route) == SelectNext(old(state.Values()))
  {
    ghost var s := state.Values();
    if IsBlank(state.userInput) {
      return End;
    }
    if state.activeAgent == Some(SystemAgent) {
      if !Truthy(state.topicType) {
        state.SetTopicType(Some(ClassifyTopic(state.userInput)));
      }
      assert state.Values() == Classified(s);
      route := FirstEmpty(state.Values(), SystemOrder);
      if route.Next? {
        return;
      }
    }
    assert state.Values() == Classified(s);
    route := TopicRoute(state.Values());
  }

  // ---------------------------------------------------------------------------------------------
  // The driver

  /** What the specialists' collaborators do on each step of the turn, by step number. */
  datatype Calls = Calls(
    optimist: nat -> Optimistic.OptimistCall,
    realist: nat -> Realistic.RealistCall,
    planner: nat -> Plan.PlannerCall)

  /** The node for a route label, run on step `k`. */
  function RunNode(s: TurnState, a: Specialist, calls: Calls, k: nat): TurnState
  {
    match a
    case Optimist => Optimistic.NodeResult(s, calls.optimist(k))
    case Realist => Realistic.NodeResult(s, calls.realist(k))
    case Planner => Plan.NodeResult(s, calls.planner(k))
  }

  /** The planner's call leaves its slot answered: it did not end with a blank expert reply. */
  predicate PlannerAnswers(call: Plan.PlannerCall)
  {
    !(call.archived && call.reply.Ok? && IsBlank(call.reply.text))
  }

  /** A node answers its own slot (the planner unless its reply was blank), leaves the other
      slots, the input, the active agent and the final response alone. */
  lemma RunNodeFacts(s: TurnState, a: Specialist, calls: Calls, k: nat)
    ensures var r := RunNode(s, a, calls, k);
      && (Filled(r, a) <==> (a == Planner ==> PlannerAnswers(calls.planner(k))))
      && (forall b :: b != a ==> ResponseOf(r, b) == ResponseOf(s, b))
      && r.userInput == s.userInput && r.activeAgent == s.activeAgent && r.finalResponse == s.finalResponse
  {
    CopyFacts(s);
    match a
    case Optimist =>
      var r := Optimistic.NodeResult(s, calls.optimist(k));
      assert Frame(r).userInput == Frame(Copy(s)).userInput;
    case Realist =>
      var r := Realistic.NodeResult(s, calls.realist(k));
      assert Frame(r).userInput == Frame(Copy(s)).userInput;
    case Planner =>
      var r := Plan.NodeResult(s, calls.planner(k));
      Plan.PlannerFilledIff(s, calls.planner(k));
      assert Frame(r).userInput == Frame(Copy(s)).userInput;
  }

  /** The node table the graph wires up: the route label and the step number pick the node. */
  function Nodes(calls: Calls): NodeTable
  {
    (t: TurnState, a: Specialist, j: nat) => RunNode(t, a, calls, j)
  }

  /** The graph as the driver sees it: the conditional edge taken after every node, and the node
      table. */
  type Router = TurnState -> Decision
  type NodeTable = (TurnState, Specialist, nat) -> TurnState

  /** What the driver relies on from a node: the other slots, the input, the active agent and the
      final response stay as they were. */
  predicate StepKeeps(run: NodeTable, t: TurnState, a: Specialist, j: nat)
  {
    var r := run(t, a, j);
    (forall b :: b != a ==> ResponseOf(r, b) == ResponseOf(t, b))
    && r.userInput == t.userInput && r.activeAgent == t.activeAgent && r.finalResponse == t.finalResponse
  }

  /** What the driver relies on from the router on a state: it keeps the slots, the input, the
      active agent and the final response, and it names only specialists that have not answered. */
  predicate RouterKeeps(router: Router, x: TurnState)
  {
    var d := router(x);
    (forall a :: ResponseOf(d.state, a) == ResponseOf(x, a))
    && d.state.userInput == x.userInput && d.state.activeAgent == x.activeAgent
    && d.state.finalResponse == x.finalResponse
    && (d.route.Next? ==> !Filled(x, d.route.agent))
  }

  /** On the system's turn with visible input the router ends the turn exactly when every slot is
      answered. */
  predicate RouterAsksAll(router: Router, x: TurnState)
  {
    x.activeAgent == Some(SystemAgent) && !IsBlank(x.userInput) ==> (router(x).route.End? <==> AllAnswered(x))
  }

  /** `select_next` keeps what the driver relies on, on every state. */
  lemma SelectNextKeepsAt(x: TurnState)
    ensures RouterKeeps(SelectNext, x)
  {
    SelectNextKeeps(x);
    SelectNextNeverNamesAnswered(x);
  }

  /** `select_next` on the system's turn asks until every specialist has answered. */
  lemma SelectNextAsksAllAt(x: TurnState)
    ensures RouterAsksAll(SelectNext, x)
  {
    SelectNextRoutesIff(x);
    if !AllAnswered(x) {
      assert !Filled(x, Realist) || !Filled(x, Optimist) || !Filled(x, Planner);
    }
  }

  /** `select_next` is such a router on every state. */
  lemma SelectNextIsRouter()
    ensures forall x :: RouterKeeps(SelectNext, x) && RouterAsksAll(SelectNext, x)
  {
    forall x ensures RouterKeeps(SelectNext, x) && RouterAsksAll(SelectNext, x) {
      SelectNextKeepsAt(x);
      SelectNextAsksAllAt(x);
    }
  }

  /** Every node of the table keeps what the driver relies on. */
  lemma NodesKeep(calls: Calls)
    ensures forall t, a, j :: StepKeeps(Nodes(calls), t, a, j)
  {
    forall t, a, j ensures StepKeeps(Nodes(calls), t, a, j) {
      RunNodeFacts(t, a, calls, j);
    }
  }

  /** Every node of the table answers its slot, the planner exactly when its reply is not blank. */
  lemma NodesAnswer(calls: Calls)
    ensures (forall j :: PlannerAnswers(calls.planner(j))) ==> forall t, a, j :: Filled(Nodes(calls)(t, a, j), a)
    ensures forall t, j :: !PlannerAnswers(calls.planner(j)) ==> !Filled(Nodes(calls)(t, Planner, j), Planner)
  {
    forall t, a, j ensures (a == Planner ==> PlannerAnswers(calls.planner(j))) ==> Filled(Nodes(calls)(t, a, j), a) {
      RunNodeFacts(t, a, calls, j);
    }
    forall t, j ensures !PlannerAnswers(calls.planner(j)) ==> !Filled(Nodes(calls)(t, Planner, j), Planner) {
      RunNodeFacts(t, Planner, calls, j);
    }
  }

  /** How a driven turn ended: the last state, the number of nodes run, and whether the router
      ended the turn (rather than the step budget running out). */
  datatype DriveResult = DriveResult(state: TurnState, steps: nat, finished: bool)

  /** Ask the router, run the node it names, repeat; at most `fuel` nodes are run. */
  function Drive(s: TurnState, router: Router, run: NodeTable, fuel: nat, k: nat): (r: DriveResult)
    ensures r.steps <= fuel
    decreases fuel
  {
    var d := router(s);
    if d.route.End? then DriveResult(d.state, 0, true)
    else if fuel == 0 then DriveResult(d.state, 0, false)
    else
      var r := Drive(run(d.state, d.route.agent, k), router, run, fuel - 1, k + 1);
      r.(steps := r.steps + 1)
  }

  /** One round of the driver: the router's verdict, then either the end or one node and the rest
      of the turn. */
  lemma DriveStep(s: TurnState, router: Router, run: NodeTable, fuel: nat, k: nat)
    ensures var d, r := router(s), Drive(s, router, run, fuel, k);
      && (d.route.End? ==> r.state == d.state && r.steps == 0 && r.finished)
      && (d.route.Next? && fuel == 0 ==> r.state == d.state && r.steps == 0 && !r.finished)
      && (d.route.Next? && fuel > 0 ==>
            var e := Drive(run(d.state, d.route.agent, k), router, run, fuel - 1, k + 1);
            r.state == e.state && r.steps == e.steps + 1 && r.finished == e.finished)
  {
  }

  /** Answering one unanswered slot, and touching no other, leaves one slot fewer to answer. */
  lemma AnswerOneSlot(s: TurnState, n: TurnState, a: Specialist)
    requires !Filled(s, a) && Filled(n, a)
    requires forall b :: b != a ==> ResponseOf(n, b) == ResponseOf(s, b)
    ensures 1 <= EmptySlots(s) && EmptySlots(n) == EmptySlots(s) - 1
  {
    assert forall b :: b != a ==> Filled(n, b) == Filled(s, b);
  }

  /** When every node answers its slot, the turn ends after at most as many nodes as there are
      unanswered slots: three at most. */
  lemma {:induction false} DriveFinishes(s: TurnState, router: Router, run: NodeTable, fuel: nat, k: nat)
    requires forall x :: RouterKeeps(router, x)
    requires forall t, a, j :: StepKeeps(run, t, a, j)
    requires forall t, a, j :: Filled(run(t, a, j), a)
    requires EmptySlots(s) <= fuel
    ensures Drive(s, router, run, fuel, k).finished
    ensures Drive(s, router, run, fuel, k).steps <= EmptySlots(s) <= 3
    decreases fuel
  {
    var d := router(s);
    assert RouterKeeps(router, s);
    DriveStep(s, router, run, fuel, k);
    if d.route.Next? {
      var a := d.route.agent;
      var n := run(d.state, a, k);
      assert StepKeeps(run, d.state, a, k) && Filled(n, a);
      AnswerOneSlot(d.state, n, a);
      DriveFinishes(n, router, run, fuel - 1, k + 1);
    }
  }

  /** The driver hands back the input, the active agent and the final response it started from. */
  lemma {:induction false} DriveKeeps(s: TurnState, router: Router, run: NodeTable, fuel: nat, k: nat)
    requires forall x :: RouterKeeps(router, x)
    requires forall t, a, j :: StepKeeps(run, t, a, j)
    ensures var r := Drive(s, router, run, fuel, k).state;
      r.userInput == s.userInput && r.activeAgent == s.activeAgent && r.finalResponse == s.finalResponse
    decreases fuel
  {
    var d := router(s);
    assert RouterKeeps(router, s);
    DriveStep(s, router, run, fuel, k);
    if d.route.Next? && fuel > 0 {
      var n := run(d.state, d.route.agent, k);
      assert StepKeeps(run, d.state, d.route.agent, k);
      DriveKeeps(n, router, run, fuel - 1, k + 1);
    }
  }

  /** The driver keeps the input and the active agent, so a turn that the system drives to its
      end with visible input ends with all three slots answered. */
  lemma {:induction false} DriveFromSystemFillsAll(s: TurnState, router: Router, run: NodeTable, fuel: nat, k: nat)
    requires forall x :: RouterKeeps(router, x) && RouterAsksAll(router, x)
    requires forall t, a, j :: StepKeeps(run, t, a, j)
    requires s.activeAgent == Some(SystemAgent) && !IsBlank(s.userInput)
    ensures Drive(s, router, run, fuel, k).finished ==> AllAnswered(Drive(s, router, run, fuel, k).state)
    decreases fuel
  {
    var d := router(s);
    assert RouterKeeps(router, s) && RouterAsksAll(router, s);
    DriveStep(s, router, run, fuel, k);
    if d.route.Next? && fuel > 0 {
      var n := run(d.state, d.route.agent, k);
      assert StepKeeps(run, d.state, d.route.agent, k);
      DriveFromSystemFillsAll(n, router, run, fuel - 1, k + 1);
    }
  }

  /** A planner that never answers (it keeps archiving a blank reply, so its slot holds `""`) is
      named again and again on the system's turn: the turn never ends on its own. */
  lemma {:induction false} BlankPlannerNeverFinishes(s: TurnState, router: Router, run: NodeTable, fuel: nat, k: nat)
    requires forall x :: RouterKeeps(router, x) && RouterAsksAll(router, x)
    requires forall t, a, j :: StepKeeps(run, t, a, j)
    requires forall t, j :: !Filled(run(t, Planner, j), Planner)
    requires s.activeAgent == Some(SystemAgent) && !IsBlank(s.userInput) && !Filled(s, Planner)
    ensures !Drive(s, router, run, fuel, k).finished
    ensures Drive(s, router, run, fuel, k).steps == fuel
    decreases fuel
  {
    var d := router(s);
    assert RouterKeeps(router, s) && RouterAsksAll(router, s);
    DriveStep(s, router, run, fuel, k);
    if fuel > 0 {
      var n := run(d.state, d.route.agent, k);
      assert StepKeeps(run, d.state, d.route.agent, k);
      if d.route.agent != Planner {
        assert ResponseOf(n, Planner) == ResponseOf(d.state, Planner);
      }
      BlankPlannerNeverFinishes(n, router, run, fuel - 1, k + 1);
    }
  }
}
