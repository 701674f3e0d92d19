/** The two-node travel planner graph (3_build_and_deploy_agent.py and its
    copy inside 3_deploy_langGraph_agent/server.py): the `PlannerState`
    record, the `input_interest` and `create_itinerary` nodes, the linear
    workflow, and the server's one-time graph construction. The ReAct agent
    behind `create_itinerary` is opaque: what it returned, or the message of
    what it raised, is a parameter. */
module Planner {
  import opened Options

  datatype Message = Human(content: string) | Ai(content: string)

  /** `PlannerState` as the dictionary LangGraph passes around: any key may be
      absent, which is `None` here. */
  datatype PlannerState = PlannerState(
    messages: Option<seq<Message>>,
    itinerary: Option<string>,
    city: Option<string>,
    userMessage: Option<string>,
    weatherInfo: Option<string>,
    attractionsInfo: Option<string>)

  /** `input_interest`: a missing or empty message list becomes `[]`; nothing
      else changes. */
  function InputInterest(s: PlannerState): (r: PlannerState)
    ensures r.(messages := s.messages) == s
    ensures r.messages == Some(s.messages.GetOr([]))
  {
    if s.messages.None? || s.messages.value == [] then s.(messages := Some([])) else s
  }

  lemma InputInterestIdempotent(s: PlannerState)
    ensures InputInterest(InputInterest(s)) == InputInterest(s)
  {
  }

  /** What `invoke` on the ReAct agent did: returned a value (with its
      `"output"` entry when it is a dict holding one, and its `str()`), or
      raised an exception with the given `str(e)`. */
  datatype AgentOutcome = Returned(output: Option<string>, shown: string) | Raised(error: string)

  /** The error texts of the two copies of the node. */
  const ServerErrorPrefix := "Error creating itinerary: "
  const NotebookErrorPrefix := "I apologize, but I encountered an error while creating your itinerary: "

  /** A node either returns the next state or raises out of the graph. */
  datatype NodeResult = Ok(state: PlannerState) | NodeRaised

  /** The itinerary text a returned agent result yields. */
  function ItineraryOf(output: Option<string>, shown: string): string {
    output.GetOr(shown)
  }

  /** `create_itinerary`. Reading `state['user_message']` raises when the key
      is absent, in the `try` and again in the `except`; the `except` branch
      also reads `state['messages']` without a default. */
  function CreateItinerary(s: PlannerState, agent: AgentOutcome, errorPrefix: string): (r: NodeResult)
    ensures r.Ok? <==> s.userMessage.Some? && (agent.Returned? || s.messages.Some?)
    ensures r.Ok? ==> r.state.(messages := s.messages, itinerary := s.itinerary) == s
    ensures r.Ok? ==> r.state.itinerary.Some?
    ensures r.Ok? ==> r.state.messages == Some(s.messages.GetOr([]) + [Human(s.userMessage.value), Ai(r.state.itinerary.value)])
    ensures r.Ok? && agent.Returned? ==> r.state.itinerary.value == ItineraryOf(agent.output, agent.shown)
    ensures r.Ok? && agent.Raised? ==> r.state.itinerary.value == errorPrefix + agent.error
  {
    match s.userMessage
    case None => NodeRaised
    case Some(question) =>
      match agent
      case Returned(output, shown) =>
        var itinerary := ItineraryOf(output, shown);
        Ok(s.(messages := Some(s.messages.GetOr([]) + [Human(question), Ai(itinerary)]),
              itinerary := Some(itinerary)))
      case Raised(e) =>
        if s.messages.None? then NodeRaised
        else
          var text := errorPrefix + e;
          Ok(s.(messages := Some(s.messages.value + [Human(question), Ai(text)]),
                itinerary := Some(text)))
  }

  // ---------------------------------------------------------------------------
  // The workflow

  datatype Node = InputUserInterests | CreateItineraryNode
  datatype Target = To(node: Node) | End

  function NodeName(n: Node): string {
    match n
    case InputUserInterests => "input_user_interests"
    case CreateItineraryNode => "create_itinerary"
  }

  const EntryPoint := InputUserInterests

  /** The graph's edges. */
  function Edge(n: Node): Target {
    match n
    case InputUserInterests => To(CreateItineraryNode)
    case CreateItineraryNode => End
  }

  function Apply(n: Node, s: PlannerState, agent: AgentOutcome, errorPrefix: string): NodeResult {
    match n
    case InputUserInterests => Ok(InputInterest(s))
    case CreateItineraryNode => CreateItinerary(s, agent, errorPrefix)
  }

  /** Nodes still to be visited from a target. */
  function Remaining(t: Target): nat {
    match t
    case End => 0
    case To(InputUserInterests) => 2
    case To(CreateItineraryNode) => 1
  }

  /** Runs the compiled graph from its entry point, following edges until
      END, and stops early when a node raises. The path is fixed: the input
      node, then the itinerary node. */
  method RunGraph(input: PlannerState, agent: AgentOutcome, errorPrefix: string)
    returns (r: NodeResult, visited: seq<Node>)
    ensures visited == [InputUserInterests, CreateItineraryNode]
    ensures r == CreateItinerary(InputInterest(input), agent, errorPrefix)
  {
    var at := To(EntryPoint);
    r := Ok(input);
    visited := [];
    while at.To?
      invariant |visited| + Remaining(at) == 2
      invariant visited == [InputUserInterests, CreateItineraryNode][..|visited|]
      invariant |visited| == 0 ==> at == To(EntryPoint) && r == Ok(input)
      invariant |visited| == 1 ==> at == To(CreateItineraryNode) && r == Ok(InputInterest(input))
      invariant |visited| == 2 ==> at == End && r == CreateItinerary(InputInterest(input), agent, errorPrefix)
      decreases Remaining(at)
    {
      var n := at.node;
      r := Apply(n, r.state, agent, errorPrefix);
      visited := visited + [n];
      at := Edge(n);
    }
  }

  /** With a user message in the input, the run always completes and adds
      exactly the question and the answer to the conversation. */
  lemma RunAddsOneExchange(input: PlannerState, agent: AgentOutcome, errorPrefix: string)
    requires input.userMessage.Some?
    ensures var r := CreateItinerary(InputInterest(input), agent, errorPrefix);
            && r.Ok?
            && r.state.messages.value == input.messages.GetOr([]) + [Human(input.userMessage.value), Ai(r.state.itinerary.value)]
  {
  }

  // ---------------------------------------------------------------------------
  // initialize_resources

  /** A compiled graph, told apart by the build that produced it. */
  datatype App = App(build: nat)

  /** The module globals: the cached graph and how many times one was built. */
  datatype Globals = Globals(app: Option<App>, builds: nat)

  /** `initialize_resources`: builds the graph only when none is cached.
      `buildFails` says whether the imports or the build raise this time; the
      exception then reaches the request, which gets no graph, and nothing
      is cached, so the next request builds again. */
  function InitializeResources(g: Globals, buildFails: bool): (r: (Globals, Option<App>))
    ensures g.app.Some? ==> r == (g, g.app)
    ensures g.app.None? && buildFails ==> r == (g, None)
    ensures g.app.None? && !buildFails ==> r.0.builds == g.builds + 1 && r.1.Some? && r.0.app == r.1
  {
    match g.app
    case Some(a) => (g, Some(a))
    case None =>
      if buildFails then (g, None)
      else
        var a := App(g.builds);
        (Globals(Some(a), g.builds + 1), Some(a))
  }

  /** `n` requests in a row, each calling `initialize_resources`; request `k`
      finds the build failing when `fails(k)`. Returns the final globals and
      the graph each request got, `None` for a request whose build raised. */
  function Serve(g: Globals, fails: nat -> bool, n: nat): (Globals, seq<Option<App>>)
  {
    if n == 0 then (g, [])
    else
      var (g', apps) := Serve(g, fails, n - 1);
      var (g'', a) := InitializeResources(g', fails(n - 1));
      (g'', apps + [a])
  }

  /** The build raised for every one of the first `k` requests. */
  ghost predicate FailedBefore(fails: nat -> bool, k: nat) {
    forall j: nat :: j < k ==> fails(j)
  }

  /** However many requests a fresh process serves, the graph is built at
      most once: a request gets no graph exactly when every build up to and
      including its own raised, and every request that gets one gets the
      same graph, the one left cached. */
  lemma {:induction false} BuiltOnce(g: Globals, fails: nat -> bool, n: nat)
    requires g.app.None?
    ensures |Serve(g, fails, n).1| == n
    ensures Serve(g, fails, n).0.app.Some? <==> !FailedBefore(fails, n)
    ensures Serve(g, fails, n).0.builds == g.builds + (if FailedBefore(fails, n) then 0 else 1)
    ensures forall k :: 0 <= k < n ==> (Serve(g, fails, n).1[k].None? <==> FailedBefore(fails, k + 1))
    ensures forall k :: 0 <= k < n && Serve(g, fails, n).1[k].Some? ==> Serve(g, fails, n).1[k] == Serve(g, fails, n).0.app
  {
    if n > 0 {
      BuiltOnce(g, fails, n - 1);
      var (g', apps) := Serve(g, fails, n - 1);
      var (g'', a) := InitializeResources(g', fails(n - 1));
      assert Serve(g, fails, n) == (g'', apps + [a]);
      if FailedBefore(fails, n - 1) && !fails(n - 1) {
        assert !FailedBefore(fails, n);
      }
      if !FailedBefore(fails, n - 1) {
        assert !FailedBefore(fails, n) by {
          var j: nat :| j < n - 1 && !fails(j);
        }
      }
    }
  }
}
