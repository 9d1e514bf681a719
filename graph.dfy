/** The orchestration of src/app/core/agents/graph.py: a graph builder that the
    QA graph is assembled with, the compiled graph and how it runs a state
    through its nodes, the process-wide cache of the compiled QA graph, and
    `run_qa_flow`. */
module Graph {
  import opened Wrappers
  import opened Messages
  import opened State
  import opened Agents

  /** A place in the graph: the START and END markers or a named node. */
  datatype Endpoint = Start | End | NodeAt(name: string)

  /** Which node function a node runs. */
  datatype Step = RetrievalStep | SummarizationStep | VerificationStep

  datatype Edge = Edge(source: Endpoint, target: Endpoint)

  /** What a compiled graph holds: its nodes by name and its edges in the
      order they were added. Nothing about any question is in it. */
  datatype Shape = Shape(nodes: map<string, Step>, edges: seq<Edge>)

  /** The three agents the nodes call. */
  datatype Stages = Stages(retrieval: Agent, summarization: Agent, verification: Agent)

  /** Runs one node function on the state. */
  function Apply(step: Step, agents: Stages, s: QAState): Result<Update> {
    match step
    case RetrievalStep => Retrieval(s, agents.retrieval)
    case SummarizationStep => Summarization(s, agents.summarization)
    case VerificationStep => Verification(s, agents.verification)
  }

  /** The target of the first edge leaving `from`, if any. */
  function Successor(edges: seq<Edge>, from: Endpoint): (r: Option<Endpoint>)
    ensures r.Some? ==> Edge(from, r.value) in edges
    ensures r.None? ==> forall e :: e in edges ==> e.source != from
  {
    if edges == [] then None
    else if edges[0].source == from then Some(edges[0].target)
    else Successor(edges[1..], from)
  }

  /** The most steps a run may take before it is abandoned. */
  const RecursionLimit: nat := 25

  /** Runs the graph from `at`: each node's partial update is merged into the
      state, then control follows the node's outgoing edge, until END. */
  function Walk(shape: Shape, agents: Stages, at: Endpoint, s: QAState, fuel: nat): Result<QAState>
    decreases fuel
  {
    if at == End then Ok(s)
    else if fuel == 0 then Err("recursion limit reached")
    else
      var next :- match at
        case NodeAt(n) =>
          if n in shape.nodes then
            var u :- Apply(shape.nodes[n], agents, s);
            Ok(Merge(s, u))
          else Err("unknown node")
        case _ => Ok(s);
      match Successor(shape.edges, at)
      case None => Err("no outgoing edge")
      case Some(target) => Walk(shape, agents, target, next, fuel - 1)
  }

  /** `graph.invoke(state)`. */
  function Execute(shape: Shape, agents: Stages, s: QAState): Result<QAState> {
    Walk(shape, agents, Start, s, RecursionLimit)
  }

  /** The endpoints visited from `at` by following first outgoing edges: the
      same `Successor` chain `Walk` follows while no node fails. */
  function Path(edges: seq<Edge>, at: Endpoint, fuel: nat): seq<Endpoint>
    decreases fuel
  {
    if at == End || fuel == 0 then [at]
    else match Successor(edges, at)
      case None => [at]
      case Some(target) => [at] + Path(edges, target, fuel - 1)
  }

  const RetrievalName: string := "retrieval"
  const SummarizationName: string := "summarization"
  const VerificationName: string := "verification"

  /** The graph `create_qa_graph` builds. */
  function QaShape(): Shape {
    Shape(
      map[RetrievalName := RetrievalStep, SummarizationName := SummarizationStep,
          VerificationName := VerificationStep],
      [Edge(Start, NodeAt(RetrievalName)),
       Edge(NodeAt(RetrievalName), NodeAt(SummarizationName)),
       Edge(NodeAt(SummarizationName), NodeAt(VerificationName)),
       Edge(NodeAt(VerificationName), End)])
  }

  // ---------------------------------------------------------------------
  // Building and caching the compiled graph

  /** `StateGraph(QAState)` while nodes and edges are being added. */
  class GraphBuilder {
    var nodes: map<string, Step>
    var edges: seq<Edge>

    constructor ()
      ensures nodes == map[] && edges == []
    {
      nodes := map[];
      edges := [];
    }

    /** `add_node`; a name may be added once only. */
    method AddNode(name: string, step: Step)
      requires name !in nodes
      modifies this
      ensures nodes == old(nodes)[name := step] && edges == old(edges)
    {
      nodes := nodes[name := step];
    }

    /** `add_edge`. */
    method AddEdge(source: Endpoint, target: Endpoint)
      modifies this
      ensures edges == old(edges) + [Edge(source, target)] && nodes == old(nodes)
    {
      edges := edges + [Edge(source, target)];
    }

    /** `compile`: a new compiled graph holding what was added so far. */
    method Compile() returns (g: CompiledGraph)
      ensures fresh(g) && g.shape == Shape(nodes, edges)
    {
      g := new CompiledGraph(Shape(nodes, edges));
    }
  }

  /** A compiled graph; it never changes once built. */
  class CompiledGraph {
    const shape: Shape

    constructor (shape: Shape)
      ensures this.shape == shape
    {
      this.shape := shape;
    }
  }

  /** `create_qa_graph`: three nodes, then four edges making the linear flow
      START -> retrieval -> summarization -> verification -> END. Every build
      yields the same shape, so two builds run any state identically. */
  method CreateQaGraph() returns (g: CompiledGraph)
    ensures fresh(g) && g.shape == QaShape()
  {
    var builder := new GraphBuilder();
    builder.AddNode(RetrievalName, RetrievalStep);
    builder.AddNode(SummarizationName, SummarizationStep);
    builder.AddNode(VerificationName, VerificationStep);
    builder.AddEdge(Start, NodeAt(RetrievalName));
    builder.AddEdge(NodeAt(RetrievalName), NodeAt(SummarizationName));
    builder.AddEdge(NodeAt(SummarizationName), NodeAt(VerificationName));
    builder.AddEdge(NodeAt(VerificationName), End);
    g := builder.Compile();
  }

  /** The one-entry cache behind `get_qa_graph`. */
  class QaGraphCache {
    var cached: Option<CompiledGraph>

    ghost predicate Valid()
      reads this
    {
      cached.Some? ==> cached.value.shape == QaShape()
    }

    constructor ()
      ensures Valid() && cached == None
    {
      cached := None;
    }

    /** `get_qa_graph`: builds the QA graph on the first call and returns that
        same instance on every later call. */
    method GetQaGraph() returns (g: CompiledGraph)
      requires Valid()
      modifies this
      ensures Valid() && cached == Some(g) && g.shape == QaShape()
      ensures old(cached).Some? ==> g == old(cached).value
      ensures old(cached).None? ==> fresh(g)
    {
      if cached.None? {
        var built := CreateQaGraph();
        cached := Some(built);
      }
      g := cached.value;
    }
  }

  // ---------------------------------------------------------------------
  // Running a question through the pipeline

  /** The state `run_qa_flow` starts from: the question, and `None` in every
      other key. */
  function InitialState(question: string): (s: QAState)
    ensures s.question == question && Filled(s) == {QuestionKey}
    ensures s.context == NoneValue && s.draftAnswer == NoneValue && s.answer == NoneValue
    ensures s.retrievalTraces == NoneValue && s.rawContextBlocks == NoneValue
  {
    var s := QAState(question, NoneValue, NoneValue, NoneValue, NoneValue, NoneValue);
    assert forall k :: k in AllKeys ==> (HasValue(s, k) <==> k == QuestionKey);
    s
  }

  /** The state after the retrieval stage. */
  function AfterRetrieval(agents: Stages, s0: QAState): Result<QAState> {
    var u :- Retrieval(s0, agents.retrieval);
    Ok(Merge(s0, u))
  }

  /** The state after the summarization stage, which sees retrieval's state. */
  function AfterSummarization(agents: Stages, s0: QAState): Result<QAState> {
    var s1 :- AfterRetrieval(agents, s0);
    var u :- Summarization(s1, agents.summarization);
    Ok(Merge(s1, u))
  }

  /** The three stages in order, each merged before the next one runs; the
      first failure ends the run with no state. */
  function Pipeline(agents: Stages, s0: QAState): Result<QAState> {
    var s2 :- AfterSummarization(agents, s0);
    var u :- Verification(s2, agents.verification);
    Ok(Merge(s2, u))
  }

  /** `run_qa_flow` as a function of the agents and the question. */
  function Run(agents: Stages, question: string): Result<QAState> {
    Pipeline(agents, InitialState(question))
  }

  /** `run_qa_flow`: fetch the cached graph and invoke it on the initial state. */
  method RunQaFlow(cache: QaGraphCache, agents: Stages, question: string) returns (r: Result<QAState>)
    requires cache.Valid()
    modifies cache
    ensures cache.Valid() && cache.cached.Some?
    ensures old(cache.cached).Some? ==> cache.cached == old(cache.cached)
    ensures r == Run(agents, question)
  {
    var graph := cache.GetQaGraph();
    var initialState := InitialState(question);
    r := Execute(graph.shape, agents, initialState);
    QaShapeRunsStagesInOrder(agents, initialState);
  }

  // ---------------------------------------------------------------------
  // Properties of the QA graph and of a run

  /** START is the only entry and END the only exit, and no endpoint has two
      outgoing or two incoming edges: there is no branch, join or cycle. */
  lemma QaShapeIsLinear()
    ensures var edges := QaShape().edges;
            && (forall e :: e in edges ==> e.target != Start && e.source != End)
            && (forall i, j :: 0 <= i < j < |edges| ==> edges[i].source != edges[j].source)
            && (forall i, j :: 0 <= i < j < |edges| ==> edges[i].target != edges[j].target)
  {
  }

  /** Following the edges from START visits the three nodes in order, then END. */
  lemma QaPath()
    ensures Path(QaShape().edges, Start, RecursionLimit)
            == [Start, NodeAt(RetrievalName), NodeAt(SummarizationName), NodeAt(VerificationName), End]
  {
    assert |RetrievalName| == 9 && |SummarizationName| == 13 && |VerificationName| == 12;
    LinearPath(NodeAt(RetrievalName), NodeAt(SummarizationName), NodeAt(VerificationName), RecursionLimit);
  }

  /** Three distinct nodes chained from START to END are visited in order. */
  lemma LinearPath(a: Endpoint, b: Endpoint, c: Endpoint, fuel: nat)
    requires a.NodeAt? && b.NodeAt? && c.NodeAt? && a != b && a != c && b != c
    requires fuel >= 4
    ensures var edges := [Edge(Start, a), Edge(a, b), Edge(b, c), Edge(c, End)];
            Path(edges, Start, fuel) == [Start, a, b, c, End]
  {
    var edges := [Edge(Start, a), Edge(a, b), Edge(b, c), Edge(c, End)];
    assert Path(edges, End, fuel - 4) == [End];
    PathStep(edges, c, fuel - 3, End);
    PathStep(edges, b, fuel - 2, c);
    PathStep(edges, a, fuel - 1, b);
    PathStep(edges, Start, fuel, a);
  }

  lemma PathStep(edges: seq<Edge>, at: Endpoint, fuel: nat, target: Endpoint)
    requires at != End && fuel > 0 && Successor(edges, at) == Some(target)
    ensures Path(edges, at, fuel) == [at] + Path(edges, target, fuel - 1)
  {
  }

  /** One step of a run at a node: apply the node, merge, move on. */
  lemma WalkAtNode(shape: Shape, agents: Stages, n: string, s: QAState, fuel: nat, target: Endpoint)
    requires fuel > 0 && n in shape.nodes
    requires Successor(shape.edges, NodeAt(n)) == Some(target)
    ensures Walk(shape, agents, NodeAt(n), s, fuel)
            == match Apply(shape.nodes[n], agents, s)
               case Err(e) => Err(e)
               case Ok(u) => Walk(shape, agents, target, Merge(s, u), fuel - 1)
  {
  }

  /** The first step of a run: leave START along its outgoing edge. */
  lemma WalkAtStart(shape: Shape, agents: Stages, s: QAState, fuel: nat, target: Endpoint)
    requires fuel > 0
    requires Successor(shape.edges, Start) == Some(target)
    ensures Walk(shape, agents, Start, s, fuel) == Walk(shape, agents, target, s, fuel - 1)
  {
  }

  /** A graph wired as the QA graph: the three named nodes run the three stages,
      and START leads through them in order to END. */
  predicate QaWiring(shape: Shape) {
    && RetrievalName in shape.nodes && shape.nodes[RetrievalName] == RetrievalStep
    && SummarizationName in shape.nodes && shape.nodes[SummarizationName] == SummarizationStep
    && VerificationName in shape.nodes && shape.nodes[VerificationName] == VerificationStep
    && Successor(shape.edges, Start) == Some(NodeAt(RetrievalName))
    && Successor(shape.edges, NodeAt(RetrievalName)) == Some(NodeAt(SummarizationName))
    && Successor(shape.edges, NodeAt(SummarizationName)) == Some(NodeAt(VerificationName))
    && Successor(shape.edges, NodeAt(VerificationName)) == Some(End)
  }

  /** The graph `create_qa_graph` builds is wired that way. */
  lemma QaShapeWiring()
    ensures QaWiring(QaShape())
  {
  }

  lemma RunFromVerification(shape: Shape, agents: Stages, s2: QAState, fuel: nat)
    requires QaWiring(shape) && fuel >= 1
    ensures Walk(shape, agents, NodeAt(VerificationName), s2, fuel)
            == (var u :- Verification(s2, agents.verification); Ok(Merge(s2, u)))
  {
    WalkAtNode(shape, agents, VerificationName, s2, fuel, End);
  }

  lemma RunFromSummarization(shape: Shape, agents: Stages, s1: QAState, fuel: nat)
    requires QaWiring(shape) && fuel >= 2
    ensures Walk(shape, agents, NodeAt(SummarizationName), s1, fuel)
            == (var u :- Summarization(s1, agents.summarization);
                var s2 := Merge(s1, u);
                var u' :- Verification(s2, agents.verification);
                Ok(Merge(s2, u')))
  {
    WalkAtNode(shape, agents, SummarizationName, s1, fuel, NodeAt(VerificationName));
    var u := Summarization(s1, agents.summarization);
    if u.Ok? {
      RunFromVerification(shape, agents, Merge(s1, u.value), fuel - 1);
    }
  }

  lemma RunFromRetrieval(shape: Shape, agents: Stages, s: QAState, fuel: nat)
    requires QaWiring(shape) && fuel >= 3
    ensures Walk(shape, agents, NodeAt(RetrievalName), s, fuel) == Pipeline(agents, s)
  {
    WalkAtNode(shape, agents, RetrievalName, s, fuel, NodeAt(SummarizationName));
    match AfterRetrieval(agents, s)
    case Err(e) =>
      assert Pipeline(agents, s) == Err(e);
    case Ok(s1) =>
      RunFromSummarization(shape, agents, s1, fuel - 1);
      PipelineFrom(agents, s, s1);
  }

  lemma PipelineFrom(agents: Stages, s0: QAState, s1: QAState)
    requires AfterRetrieval(agents, s0) == Ok(s1)
    ensures Pipeline(agents, s0)
            == (var u :- Summarization(s1, agents.summarization);
                var s2 := Merge(s1, u);
                var u' :- Verification(s2, agents.verification);
                Ok(Merge(s2, u')))
  {
  }

  /** Invoking a graph wired as the QA graph is the three stages applied in order. */
  lemma WiringRunsStagesInOrder(shape: Shape, agents: Stages, s: QAState)
    requires QaWiring(shape)
    ensures Execute(shape, agents, s) == Pipeline(agents, s)
  {
    WalkAtStart(shape, agents, s, RecursionLimit, NodeAt(RetrievalName));
    RunFromRetrieval(shape, agents, s, RecursionLimit - 1);
  }

  /** Invoking the QA graph is the three stages applied in order. */
  lemma QaShapeRunsStagesInOrder(agents: Stages, s: QAState)
    ensures Execute(QaShape(), agents, s) == Pipeline(agents, s)
  {
    QaShapeWiring();
    WiringRunsStagesInOrder(QaShape(), agents, s);
  }

  /** Every key has one writer stage, and no stage writes `question`. */
  lemma OneWriterPerKey()
    ensures QuestionKey !in RetrievalKeys + {DraftAnswerKey, AnswerKey}
    ensures RetrievalKeys * {DraftAnswerKey} == {} && RetrievalKeys * {AnswerKey} == {}
    ensures {QuestionKey} + RetrievalKeys + {DraftAnswerKey} + {AnswerKey} == AllKeys
  {
  }

  /** A successful run keeps the question and fills every other key. */
  lemma RunFillsEveryKey(agents: Stages, question: string)
    ensures Run(agents, question).Ok? ==> Run(agents, question).value.question == question
    ensures Run(agents, question).Ok? ==> Filled(Run(agents, question).value) == AllKeys
  {
    if Run(agents, question).Err? {
      return;
    }
    var s0 := InitialState(question);
    var s1 := AfterRetrieval(agents, s0).value;
    var s2 := AfterSummarization(agents, s0).value;
    var s3 := Run(agents, question).value;
    MergeFrame(s0, Retrieval(s0, agents.retrieval).value);
    MergeFrame(s1, Summarization(s1, agents.summarization).value);
    MergeFrame(s2, Verification(s2, agents.verification).value);
    assert Filled(s1) == {QuestionKey} + RetrievalKeys;
    assert Filled(s2) == Filled(s1) + {DraftAnswerKey};
    assert Filled(s3) == Filled(s2) + {AnswerKey};
    OneWriterPerKey();
  }

  /** There is no exception handling: the run fails exactly when one of the
      agent calls it makes fails, and then no state comes back. */
  lemma RunFailsIffAnAgentFails(agents: Stages, question: string)
    ensures var s0 := InitialState(question);
            var r1 := AfterRetrieval(agents, s0);
            var r2 := AfterSummarization(agents, s0);
            Run(agents, question).Err?
            <==> agents.retrieval([Human(question)]).Err?
                 || (r1.Ok? && agents.summarization([Human(SummarizationMessage(question, Rendered(r1.value.context, "")))]).Err?)
                 || (r2.Ok? && agents.verification([Human(VerificationMessage(question, Rendered(r2.value.context, ""),
                                                                   Rendered(r2.value.draftAnswer, "")))]).Err?)
  {
  }

  /** The whole outcome of a run whose three agent calls succeed: retrieval's
      three outputs from the retrieval agent's turns; the draft from the
      summarization agent, which was sent the question and that context; the
      answer from the verification agent, which was sent the question, that
      context and that draft. No message shows a default or "None". */
  lemma RunOutcome(agents: Stages, question: string, out1: AgentOutput, out2: AgentOutput, out3: AgentOutput)
    requires agents.retrieval([Human(question)]) == Ok(out1)
    requires agents.summarization([Human(SummarizationMessage(question, Context(MessagesOf(out1))))]) == Ok(out2)
    requires agents.verification([Human(VerificationMessage(question, Context(MessagesOf(out1)),
                                                            ExtractLastAiContent(MessagesOf(out2))))]) == Ok(out3)
    ensures var m1 := MessagesOf(out1);
            Run(agents, question)
            == Ok(QAState(question, Present(Context(m1)), Present(ExtractLastAiContent(MessagesOf(out2))),
                          Present(ExtractLastAiContent(MessagesOf(out3))), Present(Traces(m1)), Present(RawBlocks(m1))))
  {
    var s0 := InitialState(question);
    var s2 := SummarizationOutcome(agents, question, out1, out2);
    var u := Update(None, None, None, Some(ExtractLastAiContent(MessagesOf(out3))), None, None);
    assert AfterSummarization(agents, s0) == Ok(s2);
    assert Verification(s2, agents.verification) == Ok(u) by {
      VerificationReturnsAnswer(s2, agents.verification, out3);
    }
    PipelineAfter(agents, s0, s2, u);
    assert Run(agents, question) == Ok(Merge(s2, u));
  }

  /** After retrieval the state holds retrieval's three outputs and nothing else new. */
  lemma RetrievalOutcome(agents: Stages, question: string, out1: AgentOutput) returns (s1: QAState)
    requires agents.retrieval([Human(question)]) == Ok(out1)
    ensures var m1 := MessagesOf(out1);
            s1 == QAState(question, Present(Context(m1)), NoneValue, NoneValue,
                          Present(Traces(m1)), Present(RawBlocks(m1)))
    ensures AfterRetrieval(agents, InitialState(question)) == Ok(s1)
  {
    var m1 := MessagesOf(out1);
    var s0 := InitialState(question);
    var u := RetrievalUpdate(m1);
    assert Retrieval(s0, agents.retrieval) == Ok(u);
    s1 := Merge(s0, u);
  }

  /** Summarization is sent the question and the context retrieval wrote, and
      adds the draft. */
  lemma SummarizationOutcome(agents: Stages, question: string, out1: AgentOutput, out2: AgentOutput)
    returns (s2: QAState)
    requires agents.retrieval([Human(question)]) == Ok(out1)
    requires agents.summarization([Human(SummarizationMessage(question, Context(MessagesOf(out1))))]) == Ok(out2)
    ensures var m1 := MessagesOf(out1);
            s2 == QAState(question, Present(Context(m1)), Present(ExtractLastAiContent(MessagesOf(out2))),
                          NoneValue, Present(Traces(m1)), Present(RawBlocks(m1)))
    ensures AfterSummarization(agents, InitialState(question)) == Ok(s2)
  {
    var s1 := RetrievalOutcome(agents, question, out1);
    var u := Update(None, None, Some(ExtractLastAiContent(MessagesOf(out2))), None, None, None);
    SummarizationReturnsDraft(s1, agents.summarization, out2);
    SummarizationAfter(agents, InitialState(question), s1, u);
    s2 := Merge(s1, u);
  }

  lemma SummarizationAfter(agents: Stages, s0: QAState, s1: QAState, u: Update)
    requires AfterRetrieval(agents, s0) == Ok(s1)
    requires Summarization(s1, agents.summarization) == Ok(u)
    ensures AfterSummarization(agents, s0) == Ok(Merge(s1, u))
  {
  }

  lemma PipelineAfter(agents: Stages, s0: QAState, s2: QAState, u: Update)
    requires AfterSummarization(agents, s0) == Ok(s2)
    requires Verification(s2, agents.verification) == Ok(u)
    ensures Pipeline(agents, s0) == Ok(Merge(s2, u))
  {
  }
}
