# Multi-agent QA orchestration, modelled in Dafny

The system answers a question in three stages that share one state record,
`QAState`:

1. **retrieval** sends the question to a tool-using agent. From the turns the
   agent returns, it extracts three things:
   - one verbatim context block per tool result (`raw_context_blocks`);
   - one human-readable log entry per search (`retrieval_traces`);
   - a labelled, stripped concatenation of the blocks (`context`).
2. **summarization** sends the question and the context to a second agent. The
   text of that agent's last AI turn becomes `draft_answer`.
3. **verification** sends the question, the context and the draft to a third
   agent. The text of its last AI turn becomes `answer`.

A graph wires the stages START → retrieval → summarization → verification →
END. The graph is compiled once per process and cached. `run_qa_flow` invokes
it on a state that holds the question and `None` in every other key.

The model has six modules, one file each:

- `Wrappers` (`wrappers.dfy`): `Option` and a failure-compatible `Result`.
- `Text` (`text.dfy`): the three Python string operations the retrieval stage
  relies on.
  - `str.strip()` uses Python's `isspace` character set.
  - `str(n)` is applied to non-negative integers.
  - `sep.join(xs)`.
- `Messages` (`messages.dfy`): the conversation turns and the filters over them.
  - The turns are Human, AI with its tool calls, and Tool.
  - The filters are `isinstance` filtering and `_extract_last_ai_content`.
- `State` (`state.dfy`): `QAState` and the partial-update merge the graph
  applies after each node.
  - Each optional key is three-valued: missing, present and `None`, or
    present with a value.
  - The three values are needed because `state.get(key, "")` falls back to
    its default only when the key is missing.
- `Agents` (`agents.dfy`): the three node functions. Each is a function of the
  state and an agent, and the retrieval node is also written as a method with
  its two loops.
- `Graph` (`graph.dfy`): how the graph runs a state.
  - A graph builder and the compiled graph are classes.
  - A small interpreter walks the compiled graph, merging each node's update.
  - The one-entry cache behind `get_qa_graph` is a class.
  - `run_qa_flow` is a method.

An agent is a value of type `seq<Msg> -> Result<AgentOutput>`. Nothing is
assumed about what it answers, so every property holds for every language
model and every vector store. An exception raised by an agent is an `Err`.
An agent is a function, so its reply depends on its input alone. The lemmas
that compare two calls of one agent (`Agents.RetrievalReadsQuestionOnly`,
`Agents.SummarizationReadsQuestionAndContext` and
`Agents.VerificationReadsQuestionContextAndDraft`) therefore speak of agents
that answer the same input the same way. A sampling model that does not do
so is outside those three lemmas.

In the worked example, a single search returns the passage
"A vector database stores embeddings.". Its `len(...)` is 36, so
`Agents.OneCallExample` proves the trace line
"Context Length: 36 characters".

## Model

| member | source | states |
|---|---|---|
| Text.IsSpace | src/app/core/agents/agents.py:90 | defines the whitespace `strip()` removes: Python's `str.isspace()` character set |
| Text.TrimStart | src/app/core/agents/agents.py:90 | the left-stripped text is no longer than the input and does not begin with whitespace |
| Text.TrimEnd | src/app/core/agents/agents.py:90 | the right-stripped text is a prefix of the input and does not end with whitespace |
| Text.Strip | src/app/core/agents/agents.py:90 | `strip()` leaves no whitespace at either end |
| Text.StripSplits | src/app/core/agents/agents.py:90 | the input is whitespace + `strip()` of it + whitespace, so strip only removes whitespace at the two ends |
| Text.StripOf | src/app/core/agents/agents.py:90 | the core of a text with whitespace on both sides and no whitespace at its own ends is exactly what `strip()` returns |
| Text.StripIdempotent | src/app/core/agents/agents.py:90 | stripping twice is stripping once |
| Text.StripKeepsPrefix | src/app/core/agents/agents.py:90 | after stripping leading whitespace, every prefix ending in a non-space character survives the strip |
| Text.Decimal | src/app/core/agents/agents.py:80 | `str(n)` is a non-empty run of digits with no leading zero unless n is 0 |
| Text.DecimalRoundTrip | src/app/core/agents/agents.py:82 | reading `str(n)` back as a number gives n |
| Text.DecimalInjective | src/app/core/agents/agents.py:87 | different numbers give different digit strings |
| Text.Join | src/app/core/agents/agents.py:92 | defines `sep.join(xs)`: the items in order with the separator between neighbours |
| Text.JoinPrefix | src/app/core/agents/agents.py:92 | joining the first i+1 entries gives a prefix of joining them all, so the entries keep their order |
| Text.JoinSnoc | src/app/core/agents/agents.py:92 | joining one more entry appends the separator and the entry |
| Messages.MessagesOf | src/app/core/agents/agents.py:60 | defines `result.get("messages", [])`: the agent's turns, or none when the key is missing |
| Messages.Keep | src/app/core/agents/agents.py:61-62 | the `isinstance` filter keeps only turns of the kind, keeps every turn of the kind, and is no longer than the input |
| Messages.KeepAppend | src/app/core/agents/agents.py:61-62 | the filter distributes over concatenation, so it preserves order |
| Messages.KeepCount | src/app/core/agents/agents.py:61-62 | the filter has exactly one entry per position holding a turn of the kind |
| Messages.ExtractLastAiContent | src/app/core/agents/agents.py:18-23 | the result is "" when there is no AI turn, and otherwise the content of the AI turn with no later AI turn |
| Messages.LastAiIsLastOfAiTurns | src/app/core/agents/agents.py:18-23 | the result is the content of the last entry of the filtered AI turns, or "" when that list is empty |
| State.Merge | src/app/core/agents/graph.py:62 | defines the graph's last-write merge: each key the node returned overwrites the state, every other key keeps its value |
| State.MergeFrame | src/app/core/agents/graph.py:62 | merging a node's returned dictionary changes only the keys it returns; afterwards each returned key holds the returned value, and the filled keys are the old ones plus the returned ones |
| State.MergeNothing | src/app/core/agents/graph.py:62 | merging an update with no keys leaves the state unchanged |
| Agents.QueryFor | src/app/core/agents/agents.py:68-74 | defines the recorded query: the `query` argument of the first tool call of the i-th AI turn, "Unknown" when that argument is missing, "Unknown Query" when there is no such turn or it requests no tool |
| Agents.TraceFor | src/app/core/agents/agents.py:79-83 | defines log entry i: "Retrieval Call {i+1}\nQuery: {query}\nContext Length: {len(block)} characters" |
| Agents.Label | src/app/core/agents/agents.py:87 | defines the label "=== RETRIEVAL CALL {i+1} ===" |
| Agents.SectionFor | src/app/core/agents/agents.py:87 | defines section i: a newline, the label, a newline, the block, a newline |
| Agents.Rendered | src/app/core/agents/agents.py:98 | defines how `state.get(key, "")` shows in an f-string: "" when the key is missing, "None" when it holds `None`, the value otherwise |
| Agents.SummarizationMessage | src/app/core/agents/agents.py:100 | defines the summarization message "Question:\n{question}\n\nContext:\n{context}" |
| Agents.VerificationMessage | src/app/core/agents/agents.py:116-127 | defines the verification message: question, context, draft answer and the instruction, laid out as in the triple-quoted string |
| Agents.Sections | src/app/core/agents/agents.py:85-87 | defines the unstripped `structured_context`: the labelled sections of all blocks, concatenated in call order |
| Agents.RawBlocks | src/app/core/agents/agents.py:64-77 | defines `raw_context_blocks`: the content of each Tool turn of the agent's reply, in order |
| Agents.Logs | src/app/core/agents/agents.py:65-83 | defines `retrieval_logs`: one log entry per Tool turn, the i-th paired with the i-th AI turn |
| Agents.Traces | src/app/core/agents/agents.py:92 | defines `retrieval_traces`: the log entries joined by a blank line |
| Agents.Context | src/app/core/agents/agents.py:85-90 | defines `context`: the sections of the raw blocks, stripped |
| Agents.RetrievalReturn | src/app/core/agents/agents.py:89-93 | the retrieval node returns exactly `context`, `retrieval_traces` and `raw_context_blocks` |
| Agents.Retrieval | src/app/core/agents/agents.py:53-93 | retrieval fails exactly when the agent call on the question fails; otherwise it returns exactly its three keys |
| Agents.CollectCalls | src/app/core/agents/agents.py:64-83 | the first loop yields one verbatim block and one log entry per tool turn, the i-th tool turn paired with the i-th AI turn |
| Agents.StructureContext | src/app/core/agents/agents.py:85-87 | the second loop concatenates one labelled section per block, in call order |
| Agents.RetrievalNode | src/app/core/agents/agents.py:53-93 | the method with its two loops returns what the retrieval function specifies |
| Agents.Summarization | src/app/core/agents/agents.py:96-108 | summarization fails exactly when its agent call fails; otherwise it returns exactly `draft_answer` |
| Agents.SummarizationReturnsDraft | src/app/core/agents/agents.py:96-108 | when the agent, sent the question and the context as rendered ("" when missing, "None" when `None`), replies, the draft is the last AI text of its reply and the only key returned |
| Agents.Verification | src/app/core/agents/agents.py:111-135 | verification fails exactly when its agent call fails; otherwise it returns exactly `answer` |
| Agents.VerificationReturnsAnswer | src/app/core/agents/agents.py:111-135 | when the agent, sent the question, the context and the draft as rendered ("" when missing, "None" when `None`), replies, the answer is the last AI text of its reply and the only key returned |
| Agents.RawBlocksAreToolTurns | src/app/core/agents/agents.py:67-77 | there is one raw block per tool turn (none when there are no tool turns), and block i is the i-th tool turn's content |
| Agents.BlocksOfAppend | src/app/core/agents/agents.py:76-77 | the blocks of two runs of tool turns are the blocks of the first followed by those of the second |
| Agents.RawBlocksSnoc | src/app/core/agents/agents.py:61-77 | one more turn adds a block at the end exactly when that turn is a tool result |
| Agents.QueryIgnoresLaterCalls | src/app/core/agents/agents.py:71-74 | only the first tool call of the matching AI turn decides the recorded query |
| Agents.TraceReadsBack | src/app/core/agents/agents.py:79-83 | log entry i reads back as call number i+1, the matched query, and the length of block i |
| Agents.TracesEmptyIffNoTools | src/app/core/agents/agents.py:79-92 | `retrieval_traces` is "" if and only if there is no tool turn |
| Agents.TracesInOrder | src/app/core/agents/agents.py:92 | the log entries appear in call order, joined by a blank line |
| Agents.SectionsInOrder | src/app/core/agents/agents.py:85-87 | section i follows sections 1..i-1 in the unstripped context, so the labels run 1, 2, ..., n |
| Agents.FirstLabelText | src/app/core/agents/agents.py:87 | the first label is "=== RETRIEVAL CALL 1 ===" |
| Agents.LabelInjective | src/app/core/agents/agents.py:87 | different calls get different label texts |
| Agents.FirstSectionHead | src/app/core/agents/agents.py:85-87 | with at least one block, the unstripped context is a newline followed by the first label |
| Agents.StrippedSectionsStartWithFirstLabel | src/app/core/agents/agents.py:85-90 | with at least one block, the stripped context begins with the first label |
| Agents.ContextStartsWithFirstLabel | src/app/core/agents/agents.py:85-90 | with at least one tool turn, `context` begins with "=== RETRIEVAL CALL 1 ===" |
| Agents.ContextEmptyIffNoTools | src/app/core/agents/agents.py:85-90 | `context` is "" if and only if there is no tool turn |
| Agents.ContextIsSectionsLessWhitespace | src/app/core/agents/agents.py:85-90 | with at least one tool turn, the unstripped concatenation is a newline, then `context`, then trailing whitespace |
| Agents.ContextSectionsInOrder | src/app/core/agents/agents.py:85-90 | in `context` (up to the whitespace the strip removed), section i follows sections 1..i-1, so the labels run 1, 2, ..., n |
| Agents.RetrievalReadsQuestionOnly | src/app/core/agents/agents.py:53-58 | retrieval depends on the state only through `question` |
| Agents.SummarizationReadsQuestionAndContext | src/app/core/agents/agents.py:96-104 | the summarization result depends on the state only through `question` and `context` |
| Agents.VerificationReadsQuestionContextAndDraft | src/app/core/agents/agents.py:111-131 | the verification result depends on the state only through `question`, `context` and `draft_answer` |
| Agents.LogsUnknownQuery | src/app/core/agents/agents.py:68-71 | in any conversation, call i is logged under "Unknown Query" when there is no i-th AI turn or it requests no tool |
| Agents.LogsUnknownArgument | src/app/core/agents/agents.py:72-74 | in any conversation, call i is logged under "Unknown" when the first tool call of the i-th AI turn has no `query` argument |
| Agents.LogsQueryArgument | src/app/core/agents/agents.py:72-74 | in any conversation, call i is otherwise logged under that `query` argument |
| Agents.NoMatchingAiTurnExample | src/app/core/agents/agents.py:67-71 | in the conversation [Human, Tool], the tool result is logged with query "Unknown Query" |
| Agents.MissingQueryArgumentExample | src/app/core/agents/agents.py:72-74 | in the conversation [Human, AI with one call without arguments, Tool], the tool result is logged with query "Unknown" |
| Agents.OneCallKinds | src/app/core/agents/agents.py:61-62 | in the one-search conversation the filters keep the single tool turn and the two AI turns, in order |
| Agents.OneCallTraces | src/app/core/agents/agents.py:79-83 | the one-search conversation logs "Retrieval Call 1", its query and "Context Length: 36 characters" |
| Agents.OneCallContext | src/app/core/agents/agents.py:85-90 | the one-search conversation's context is the first label, a newline and the block |
| Agents.OneCallExample | src/app/core/agents/agents.py:53-93 | the worked example: one search gives one raw block, one trace ending in "36 characters", and one labelled section |
| Agents.NoCallExample | src/app/core/agents/agents.py:53-93 | with no search, the blocks list is empty and traces and context are "" |
| Graph.Apply | src/app/core/agents/graph.py:27-29 | defines which node function each node runs: retrieval, summarization or verification, each with its own agent |
| Graph.QaShape | src/app/core/agents/graph.py:24-35 | defines the graph `create_qa_graph` builds: the three named nodes and the four edges of the linear flow |
| Graph.Pipeline | src/app/core/agents/graph.py:46-64 | defines "the three stages in order": retrieval, summarization, verification, each update merged before the next stage runs; the first failure ends the run |
| Graph.Run | src/app/core/agents/graph.py:46-64 | defines `run_qa_flow` as a value: the pipeline applied to the initial state |
| Graph.Walk | src/app/core/agents/graph.py:62 | defines `graph.invoke` from an endpoint: apply the node, merge its update, follow the outgoing edge until END, stopping on a failure or after the recursion limit |
| Graph.Execute | src/app/core/agents/graph.py:62 | defines `graph.invoke(state)`: a walk from START within the recursion limit |
| Graph.Successor | src/app/core/agents/graph.py:31-35 | the successor found is the target of an edge leaving the endpoint; when none is found, no edge leaves it |
| Graph.GraphBuilder.constructor | src/app/core/agents/graph.py:24 | a new builder has no nodes and no edges |
| Graph.GraphBuilder.AddNode | src/app/core/agents/graph.py:27-29 | adding a node extends the node map with it and leaves the edges alone |
| Graph.GraphBuilder.AddEdge | src/app/core/agents/graph.py:32-35 | adding an edge appends it and leaves the nodes alone |
| Graph.GraphBuilder.Compile | src/app/core/agents/graph.py:37 | compiling yields a new graph holding exactly the nodes and edges added |
| Graph.CompiledGraph.constructor | src/app/core/agents/graph.py:37 | a compiled graph keeps the shape it was built with |
| Graph.CreateQaGraph | src/app/core/agents/graph.py:13-37 | each build is a new graph with the three named nodes and the four edges of the linear flow |
| Graph.QaGraphCache.constructor | src/app/core/agents/graph.py:40 | the cache starts empty |
| Graph.QaGraphCache.GetQaGraph | src/app/core/agents/graph.py:40-43 | the first call builds the QA graph and caches it; every later call returns that same instance |
| Graph.InitialState | src/app/core/agents/graph.py:51-60 | the initial state holds the question, and every other key is present and holds `None` (not missing), so no optional key holds a value |
| Graph.RunQaFlow | src/app/core/agents/graph.py:46-64 | running the flow leaves a graph in the cache and keeps an already cached one; it returns what the three stages, run in order, produce |
| Graph.QaShapeIsLinear | src/app/core/agents/graph.py:31-35 | the QA graph never re-enters START or leaves END, and no endpoint has two outgoing or two incoming edges |
| Graph.QaPath | src/app/core/agents/graph.py:31-35 | following the edges from START visits retrieval, summarization and verification, then END |
| Graph.LinearPath | src/app/core/agents/graph.py:31-35 | any three distinct nodes chained from START to END are visited in that order |
| Graph.PathStep | src/app/core/agents/graph.py:31-35 | the path from an endpoint is that endpoint followed by the path from its successor |
| Graph.WalkAtNode | src/app/core/agents/graph.py:62 | at a node, a run applies the node, merges its update and continues along the outgoing edge; a failure stops the run |
| Graph.WalkAtStart | src/app/core/agents/graph.py:62 | a run leaves START along its outgoing edge without changing the state |
| Graph.QaShapeWiring | src/app/core/agents/graph.py:24-35 | the QA graph maps each name to its stage and chains START through the three nodes to END |
| Graph.RunFromVerification | src/app/core/agents/graph.py:62 | from the verification node, the run merges verification's answer and ends |
| Graph.RunFromSummarization | src/app/core/agents/graph.py:62 | from the summarization node, the run merges the draft and then the answer |
| Graph.RunFromRetrieval | src/app/core/agents/graph.py:62 | from the retrieval node, the run is the three stages in order |
| Graph.PipelineFrom | src/app/core/agents/graph.py:62 | once retrieval has succeeded, the pipeline continues with summarization and verification |
| Graph.WiringRunsStagesInOrder | src/app/core/agents/graph.py:62 | invoking any graph wired like the QA graph applies the three stages in order, each merged before the next one runs |
| Graph.QaShapeRunsStagesInOrder | src/app/core/agents/graph.py:13-37 | invoking the graph `create_qa_graph` builds is the three stages in order |
| Graph.OneWriterPerKey | src/app/core/agents/state.py:9-12 | every key except `question` has exactly one writer stage, and no stage writes `question` |
| Graph.RunFillsEveryKey | src/app/core/agents/graph.py:46-64 | a successful run keeps the question and leaves every key holding a value |
| Graph.RunFailsIffAnAgentFails | src/app/core/agents/graph.py:62 | a run fails if and only if one of the three agent calls it makes fails |
| Graph.RunOutcome | src/app/core/agents/graph.py:46-64 | when the three agent calls succeed, the final state holds the retrieval outputs, the draft and the answer; summarization saw the question and the context, and verification saw the question, the context and the draft |
| Graph.RetrievalOutcome | src/app/core/agents/graph.py:62 | after retrieval, the state holds retrieval's three outputs; draft and answer are still `None` |
| Graph.SummarizationOutcome | src/app/core/agents/graph.py:62 | after summarization, the state also holds the draft built from the question and the retrieved context |
| Graph.SummarizationAfter | src/app/core/agents/graph.py:62 | a successful summarization after retrieval merges its update into retrieval's state |
| Graph.PipelineAfter | src/app/core/agents/graph.py:62 | a successful verification after summarization merges its update and ends the run |

## Left out

- The HTTP layer (`src/app/api.py`) is not part of this model. That includes
  its rejection of empty questions, so the model accepts any question string.
- The vector store (`src/app/core/retrieval/vector_store.py`) and the settings
  (`src/app/core/config.py`) are not part of this model.
- The prompts, the retrieval tool and the chat-model factory are not part of
  this model.
- Building the three agents (`src/app/core/agents/agents.py:30-46`) is not
  modelled. Each agent is a parameter, and no property depends on what a
  language model answers.
- `str(msg.content)` and `str(tool_msg.content)` are not modelled: message
  contents are strings already. Non-text contents are not represented.
- Tool-call arguments are `map<string, string>`. The source formats the
  `query` value with an f-string, so a non-string argument would show as its
  `str()`, for example "None" for a JSON null. Such arguments are not
  represented.
- `tool_calls[0].get("args", {})`: a tool call without `args` is represented by
  an empty argument map. It is logged as "Unknown", as in the source.
- An AI turn's `tool_calls` is always a list, possibly empty. `getattr(...,
  None)` cannot return `None` here.
- Exceptions keep only a message (`Err`). Their Python types are not modelled.
- LangGraph internals are not modelled: schema validation, channels, reducers
  other than last-write, streaming and checkpoints.
  - `Graph.Walk` follows the first edge leaving a node, so there is no fan-out.
    The QA graph has one edge per node.
  - The recursion limit counts steps, including the START step. Running out
    gives an `Err` rather than LangGraph's own error type.
  - `Graph.GraphBuilder.AddEdge` appends edges to a sequence, where LangGraph
    keeps them as a set. A repeated edge is therefore kept twice.
  - `Graph.GraphBuilder.Compile` never fails. LangGraph's `compile()` rejects
    an edge to an unknown node and a graph with no edge from START.
  - Neither difference changes the QA graph.
- Graph.GraphBuilder.AddNode: requires a fresh name. The source lets LangGraph
  raise an error on a duplicate name, and that error path is not modelled.
- Graph.QaGraphCache.GetQaGraph: concurrent first calls and their thread safety
  are not modelled. The cache is a single-threaded one-entry memo.
- Agents.ContextStartsWithFirstLabel: the context is not proved to contain
  exactly one "RETRIEVAL CALL n" section per block as a substring count.
  - Blocks are copied verbatim, so a block that itself contains a label's text
    makes such a count false.
  - What is proved instead is the layout.
    - `Agents.ContextIsSectionsLessWhitespace`: the context is the
      concatenated sections less their leading newline and trailing whitespace.
    - `Agents.ContextSectionsInOrder`: in the context, the sections come in
      call order.
    - `Agents.ContextStartsWithFirstLabel`: the context begins with the first
      label.
- Python's `len` counts code points. Dafny's `char` is a Unicode scalar value,
  so lengths agree for all valid text. Lone surrogates are not represented.
