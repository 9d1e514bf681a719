/** The three stage functions of src/app/core/agents/agents.py. Each calls an
    opaque agent on one composed Human turn and turns the agent's output
    into a partial update of the shared state. */
module Agents {
  import opened Wrappers
  import opened Text
  import opened Messages
  import opened State

  const UnknownQuery: string := "Unknown Query"
  const UnknownArgument: string := "Unknown"
  const TraceSeparator: string := "\n\n"

  // ---------------------------------------------------------------------
  // Retrieval: provenance extraction

  /** The query recorded for call `i`: taken from the first tool call of the
      i-th AI turn; "Unknown" when that call has no `query` argument, and
      "Unknown Query" when there is no i-th AI turn or it requests no tool. */
  function QueryFor(ais: seq<Msg>, i: nat): string {
    if i < |ais| && ais[i].AI? && |ais[i].toolCalls| > 0 then
      var args := ais[i].toolCalls[0].args;
      if "query" in args then args["query"] else UnknownArgument
    else UnknownQuery
  }

  /** The log entry for call `i` (0-based), numbered from 1. */
  function TraceFor(i: nat, query: string, block: string): string {
    "Retrieval Call " + Decimal(i + 1) + "\nQuery: " + query
    + "\nContext Length: " + Decimal(|block|) + " characters"
  }

  /** The label of call `i` (0-based), numbered from 1. */
  function Label(i: nat): string {
    "=== RETRIEVAL CALL " + Decimal(i + 1) + " ==="
  }

  /** The labelled section of the structured context for call `i` (0-based). */
  function SectionFor(i: nat, block: string): string {
    "\n" + Label(i) + "\n" + block + "\n"
  }

  /** One verbatim block per tool turn. */
  function BlocksOf(tools: seq<Msg>): seq<string> {
    seq(|tools|, j requires 0 <= j < |tools| => tools[j].content)
  }

  /** One log entry per tool turn, paired with the AI turns by position. */
  function LogsOf(tools: seq<Msg>, ais: seq<Msg>): seq<string> {
    seq(|tools|, j requires 0 <= j < |tools| => TraceFor(j, QueryFor(ais, j), tools[j].content))
  }

  /** The labelled sections of all blocks, concatenated in call order. */
  function Sections(blocks: seq<string>): string {
    if blocks == [] then ""
    else Sections(blocks[..|blocks| - 1]) + SectionFor(|blocks| - 1, blocks[|blocks| - 1])
  }

  const RetrievalKeys: set<Key> := {ContextKey, RetrievalTracesKey, RawContextBlocksKey}

  /** The dictionary `retrieval_node` returns: exactly its three keys. */
  function RetrievalReturn(context: string, traces: string, blocks: seq<string>): (u: Update)
    ensures Keys(u) == RetrievalKeys
  {
    var u := Update(None, Some(context), None, None, Some(traces), Some(blocks));
    KeysAre(u, RetrievalKeys);
    u
  }

  /** `raw_context_blocks` for the agent's output turns `m`. */
  function RawBlocks(m: seq<Msg>): seq<string> {
    BlocksOf(Keep(m, ToolKind))
  }

  /** `retrieval_logs` for the agent's output turns `m`. */
  function Logs(m: seq<Msg>): seq<string> {
    LogsOf(Keep(m, ToolKind), Keep(m, AiKind))
  }

  /** `retrieval_traces` for the agent's output turns `m`. */
  function Traces(m: seq<Msg>): string {
    Join(Logs(m), TraceSeparator)
  }

  /** `context` for the agent's output turns `m`. */
  function Context(m: seq<Msg>): string {
    Strip(Sections(RawBlocks(m)))
  }

  /** What the retrieval stage returns for the agent's output turns `m`. */
  function RetrievalUpdate(m: seq<Msg>): Update {
    RetrievalReturn(Context(m), Traces(m), RawBlocks(m))
  }

  /** `retrieval_node` as a function of the state and the retrieval agent. */
  function Retrieval(s: QAState, agent: Agent): (r: Result<Update>)
    ensures r.Err? <==> agent([Human(s.question)]).Err?
    ensures r.Ok? ==> Keys(r.value) == RetrievalKeys
  {
    var out :- agent([Human(s.question)]);
    Ok(RetrievalUpdate(MessagesOf(out)))
  }

  /** The first loop of `retrieval_node`: one verbatim block and one log entry
      per tool turn, the i-th tool turn paired with the i-th AI turn. */
  method CollectCalls(toolMessages: seq<Msg>, aiMessages: seq<Msg>)
    returns (rawContextBlocks: seq<string>, retrievalLogs: seq<string>)
    ensures rawContextBlocks == BlocksOf(toolMessages)
    ensures retrievalLogs == LogsOf(toolMessages, aiMessages)
  {
    rawContextBlocks, retrievalLogs := [], [];
    var i := 0;
    while i < |toolMessages|
      invariant 0 <= i <= |toolMessages|
      invariant rawContextBlocks == BlocksOf(toolMessages)[..i]
      invariant retrievalLogs == LogsOf(toolMessages, aiMessages)[..i]
    {
      var queryUsed := UnknownQuery;
      if i < |aiMessages| {
        var ai := aiMessages[i];
        if ai.AI? && ai.toolCalls != [] {
          var args := ai.toolCalls[0].args;
          queryUsed := if "query" in args then args["query"] else UnknownArgument;
        }
      }
      var contextBlock := toolMessages[i].content;
      assert queryUsed == QueryFor(aiMessages, i);
      TakeOneMore(BlocksOf(toolMessages), i);
      TakeOneMore(LogsOf(toolMessages, aiMessages), i);
      rawContextBlocks := rawContextBlocks + [contextBlock];
      retrievalLogs := retrievalLogs + [TraceFor(i, queryUsed, contextBlock)];
      i := i + 1;
    }
    assert BlocksOf(toolMessages)[..i] == BlocksOf(toolMessages);
    assert LogsOf(toolMessages, aiMessages)[..i] == LogsOf(toolMessages, aiMessages);
  }

  lemma TakeOneMore<T>(s: seq<T>, i: nat)
    requires i < |s|
    ensures s[..i + 1] == s[..i] + [s[i]]
  {
  }

  /** The second loop of `retrieval_node`: `structured_context +=` one labelled
      section per block, before the final strip. */
  method StructureContext(rawContextBlocks: seq<string>) returns (structuredContext: string)
    ensures structuredContext == Sections(rawContextBlocks)
  {
    structuredContext := "";
    var i := 0;
    while i < |rawContextBlocks|
      invariant 0 <= i <= |rawContextBlocks|
      invariant structuredContext == Sections(rawContextBlocks[..i])
    {
      assert rawContextBlocks[..i + 1][..i] == rawContextBlocks[..i];
      structuredContext := structuredContext + SectionFor(i, rawContextBlocks[i]);
      i := i + 1;
    }
    assert rawContextBlocks[..i] == rawContextBlocks;
  }

  /** `retrieval_node`: invoke the agent on the question, then extract the
      blocks, the traces and the labelled context from its turns. */
  method RetrievalNode(s: QAState, agent: Agent) returns (r: Result<Update>)
    ensures r == Retrieval(s, agent)
  {
    var result := agent([Human(s.question)]);
    if result.Err? {
      return Err(result.error);
    }
    var messages := MessagesOf(result.value);
    var toolMessages := Keep(messages, ToolKind);
    var aiMessages := Keep(messages, AiKind);
    var rawContextBlocks, retrievalLogs := CollectCalls(toolMessages, aiMessages);
    var structuredContext := StructureContext(rawContextBlocks);
    r := Ok(RetrievalReturn(Strip(structuredContext), Join(retrievalLogs, TraceSeparator), rawContextBlocks));
  }

  // ---------------------------------------------------------------------
  // Summarization and verification

  /** How an f-string shows `state.get(key, default)`: the default only when the
      key is missing; a key holding `None` shows as "None". */
  function Rendered(slot: Slot<string>, default: string): string {
    match slot
    case Absent => default
    case NoneValue => "None"
    case Present(v) => v
  }

  /** The user message of the summarization stage. */
  function SummarizationMessage(question: string, context: string): string {
    "Question:\n" + question + "\n\nContext:\n" + context
  }

  /** `summarization_node`: the draft answer is the last AI text of the agent's reply. */
  function Summarization(s: QAState, agent: Agent): (r: Result<Update>)
    ensures r.Err? <==> agent([Human(SummarizationMessage(s.question, Rendered(s.context, "")))]).Err?
    ensures r.Ok? ==> Keys(r.value) == {DraftAnswerKey}
  {
    var out :- agent([Human(SummarizationMessage(s.question, Rendered(s.context, "")))]);
    var u := Update(None, None, Some(ExtractLastAiContent(MessagesOf(out))), None, None, None);
    KeysAre(u, {DraftAnswerKey});
    Ok(u)
  }

  /** A summarization call that succeeds returns the draft and nothing else; the
      agent was sent the context as rendered: "" when the key is missing,
      "None" when it holds `None`. */
  lemma SummarizationReturnsDraft(s: QAState, agent: Agent, out: AgentOutput)
    requires agent([Human(SummarizationMessage(s.question, Rendered(s.context, "")))]) == Ok(out)
    ensures Summarization(s, agent)
            == Ok(Update(None, None, Some(ExtractLastAiContent(MessagesOf(out))), None, None, None))
  {
  }

  const VerifyInstruction: string := "Verify the answer strictly against the context."

  /** The user message of the verification stage. */
  function VerificationMessage(question: string, context: string, draft: string): string {
    "\nQuestion:\n" + question + "\n\nContext:\n" + context
    + "\n\nDraft Answer:\n" + draft + "\n\n" + VerifyInstruction + "\n"
  }

  /** `verification_node`: the final answer is the last AI text of the agent's reply. */
  function Verification(s: QAState, agent: Agent): (r: Result<Update>)
    ensures r.Err? <==> agent([Human(VerificationMessage(s.question, Rendered(s.context, ""), Rendered(s.draftAnswer, "")))]).Err?
    ensures r.Ok? ==> Keys(r.value) == {AnswerKey}
  {
    var out :- agent([Human(VerificationMessage(s.question, Rendered(s.context, ""), Rendered(s.draftAnswer, "")))]);
    var u := Update(None, None, None, Some(ExtractLastAiContent(MessagesOf(out))), None, None);
    KeysAre(u, {AnswerKey});
    Ok(u)
  }

  /** A verification call that succeeds returns the answer and nothing else; the
      agent was sent the context and the draft as rendered. */
  lemma VerificationReturnsAnswer(s: QAState, agent: Agent, out: AgentOutput)
    requires agent([Human(VerificationMessage(s.question, Rendered(s.context, ""),
                                              Rendered(s.draftAnswer, "")))]) == Ok(out)
    ensures Verification(s, agent)
            == Ok(Update(None, None, None, Some(ExtractLastAiContent(MessagesOf(out))), None, None))
  {
  }

  // ---------------------------------------------------------------------
  // Properties of the retrieval stage

  /** One block per Tool turn, including none, and block i is the i-th Tool
      turn's content. */
  lemma RawBlocksAreToolTurns(m: seq<Msg>)
    ensures |RawBlocks(m)| == |PositionsOf(m, ToolKind)|
    ensures forall i :: 0 <= i < |RawBlocks(m)| ==> RawBlocks(m)[i] == Keep(m, ToolKind)[i].content
  {
    KeepCount(m, ToolKind);
  }

  lemma BlocksOfAppend(a: seq<Msg>, b: seq<Msg>)
    ensures BlocksOf(a + b) == BlocksOf(a) + BlocksOf(b)
  {
  }

  /** Blocks follow the turns' order: one more turn adds a block at the end
      exactly when it is a Tool turn. */
  lemma RawBlocksSnoc(m: seq<Msg>, x: Msg)
    ensures RawBlocks(m + [x]) == RawBlocks(m) + (if x.Tool? then [x.content] else [])
  {
    var tm, tx := Keep(m, ToolKind), Keep([x], ToolKind);
    assert Keep(m + [x], ToolKind) == tm + tx by {
      KeepAppend(m, [x], ToolKind);
    }
    assert BlocksOf(tx) == (if x.Tool? then [x.content] else []) by {
      assert [x][..0] == [];
      assert tx == (if x.Tool? then [x] else []);
    }
    BlocksOfAppend(tm, tx);
  }

  /** Only the first tool call of the i-th AI turn is consulted: replacing the
      later calls does not change the recorded query. */
  lemma QueryIgnoresLaterCalls(ais: seq<Msg>, i: nat, later: seq<ToolCall>)
    requires i < |ais| && ais[i].AI? && ais[i].toolCalls != []
    ensures QueryFor(ais[i := AI(ais[i].content, [ais[i].toolCalls[0]] + later)], i) == QueryFor(ais, i)
  {
  }

  /** Trace i reads back: its call number is i + 1 and its length is the
      length of block i. */
  lemma TraceReadsBack(m: seq<Msg>, i: nat)
    requires i < |RawBlocks(m)|
    ensures exists n: string, q: string, len: string ::
              Logs(m)[i] == "Retrieval Call " + n + "\nQuery: " + q + "\nContext Length: " + len + " characters"
              && IsDigits(n) && ValueOf(n) == i + 1
              && q == QueryFor(Keep(m, AiKind), i)
              && IsDigits(len) && ValueOf(len) == |RawBlocks(m)[i]|
  {
    DecimalRoundTrip(i + 1);
    DecimalRoundTrip(|RawBlocks(m)[i]|);
    assert Logs(m)[i] == TraceFor(i, QueryFor(Keep(m, AiKind), i), RawBlocks(m)[i]);
  }

  /** Traces are "" exactly when there is no Tool turn. */
  lemma TracesEmptyIffNoTools(m: seq<Msg>)
    ensures Traces(m) == "" <==> Keep(m, ToolKind) == []
  {
    var logs := Logs(m);
    if logs != [] {
      JoinPrefix(logs, TraceSeparator, 0);
      assert logs[..1] == [logs[0]];
      assert logs[0][0] == 'R';
    }
  }

  /** The trace entries are laid out in call order, separated by a blank line. */
  lemma TracesInOrder(m: seq<Msg>)
    ensures forall j :: 1 <= j <= |Logs(m)| ==> Join(Logs(m)[..j], TraceSeparator) <= Traces(m)
  {
    var logs := Logs(m);
    forall j | 1 <= j <= |logs|
      ensures Join(logs[..j], TraceSeparator) <= Traces(m)
    {
      JoinPrefix(logs, TraceSeparator, j - 1);
    }
  }

  /** Section i follows sections 0..i-1 in the unstripped context, so the
      labels appear in the order 1, 2, ..., n. */
  lemma {:induction false} SectionsInOrder(blocks: seq<string>, i: nat)
    requires i < |blocks|
    ensures Sections(blocks[..i]) + SectionFor(i, blocks[i]) <= Sections(blocks)
  {
    var init := blocks[..|blocks| - 1];
    if i < |init| {
      SectionsInOrder(init, i);
      assert init[..i] == blocks[..i];
    } else {
      assert blocks[..i] == init;
    }
  }

  /** The first label as text. */
  lemma FirstLabelText()
    ensures Label(0) == "=== RETRIEVAL CALL 1 ==="
  {
    assert Decimal(1) == "1";
  }

  /** Different calls get different labels. */
  lemma LabelInjective(i: nat, j: nat)
    requires Label(i) == Label(j)
    ensures i == j
  {
    var p := "=== RETRIEVAL CALL ";
    var di, dj := Decimal(i + 1), Decimal(j + 1);
    assert Label(i) == p + di + " ===";
    assert Label(j) == p + dj + " ===";
    assert |di| == |dj|;
    assert di == Label(i)[|p|..|p| + |di|];
    assert dj == Label(j)[|p|..|p| + |dj|];
    DecimalInjective(i + 1, j + 1);
  }

  lemma Regroup(nl: string, head: string, block: string, tail: string)
    ensures (nl + head + nl) + block + nl + tail == nl + (head + (nl + block + nl + tail))
  {
  }

  lemma PrefixSplit(p: string, s: string)
    requires p <= s
    ensures s == p + s[|p|..]
  {
  }

  /** The unstripped context is a newline followed by the first label. */
  lemma FirstSectionHead(blocks: seq<string>) returns (x: string)
    requires blocks != []
    ensures Sections(blocks) == "\n" + x
    ensures Label(0) <= x
  {
    var first := SectionFor(0, blocks[0]);
    SectionsInOrder(blocks, 0);
    assert blocks[..0] == [];
    var tail := Sections(blocks)[|first|..];
    PrefixSplit(first, Sections(blocks));
    x := Label(0) + ("\n" + blocks[0] + "\n" + tail);
    Regroup("\n", Label(0), blocks[0], tail);
  }

  lemma StrippedSectionsStartWithFirstLabel(blocks: seq<string>)
    requires blocks != []
    ensures Label(0) <= Strip(Sections(blocks))
  {
    var x := FirstSectionHead(blocks);
    var k := |Label(0)| - 1;
    assert x[0] == '=' && x[k] == '=';
    assert AllSpace("\n");
    StripKeepsPrefix("\n", x, k);
    assert x[..k + 1] == Label(0);
  }

  /** With at least one Tool turn the context begins with the first label. */
  lemma ContextStartsWithFirstLabel(m: seq<Msg>)
    requires Keep(m, ToolKind) != []
    ensures Label(0) <= Context(m)
  {
    assert |RawBlocks(m)| == |Keep(m, ToolKind)|;
    StrippedSectionsStartWithFirstLabel(RawBlocks(m));
  }

  /** The context is "" exactly when there is no Tool turn. */
  lemma ContextEmptyIffNoTools(m: seq<Msg>)
    ensures Context(m) == "" <==> Keep(m, ToolKind) == []
  {
    if Keep(m, ToolKind) != [] {
      ContextStartsWithFirstLabel(m);
    }
  }

  /** With at least one Tool turn the context is the concatenated sections less
      their leading newline and some trailing whitespace. */
  lemma ContextIsSectionsLessWhitespace(m: seq<Msg>) returns (w: string)
    requires Keep(m, ToolKind) != []
    ensures AllSpace(w) && Sections(RawBlocks(m)) == "\n" + Context(m) + w
  {
    var x := FirstSectionHead(RawBlocks(m));
    assert AllSpace("\n");
    TrimStartSkips("\n", x);
    w := TrimEndSplits(x);
  }

  /** In the context, section i follows sections 1..i-1: the labels appear in
      the order 1, 2, ..., n, up to the whitespace the strip removes. */
  lemma ContextSectionsInOrder(m: seq<Msg>, i: nat) returns (w: string)
    requires i < |RawBlocks(m)|
    ensures AllSpace(w)
    ensures Sections(RawBlocks(m)[..i]) + SectionFor(i, RawBlocks(m)[i]) <= "\n" + Context(m) + w
  {
    assert |Keep(m, ToolKind)| == |RawBlocks(m)|;
    w := ContextIsSectionsLessWhitespace(m);
    SectionsInOrder(RawBlocks(m), i);
  }

  /** Call i is logged under "Unknown Query" when there is no i-th AI turn or
      that turn requests no tool. */
  lemma LogsUnknownQuery(m: seq<Msg>, i: nat)
    requires i < |RawBlocks(m)|
    requires i >= |Keep(m, AiKind)| || Keep(m, AiKind)[i].toolCalls == []
    ensures Logs(m)[i] == TraceFor(i, UnknownQuery, RawBlocks(m)[i])
  {
  }

  /** Call i is logged under "Unknown" when the first tool call of the i-th AI
      turn has no `query` argument. */
  lemma LogsUnknownArgument(m: seq<Msg>, i: nat)
    requires i < |RawBlocks(m)|
    requires i < |Keep(m, AiKind)| && Keep(m, AiKind)[i].toolCalls != []
    requires "query" !in Keep(m, AiKind)[i].toolCalls[0].args
    ensures Logs(m)[i] == TraceFor(i, UnknownArgument, RawBlocks(m)[i])
  {
  }

  /** Otherwise call i is logged under the `query` argument itself. */
  lemma LogsQueryArgument(m: seq<Msg>, i: nat)
    requires i < |RawBlocks(m)|
    requires i < |Keep(m, AiKind)| && Keep(m, AiKind)[i].toolCalls != []
    requires "query" in Keep(m, AiKind)[i].toolCalls[0].args
    ensures Logs(m)[i] == TraceFor(i, Keep(m, AiKind)[i].toolCalls[0].args["query"], RawBlocks(m)[i])
  {
  }

  /** The stage's output depends on the state through `question` alone. */
  lemma RetrievalReadsQuestionOnly(s1: QAState, s2: QAState, agent: Agent)
    requires s1.question == s2.question
    ensures Retrieval(s1, agent) == Retrieval(s2, agent)
  {
  }

  /** Summarization reads the state through `question` and `context` alone. */
  lemma SummarizationReadsQuestionAndContext(s1: QAState, s2: QAState, agent: Agent)
    requires s1.question == s2.question && s1.context == s2.context
    ensures Summarization(s1, agent) == Summarization(s2, agent)
  {
  }

  /** Verification reads the state through `question`, `context` and
      `draft_answer` alone. */
  lemma VerificationReadsQuestionContextAndDraft(s1: QAState, s2: QAState, agent: Agent)
    requires s1.question == s2.question && s1.context == s2.context && s1.draftAnswer == s2.draftAnswer
    ensures Verification(s1, agent) == Verification(s2, agent)
  {
  }

  // ---------------------------------------------------------------------
  // Worked examples of the retrieval stage

  /** A tool result with no AI turn before it is logged under "Unknown Query". */
  lemma NoMatchingAiTurnExample(q: string, block: string)
    ensures Logs([Human(q), Tool(block)]) == [TraceFor(0, UnknownQuery, block)]
  {
    var m := [Human(q), Tool(block)];
    assert m[..1] == [m[0]];
    assert Keep(m, ToolKind) == [m[1]];
    assert Keep(m, AiKind) == [];
  }

  /** A tool call without a `query` argument is logged under "Unknown". */
  lemma MissingQueryArgumentExample(q: string, block: string)
    ensures Logs([Human(q), AI("", [ToolCall(map[])]), Tool(block)])
            == [TraceFor(0, UnknownArgument, block)]
  {
    var m := [Human(q), AI("", [ToolCall(map[])]), Tool(block)];
    var init := [m[0], m[1]];
    assert m[..2] == init && init[..1] == [m[0]];
    assert Keep(init, ToolKind) == [];
    assert Keep(init[..1], AiKind) == [] by {
      assert init[..1][..0] == [];
    }
    assert Keep(init, AiKind) == Keep(init[..1], AiKind) + [init[1]];
    assert Keep(m, ToolKind) == [m[2]];
    assert Keep(m, AiKind) == [m[1]];
  }

  /** A conversation with one search: the question, an AI turn requesting
      one call, the tool's result, and the final AI text. */
  function OneCallTurns(block: string): seq<Msg> {
    [Human("What is a vector database?"),
     AI("", [ToolCall(map["query" := "vector database"])]),
     Tool(block),
     AI(block, [])]
  }

  lemma OneCallKinds(block: string)
    ensures Keep(OneCallTurns(block), ToolKind) == [Tool(block)]
    ensures Keep(OneCallTurns(block), AiKind)
            == [AI("", [ToolCall(map["query" := "vector database"])]), AI(block, [])]
  {
    var m := OneCallTurns(block);
    assert m[..3][..2][..1] == [m[0]];
    assert m[..3][..2] == [m[0], m[1]];
    assert m[..3] == [m[0], m[1], m[2]];
    assert Keep(m[..3][..2], ToolKind) == [];
    assert Keep(m[..3], ToolKind) == [m[2]];
    assert Keep(m[..3][..2], AiKind) == [m[1]];
    assert Keep(m[..3], AiKind) == [m[1]];
  }

  /** The worked example: one search whose result is 36 characters long. */
  lemma OneCallExample()
    ensures var m := OneCallTurns("A vector database stores embeddings.");
            && RawBlocks(m) == ["A vector database stores embeddings."]
            && Traces(m) == "Retrieval Call " + "1" + "\nQuery: " + "vector database"
                            + "\nContext Length: " + "36" + " characters"
            && Context(m) == "=== RETRIEVAL CALL " + "1" + " ===" + "\n" + "A vector database stores embeddings."
  {
    var block := "A vector database stores embeddings.";
    OneCallKinds(block);
    OneCallTraces(block);
    OneCallContext(block);
  }

  lemma OneCallTraces(block: string)
    requires block == "A vector database stores embeddings."
    ensures Traces(OneCallTurns(block)) == "Retrieval Call " + "1" + "\nQuery: " + "vector database"
                                           + "\nContext Length: " + "36" + " characters"
  {
    var m := OneCallTurns(block);
    OneCallKinds(block);
    assert Traces(m) == TraceFor(0, "vector database", block) by {
      assert QueryFor(Keep(m, AiKind), 0) == "vector database";
      assert Logs(m) == [TraceFor(0, "vector database", block)];
    }
    assert |block| == 36;
    assert Decimal(36) == "36" by {
      assert Decimal(3) == "3";
    }
    assert Decimal(1) == "1";
  }

  lemma OneCallContext(block: string)
    requires block == "A vector database stores embeddings."
    ensures Context(OneCallTurns(block)) == "=== RETRIEVAL CALL " + "1" + " ===" + "\n" + block
  {
    var m := OneCallTurns(block);
    OneCallKinds(block);
    var t := Label(0) + "\n" + block;
    assert Sections(RawBlocks(m)) == "\n" + t + "\n" by {
      assert RawBlocks(m) == [block];
      assert RawBlocks(m)[..0] == [];
    }
    assert t[0] == '=' && t[|t| - 1] == '.';
    StripOf("\n", t, "\n");
    assert Decimal(1) == "1";
  }

  /** No search at all: every retrieval output is empty. */
  lemma NoCallExample(q: string, answer: string)
    ensures var m := [Human(q), AI(answer, [])];
            RawBlocks(m) == [] && Traces(m) == "" && Context(m) == ""
  {
    var m := [Human(q), AI(answer, [])];
    assert m[..1] == [m[0]];
    assert Keep(m, ToolKind) == [];
  }
}
