/** The conversation turns an agent produces, and the two read-only views the
    stages take of them: the turns of one kind, in order, and the text of the
    last AI turn (`_extract_last_ai_content`, src/app/core/agents/agents.py). */
module Messages {
  import opened Wrappers

  /** One tool call requested by an AI turn; only its arguments are ever read. */
  datatype ToolCall = ToolCall(args: map<string, string>)

  /** A turn of the conversation: the user's input, an AI turn (text plus the
      tool calls it requests, possibly none) or the result of a tool call. */
  datatype Msg =
    | Human(content: string)
    | AI(content: string, toolCalls: seq<ToolCall>)
    | Tool(content: string)

  datatype Kind = HumanKind | AiKind | ToolKind

  function KindOf(m: Msg): Kind {
    match m
    case Human(_) => HumanKind
    case AI(_, _) => AiKind
    case Tool(_) => ToolKind
  }

  /** The dictionary an agent's `invoke` returns; "messages" may be missing. */
  datatype AgentOutput = AgentOutput(messages: Option<seq<Msg>>)

  /** A language-model agent: from its input conversation to its output, or an
      exception. Nothing about its behaviour is assumed. */
  type Agent = seq<Msg> -> Result<AgentOutput>

  /** `result.get("messages", [])`. */
  function MessagesOf(out: AgentOutput): seq<Msg> {
    match out.messages
    case Some(m) => m
    case None => []
  }

  /** `[m for m in messages if isinstance(m, K)]`: the turns of kind `k`, in order. */
  function Keep(m: seq<Msg>, k: Kind): (r: seq<Msg>)
    ensures |r| <= |m|
    ensures forall j :: 0 <= j < |r| ==> KindOf(r[j]) == k
    ensures forall j :: 0 <= j < |m| && KindOf(m[j]) == k ==> m[j] in r
  {
    if m == [] then []
    else Keep(m[..|m| - 1], k) + (if KindOf(m[|m| - 1]) == k then [m[|m| - 1]] else [])
  }

  /** Filtering distributes over concatenation, so it keeps the original order. */
  lemma {:induction false} KeepAppend(a: seq<Msg>, b: seq<Msg>, k: Kind)
    ensures Keep(a + b, k) == Keep(a, k) + Keep(b, k)
  {
    if b == [] {
      assert a + b == a;
    } else {
      var b' := b[..|b| - 1];
      assert (a + b)[..|a + b| - 1] == a + b';
      KeepAppend(a, b', k);
    }
  }

  /** The positions in `m` that hold a turn of kind `k`. */
  function PositionsOf(m: seq<Msg>, k: Kind): set<nat> {
    set i: nat | i < |m| && KindOf(m[i]) == k
  }

  /** The filter keeps exactly one entry per turn of kind `k` (including none). */
  lemma {:induction false} KeepCount(m: seq<Msg>, k: Kind)
    ensures |Keep(m, k)| == |PositionsOf(m, k)|
  {
    if m == [] {
      assert PositionsOf(m, k) == {};
    } else {
      var init := m[..|m| - 1];
      KeepCount(init, k);
      PositionsSnoc(m, k);
      assert |init| !in PositionsOf(init, k);
    }
  }

  lemma PositionsSnoc(m: seq<Msg>, k: Kind)
    requires m != []
    ensures PositionsOf(m, k)
            == PositionsOf(m[..|m| - 1], k) + (if KindOf(m[|m| - 1]) == k then {|m| - 1} else {})
  {
    var init := m[..|m| - 1];
    forall i | i in PositionsOf(m, k) && i < |init|
      ensures i in PositionsOf(init, k)
    {
      assert init[i] == m[i];
    }
    forall i | i in PositionsOf(init, k)
      ensures i in PositionsOf(m, k)
    {
      assert init[i] == m[i];
    }
  }

  /** `_extract_last_ai_content`: the text of the last AI turn, or "" if there is none. */
  function ExtractLastAiContent(m: seq<Msg>): (r: string)
    ensures (forall j :: 0 <= j < |m| ==> !m[j].AI?) ==> r == ""
    ensures forall k :: 0 <= k < |m| && m[k].AI? && (forall j :: k < j < |m| ==> !m[j].AI?)
                        ==> r == m[k].content
  {
    if m == [] then ""
    else if m[|m| - 1].AI? then m[|m| - 1].content
    else
      var init := m[..|m| - 1];
      assert forall j :: 0 <= j < |init| ==> init[j] == m[j];
      ExtractLastAiContent(init)
  }

  /** The same text read off the filtered AI turns: the last of them, or "". */
  lemma {:induction false} LastAiIsLastOfAiTurns(m: seq<Msg>)
    ensures var ais := Keep(m, AiKind);
            ExtractLastAiContent(m) == if ais == [] then "" else ais[|ais| - 1].content
  {
    if m != [] {
      var init, last := m[..|m| - 1], m[|m| - 1];
      LastAiIsLastOfAiTurns(init);
      LastAiStep(m);
      KeepStep(m, AiKind);
    }
  }

  /** One step of `_extract_last_ai_content` from the end of the turns. */
  lemma LastAiStep(m: seq<Msg>)
    requires m != []
    ensures ExtractLastAiContent(m)
            == if m[|m| - 1].AI? then m[|m| - 1].content else ExtractLastAiContent(m[..|m| - 1])
  {
  }

  /** One step of the filter from the end of the turns. */
  lemma KeepStep(m: seq<Msg>, k: Kind)
    requires m != []
    ensures Keep(m, k) == Keep(m[..|m| - 1], k) + (if KindOf(m[|m| - 1]) == k then [m[|m| - 1]] else [])
  {
  }
}
