/** The shared state record `QAState` (src/app/core/agents/state.py) and the
    partial-update merge that applies a stage's returned dictionary to it. */
module State {
  import opened Wrappers

  /** One optional key of the state dictionary: missing altogether, present
      and holding `None`, or present with a value. */
  datatype Slot<T> = Absent | NoneValue | Present(value: T)

  /** `question` is always there; the other five keys are `X | None`. */
  datatype QAState = QAState(
    question: string,
    context: Slot<string>,
    draftAnswer: Slot<string>,
    answer: Slot<string>,
    retrievalTraces: Slot<string>,
    rawContextBlocks: Slot<seq<string>>)

  datatype Key = QuestionKey | ContextKey | DraftAnswerKey | AnswerKey
               | RetrievalTracesKey | RawContextBlocksKey

  /** The dictionary a stage returns: `Some` for each key it returns. */
  datatype Update = Update(
    question: Option<string>,
    context: Option<string>,
    draftAnswer: Option<string>,
    answer: Option<string>,
    retrievalTraces: Option<string>,
    rawContextBlocks: Option<seq<string>>)

  const AllKeys: set<Key> :=
    {QuestionKey, ContextKey, DraftAnswerKey, AnswerKey, RetrievalTracesKey, RawContextBlocksKey}

  /** Whether the update returns key `k`. */
  predicate Returns(u: Update, k: Key) {
    match k
    case QuestionKey => u.question.Some?
    case ContextKey => u.context.Some?
    case DraftAnswerKey => u.draftAnswer.Some?
    case AnswerKey => u.answer.Some?
    case RetrievalTracesKey => u.retrievalTraces.Some?
    case RawContextBlocksKey => u.rawContextBlocks.Some?
  }

  /** Whether key `k` holds a value (`question` always does). */
  predicate HasValue(s: QAState, k: Key) {
    match k
    case QuestionKey => true
    case ContextKey => s.context.Present?
    case DraftAnswerKey => s.draftAnswer.Present?
    case AnswerKey => s.answer.Present?
    case RetrievalTracesKey => s.retrievalTraces.Present?
    case RawContextBlocksKey => s.rawContextBlocks.Present?
  }

  /** Whether two states disagree on key `k`. */
  predicate Differs(s: QAState, t: QAState, k: Key) {
    match k
    case QuestionKey => s.question != t.question
    case ContextKey => s.context != t.context
    case DraftAnswerKey => s.draftAnswer != t.draftAnswer
    case AnswerKey => s.answer != t.answer
    case RetrievalTracesKey => s.retrievalTraces != t.retrievalTraces
    case RawContextBlocksKey => s.rawContextBlocks != t.rawContextBlocks
  }

  /** The keys a partial update carries. */
  function Keys(u: Update): set<Key> {
    set k | k in AllKeys && Returns(u, k)
  }

  /** The keys that hold a value. */
  function Filled(s: QAState): set<Key> {
    set k | k in AllKeys && HasValue(s, k)
  }

  /** The keys on which two states disagree. */
  function Changed(s: QAState, t: QAState): set<Key> {
    set k | k in AllKeys && Differs(s, t, k)
  }

  /** A set of keys is the key set of `u` when it agrees with `Returns` key by key. */
  lemma KeysAre(u: Update, ks: set<Key>)
    requires ks <= AllKeys
    requires forall k :: k in AllKeys ==> (Returns(u, k) <==> k in ks)
    ensures Keys(u) == ks
  {
  }

  function Overwrite<T>(prev: Slot<T>, update: Option<T>): Slot<T> {
    match update
    case Some(v) => Present(v)
    case None => prev
  }

  /** The graph's default reducer: every key the stage returned overwrites the
      state's value, and every other key keeps its value. */
  function Merge(s: QAState, u: Update): QAState {
    QAState(
      match u.question case Some(q) => q case None => s.question,
      Overwrite(s.context, u.context),
      Overwrite(s.draftAnswer, u.draftAnswer),
      Overwrite(s.answer, u.answer),
      Overwrite(s.retrievalTraces, u.retrievalTraces),
      Overwrite(s.rawContextBlocks, u.rawContextBlocks))
  }

  /** Merging changes only the keys the update returns, and afterwards every
      returned key holds a value, the returned one. */
  lemma MergeFrame(s: QAState, u: Update)
    ensures Changed(s, Merge(s, u)) <= Keys(u)
    ensures Filled(Merge(s, u)) == Filled(s) + Keys(u)
    ensures u.question.Some? ==> Merge(s, u).question == u.question.value
    ensures u.context.Some? ==> Merge(s, u).context == Present(u.context.value)
    ensures u.draftAnswer.Some? ==> Merge(s, u).draftAnswer == Present(u.draftAnswer.value)
    ensures u.answer.Some? ==> Merge(s, u).answer == Present(u.answer.value)
    ensures u.retrievalTraces.Some? ==> Merge(s, u).retrievalTraces == Present(u.retrievalTraces.value)
    ensures u.rawContextBlocks.Some? ==> Merge(s, u).rawContextBlocks == Present(u.rawContextBlocks.value)
  {
    var r := Merge(s, u);
    forall k | k in AllKeys
      ensures (Differs(s, r, k) ==> Returns(u, k)) && (HasValue(r, k) <==> HasValue(s, k) || Returns(u, k))
    {
    }
  }

  /** Merging an update that returns no key leaves the state as it was. */
  lemma MergeNothing(s: QAState, u: Update)
    requires Keys(u) == {}
    ensures Merge(s, u) == s
  {
    assert QuestionKey !in Keys(u) && ContextKey !in Keys(u) && DraftAnswerKey !in Keys(u);
    assert AnswerKey !in Keys(u) && RetrievalTracesKey !in Keys(u) && RawContextBlocksKey !in Keys(u);
  }
}
