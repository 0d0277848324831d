/**
 * `PromptOptions`: the configuration of one chat session. The C# constructor
 * takes seven nullable arguments, each defaulting to a constant when omitted,
 * and stores `argument ?? fallback` in the matching property.
 */
module Options {
  import opened Wrappers

  const DefaultReasoningTag: string := "think"
  const DefaultSummarizeMaxWordCount: int := 50
  const DefaultTruncationMaxPreviousPrompts: int := 5
  const DefaultUseMemory: bool := true
  const DefaultUseRag: bool := false
  const DefaultUseSummarization: bool := false
  const DefaultUseTruncation: bool := false

  datatype PromptOptions = PromptOptions(
    reasoningTag: string,
    summarizeMaxWordCount: int,
    truncationMaxPreviousPrompts: int,
    useMemory: bool,
    useTruncation: bool,
    useSummarization: bool,
    useRAG: bool)

  /**
   * The constructor as written: a supplied argument is stored unchanged, and an
   * explicit null falls back to the matching default, except that a null
   * `truncationMaxPreviousPrompts` falls back to the summarisation word budget.
   */
  function Create(
    reasoningTag: Option<string>,
    summarizeMaxWordCount: Option<int>,
    truncationMaxPreviousPrompts: Option<int>,
    useMemory: Option<bool>,
    useRag: Option<bool>,
    useSummarization: Option<bool>,
    useTruncation: Option<bool>): (o: PromptOptions)
    ensures reasoningTag.Some? ==> o.reasoningTag == reasoningTag.value
    ensures reasoningTag.None? ==> o.reasoningTag == "think"
    ensures summarizeMaxWordCount.Some? ==> o.summarizeMaxWordCount == summarizeMaxWordCount.value
    ensures summarizeMaxWordCount.None? ==> o.summarizeMaxWordCount == 50
    ensures truncationMaxPreviousPrompts.Some? ==> o.truncationMaxPreviousPrompts == truncationMaxPreviousPrompts.value
    ensures truncationMaxPreviousPrompts.None? ==> o.truncationMaxPreviousPrompts == 50
    ensures useMemory.Some? ==> o.useMemory == useMemory.value
    ensures useMemory.None? ==> o.useMemory
    ensures useRag.Some? ==> o.useRAG == useRag.value
    ensures useRag.None? ==> !o.useRAG
    ensures useSummarization.Some? ==> o.useSummarization == useSummarization.value
    ensures useSummarization.None? ==> !o.useSummarization
    ensures useTruncation.Some? ==> o.useTruncation == useTruncation.value
    ensures useTruncation.None? ==> !o.useTruncation
  {
    PromptOptions(
      reasoningTag.GetOr(DefaultReasoningTag),
      summarizeMaxWordCount.GetOr(DefaultSummarizeMaxWordCount),
      truncationMaxPreviousPrompts.GetOr(DefaultSummarizeMaxWordCount),
      useMemory.GetOr(DefaultUseMemory),
      useTruncation.GetOr(DefaultUseTruncation),
      useSummarization.GetOr(DefaultUseSummarization),
      useRag.GetOr(DefaultUseRag))
  }

  /** `new PromptOptions()`: every argument omitted, so each takes its declared default. */
  function New(): PromptOptions
  {
    Create(
      Some(DefaultReasoningTag), Some(DefaultSummarizeMaxWordCount), Some(DefaultTruncationMaxPreviousPrompts),
      Some(DefaultUseMemory), Some(DefaultUseRag), Some(DefaultUseSummarization), Some(DefaultUseTruncation))
  }

  /** The defaults of a session's options, as literal values. */
  lemma NewDefaults()
    ensures New() == PromptOptions("think", 50, 5, true, false, false, false)
  {
  }

  /**
   * An explicit null for `truncationMaxPreviousPrompts` does not behave like
   * leaving the argument out: it gives 50, not 5.
   */
  lemma NullTruncationDiffersFromOmitted(
    tag: Option<string>, words: Option<int>, memory: Option<bool>,
    rag: Option<bool>, summarize: Option<bool>, truncate: Option<bool>)
    ensures Create(tag, words, None, memory, rag, summarize, truncate).truncationMaxPreviousPrompts == 50
    ensures Create(tag, words, Some(DefaultTruncationMaxPreviousPrompts), memory, rag, summarize, truncate)
              .truncationMaxPreviousPrompts == 5
  {
  }

  /** The constructor as evidently intended: every null falls back to its own default. */
  function CreateIntended(
    reasoningTag: Option<string>,
    summarizeMaxWordCount: Option<int>,
    truncationMaxPreviousPrompts: Option<int>,
    useMemory: Option<bool>,
    useRag: Option<bool>,
    useSummarization: Option<bool>,
    useTruncation: Option<bool>): (o: PromptOptions)
    ensures truncationMaxPreviousPrompts.Some? ==> o.truncationMaxPreviousPrompts == truncationMaxPreviousPrompts.value
    ensures truncationMaxPreviousPrompts.None? ==> o.truncationMaxPreviousPrompts == 5
  {
    PromptOptions(
      reasoningTag.GetOr(DefaultReasoningTag),
      summarizeMaxWordCount.GetOr(DefaultSummarizeMaxWordCount),
      truncationMaxPreviousPrompts.GetOr(DefaultTruncationMaxPreviousPrompts),
      useMemory.GetOr(DefaultUseMemory),
      useTruncation.GetOr(DefaultUseTruncation),
      useSummarization.GetOr(DefaultUseSummarization),
      useRag.GetOr(DefaultUseRag))
  }

  /**
   * With the corrected constructor an explicit null and an omitted argument
   * give the same options, for every argument; where no argument is null it
   * agrees with the constructor as written, so `New()` is the same under both.
   */
  lemma IntendedNullMeansOmitted(
    tag: Option<string>, words: Option<int>, prompts: Option<int>, memory: Option<bool>,
    rag: Option<bool>, summarize: Option<bool>, truncate: Option<bool>)
    ensures CreateIntended(tag, words, prompts, memory, rag, summarize, truncate)
         == CreateIntended(
              Some(tag.GetOr(DefaultReasoningTag)),
              Some(words.GetOr(DefaultSummarizeMaxWordCount)),
              Some(prompts.GetOr(DefaultTruncationMaxPreviousPrompts)),
              Some(memory.GetOr(DefaultUseMemory)),
              Some(rag.GetOr(DefaultUseRag)),
              Some(summarize.GetOr(DefaultUseSummarization)),
              Some(truncate.GetOr(DefaultUseTruncation)))
    ensures prompts.Some? ==> (
      CreateIntended(tag, words, prompts, memory, rag, summarize, truncate)
      == Create(tag, words, prompts, memory, rag, summarize, truncate))
  {
  }
}
