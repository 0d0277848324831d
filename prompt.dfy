/**
 * The prompt composer: how the history is rendered and how the text sent to the
 * completion backend is assembled from the instructions, the rendered history
 * and the new user line.
 */
module Prompt {
  import opened Wrappers
  import opened Options

  const UserPrefix: string := "User: "
  const AssistantPrefix: string := "Assistant: "
  const HistoryHeader: string := "[History] \n"
  const InstructionsHeader: string := "[Instructions] \n"

  /** One exchange of the conversation. */
  datatype HistoryItem = HistoryItem(prompt: string, response: string)

  /** `AppendHistoryItem`: a user line, then an assistant line. */
  function RenderItem(item: HistoryItem): string
  {
    UserPrefix + item.prompt + "\n" + AssistantPrefix + item.response + "\n"
  }

  /** The items rendered one after the other, oldest first. */
  function RenderItems(items: seq<HistoryItem>): string
  {
    if items == [] then "" else RenderItems(items[..|items| - 1]) + RenderItem(items[|items| - 1])
  }

  /** Rendering is compositional: the rendering of a concatenation is the concatenation of the renderings. */
  lemma {:induction false} RenderItemsAppend(a: seq<HistoryItem>, b: seq<HistoryItem>)
    ensures RenderItems(a + b) == RenderItems(a) + RenderItems(b)
    decreases |b|
  {
    if b == [] {
      assert a + b == a;
    } else {
      var b', x := b[..|b| - 1], b[|b| - 1];
      assert a + b == (a + b') + [x];
      assert (a + b)[..|a + b| - 1] == a + b';
      RenderItemsAppend(a, b');
      assert RenderItems(a + b) == RenderItems(a + b') + RenderItem(x);
      assert RenderItems(b) == RenderItems(b') + RenderItem(x);
      Assoc(RenderItems(a), RenderItems(b'), RenderItem(x));
    }
  }

  lemma Assoc(p: string, q: string, r: string)
    ensures p + q + r == p + (q + r)
  {
  }

  /** So the rendering of a history is the rendering of its oldest item followed by that of the rest. */
  lemma RenderItemsFirst(items: seq<HistoryItem>)
    requires items != []
    ensures RenderItems(items) == RenderItem(items[0]) + RenderItems(items[1..])
  {
    RenderItemsAppend([items[0]], items[1..]);
    assert [items[0]] + items[1..] == items;
    assert RenderItems([items[0]]) == RenderItems([]) + RenderItem(items[0]);
  }

  /**
   * `Enumerable.TakeLast(items, n)`: the last min(n, |items|) items in their
   * original order, and none when n <= 0.
   */
  function TakeLast<T>(items: seq<T>, n: int): (r: seq<T>)
    ensures |r| == if n <= 0 then 0 else if n < |items| then n else |items|
    ensures r == items[|items| - |r|..]
  {
    if n <= 0 then [] else if n >= |items| then items else items[|items| - n..]
  }

  /** `GenerateHistory`: nothing for an empty history, else the header and every item. */
  function PlainHistory(history: seq<HistoryItem>): string
  {
    if |history| == 0 then "" else HistoryHeader + RenderItems(history)
  }

  /** The items the with-options path renders: the last N under truncation, otherwise all. */
  function HistoryWindow(options: PromptOptions, history: seq<HistoryItem>): seq<HistoryItem>
  {
    if options.useTruncation then TakeLast(history, options.truncationMaxPreviousPrompts) else history
  }

  /** `GenerateHistoryWithOptions`: nothing for an empty history, else the header and the window. */
  function HistoryWithOptions(options: PromptOptions, history: seq<HistoryItem>): string
  {
    if |history| == 0 then "" else HistoryHeader + RenderItems(HistoryWindow(options, history))
  }

  /** The plain path is chosen exactly when truncation, summarisation and RAG are all off. */
  predicate UsesPlainHistory(options: PromptOptions)
  {
    !options.useTruncation && !options.useSummarization && !options.useRAG
  }

  /** The memory part of the composed prompt. */
  function Memory(options: PromptOptions, history: seq<HistoryItem>): string
  {
    if !options.useMemory then ""
    else if UsesPlainHistory(options) then PlainHistory(history)
    else HistoryWithOptions(options, history)
  }

  /** The instructions block; note the extra space between the header and the system prompt. */
  function Instructions(systemPrompt: Option<string>): string
  {
    match systemPrompt
    case None => ""
    case Some(s) => InstructionsHeader + " " + s + "\n"
  }

  /** `GenerateInternalPrompt`: instructions, then memory, then the new user line. */
  function ComposePrompt(
    systemPrompt: Option<string>, options: PromptOptions, history: seq<HistoryItem>, prompt: string): string
  {
    Instructions(systemPrompt) + Memory(options, history) + UserPrefix + prompt
  }

  /**
   * The composed prompt starts with the instructions block (nothing when there is
   * no system prompt) and always ends with the user line for the new prompt.
   */
  lemma ComposedPromptShape(
    systemPrompt: Option<string>, options: PromptOptions, history: seq<HistoryItem>, prompt: string)
    ensures var c := ComposePrompt(systemPrompt, options, history, prompt);
      && |c| >= |UserPrefix + prompt|
      && c[|c| - |UserPrefix + prompt|..] == "User: " + prompt
      && (systemPrompt.Some? ==> c[..|"[Instructions] \n " + systemPrompt.value + "\n"|]
                                   == "[Instructions] \n " + systemPrompt.value + "\n")
  {
    var instructions, memory := Instructions(systemPrompt), Memory(options, history);
    var user := UserPrefix + prompt;
    ConcatEnds(instructions, memory, user);
    assert UserPrefix == "User: ";
    if systemPrompt.Some? {
      assert instructions == "[Instructions] \n " + systemPrompt.value + "\n";
    }
  }

  /** The first and last parts of a three-part concatenation are its prefix and its suffix. */
  lemma ConcatEnds(x: string, y: string, z: string)
    ensures var c := x + y + z;
      && |c| >= |z| && c[|c| - |z|..] == z
      && c[..|x|] == x
  {
    var c := x + y + z;
    assert c == x + (y + z);
  }

  /** With memory off the history contributes nothing, whatever it holds and whatever the other flags. */
  lemma MemoryOffOmitsHistory(
    systemPrompt: Option<string>, options: PromptOptions, history: seq<HistoryItem>, prompt: string)
    requires !options.useMemory
    ensures ComposePrompt(systemPrompt, options, history, prompt) == Instructions(systemPrompt) + "User: " + prompt
  {
  }

  /** An empty history renders as nothing, with no header, on both paths. */
  lemma EmptyHistoryRendersNothing(options: PromptOptions)
    ensures PlainHistory([]) == "" && HistoryWithOptions(options, []) == ""
    ensures Memory(options, []) == ""
  {
  }

  /**
   * Under truncation a non-empty history renders as the header followed by
   * exactly its last min(N, count) items, in chronological order; with N <= 0
   * only the header remains.
   */
  lemma TruncatedHistoryIsMostRecent(options: PromptOptions, history: seq<HistoryItem>)
    requires options.useTruncation && history != []
    ensures var n := options.truncationMaxPreviousPrompts;
      var k := if n <= 0 then 0 else if n < |history| then n else |history|;
      HistoryWithOptions(options, history) == "[History] \n" + RenderItems(history[|history| - k..])
    ensures options.truncationMaxPreviousPrompts <= 0 ==> HistoryWithOptions(options, history) == "[History] \n"
  {
  }

  /**
   * The rendered window is a suffix of the full rendering: truncation drops
   * whole items from the old end and changes nothing else.
   */
  lemma TruncationDropsOldestItems(options: PromptOptions, history: seq<HistoryItem>)
    requires history != []
    ensures var window := HistoryWindow(options, history);
      var dropped := history[..|history| - |window|];
      HistoryHeader + RenderItems(dropped) + RenderItems(window) == PlainHistory(history)
  {
    var window := HistoryWindow(options, history);
    var dropped := history[..|history| - |window|];
    assert dropped + window == history;
    RenderItemsAppend(dropped, window);
  }

  /** With truncation off, the with-options path renders exactly what the plain path renders. */
  lemma WithoutTruncationSameAsPlain(options: PromptOptions, history: seq<HistoryItem>)
    requires !options.useTruncation
    ensures HistoryWithOptions(options, history) == PlainHistory(history)
  {
  }

  /** The scenario of an empty history, default options, system prompt "S" and prompt "Hi". */
  lemma ComposeExample()
    ensures ComposePrompt(Some("S"), New(), [], "Hi") == "[Instructions] \n S\nUser: Hi"
  {
  }
}
