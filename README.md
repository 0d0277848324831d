# Sharp.AI prompt composition and history management, in Dafny

This project models the session layer of Sharp.AI, a .NET library that sits
in front of a chat-completion backend. A chat session (`AbstractChatService`,
run by `TextChatClientService`) keeps four things: an ordered prompt history,
a running token-usage counter, a set of prompt options and an optional system
prompt. Each turn does the following:

- composes an internal prompt: an instructions block, the history (in full, or
  truncated to the last N items), then a final `User:` line;
- sends that prompt to the backend;
- adds the reported token usage to the session counters;
- splits a `<tag>…</tag>` reasoning block off the reply;
- appends the exchange to the history, first cutting each half to a word budget
  through the backend when summarisation is on;
- returns the parsed response, or null when any step throws.

The modules, in dependency order:

- `Wrappers`: `Option`.
- `Text`: .NET `Trim`, `Split(' ')`, `Take`, `string.Join(" ", …)` and integer
  formatting over `seq<char>`, with the lemmas that relate them.
- `Options`: the `PromptOptions` record and how its constructor fills in
  defaults.
- `Usage`: the `UsageDetails` a backend reports and the session's `TokenUsage`
  counters.
- `Prompt`: history rendering and prompt composition, as functions.
- `Parser`: the reasoning-tag parser, as functions. `ParserRoundTrip` holds the
  round-trip lemma.
- `Turn`: the backend as a function from the prompts sent so far to a reply,
  plus the summariser, history append and turn as functions over the session's
  effects (history, usage, prompts sent). `TurnProperties` holds what is proved
  about them.
- `ChatService`: the session and the backend client as classes. They have
  mutable fields, `while` loops that build the history text, and methods whose
  postconditions tie the new state to the `Turn` and `Prompt` functions.

## Model

| member | source | states |
|---|---|---|
| Options.Create | src/Sharp.AI/Models/Options/PromptOptions.cs:34-63 | each supplied argument is stored unchanged in its property; each null falls back to its default, except that a null truncation count becomes 50 |
| Options.NewDefaults | src/Sharp.AI/Models/Options/PromptOptions.cs:34-49 | with no arguments: tag "think", word budget 50, truncation 5, memory on, RAG, summarisation and truncation off |
| Options.NullTruncationDiffersFromOmitted | src/Sharp.AI/Models/Options/PromptOptions.cs:55 | an explicit null truncation count gives 50, while omitting the argument gives 5 |
| Options.CreateIntended | src/Sharp.AI/Models/Options/PromptOptions.cs:51-63 | the constructor with every null falling back to its own default |
| Options.IntendedNullMeansOmitted | src/Sharp.AI/Models/Options/PromptOptions.cs:37 | in the corrected constructor a null truncation count is the same as omitting it, and any other argument list gives what the constructor as written gives |
| Usage.OfCall | src/Sharp.AI/Services/Clients/TextChatClientService.cs:54-59 | a call's own usage: each reported count, with missing counts (and a missing report) as zero |
| Usage.Add | src/Sharp.AI/Abstractions/AbstractChatService.cs:121-128 | a null report changes nothing; otherwise each counter grows by its reported count or by zero, so no counter decreases |
| ChatService.TextChatClientService.UpdateTokenUsage | src/Sharp.AI/Abstractions/AbstractChatService.cs:121-128 | the session usage becomes `Add` of the old usage and the report, and nothing else changes |
| ChatService.TextChatClientService.constructor | src/Sharp.AI/Abstractions/AbstractChatService.cs:50-55 | a new session has no history, zero usage, default options and no system prompt |
| ChatService.TextChatClientService.GetPromptHistory | src/Sharp.AI/Abstractions/AbstractChatService.cs:57 | returns the history |
| ChatService.TextChatClientService.GetTokenUsage | src/Sharp.AI/Abstractions/AbstractChatService.cs:59 | returns the usage counters |
| ChatService.TextChatClientService.ImportPromptHistory | src/Sharp.AI/Abstractions/AbstractChatService.cs:61 | the imported items go after the existing ones, in order, and the existing prefix is unchanged |
| ChatService.TextChatClientService.SetPromptOptions | src/Sharp.AI/Abstractions/AbstractChatService.cs:65 | replaces the options and nothing else |
| ChatService.TextChatClientService.SetSystemPrompt | src/Sharp.AI/Abstractions/AbstractChatService.cs:67 | sets the system prompt and nothing else |
| Prompt.RenderItemsAppend | src/Sharp.AI/Abstractions/AbstractChatService.cs:130-134 | each item renders as "User: p\nAssistant: r\n", and a history's rendering is its parts' renderings concatenated in chronological order |
| Prompt.RenderItemsFirst | src/Sharp.AI/Abstractions/AbstractChatService.cs:143-146 | the rendering of a history is its oldest item's rendering followed by that of the rest |
| Prompt.TakeLast | src/Sharp.AI/Abstractions/AbstractChatService.cs:156 | `TakeLast(n)` is the suffix of length min(n, count), and is empty when n <= 0 |
| ChatService.TextChatClientService.RenderHistory | src/Sharp.AI/Abstractions/AbstractChatService.cs:140-148 | the loop's result is the header followed by every item rendered in order |
| ChatService.TextChatClientService.GenerateHistory | src/Sharp.AI/Abstractions/AbstractChatService.cs:136-149 | the result is the plain rendering of the history: empty for an empty history, otherwise the header and every item |
| ChatService.TextChatClientService.GenerateHistoryWithOptions | src/Sharp.AI/Abstractions/AbstractChatService.cs:151-168 | the result is the header and the truncation window of a non-empty history, and empty for an empty one |
| ChatService.TextChatClientService.GenerateInternalPrompt | src/Sharp.AI/Abstractions/AbstractChatService.cs:82-97 | the result is the composition of instructions, memory and user line that `Prompt.ComposePrompt` defines |
| Prompt.ComposedPromptShape | src/Sharp.AI/Abstractions/AbstractChatService.cs:86-96 | the composed prompt always ends with "User: " + prompt, and with a system prompt S it begins with "[Instructions] \n " + S + "\n" |
| Prompt.ComposeExample | src/Sharp.AI/Abstractions/AbstractChatService.cs:86-96 | empty history, default options, system prompt "S", prompt "Hi" compose to "[Instructions] \n S\nUser: Hi" |
| Prompt.MemoryOffOmitsHistory | src/Sharp.AI/Abstractions/AbstractChatService.cs:89-92 | with memory off the prompt is the instructions plus the user line, whatever the history and the other flags |
| Prompt.EmptyHistoryRendersNothing | src/Sharp.AI/Abstractions/AbstractChatService.cs:136-153 | an empty history renders as the empty string, with no header, on both paths |
| Prompt.TruncatedHistoryIsMostRecent | src/Sharp.AI/Abstractions/AbstractChatService.cs:155-166 | under truncation a non-empty history renders as the header plus exactly its last min(N, count) items in order, and as only the header when N <= 0 |
| Prompt.TruncationDropsOldestItems | src/Sharp.AI/Abstractions/AbstractChatService.cs:155-157 | the oldest dropped items' rendering followed by the window's rendering, after the header, is the full plain rendering |
| Prompt.WithoutTruncationSameAsPlain | src/Sharp.AI/Abstractions/AbstractChatService.cs:136-168 | with truncation off (summarisation or RAG on), the with-options path renders exactly the plain text |
| Text.Trim | src/Sharp.AI/Abstractions/AbstractChatService.cs:109-110 | the result is the slice of the text after its leading white space, only white space follows it, and it neither starts nor ends with white space |
| Parser.FindFrom | src/Sharp.AI/Abstractions/AbstractChatService.cs:105 | the first occurrence of a pattern at or after a position, or none when it occurs nowhere there |
| Parser.FirstBlock | src/Sharp.AI/Abstractions/AbstractChatService.cs:101-105 | the match of `<tag>(.*?)</tag>`: the first open tag and the first close tag after it, or none when no block exists |
| Parser.RemoveBlocksLength | src/Sharp.AI/Abstractions/AbstractChatService.cs:110 | removing the blocks never lengthens the text, and strictly shortens it when a block exists |
| Parser.ParseWithoutBlock | src/Sharp.AI/Abstractions/AbstractChatService.cs:99-119 | the reasoning is null exactly when no block exists, and then the response is the raw text, untrimmed, with the prompt passed through |
| Parser.ParseWithBlock | src/Sharp.AI/Abstractions/AbstractChatService.cs:107-111 | with a block, the reasoning is the first block's content trimmed, and the content holds no close tag; the response is the text with every block removed, then trimmed, and it is shorter than the text |
| Parser.NoCloseInsideBlock | src/Sharp.AI/Abstractions/AbstractChatService.cs:101 | the lazy `.*?` group never contains the close tag |
| ParserRoundTrip.ParseRecoversReasoningAndAnswer | src/Sharp.AI/Abstractions/AbstractChatService.cs:99-119 | parsing `<tag>` + reasoning + `</tag>` + answer recovers the trimmed reasoning and the trimmed answer, when the reasoning holds no close tag and the answer holds no block |
| ParserRoundTrip.ParseExample | src/Sharp.AI/Abstractions/AbstractChatService.cs:99-119 | "<think>abc</think>answer" parses to reasoning "abc" and response "answer" |
| Text.SplitCount | src/Sharp.AI/Abstractions/AbstractChatService.cs:172 | `Split(' ')` gives one more segment than the text has spaces, so even the empty text has one segment |
| Text.JoinSplit | src/Sharp.AI/Abstractions/AbstractChatService.cs:180-182 | joining the segments of a text with single spaces gives the text back |
| Text.SplitJoin | src/Sharp.AI/Abstractions/AbstractChatService.cs:180-182 | splitting space-free segments joined by single spaces gives the segments back |
| Text.TakeWordsBound | src/Sharp.AI/Abstractions/AbstractChatService.cs:180-182 | with n >= 1 the result's segments are exactly the first min(n, count) segments of the text; "" when n <= 0; always a prefix of the text, and the text itself when it already fits |
| Text.IntToString | src/Sharp.AI/Abstractions/AbstractChatService.cs:174 | the decimal form of the word budget in the summary instruction: a leading '-' exactly for negatives, then digits only, with no leading zero |
| Text.IntToStringValue | src/Sharp.AI/Abstractions/AbstractChatService.cs:174 | reading the formatted budget back as a decimal number, with its sign, gives the budget |
| TurnProperties.SummarizeSpec | src/Sharp.AI/Abstractions/AbstractChatService.cs:170-183 | text within the budget comes back unchanged with no call; otherwise exactly one summary instruction is sent, the result is None exactly when that call throws or returns no text, and a result is the prefix of the parsed reply made of its first `maxWordCount` segments; the call's usage is added and the history is untouched |
| ChatService.TextChatClientService.SummarizeIfNeeded | src/Sharp.AI/Abstractions/AbstractChatService.cs:170-183 | the result, new usage and prompts sent are those `Turn.Summarize` gives for the old state |
| TurnProperties.AddHistoryItemSpec | src/Sharp.AI/Abstractions/AbstractChatService.cs:69-80 | the pair is appended verbatim with no call when summarisation is off; otherwise the append happens exactly when both summaries succeed, and the item is the pair of summaries; a successful append adds exactly one item at the end, a throw appends nothing, and every call's usage is added |
| ChatService.TextChatClientService.AddPromptHistoryItem | src/Sharp.AI/Abstractions/AbstractChatService.cs:69-80 | the appended item, new history, usage and prompts sent are those `Turn.AddHistoryItem` gives for the old state |
| ChatService.ChatClient.Complete | src/Sharp.AI/Services/Clients/TextChatClientService.cs:45 | the prompt is recorded as sent, and the reply is the backend's answer to all prompts sent so far |
| ChatService.TextChatClientService.ProcessChatPrompt | src/Sharp.AI/Services/Clients/TextChatClientService.cs:40-71 | the response, new history, usage and prompts sent are those `Turn.ProcessTurn` gives for the old state; options and system prompt are unchanged |
| TurnProperties.PrimaryFailureChangesNothing | src/Sharp.AI/Services/Clients/TextChatClientService.cs:42-47 | when the primary call throws, the turn returns null and the history and usage are exactly as before |
| TurnProperties.TurnEffects | src/Sharp.AI/Services/Clients/TextChatClientService.cs:40-71 | the composed prompt is sent first, then at most two further calls; usage grows by exactly what the calls report; the history changes only by one appended item, and only when a response is returned |
| TurnProperties.TurnResponse | src/Sharp.AI/Services/Clients/TextChatClientService.cs:49-63 | a returned response carries the caller's own prompt, the unsummarised parse of the primary reply, the request's timestamp, the response time, and the primary call's usage with missing counts as zero |
| TurnProperties.TurnWithoutSummarization | src/Sharp.AI/Services/Clients/TextChatClientService.cs:61 | with summarisation off, a reply with text always gives a response and appends exactly (prompt, parsed response), with no other call |
| TurnProperties.TurnLateFailure | src/Sharp.AI/Services/Clients/TextChatClientService.cs:47-70 | after a successful primary call the turn returns null exactly when the reply has no text or a summarisation call throws or returns no text; such a turn keeps the primary usage and appends nothing |
| TurnProperties.TurnWithSummarization | src/Sharp.AI/Services/Clients/TextChatClientService.cs:61-63 | with summarisation on and every call answering with text, the turn returns its response and appends exactly one item, the summaries of the prompt and of the parsed reply, with every call's usage added |

## Left out

- The network completion client (`IChatClient.CompleteAsync` and the OpenAI, Azure and Ollama SDKs) is foreign I/O. `ChatClient` stands for it. It answers with a fixed but arbitrary function of every prompt sent so far. That function either throws (`Failed`) or returns an optional text and an optional usage report.
- Dependency-injection wiring and backend selection (`ServiceCollectionExtensions.cs`, `AiClientConfiguration.cs`) are library plumbing and are not part of this model.
- The interactive console loop (`TextChatBotFeature.cs`) is user interface and I/O.
- Clock reads (`DateTime.UtcNow` at `PromptRequest.cs:46` and `TextChatClientService.cs:52`) are opaque `Timestamp` values. The request carries its own timestamp, and the response time is a parameter.
- Async scheduling: the awaited calls run one after another.
- The `Debug.WriteLine` in the catch block is diagnostic output only.
- IntToString: the word budget is formatted with a leading '-' for negatives, as the invariant culture does. The interpolation at line 174 uses the current culture, whose negative sign may differ.
- General .NET regular expressions: tags are taken literally. The model assumes the tag has no regex metacharacters.
- `ParserRoundTrip.ParseRecoversReasoningAndAnswer`: its precondition also requires that the tag contains no '<'. Without that, a close tag could begin inside the `</tag>` just written.
- `UseRAG` does nothing beyond steering composition away from the plain history path.
- The interfaces `IPromptService.cs` and `IChatPromptService.cs` contain no logic.
- `GetPromptHistory` returns the live list, so a caller can alias it. The model returns a snapshot.
- GetTokenUsage: the source returns the session's own `TokenUsage` object. A caller therefore sees later turns through it and may write to it. The model returns a copy of the counters, so it does not capture that sharing.
- SetPromptOptions: the source keeps a reference to the caller's `PromptOptions`, whose four flags have public setters. A caller can change the session's memory strategy later without calling `SetPromptOptions` again. The model stores the options as a value, so changes made after the call are not captured.
- `AbstractChatService` and `TextChatClientService` are one class here, because the model has no class inheritance. `SendPromptRequestAsync` (lines 73-76) only forwards to the turn, so it is not modelled separately.
- The token counters are unbounded naturals. The model leaves out 64-bit overflow, and negative counts that a backend could report.
- `TokenUsage.cs`, `PromptResponse.cs` and `PromptHistoryItem.cs` are not part of this model. Their field lists are taken from how the core uses them. A parsed response carries no timestamps or usage until the turn sets them.
- A reply whose message text is null is modelled as a throw raised by the parse, after the usage has been added (`Message.Text!` at line 102 followed by `Regex.Match`).
- `TurnProperties.SummarizeSpec`: the at-most-`maxWordCount`-segments bound is stated only for a budget of 1 or more. With a budget of 0 or less, the summary is "", which `Split(' ')` still counts as one segment.

## Findings

| source | as written | input that shows it | evidently intended | confidence | as-written member | corrected member |
|---|---|---|---|---|---|---|
| src/Sharp.AI/Models/Options/PromptOptions.cs:55 | `truncationMaxPreviousPrompts ?? DefaultSummarizeMaxWordCount` | `new PromptOptions(truncationMaxPreviousPrompts: null)` keeps 50 previous prompts, while omitting the argument keeps 5 | `truncationMaxPreviousPrompts ?? DefaultTruncationMaxPreviousPrompts`, so that a null count means the default of 5 | not executed | Options.NullTruncationDiffersFromOmitted | Options.IntendedNullMeansOmitted |
