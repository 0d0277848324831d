/**
 * The chat session as an object: `AbstractChatService` and its subclass
 * `TextChatClientService` as one class whose fields the methods update in place,
 * beside the completion client it calls.
 */
module ChatService {
  import opened Wrappers
  import opened Options
  import opened Usage
  import opened Prompt
  import opened Parser
  import opened Turn

  /** `IChatClient`: answers each call as `respond` says, and records every prompt it is sent. */
  class ChatClient {
    const respond: Backend
    var sent: seq<string>

    constructor(respond: Backend)
      ensures this.respond == respond && sent == []
    {
      this.respond := respond;
      sent := [];
    }

    /** `CompleteAsync`. */
    method Complete(prompt: string) returns (reply: Reply)
      modifies this
      ensures sent == old(sent) + [prompt]
      ensures reply == respond(sent)
    {
      sent := sent + [prompt];
      reply := respond(sent);
    }
  }

  class TextChatClientService {
    var history: seq<HistoryItem>
    var usage: TokenUsage
    var options: PromptOptions
    var systemPrompt: Option<string>
    const client: ChatClient

    /** The effects a turn can have, read from the session and its client. */
    function State(): Effects
      reads this, client
    {
      Effects(history, usage, client.sent)
    }

    /** A new session: empty history, zero usage, default options, no system prompt. */
    constructor(client: ChatClient)
      ensures this.client == client
      ensures history == [] && usage == Zero && options == New() && systemPrompt == None
    {
      this.client := client;
      history := [];
      usage := Zero;
      options := New();
      systemPrompt := None;
    }

    /** `GetPromptHistory`, as a snapshot. */
    method GetPromptHistory() returns (items: seq<HistoryItem>)
      ensures items == history
    {
      items := history;
    }

    /** `GetTokenUsage`, as a snapshot. */
    method GetTokenUsage() returns (t: TokenUsage)
      ensures t == usage
    {
      t := usage;
    }

    /** `ImportPromptHistory`: the items go after the existing ones, in order; the existing prefix stays. */
    method ImportPromptHistory(items: seq<HistoryItem>)
      modifies this`history
      ensures history == old(history) + items
      ensures history[..|old(history)|] == old(history)
    {
      history := history + items;
    }

    method SetPromptOptions(o: PromptOptions)
      modifies this`options
      ensures options == o
    {
      options := o;
    }

    method SetSystemPrompt(instructions: string)
      modifies this`systemPrompt
      ensures systemPrompt == Some(instructions)
    {
      systemPrompt := Some(instructions);
    }

    /** `UpdateTokenUsage`: the report is added, and nothing else changes. */
    method UpdateTokenUsage(u: Option<UsageDetails>)
      modifies this`usage
      ensures usage == Add(old(usage), u)
      ensures AtMost(old(usage), usage)
    {
      if u.None? {
        return;
      }
      var d := u.value;
      usage := TokenUsage(
        usage.inputTokens + d.inputTokenCount.GetOr(0),
        usage.outputTokens + d.outputTokenCount.GetOr(0),
        usage.totalTokens + d.totalTokenCount.GetOr(0));
    }

    /** The header and then each item, appended one at a time: the loop both history builders share. */
    static method RenderHistory(items: seq<HistoryItem>) returns (s: string)
      ensures s == HistoryHeader + RenderItems(items)
    {
      s := HistoryHeader;
      var i := 0;
      while i < |items|
        invariant 0 <= i <= |items|
        invariant s == HistoryHeader + RenderItems(items[..i])
      {
        assert items[..i + 1][..i] == items[..i];
        s := s + RenderItem(items[i]);
        i := i + 1;
      }
      assert items[..|items|] == items;
    }

    /** `GenerateHistory`: empty for an empty history, otherwise every item. */
    method GenerateHistory() returns (s: string)
      ensures s == PlainHistory(history)
    {
      if |history| == 0 {
        return "";
      }
      s := RenderHistory(history);
    }

    /** `GenerateHistoryWithOptions`: the same, over the last N items when truncation is on. */
    method GenerateHistoryWithOptions() returns (s: string)
      ensures s == HistoryWithOptions(options, history)
    {
      if |history| == 0 {
        return "";
      }
      var subset := HistoryWindow(options, history);
      s := RenderHistory(subset);
    }

    /** `GenerateInternalPrompt`. */
    method GenerateInternalPrompt(prompt: string) returns (s: string)
      ensures s == ComposePrompt(systemPrompt, options, history, prompt)
    {
      var instructions := "";
      if systemPrompt.Some? {
        instructions := InstructionsHeader + " " + systemPrompt.value + "\n";
      }
      assert instructions == Instructions(systemPrompt);
      var memory := "";
      if options.useMemory {
        if UsesPlainHistory(options) {
          memory := GenerateHistory();
        } else {
          memory := GenerateHistoryWithOptions();
        }
      }
      assert memory == Memory(options, history);
      s := instructions + memory + UserPrefix + prompt;
    }

    /** `SummarizeIfNeeded`: `None` when the call throws. */
    method SummarizeIfNeeded(text: string, maxWordCount: int) returns (summary: Option<string>)
      modifies this`usage, client
      ensures Outcome(summary, State()) == Summarize(client.respond, old(State()), text, maxWordCount, options.reasoningTag)
    {
      if Text.WordCount(text) <= maxWordCount {
        return Some(text);
      }
      var completion := client.Complete(SummaryPrompt(maxWordCount, text));
      if completion.Failed? {
        return None;
      }
      UpdateTokenUsage(completion.usage);
      if completion.text.None? {
        return None;
      }
      var parsed := ParsePromptResponse(text, completion.text.value, options.reasoningTag);
      summary := Some(Text.TakeWords(parsed.response, maxWordCount));
    }

    /** `AddPromptHistoryItem`: the appended item, or `None` when a summarisation call throws. */
    method AddPromptHistoryItem(prompt: string, response: string) returns (added: Option<HistoryItem>)
      modifies this`history, this`usage, client
      ensures Outcome(added, State()) == AddHistoryItem(client.respond, old(State()), options, prompt, response)
    {
      var p, r := prompt, response;
      if options.useSummarization {
        var sp := SummarizeIfNeeded(p, options.summarizeMaxWordCount);
        if sp.None? {
          return None;
        }
        var sr := SummarizeIfNeeded(r, options.summarizeMaxWordCount);
        if sr.None? {
          return None;
        }
        p, r := sp.value, sr.value;
      }
      var item := HistoryItem(p, r);
      history := history + [item];
      added := Some(item);
    }

    /**
     * `ProcessChatPromptAsync`: compose, call the backend, add the usage, parse,
     * stamp the response, append to the history; `None` when any step throws.
     * `now` stands for the clock read that stamps the response.
     */
    method ProcessChatPrompt(request: PromptRequest, now: Timestamp) returns (result: Option<PromptResponse>)
      modifies this`history, this`usage, client
      ensures Outcome(result, State())
           == ProcessTurn(client.respond, old(State()), options, systemPrompt, request, now)
    {
      var internalPrompt := GenerateInternalPrompt(request.prompt);
      var completion := client.Complete(internalPrompt);
      if completion.Failed? {
        return None;
      }
      UpdateTokenUsage(completion.usage);
      if completion.text.None? {
        return None;
      }
      var parsed := ParsePromptResponse(request.prompt, completion.text.value, options.reasoningTag);
      var response := PromptResponse(
        parsed.prompt, parsed.reasoning, parsed.response, request.requestTimestampUtc, now, OfCall(completion.usage));
      var added := AddPromptHistoryItem(response.prompt, response.response);
      if added.None? {
        return None;
      }
      result := Some(response);
    }
  }
}
