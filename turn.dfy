/**
 * The per-turn behaviour of the chat service, as functions of the session's
 * state and of the completion backend. The backend is any function from the
 * prompts sent so far (the last one being the current call) to a reply, which
 * covers every way a remote service can answer a sequence of calls.
 */
module Turn {
  import opened Wrappers
  import opened Text
  import opened Options
  import opened Usage
  import opened Prompt
  import opened Parser

  /**
   * One call of `CompleteAsync`: it throws (`Failed`), or returns a completion
   * whose message text may be missing and whose usage report may be missing.
   */
  datatype Reply = Failed | Completed(text: Option<string>, usage: Option<UsageDetails>)

  /** The backend: its reply to the last of the prompts sent so far. */
  type Backend = seq<string> -> Reply

  /** A clock reading, copied from place to place and never computed with. */
  datatype Timestamp = Timestamp(ticks: int)

  datatype PromptRequest = PromptRequest(prompt: string, requestTimestampUtc: Timestamp)

  datatype PromptResponse = PromptResponse(
    prompt: string,
    reasoning: Option<string>,
    response: string,
    requestTimestampUtc: Timestamp,
    responseTimestampUtc: Timestamp,
    tokenUsage: TokenUsage)

  /** What a turn can change: the history, the usage counters and the backend's record of calls. */
  datatype Effects = Effects(history: seq<HistoryItem>, usage: TokenUsage, sent: seq<string>)

  /** The value a step produces (`None` when it throws) and the effects it leaves behind. */
  datatype Outcome<T> = Outcome(value: Option<T>, after: Effects)

  /** The usage a reply adds to the session counters: none for a failed call. */
  function ReplyUsage(r: Reply): TokenUsage
  {
    match r
    case Failed => Zero
    case Completed(_, u) => OfCall(u)
  }

  /** The usage reported by the calls at positions `from` and later in `sent`. */
  function Reported(backend: Backend, sent: seq<string>, from: nat): TokenUsage
    requires from <= |sent|
    decreases |sent| - from
  {
    if from == |sent| then Zero
    else Plus(ReplyUsage(backend(sent[..from + 1])), Reported(backend, sent, from + 1))
  }

  /** The instruction sent to the backend to shorten a text. */
  function SummaryPrompt(maxWordCount: int, text: string): string
  {
    "Summarize this to " + IntToString(maxWordCount) + " words: " + text
  }

  /** `SummarizeIfNeeded`. */
  function Summarize(backend: Backend, e: Effects, text: string, maxWordCount: int, tag: string): Outcome<string>
  {
    if WordCount(text) <= maxWordCount then Outcome(Some(text), e)
    else
      var sent := e.sent + [SummaryPrompt(maxWordCount, text)];
      match backend(sent)
      case Failed => Outcome(None, Effects(e.history, e.usage, sent))
      case Completed(reply, u) =>
        var usage := Add(e.usage, u);
        match reply
        case None => Outcome(None, Effects(e.history, usage, sent))
        case Some(t) =>
          Outcome(Some(TakeWords(ParsePromptResponse(text, t, tag).response, maxWordCount)), Effects(e.history, usage, sent))
  }

  /** `AddPromptHistoryItem`: the appended item, or `None` when a summarisation call throws. */
  function AddHistoryItem(backend: Backend, e: Effects, options: PromptOptions, prompt: string, response: string)
    : Outcome<HistoryItem>
  {
    if !options.useSummarization then
      var item := HistoryItem(prompt, response);
      Outcome(Some(item), Effects(e.history + [item], e.usage, e.sent))
    else
      var p := Summarize(backend, e, prompt, options.summarizeMaxWordCount, options.reasoningTag);
      match p.value
      case None => Outcome(None, p.after)
      case Some(shortPrompt) =>
        var r := Summarize(backend, p.after, response, options.summarizeMaxWordCount, options.reasoningTag);
        match r.value
        case None => Outcome(None, r.after)
        case Some(shortResponse) =>
          var item := HistoryItem(shortPrompt, shortResponse);
          Outcome(Some(item), Effects(r.after.history + [item], r.after.usage, r.after.sent))
  }

  /** The prompt a turn sends first: the composition of the session's state and the request. */
  function TurnPrompt(e: Effects, options: PromptOptions, systemPrompt: Option<string>, request: PromptRequest): string
  {
    ComposePrompt(systemPrompt, options, e.history, request.prompt)
  }

  /** The reply to a turn's primary call. */
  function PrimaryReply(backend: Backend, e: Effects, options: PromptOptions, systemPrompt: Option<string>,
                        request: PromptRequest): Reply
  {
    backend(e.sent + [TurnPrompt(e, options, systemPrompt, request)])
  }

  /** The effects of a turn's primary call: the prompt recorded, and the reply's usage added. */
  function AfterPrimary(backend: Backend, e: Effects, options: PromptOptions, systemPrompt: Option<string>,
                        request: PromptRequest): Effects
  {
    var sent := e.sent + [TurnPrompt(e, options, systemPrompt, request)];
    match PrimaryReply(backend, e, options, systemPrompt, request)
    case Failed => Effects(e.history, e.usage, sent)
    case Completed(_, u) => Effects(e.history, Add(e.usage, u), sent)
  }

  /** `ProcessChatPromptAsync`: the response, or `None` when any step throws. */
  function ProcessTurn(
    backend: Backend, e: Effects, options: PromptOptions, systemPrompt: Option<string>,
    request: PromptRequest, now: Timestamp): Outcome<PromptResponse>
  {
    var mid := AfterPrimary(backend, e, options, systemPrompt, request);
    match PrimaryReply(backend, e, options, systemPrompt, request)
    case Failed => Outcome(None, mid)
    case Completed(reply, u) =>
      match reply
      case None => Outcome(None, mid)
      case Some(t) =>
        var parsed := ParsePromptResponse(request.prompt, t, options.reasoningTag);
        var response := PromptResponse(
          parsed.prompt, parsed.reasoning, parsed.response, request.requestTimestampUtc, now, OfCall(u));
        var added := AddHistoryItem(backend, mid, options, parsed.prompt, parsed.response);
        if added.value.None? then Outcome(None, added.after) else Outcome(Some(response), added.after)
  }
}

/** What the turn functions promise: failure isolation, exact accounting, history growth and the word budget. */
module TurnProperties {
  import opened Wrappers
  import opened Text
  import opened Options
  import opened Usage
  import opened Prompt
  import opened Parser
  import opened Turn

  /**
   * The counters after a step are those before it plus exactly the usage every
   * call made during the step reported, and the backend's record only grew.
   */
  ghost predicate Accounts(backend: Backend, before: Effects, after: Effects)
  {
    && before.sent <= after.sent
    && after.usage == Plus(before.usage, Reported(backend, after.sent, |before.sent|))
  }

  lemma {:induction false} ReportedPrefix(backend: Backend, s: seq<string>, m: nat, a: nat)
    requires a <= m <= |s|
    ensures Reported(backend, s, a) == Plus(Reported(backend, s[..m], a), Reported(backend, s, m))
    decreases m - a
  {
    if a < m {
      ReportedPrefix(backend, s, m, a + 1);
      assert s[..m][..a + 1] == s[..a + 1];
    }
  }

  /** Accounting composes: two accounted steps in a row are one accounted step. */
  lemma AccountsTrans(backend: Backend, e1: Effects, e2: Effects, e3: Effects)
    requires Accounts(backend, e1, e2) && Accounts(backend, e2, e3)
    ensures Accounts(backend, e1, e3)
  {
    ReportedPrefix(backend, e3.sent, |e2.sent|, |e1.sent|);
    assert e3.sent[..|e2.sent|] == e2.sent;
  }

  /** One call whose reply is added (or, when it failed, not) to the counters is accounted. */
  lemma OneCallAccounts(backend: Backend, e: Effects, q: string, usage: TokenUsage)
    requires usage == Plus(e.usage, ReplyUsage(backend(e.sent + [q])))
    ensures Accounts(backend, e, Effects(e.history, usage, e.sent + [q]))
  {
    var s := e.sent + [q];
    assert s[..|e.sent| + 1] == s;
  }

  /** A step that makes no call and leaves the counters alone is accounted. */
  lemma NoCallAccounts(backend: Backend, e: Effects, history: seq<HistoryItem>)
    ensures Accounts(backend, e, Effects(history, e.usage, e.sent))
  {
  }

  /**
   * The summariser: within the budget the text comes back unchanged, with no
   * backend call and no usage. Otherwise exactly one call is made, with the
   * summary instruction, and the result is `None` exactly when that call throws
   * or returns no text. A result from a call is a prefix of the parsed reply
   * made of exactly its first `maxWordCount` segments (empty when the budget is
   * zero or less). The history is never touched, and the call's usage is added
   * to the counters.
   */
  lemma SummarizeSpec(backend: Backend, e: Effects, text: string, maxWordCount: int, tag: string)
    ensures var o := Summarize(backend, e, text, maxWordCount, tag);
      && o.after.history == e.history
      && Accounts(backend, e, o.after)
      && (WordCount(text) <= maxWordCount ==> o == Outcome(Some(text), e))
      && (WordCount(text) > maxWordCount ==>
            var r := backend(e.sent + [SummaryPrompt(maxWordCount, text)]);
            && o.after.sent == e.sent + [SummaryPrompt(maxWordCount, text)]
            && (o.value.None? <==> (r.Failed? || r.text.None?))
            && (r.Completed? && r.text.Some? ==>
                  var reply := ParsePromptResponse(text, r.text.value, tag).response;
                  && o.value.value <= reply
                  && (maxWordCount >= 1 ==> Split(o.value.value) == Take(Split(reply), maxWordCount))))
      && (o.value.Some? && maxWordCount >= 1 ==> WordCount(o.value.value) <= maxWordCount)
      && (o.value.Some? && maxWordCount <= 0 ==> o.value.value == "")
  {
    var o := Summarize(backend, e, text, maxWordCount, tag);
    if WordCount(text) <= maxWordCount {
      NoCallAccounts(backend, e, e.history);
    } else {
      var q := SummaryPrompt(maxWordCount, text);
      OneCallAccounts(backend, e, q, o.after.usage);
      match backend(e.sent + [q])
      case Failed =>
      case Completed(reply, u) =>
        if reply.Some? {
          TakeWordsBound(ParsePromptResponse(text, reply.value, tag).response, maxWordCount);
        }
    }
  }

  /**
   * History append: with summarisation off the pair is appended verbatim, with
   * no call. With it on, each half is summarised in turn. The append happens,
   * and the result is `Some`, exactly when both summaries are `Some`, and the
   * item appended is the pair of summaries; each half is unchanged when it fits
   * the budget, and cut to the budget when it does not. A throw appends nothing.
   * Every call's usage is added to the counters.
   */
  lemma AddHistoryItemSpec(backend: Backend, e: Effects, options: PromptOptions, prompt: string, response: string)
    ensures var o := AddHistoryItem(backend, e, options, prompt, response);
      var max, tag := options.summarizeMaxWordCount, options.reasoningTag;
      && Accounts(backend, e, o.after)
      && |o.after.sent| <= |e.sent| + 2
      && (!options.useSummarization ==>
            o == Outcome(Some(HistoryItem(prompt, response)), Effects(e.history + [HistoryItem(prompt, response)], e.usage, e.sent)))
      && (options.useSummarization ==>
            var p := Summarize(backend, e, prompt, max, tag);
            var r := Summarize(backend, p.after, response, max, tag);
            && (o.value.Some? <==> p.value.Some? && r.value.Some?)
            && (o.value.Some? ==> o.value.value == HistoryItem(p.value.value, r.value.value)))
      && (o.value.None? ==> options.useSummarization && o.after.history == e.history)
      && (o.value.Some? ==> o.after.history == e.history + [o.value.value])
      && (o.value.Some? && options.useSummarization ==>
            && (WordCount(prompt) <= max ==> o.value.value.prompt == prompt)
            && (WordCount(response) <= max ==> o.value.value.response == response)
            && (max >= 1 ==> WordCount(o.value.value.prompt) <= max && WordCount(o.value.value.response) <= max))
  {
    if options.useSummarization {
      var max, tag := options.summarizeMaxWordCount, options.reasoningTag;
      var p := Summarize(backend, e, prompt, max, tag);
      SummarizeSpec(backend, e, prompt, max, tag);
      if p.value.Some? {
        var r := Summarize(backend, p.after, response, max, tag);
        SummarizeSpec(backend, p.after, response, max, tag);
        AccountsTrans(backend, e, p.after, r.after);
      }
    }
  }

  /**
   * Failure isolation: when the primary call throws, the turn gives no response
   * and the history and counters are exactly as before.
   */
  lemma PrimaryFailureChangesNothing(
    backend: Backend, e: Effects, options: PromptOptions, systemPrompt: Option<string>,
    request: PromptRequest, now: Timestamp)
    requires PrimaryReply(backend, e, options, systemPrompt, request).Failed?
    ensures var o := ProcessTurn(backend, e, options, systemPrompt, request, now);
      o.value.None? && o.after.history == e.history && o.after.usage == e.usage
  {
  }

  /**
   * Every turn sends the composed prompt first, then at most two summary
   * instructions; it changes the history only by appending one item and only
   * when it returns a response, and the counters grow by exactly the usage its
   * calls reported, so they never decrease.
   */
  lemma TurnEffects(
    backend: Backend, e: Effects, options: PromptOptions, systemPrompt: Option<string>,
    request: PromptRequest, now: Timestamp)
    ensures var o := ProcessTurn(backend, e, options, systemPrompt, request, now);
      && |e.sent| < |o.after.sent| <= |e.sent| + 3
      && o.after.sent[..|e.sent| + 1] == e.sent + [TurnPrompt(e, options, systemPrompt, request)]
      && Accounts(backend, e, o.after)
      && AtMost(e.usage, o.after.usage)
      && (o.value.None? ==> o.after.history == e.history)
      && (o.value.Some? ==> |o.after.history| == |e.history| + 1 && o.after.history[..|e.history|] == e.history)
  {
    var q := TurnPrompt(e, options, systemPrompt, request);
    var sent := e.sent + [q];
    var o := ProcessTurn(backend, e, options, systemPrompt, request, now);
    match backend(sent)
    case Failed =>
      OneCallAccounts(backend, e, q, e.usage);
    case Completed(reply, u) =>
      var mid := Effects(e.history, Add(e.usage, u), sent);
      OneCallAccounts(backend, e, q, mid.usage);
      if reply.Some? {
        var parsed := ParsePromptResponse(request.prompt, reply.value, options.reasoningTag);
        AddHistoryItemSpec(backend, mid, options, parsed.prompt, parsed.response);
        AccountsTrans(backend, e, mid, o.after);
        assert o.after.sent[..|e.sent| + 1] == o.after.sent[..|sent|][..|e.sent| + 1];
      }
  }

  /**
   * A successful turn answers the caller's own prompt (not the composed one)
   * with the unsummarised parse of the primary reply, the request's timestamp,
   * the given response time, and the primary call's own usage with missing
   * counts as zero (no summarisation usage).
   */
  lemma TurnResponse(
    backend: Backend, e: Effects, options: PromptOptions, systemPrompt: Option<string>,
    request: PromptRequest, now: Timestamp)
    ensures var o := ProcessTurn(backend, e, options, systemPrompt, request, now);
      var r := PrimaryReply(backend, e, options, systemPrompt, request);
      o.value.Some? ==>
        && r.Completed? && r.text.Some?
        && var parsed := ParsePromptResponse(request.prompt, r.text.value, options.reasoningTag);
           o.value.value == PromptResponse(
             request.prompt, parsed.reasoning, parsed.response, request.requestTimestampUtc, now, OfCall(r.usage))
  {
  }

  /**
   * With summarisation off, a primary call that returns text always gives a
   * response, appends exactly `(prompt, parsed response)` to the history, adds
   * the call's usage and makes no other call.
   */
  lemma TurnWithoutSummarization(
    backend: Backend, e: Effects, options: PromptOptions, systemPrompt: Option<string>,
    request: PromptRequest, now: Timestamp)
    requires !options.useSummarization
    requires PrimaryReply(backend, e, options, systemPrompt, request).Completed?
    requires PrimaryReply(backend, e, options, systemPrompt, request).text.Some?
    ensures var o := ProcessTurn(backend, e, options, systemPrompt, request, now);
      var r := PrimaryReply(backend, e, options, systemPrompt, request);
      var parsed := ParsePromptResponse(request.prompt, r.text.value, options.reasoningTag);
      && o.value.Some?
      && o.after.history == e.history + [HistoryItem(request.prompt, parsed.response)]
      && o.after.usage == Add(e.usage, r.usage)
      && o.after.sent == e.sent + [TurnPrompt(e, options, systemPrompt, request)]
  {
  }

  /**
   * After a primary call that succeeded, the turn gives no response exactly when
   * the reply has no text, or summarisation is on and one of the two summary
   * calls throws or returns no text. Such a turn keeps the primary call's usage
   * and appends nothing.
   */
  lemma TurnLateFailure(
    backend: Backend, e: Effects, options: PromptOptions, systemPrompt: Option<string>,
    request: PromptRequest, now: Timestamp)
    requires PrimaryReply(backend, e, options, systemPrompt, request).Completed?
    ensures var o := ProcessTurn(backend, e, options, systemPrompt, request, now);
      var r := PrimaryReply(backend, e, options, systemPrompt, request);
      var mid := AfterPrimary(backend, e, options, systemPrompt, request);
      var max, tag := options.summarizeMaxWordCount, options.reasoningTag;
      && (r.text.None? ==> o.value.None?)
      && (r.text.Some? && !options.useSummarization ==> o.value.Some?)
      && (r.text.Some? && options.useSummarization ==>
            var p := Summarize(backend, mid, request.prompt, max, tag);
            var s := Summarize(backend, p.after, ParsePromptResponse(request.prompt, r.text.value, tag).response, max, tag);
            (o.value.None? <==> p.value.None? || s.value.None?))
      && (o.value.None? ==>
            && o.after.history == e.history
            && AtMost(Add(e.usage, r.usage), o.after.usage))
  {
    var r := PrimaryReply(backend, e, options, systemPrompt, request);
    var mid := AfterPrimary(backend, e, options, systemPrompt, request);
    if r.text.Some? {
      var parsed := ParsePromptResponse(request.prompt, r.text.value, options.reasoningTag);
      AddHistoryItemSpec(backend, mid, options, parsed.prompt, parsed.response);
    }
  }

  /**
   * With summarisation on and every call answering with text, the turn gives its
   * response and appends exactly one item: the summary of the caller's prompt
   * and the summary of the parsed reply.
   */
  lemma TurnWithSummarization(
    backend: Backend, e: Effects, options: PromptOptions, systemPrompt: Option<string>,
    request: PromptRequest, now: Timestamp)
    ensures var o := ProcessTurn(backend, e, options, systemPrompt, request, now);
      var mid := AfterPrimary(backend, e, options, systemPrompt, request);
      var r := PrimaryReply(backend, e, options, systemPrompt, request);
      var max, tag := options.summarizeMaxWordCount, options.reasoningTag;
      options.useSummarization && r.Completed? && r.text.Some? ==>
        var p := Summarize(backend, mid, request.prompt, max, tag);
        var s := Summarize(backend, p.after, ParsePromptResponse(request.prompt, r.text.value, tag).response, max, tag);
        p.value.Some? && s.value.Some? ==>
          && o.value.Some?
          && o.after.history == e.history + [HistoryItem(p.value.value, s.value.value)]
          && Accounts(backend, e, o.after)
  {
    var r := PrimaryReply(backend, e, options, systemPrompt, request);
    var mid := AfterPrimary(backend, e, options, systemPrompt, request);
    if options.useSummarization && r.Completed? && r.text.Some? {
      var parsed := ParsePromptResponse(request.prompt, r.text.value, options.reasoningTag);
      OneCallAccounts(backend, e, TurnPrompt(e, options, systemPrompt, request), mid.usage);
      AddHistoryItemSpec(backend, mid, options, parsed.prompt, parsed.response);
      AccountsTrans(backend, e, mid, ProcessTurn(backend, e, options, systemPrompt, request, now).after);
    }
  }
}
