/**
 * Token accounting: the counts a completion reports (each of which may be
 * missing) and the session's running `TokenUsage` counters.
 */
module Usage {
  import opened Wrappers

  /** The usage a completion reports; a missing count is `None`. */
  datatype UsageDetails = UsageDetails(
    inputTokenCount: Option<nat>,
    outputTokenCount: Option<nat>,
    totalTokenCount: Option<nat>)

  datatype TokenUsage = TokenUsage(inputTokens: nat, outputTokens: nat, totalTokens: nat)

  const Zero := TokenUsage(0, 0, 0)

  /** Componentwise sum of two usage records. */
  function Plus(a: TokenUsage, b: TokenUsage): TokenUsage
  {
    TokenUsage(a.inputTokens + b.inputTokens, a.outputTokens + b.outputTokens, a.totalTokens + b.totalTokens)
  }

  /** Componentwise order: no counter of `a` exceeds the matching counter of `b`. */
  predicate AtMost(a: TokenUsage, b: TokenUsage)
  {
    a.inputTokens <= b.inputTokens && a.outputTokens <= b.outputTokens && a.totalTokens <= b.totalTokens
  }

  /**
   * The usage of one call as the turn reports it (`Usage?.XCount ?? 0`): every
   * missing count, or a missing report, is zero.
   */
  function OfCall(u: Option<UsageDetails>): (t: TokenUsage)
    ensures u.None? ==> t == Zero
    ensures u.Some? ==> t.inputTokens == u.value.inputTokenCount.GetOr(0)
    ensures u.Some? ==> t.outputTokens == u.value.outputTokenCount.GetOr(0)
    ensures u.Some? ==> t.totalTokens == u.value.totalTokenCount.GetOr(0)
  {
    match u
    case None => Zero
    case Some(d) => TokenUsage(d.inputTokenCount.GetOr(0), d.outputTokenCount.GetOr(0), d.totalTokenCount.GetOr(0))
  }

  /**
   * `UpdateTokenUsage`: no report changes nothing; otherwise each counter grows
   * by its reported count, or by zero when that count is missing. So adding a
   * report is adding the call's own usage, and no counter ever decreases.
   */
  function Add(t: TokenUsage, u: Option<UsageDetails>): (r: TokenUsage)
    ensures u.None? ==> r == t
    ensures r == Plus(t, OfCall(u))
    ensures AtMost(t, r)
  {
    match u
    case None => t
    case Some(d) =>
      TokenUsage(
        t.inputTokens + d.inputTokenCount.GetOr(0),
        t.outputTokens + d.outputTokenCount.GetOr(0),
        t.totalTokens + d.totalTokenCount.GetOr(0))
  }
}
