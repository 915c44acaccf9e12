/** The token-budget arithmetic of summarize.py: the requested summary size (30% of
    the input's token count, rounded), the `max_tokens` cap handed to the completion
    call, and the gate that decides whether the model is called at all. */
module TokenBudget {

  /** The input-plus-summary budget of the model, and the ceiling of `max_tokens`. */
  const TokenCeiling: nat := 8000

  /** `s` is `t * 0.3` rounded to an integer: within half a unit of 3t/10. */
  predicate RoundsThreeTenths(t: nat, s: nat) {
    -5 <= 10 * s - 3 * t <= 5
  }

  /** `round(token_count * 0.3)`, ties rounded upward. */
  function SummarySize(t: nat): (s: nat)
    ensures RoundsThreeTenths(t, s)
  {
    (3 * t + 5) / 10
  }

  /** `summary_limit` in gpt_summary: 8000 above 5333, else `int(summary_size * 1.5)`,
      i.e. the largest integer not above 3s/2. */
  function SummaryLimit(s: nat): (limit: nat)
    ensures limit <= TokenCeiling
    ensures s > 5333 <==> limit == TokenCeiling
    ensures s <= 5333 ==> 2 * limit <= 3 * s < 2 * limit + 2
    ensures s <= 5333 ==> s <= limit
  {
    if s > 5333 then TokenCeiling else (3 * s) / 2
  }

  /** The condition under which the model is called for an interest. */
  predicate Gate(t: nat, s: nat, text: string)
    ensures Gate(t, s, text) ==> t <= TokenCeiling && s <= TokenCeiling && text != []
  {
    t + s <= TokenCeiling && |text| > 0
  }

  /** What one gpt_summary call sends: the size named in the system instruction,
      the `max_tokens` cap and the user message. */
  datatype Request = Request(size: nat, maxTokens: nat, text: string)

  function RequestFor(size: nat, text: string): (r: Request)
    ensures r.size == size && r.text == text
    ensures r.maxTokens == SummaryLimit(size)
    ensures r.maxTokens <= TokenCeiling
  {
    Request(size, SummaryLimit(size), text)
  }

  /** Whenever the gate passes, the requested size is at most 1846, so `max_tokens`
      is floor(3s/2) <= 2769 and the 8000 branch of `summary_limit` is never taken. */
  lemma GateForcesSmallSize(t: nat, s: nat)
    requires RoundsThreeTenths(t, s)
    requires t + s <= TokenCeiling
    ensures s <= 1846
    ensures SummaryLimit(s) == (3 * s) / 2 <= 2769
  {
  }

  /** The gate's budget check in terms of the token count alone: for any size
      within rounding of 30% of the count, it passes exactly for counts up to 6154. */
  lemma BudgetThreshold(t: nat, s: nat)
    requires RoundsThreeTenths(t, s)
    ensures t + s <= TokenCeiling <==> t <= 6154
  {
  }

  /** The bound of GateForcesSmallSize is reached: 6154 tokens ask for 1846. */
  lemma LargestSummarySize()
    ensures SummarySize(6154) == 1846
    ensures 6154 + SummarySize(6154) == TokenCeiling
  {
  }
}
