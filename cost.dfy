/**
 * The cost estimate shown when a call ends: a per-model rate table (prices per
 * million tokens) and the formula that prices non-cached input, cached input
 * and output tokens. Reals are exact rationals, so this is the intended
 * arithmetic rather than its double-precision rendering.
 */
module CostEstimate {
  import opened Wrappers
  import opened Usage

  /** Prices per one million tokens. */
  datatype Rates = Rates(input: real, cachedInput: real, output: real)

  const DefaultModelId := "gpt-realtime-2025-08-28"
  const MiniModelId := "gpt-realtime-mini-2025-10-06"

  /** `COST_RATES`. */
  const CostRates: map<string, Rates> := map[
    DefaultModelId := Rates(32.0, 0.5, 64.0),
    MiniModelId := Rates(10.0, 0.3, 20.0)
  ]

  const TokensPerPrice := 1000000.0

  predicate NonNegativeRates(r: Rates) {
    r.input >= 0.0 && r.cachedInput >= 0.0 && r.output >= 0.0
  }

  /** The rate row for a model, falling back to the default model's row. */
  function RateFor(modelId: string): (r: Rates)
    ensures modelId in CostRates ==> r == CostRates[modelId]
    ensures modelId !in CostRates ==> r == CostRates[DefaultModelId]
    ensures NonNegativeRates(r)
  {
    if modelId in CostRates then CostRates[modelId] else CostRates[DefaultModelId]
  }

  function Max(a: int, b: int): int {
    if a < b then b else a
  }

  /** `input_token_details.cached_tokens`, or 0 when the details block or the field is absent. */
  function CachedInput(u: Block): int {
    if u.inputDetails.Some? then OrZero(u.inputDetails.value.cachedTokens) else 0
  }

  /** Input tokens that are not cached, clamped at 0. */
  function NonCachedInput(u: Block): (n: int)
    ensures n >= 0
    ensures n >= OrZero(u.inputTokens) - CachedInput(u)
    ensures n == 0 || n == OrZero(u.inputTokens) - CachedInput(u)
  {
    Max(0, OrZero(u.inputTokens) - CachedInput(u))
  }

  /** The priced usage under the given rate row. */
  function CostWith(u: Block, r: Rates): real {
    (NonCachedInput(u) as real * r.input
     + CachedInput(u) as real * r.cachedInput
     + OrZero(u.outputTokens) as real * r.output) / TokensPerPrice
  }

  /** `calculateCost(usage, modelId)`: 0 without a usage object, otherwise the priced usage. */
  function CalculateCost(usage: Option<Block>, modelId: string): (cost: real)
    ensures usage.None? ==> cost == 0.0
  {
    if usage.None? then 0.0 else CostWith(usage.value, RateFor(modelId))
  }

  /** The running counters seen as a usage object, every field present (as `sessionUsage` is). */
  function AsBlock(c: Counters): Block {
    Block(Some(c.totalTokens), Some(c.inputTokens), Some(c.outputTokens),
          Some(InputDetails(Some(c.inputDetails.cachedTokens), Some(c.inputDetails.textTokens),
                            Some(c.inputDetails.audioTokens))),
          Some(OutputDetails(Some(c.outputDetails.textTokens), Some(c.outputDetails.audioTokens))))
  }

  lemma MulNonNegative(a: real, b: real)
    requires a >= 0.0 && b >= 0.0
    ensures a * b >= 0.0
  {
  }

  lemma MulMonotone(a: real, b: real, r: real)
    requires a <= b && r >= 0.0
    ensures a * r <= b * r
  {
    MulNonNegative(b - a, r);
    assert b * r - a * r == (b - a) * r;
  }

  /** With non-negative counts and rates the cost is never negative. */
  lemma CostNonNegative(u: Block, r: Rates)
    requires NonNegative(u) && NonNegativeRates(r)
    ensures CostWith(u, r) >= 0.0
  {
    MulNonNegative(NonCachedInput(u) as real, r.input);
    MulNonNegative(CachedInput(u) as real, r.cachedInput);
    MulNonNegative(OrZero(u.outputTokens) as real, r.output);
  }

  /** For non-negative counts `calculateCost` is never negative, whatever the model. */
  lemma CalculateCostNonNegative(usage: Option<Block>, modelId: string)
    requires usage.Some? ==> NonNegative(usage.value)
    ensures CalculateCost(usage, modelId) >= 0.0
  {
    if usage.Some? {
      CostNonNegative(usage.value, RateFor(modelId));
    }
  }

  /** No usage object, or a usage object whose counts are all zero, costs nothing. */
  lemma CostZeroWithoutUsage(usage: Option<Block>, modelId: string)
    requires usage.Some? ==> OrZero(usage.value.inputTokens) == 0 && OrZero(usage.value.outputTokens) == 0
                              && CachedInput(usage.value) == 0
    ensures CalculateCost(usage, modelId) == 0.0
  {
    if usage.Some? {
      assert NonCachedInput(usage.value) == 0;
    }
  }

  /** The reset counters cost nothing, for every model. */
  lemma ResetCountersCostNothing(modelId: string)
    ensures CalculateCost(Some(AsBlock(Zero)), modelId) == 0.0
  {
    CostZeroWithoutUsage(Some(AsBlock(Zero)), modelId);
  }

  /** An unrecognised model is priced exactly as the default model. */
  lemma UnknownModelPricedAsDefault(usage: Option<Block>, modelId: string)
    requires modelId !in CostRates
    ensures CalculateCost(usage, modelId) == CalculateCost(usage, DefaultModelId)
  {
  }

  /** More output tokens never make a call cheaper. */
  lemma {:induction false} CostMonotoneInOutput(u: Block, more: int, modelId: string)
    requires OrZero(u.outputTokens) <= more
    ensures CalculateCost(Some(u), modelId) <= CalculateCost(Some(u.(outputTokens := Some(more))), modelId)
  {
    var r := RateFor(modelId);
    var v := u.(outputTokens := Some(more));
    assert NonCachedInput(v) == NonCachedInput(u) && CachedInput(v) == CachedInput(u);
    MulMonotone(OrZero(u.outputTokens) as real, more as real, r.output);
  }

  /** More input tokens (with the cached count fixed) never make a call cheaper. */
  lemma {:induction false} CostMonotoneInInput(u: Block, more: int, modelId: string)
    requires OrZero(u.inputTokens) <= more
    ensures CalculateCost(Some(u), modelId) <= CalculateCost(Some(u.(inputTokens := Some(more))), modelId)
  {
    var r := RateFor(modelId);
    var v := u.(inputTokens := Some(more));
    assert CachedInput(v) == CachedInput(u);
    assert NonCachedInput(u) <= NonCachedInput(v);
    MulMonotone(NonCachedInput(u) as real, NonCachedInput(v) as real, r.input);
  }

  /**
   * Moving tokens from non-cached to cached input makes a call cheaper when
   * the cached rate is the lower one: with the input count held fixed, the
   * cost is not monotone in the cached count.
   */
  lemma CachingLowersCost()
    ensures var base := Block(None, Some(1000), Some(500), Some(InputDetails(Some(200), None, None)), None);
            var moreCached := base.(inputDetails := Some(InputDetails(Some(300), None, None)));
            CalculateCost(Some(moreCached), DefaultModelId) < CalculateCost(Some(base), DefaultModelId)
  {
  }

  /** 1000 input tokens of which 200 cached and 500 output tokens on the default row cost 0.0577. */
  lemma WorkedExample()
    ensures CalculateCost(Some(Block(None, Some(1000), Some(500), Some(InputDetails(Some(200), None, None)), None)),
                          DefaultModelId) == 0.0577
  {
  }
}
