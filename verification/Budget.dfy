/** The `--budget-only` estimate: a fixed number of tokens per model at a fixed price. */
module Budget {
  import opened Wrappers

  /** `avg_tokens_per_model`. */
  const TokensPerModel: nat := 1000

  /** `price_per_1k`, in US dollars per thousand tokens. */
  const PricePer1k: real := 0.0009

  /** The figures the estimate reports. */
  datatype Estimate = Estimate(models: nat, tokens: nat, cost: real)

  /**
   * The estimate for `totalModels` models; with no models there is nothing to estimate.
   * The cost is computed as the source does, through the thousands of tokens.
   */
  function EstimateFor(totalModels: nat): (r: Option<Estimate>)
    ensures r.None? <==> totalModels == 0
    ensures r.Some? ==> r.value.models == totalModels
    ensures r.Some? ==> r.value.tokens == 1000 * totalModels
    ensures r.Some? ==> r.value.cost == totalModels as real * 0.0009
  {
    if totalModels == 0 then None
    else
      var tokens := totalModels * TokensPerModel;
      Some(Estimate(totalModels, tokens, (tokens as real / 1000.0) * PricePer1k))
  }
}
