/** How many tokens a request is asked to reserve. */
module Estimate {
  import opened LuaNumber
  import opened Wrappers

  /** What decoding a request body gives. */
  datatype Body = EmptyBody | Malformed | Decoded(maxTokens: Option<int>)

  datatype Config = Config(defaultEstimate: int, promptBuffer: int)

  /** The addition is Go's, on int64. */
  function EstimateFromBody(body: Body, cfg: Config): int {
    if body.Decoded? && body.maxTokens.Some? && body.maxTokens.value > 0
    then Wrap64(body.maxTokens.value + cfg.promptBuffer)
    else cfg.defaultEstimate
  }

  /** A body that cannot be decoded, or does not ask for a positive number of tokens, is given the
      default; one that does is given that number plus the buffer, if that fits. */
  lemma EstimateCases(cfg: Config, maxTokens: int)
    ensures EstimateFromBody(EmptyBody, cfg) == EstimateFromBody(Malformed, cfg) == cfg.defaultEstimate
    ensures EstimateFromBody(Decoded(None), cfg) == cfg.defaultEstimate
    ensures maxTokens <= 0 ==> EstimateFromBody(Decoded(Some(maxTokens)), cfg) == cfg.defaultEstimate
    ensures maxTokens > 0 && IsInt64(maxTokens + cfg.promptBuffer) ==>
      EstimateFromBody(Decoded(Some(maxTokens)), cfg) == maxTokens + cfg.promptBuffer
  {
  }

  /** Whether the request says how many tokens it asks for at most. */
  predicate AsksFor(body: Body) {
    body.Decoded? && body.maxTokens.Some? && body.maxTokens.value > 0
  }

  /** What decoding and parsing produce fits an int64; its sign is whatever was given. */
  predicate WellTyped(body: Body, cfg: Config) {
    && IsInt64(cfg.defaultEstimate) && IsInt64(cfg.promptBuffer)
    && (body.Decoded? && body.maxTokens.Some? ==> IsInt64(body.maxTokens.value))
  }

  /** max_tokens plus the buffer fits an int64. */
  predicate Fits(body: Body, cfg: Config) {
    AsksFor(body) ==> body.maxTokens.value + cfg.promptBuffer < TWO63
  }

  /** Max_tokens plus the buffer is neither negative nor too large for an int64 or, in a request
      that asks for nothing, the default is not negative. */
  predicate Reasonable(body: Body, cfg: Config) {
    if AsksFor(body) then 0 <= body.maxTokens.value + cfg.promptBuffer < TWO63 else cfg.defaultEstimate >= 0
  }

  /** Exactly then the estimate is not negative.  A sum that fits is the estimate. */
  lemma EstimateNonNegative(body: Body, cfg: Config)
    requires WellTyped(body, cfg)
    ensures EstimateFromBody(body, cfg) >= 0 <==> Reasonable(body, cfg)
    ensures AsksFor(body) && Fits(body, cfg) ==> EstimateFromBody(body, cfg) == body.maxTokens.value + cfg.promptBuffer
    ensures !Fits(body, cfg) ==> EstimateFromBody(body, cfg) == body.maxTokens.value + cfg.promptBuffer - 2 * TWO63 < 0
  {
  }
}
