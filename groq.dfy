/**
 * The Groq client's own logic: its price table, the mapping from an SDK
 * reply to a completion result, and the classification of SDK exceptions
 * into provider errors. The SDK call itself is an input.
 */
module Groq {
  import opened Wrappers
  import opened LlmClient

  const PricingTable: map<string, Pricing> := map[
    "llama-3.3-70b-versatile" := Pricing(0.59, 0.79),
    "llama-3.1-70b-versatile" := Pricing(0.59, 0.79),
    "llama-3.1-8b-instant" := Pricing(0.05, 0.08),
    "mixtral-8x7b-32768" := Pricing(0.24, 0.24),
    "gemma2-9b-it" := Pricing(0.20, 0.20)]

  const DefaultPricing: Pricing := Pricing(0.50, 0.50)

  function PricingFor(model: string): (p: Pricing)
    ensures model !in PricingTable ==> p == DefaultPricing
    ensures p.input >= 0.0 && p.output >= 0.0
  {
    if model in PricingTable then PricingTable[model] else DefaultPricing
  }

  /** `estimate_cost`: the model's row (or the default row) applied per million tokens. */
  function EstimateCost(model: string, inputTokens: int, outputTokens: int): (cost: real)
    ensures inputTokens >= 0 && outputTokens >= 0 ==> cost >= 0.0
    ensures model !in PricingTable ==> cost == Cost(DefaultPricing, inputTokens, outputTokens)
  {
    var p := PricingFor(model);
    CostNonNegative(p, inputTokens, outputTokens);
    Cost(p, inputTokens, outputTokens)
  }

  /** Zero tokens cost nothing, and doubling both counts doubles the estimate. */
  lemma EstimateCostLinear(model: string, i: int, o: int)
    ensures EstimateCost(model, 0, 0) == 0.0
    ensures EstimateCost(model, 2 * i, 2 * o) == 2.0 * EstimateCost(model, i, o)
  {
    CostDoubles(PricingFor(model), i, o);
  }

  /** The exceptions the Groq SDK raises, each with its `str(e)`. */
  datatype SdkError =
    | RateLimitError(text: string)
    | ApiError(statusCode: Option<int>, text: string)
    | OtherError(text: string)

  /** The `except` clauses of `complete`: rate limits first, then API errors, then anything. */
  function CompleteError(e: SdkError): (pe: ProviderError)
    ensures pe.provider == Groq
    ensures pe.retryable <==> e.RateLimitError? || (e.ApiError? && StatusOr500(e.statusCode) >= 500)
    ensures pe.statusCode == (match e
                              case RateLimitError(_) => Some(429)
                              case ApiError(s, _) => s
                              case OtherError(_) => None)
    ensures e.RateLimitError? ==> pe.message == "Rate limit exceeded: " + e.text
    ensures e.ApiError? ==> pe.message == e.text
    ensures e.OtherError? ==> pe.message == "Unexpected error: " + e.text
  {
    match e
    case RateLimitError(t) => ProviderError(Groq, "Rate limit exceeded: " + t, Some(429), true)
    case ApiError(s, t) => ProviderError(Groq, t, s, StatusOr500(s) >= 500)
    case OtherError(t) => ProviderError(Groq, "Unexpected error: " + t, None, false)
  }

  /** A 429 rate limit is retryable even though 429 < 500: it is matched before the API-error rule. */
  lemma RateLimitMatchedFirst(t: string)
    ensures CompleteError(RateLimitError(t)).retryable
    ensures !CompleteError(ApiError(Some(429), t)).retryable
  {
  }

  datatype Usage = Usage(promptTokens: nat, completionTokens: nat)

  /** The part of a chat response the client reads: each choice's message content, and the usage. */
  datatype ChatResponse = ChatResponse(choices: seq<Option<string>>, usage: Option<Usage>)

  datatype SdkReply = Replied(response: ChatResponse) | Raised(error: SdkError)

  /**
   * `complete` after the SDK call: missing usage counts as zero tokens, a
   * missing content as "", and an empty choice list fails like any other
   * unexpected exception (Python's IndexError).
   */
  function Complete(model: string, reply: SdkReply, latencyMs: real): (o: Outcome)
    ensures o.Success? <==> reply.Replied? && |reply.response.choices| > 0
    ensures o.Success? ==>
      var r := reply.response;
      && o.result.provider == Groq && o.result.model == model
      && o.result.content == (if r.choices[0].Some? then r.choices[0].value else "")
      && o.result.inputTokens == (if r.usage.Some? then r.usage.value.promptTokens else 0)
      && o.result.outputTokens == (if r.usage.Some? then r.usage.value.completionTokens else 0)
      && o.result.costUsd == EstimateCost(model, o.result.inputTokens, o.result.outputTokens)
    ensures reply.Raised? ==> o == Failure(CompleteError(reply.error))
  {
    match reply
    case Raised(e) => Failure(CompleteError(e))
    case Replied(r) =>
      if |r.choices| == 0 then Failure(CompleteError(OtherError("list index out of range")))
      else
        var inputTokens := if r.usage.Some? then r.usage.value.promptTokens else 0;
        var outputTokens := if r.usage.Some? then r.usage.value.completionTokens else 0;
        var content := if r.choices[0].Some? then r.choices[0].value else "";
        Success(CompletionResult(content, Groq, model, inputTokens, outputTokens, latencyMs,
                                 EstimateCost(model, inputTokens, outputTokens)))
  }

  /** How a stream ends: normally, with a provider error, or with an exception that escapes unwrapped. */
  datatype StreamEnd = Finished | Failed(error: ProviderError) | Escaped(cause: SdkError)

  datatype StreamRun = StreamRun(yielded: seq<string>, end: StreamEnd)

  /** The `except` clauses of `stream`: the same rules as `complete`, but other exceptions escape. */
  function StreamEndFor(failure: Option<SdkError>): (end: StreamEnd)
    ensures failure.None? <==> end.Finished?
    ensures end.Escaped? <==> failure.Some? && failure.value.OtherError?
    ensures end.Failed? ==> end.error == CompleteError(failure.value)
  {
    match failure
    case None => Finished
    case Some(OtherError(t)) => Escaped(OtherError(t))
    case Some(e) => Failed(CompleteError(e))
  }

  /** `stream`: the non-empty delta texts, in order, until the SDK stream ends or raises. */
  function Stream(deltas: seq<Option<string>>, failure: Option<SdkError>): (run: StreamRun)
    ensures forall i :: 0 <= i < |run.yielded| ==> run.yielded[i] != ""
    ensures Concat(run.yielded) == StreamedText(deltas)
    ensures run.end == StreamEndFor(failure)
  {
    YieldedTextsLoseNothing(deltas);
    StreamRun(YieldedTexts(deltas), StreamEndFor(failure))
  }
}
