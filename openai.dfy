/**
 * The OpenAI client's own logic: its price table, the mapping from an SDK
 * reply to a completion result, and the classification of SDK exceptions,
 * which differs between `complete` and `stream`.
 */
module OpenAi {
  import opened Wrappers
  import opened LlmClient

  const PricingTable: map<string, Pricing> := map[
    "gpt-4o" := Pricing(2.50, 10.00),
    "gpt-4o-mini" := Pricing(0.15, 0.60),
    "gpt-4-turbo" := Pricing(10.00, 30.00),
    "gpt-3.5-turbo" := Pricing(0.50, 1.50),
    "o1" := Pricing(15.00, 60.00),
    "o1-mini" := Pricing(3.00, 12.00)]

  const DefaultPricing: Pricing := Pricing(5.00, 15.00)

  function PricingFor(model: string): (p: Pricing)
    ensures model !in PricingTable ==> p == DefaultPricing
    ensures p.input >= 0.0 && p.output >= 0.0
  {
    if model in PricingTable then PricingTable[model] else DefaultPricing
  }

  /** `estimate_cost`: the model's row (or the default row) applied per million tokens. */
  function EstimateCost(model: string, inputTokens: int, outputTokens: int): (cost: real)
    ensures inputTokens >= 0 && outputTokens >= 0 ==> cost >= 0.0
    ensures model !in PricingTable ==> cost == Cost(DefaultPricing, inputTokens, outputTokens)
  {
    var p := PricingFor(model);
    CostNonNegative(p, inputTokens, outputTokens);
    Cost(p, inputTokens, outputTokens)
  }

  /** Zero tokens cost nothing, and doubling both counts doubles the estimate. */
  lemma EstimateCostLinear(model: string, i: int, o: int)
    ensures EstimateCost(model, 0, 0) == 0.0
    ensures EstimateCost(model, 2 * i, 2 * o) == 2.0 * EstimateCost(model, i, o)
  {
    CostDoubles(PricingFor(model), i, o);
  }

  /** The exceptions the OpenAI SDK raises, most specific first, each with its `str(e)`. */
  datatype SdkError =
    | RateLimitError(text: string)
    | ConnectionError(text: string)
    | ApiError(statusCode: Option<int>, text: string)
    | OtherError(text: string)

  /** The `except` clauses of `complete`. */
  function CompleteError(e: SdkError): (pe: ProviderError)
    ensures pe.provider == OpenAI
    ensures pe.retryable <==>
      e.RateLimitError? || e.ConnectionError? || (e.ApiError? && StatusOr500(e.statusCode) >= 500)
    ensures pe.statusCode == (match e
                              case RateLimitError(_) => Some(429)
                              case ApiError(s, _) => s
                              case _ => None)
    ensures e.RateLimitError? ==> pe.message == "Rate limit exceeded: " + e.text
    ensures e.ConnectionError? ==> pe.message == "Connection error: " + e.text
    ensures e.ApiError? ==> pe.message == e.text
    ensures e.OtherError? ==> pe.message == "Unexpected error: " + e.text
  {
    match e
    case RateLimitError(t) => ProviderError(OpenAI, "Rate limit exceeded: " + t, Some(429), true)
    case ConnectionError(t) => ProviderError(OpenAI, "Connection error: " + t, None, true)
    case ApiError(s, t) => ProviderError(OpenAI, t, s, StatusOr500(s) >= 500)
    case OtherError(t) => ProviderError(OpenAI, "Unexpected error: " + t, None, false)
  }

  datatype Usage = Usage(promptTokens: nat, completionTokens: nat)

  datatype ChatResponse = ChatResponse(choices: seq<Option<string>>, usage: Option<Usage>)

  datatype SdkReply = Replied(response: ChatResponse) | Raised(error: SdkError)

  /** `complete` after the SDK call: missing usage is zero tokens, missing content is "". */
  function Complete(model: string, reply: SdkReply, latencyMs: real): (o: Outcome)
    ensures o.Success? <==> reply.Replied? && |reply.response.choices| > 0
    ensures o.Success? ==>
      var r := reply.response;
      && o.result.provider == OpenAI && o.result.model == model
      && o.result.content == (if r.choices[0].Some? then r.choices[0].value else "")
      && o.result.inputTokens == (if r.usage.Some? then r.usage.value.promptTokens else 0)
      && o.result.outputTokens == (if r.usage.Some? then r.usage.value.completionTokens else 0)
      && o.result.costUsd == EstimateCost(model, o.result.inputTokens, o.result.outputTokens)
    ensures reply.Raised? ==> o == Failure(CompleteError(reply.error))
  {
    match reply
    case Raised(e) => Failure(CompleteError(e))
    case Replied(r) =>
      if |r.choices| == 0 then Failure(CompleteError(OtherError("list index out of range")))
      else
        var inputTokens := if r.usage.Some? then r.usage.value.promptTokens else 0;
        var outputTokens := if r.usage.Some? then r.usage.value.completionTokens else 0;
        var content := if r.choices[0].Some? then r.choices[0].value else "";
        Success(CompletionResult(content, OpenAI, model, inputTokens, outputTokens, latencyMs,
                                 EstimateCost(model, inputTokens, outputTokens)))
  }

  datatype StreamEnd = Finished | Failed(error: ProviderError) | Escaped(cause: SdkError)

  datatype StreamRun = StreamRun(yielded: seq<string>, end: StreamEnd)

  /**
   * The `except` clauses of `stream`: rate limits as in `complete`; every
   * other API error, connection errors included, is retryable whatever its
   * status; anything else escapes unwrapped.
   */
  function StreamError(e: SdkError): (end: StreamEnd)
    ensures end.Escaped? <==> e.OtherError?
    ensures !e.OtherError? ==> end.Failed?
    ensures end.Failed? ==> end.error.provider == OpenAI && end.error.retryable
    ensures end.Failed? && e.ApiError? ==> end.error.statusCode == e.statusCode
    ensures end.Failed? && e.RateLimitError? ==> end.error.statusCode == Some(429)
    ensures end.Failed? && e.ConnectionError? ==> end.error.statusCode == None
    ensures end.Failed? ==> end.error.message == if e.RateLimitError? then "Rate limit exceeded: " + e.text else e.text
  {
    match e
    case RateLimitError(t) => Failed(ProviderError(OpenAI, "Rate limit exceeded: " + t, Some(429), true))
    case ConnectionError(t) => Failed(ProviderError(OpenAI, t, None, true))
    case ApiError(s, t) => Failed(ProviderError(OpenAI, t, s, true))
    case OtherError(_) => Escaped(e)
  }

  /** A client error such as 400 is final in `complete` but retryable in `stream`. */
  lemma StreamRetriesClientErrors(t: string)
    ensures !CompleteError(ApiError(Some(400), t)).retryable
    ensures StreamError(ApiError(Some(400), t)).error.retryable
  {
  }

  /** `stream`: the non-empty delta texts, in order, until the SDK stream ends or raises. */
  function Stream(deltas: seq<Option<string>>, failure: Option<SdkError>): (run: StreamRun)
    ensures forall i :: 0 <= i < |run.yielded| ==> run.yielded[i] != ""
    ensures Concat(run.yielded) == StreamedText(deltas)
    ensures run.end.Finished? <==> failure.None?
    ensures failure.Some? ==> run.end == StreamError(failure.value)
  {
    YieldedTextsLoseNothing(deltas);
    StreamRun(YieldedTexts(deltas), if failure.None? then Finished else StreamError(failure.value))
  }
}
