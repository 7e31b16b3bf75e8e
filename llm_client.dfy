/**
 * The provider-independent vocabulary: provider names, messages, completion
 * results, the classified provider error and the client capability.
 * A client's network call is an oracle: `respond` maps a request to either a
 * completion result or a provider error.
 */
module LlmClient {
  import opened Wrappers

  datatype ProviderName = Groq | Gemini | OpenAI | Anthropic
  {
    function Value(): string
    {
      match this
      case Groq => "groq"
      case Gemini => "gemini"
      case OpenAI => "openai"
      case Anthropic => "anthropic"
    }
  }

  /** The four provider names are exactly these, and distinct names have distinct values. */
  lemma ProviderValues(a: ProviderName, b: ProviderName)
    ensures a.Value() in ["groq", "gemini", "openai", "anthropic"]
    ensures a.Value() == b.Value() ==> a == b
  {
  }

  datatype Message = Message(role: string, content: string)
  {
    /** The dictionary sent to an SDK: exactly the keys "role" and "content". */
    function ToDict(): (d: map<string, string>)
      ensures d.Keys == {"role", "content"}
      ensures d["role"] == role && d["content"] == content
    {
      map["role" := role, "content" := content]
    }
  }

  datatype CompletionResult = CompletionResult(
    content: string,
    provider: ProviderName,
    model: string,
    inputTokens: int,
    outputTokens: int,
    latencyMs: real,
    costUsd: real)
  {
    function TotalTokens(): (t: int)
      ensures t == inputTokens + outputTokens
    {
      inputTokens + outputTokens
    }
  }

  datatype ProviderError = ProviderError(
    provider: ProviderName,
    message: string,
    statusCode: Option<int>,
    retryable: bool)
  {
    /** `str(error)`: the provider's name, a colon and a space, then the message. */
    function ToString(): (s: string)
      ensures |s| == |provider.Value()| + 2 + |message|
      ensures s[..|provider.Value()|] == provider.Value()
      ensures s[|provider.Value()|..|provider.Value()| + 2] == ": "
      ensures s[|provider.Value()| + 2..] == message
    {
      provider.Value() + ": " + message
    }
  }

  /** `getattr(e, "status_code", 500)`: an API error without a status counts as a server error. */
  function StatusOr500(status: Option<int>): int
  {
    if status.Some? then status.value else 500
  }

  /** A provider error raised without classification: no status code, retryable. */
  function UnclassifiedError(provider: ProviderName, message: string): (e: ProviderError)
    ensures e.statusCode == None && e.retryable
    ensures e.provider == provider && e.message == message
  {
    ProviderError(provider, message, None, true)
  }

  /** The text of a provider error is never empty: it always starts with the provider name. */
  lemma ErrorTextNonEmpty(e: ProviderError)
    ensures e.ToString() != ""
    ensures e.ToString()[0] == e.provider.Value()[0]
  {
  }

  /** Price of one model, in USD per million tokens. */
  datatype Pricing = Pricing(input: real, output: real)

  /** The common cost formula of every provider's `estimate_cost`. */
  function Cost(p: Pricing, inputTokens: int, outputTokens: int): real
  {
    (inputTokens as real / 1000000.0) * p.input + (outputTokens as real / 1000000.0) * p.output
  }

  /** The cost is additive in the token counts, hence linear: doubling both doubles it. */
  lemma {:induction false} CostAdditive(p: Pricing, i1: int, o1: int, i2: int, o2: int)
    ensures Cost(p, i1 + i2, o1 + o2) == Cost(p, i1, o1) + Cost(p, i2, o2)
  {
    var a1, a2 := i1 as real / 1000000.0, i2 as real / 1000000.0;
    var b1, b2 := o1 as real / 1000000.0, o2 as real / 1000000.0;
    assert (i1 + i2) as real / 1000000.0 == a1 + a2;
    assert (o1 + o2) as real / 1000000.0 == b1 + b2;
    assert (a1 + a2) * p.input == a1 * p.input + a2 * p.input;
    assert (b1 + b2) * p.output == b1 * p.output + b2 * p.output;
  }

  lemma CostDoubles(p: Pricing, i: int, o: int)
    ensures Cost(p, 2 * i, 2 * o) == 2.0 * Cost(p, i, o)
  {
    CostAdditive(p, i, o, i, o);
  }

  lemma CostZero(p: Pricing)
    ensures Cost(p, 0, 0) == 0.0
  {
  }

  /** Non-negative prices and token counts give a non-negative cost. */
  lemma CostNonNegative(p: Pricing, i: int, o: int)
    ensures p.input >= 0.0 && p.output >= 0.0 && i >= 0 && o >= 0 ==> Cost(p, i, o) >= 0.0
  {
    if p.input >= 0.0 && p.output >= 0.0 && i >= 0 && o >= 0 {
      var a, b := i as real / 1000000.0, o as real / 1000000.0;
      assert a >= 0.0 && b >= 0.0;
      assert a * p.input >= 0.0;
      assert b * p.output >= 0.0;
    }
  }

  /** The arguments of one `complete` call. */
  datatype ChatCall = ChatCall(messages: seq<Message>, maxTokens: int, temperature: real)

  /** What a `complete` call ends in: a result, or a raised `ProviderError`. */
  datatype Outcome = Success(result: CompletionResult) | Failure(error: ProviderError)

  /** The configuration a client is built from. */
  datatype ClientConfig = ClientConfig(name: ProviderName, apiKey: string, model: string)

  /** The request `health_check` sends: one user message "Hi", at most 5 tokens, default temperature. */
  const HealthProbe: ChatCall := ChatCall([Message("user", "Hi")], 5, 0.7)

  /**
   * A configured provider client. Its SDK call is the oracle `respond`;
   * two clients are the same client only when they are the same object.
   */
  class Client {
    const config: ClientConfig
    const respond: ChatCall -> Outcome

    constructor(config: ClientConfig, respond: ChatCall -> Outcome)
      ensures this.config == config && this.respond == respond
    {
      this.config := config;
      this.respond := respond;
    }

    function Name(): ProviderName
    {
      config.name
    }

    method Complete(call: ChatCall) returns (o: Outcome)
      ensures o == respond(call)
    {
      o := respond(call);
    }

    /** True iff the minimal probe request completes; a provider error gives false. */
    function HealthCheck(): (healthy: bool)
      ensures healthy <==> respond(HealthProbe).Success?
      ensures !healthy <==> respond(HealthProbe).Failure?
    {
      match respond(HealthProbe)
      case Success(_) => true
      case Failure(_) => false
    }
  }

  /**
   * The chunks a stream yields: the deltas that carry non-empty text, in order.
   * A `None` delta is a chunk without choices or without content.
   */
  function YieldedTexts(deltas: seq<Option<string>>): (r: seq<string>)
    ensures |r| <= |deltas|
    ensures forall i :: 0 <= i < |r| ==> r[i] != ""
  {
    if deltas == [] then []
    else
      var rest := YieldedTexts(deltas[1..]);
      if deltas[0].Some? && deltas[0].value != "" then [deltas[0].value] + rest else rest
  }

  /** The text carried by the deltas, concatenated. */
  function StreamedText(deltas: seq<Option<string>>): string
  {
    if deltas == [] then []
    else (if deltas[0].Some? then deltas[0].value else "") + StreamedText(deltas[1..])
  }

  function Concat(parts: seq<string>): string
  {
    if parts == [] then [] else parts[0] + Concat(parts[1..])
  }

  /** Dropping empty chunks loses no text: the yielded chunks spell out the whole stream. */
  lemma {:induction false} YieldedTextsLoseNothing(deltas: seq<Option<string>>)
    ensures Concat(YieldedTexts(deltas)) == StreamedText(deltas)
  {
    if deltas != [] {
      YieldedTextsLoseNothing(deltas[1..]);
      var rest := YieldedTexts(deltas[1..]);
      if deltas[0].Some? && deltas[0].value != "" {
        assert ([deltas[0].value] + rest)[1..] == rest;
      }
    }
  }
}
