/**
 * The Gemini client's own logic: converting the conversation into a system
 * instruction and a chat history, building the chat request, mapping the
 * SDK reply, classifying SDK exceptions, and its price table.
 */
module Gemini {
  import opened Wrappers
  import opened LlmClient

  const PricingTable: map<string, Pricing> := map[
    "gemini-1.5-flash" := Pricing(0.075, 0.30),
    "gemini-1.5-flash-8b" := Pricing(0.0375, 0.15),
    "gemini-1.5-pro" := Pricing(1.25, 5.00),
    "gemini-2.0-flash-exp" := Pricing(0.00, 0.00)]

  const DefaultPricing: Pricing := Pricing(0.50, 1.50)

  function PricingFor(model: string): (p: Pricing)
    ensures model !in PricingTable ==> p == DefaultPricing
    ensures p.input >= 0.0 && p.output >= 0.0
  {
    if model in PricingTable then PricingTable[model] else DefaultPricing
  }

  /** `estimate_cost`: the model's row (or the default row) applied per million tokens. */
  function EstimateCost(model: string, inputTokens: int, outputTokens: int): (cost: real)
    ensures inputTokens >= 0 && outputTokens >= 0 ==> cost >= 0.0
    ensures model !in PricingTable ==> cost == Cost(DefaultPricing, inputTokens, outputTokens)
  {
    var p := PricingFor(model);
    CostNonNegative(p, inputTokens, outputTokens);
    Cost(p, inputTokens, outputTokens)
  }

  /** Zero tokens cost nothing, doubling both counts doubles the estimate, and the preview model is free. */
  lemma EstimateCostLinear(model: string, i: int, o: int)
    ensures EstimateCost(model, 0, 0) == 0.0
    ensures EstimateCost(model, 2 * i, 2 * o) == 2.0 * EstimateCost(model, i, o)
    ensures EstimateCost("gemini-2.0-flash-exp", i, o) == 0.0
  {
    CostDoubles(PricingFor(model), i, o);
  }

  /** One history entry: `{"role": role, "parts": [text]}`. */
  datatype Content = Content(role: string, text: string)

  /** The content of the last system message, if there is one. */
  function SystemInstructionOf(messages: seq<Message>): (r: Option<string>)
    ensures r.None? <==> forall i :: 0 <= i < |messages| ==> messages[i].role != "system"
    ensures r.Some? ==> (exists i :: 0 <= i < |messages| && messages[i].role == "system"
                                  && messages[i].content == r.value
                                  && forall j :: i < j < |messages| ==> messages[j].role != "system")
  {
    if messages == [] then None
    else
      var last := messages[|messages| - 1];
      if last.role == "system" then Some(last.content)
      else SystemInstructionOf(messages[..|messages| - 1])
  }

  predicate Conversational(m: Message)
  {
    m.role == "user" || m.role == "assistant"
  }

  function CountConversational(messages: seq<Message>): nat
  {
    if messages == [] then 0
    else CountConversational(messages[..|messages| - 1]) + (if Conversational(messages[|messages| - 1]) then 1 else 0)
  }

  function ContentOf(m: Message): Content
    requires Conversational(m)
  {
    Content(if m.role == "user" then "user" else "model", m.content)
  }

  /** The user and assistant messages in order, as "user" and "model" entries; other roles dropped. */
  function HistoryOf(messages: seq<Message>): (h: seq<Content>)
    ensures |h| == CountConversational(messages)
    ensures forall i :: 0 <= i < |h| ==> h[i].role == "user" || h[i].role == "model"
  {
    if messages == [] then []
    else
      var last := messages[|messages| - 1];
      HistoryOf(messages[..|messages| - 1]) + (if Conversational(last) then [ContentOf(last)] else [])
  }

  /** Converting a concatenation converts each part in turn: entries keep the order of their messages. */
  lemma {:induction false} HistoryOfAppend(a: seq<Message>, b: seq<Message>)
    ensures HistoryOf(a + b) == HistoryOf(a) + HistoryOf(b)
    decreases |b|
  {
    if b == [] {
      assert a + b == a;
    } else {
      var n := |b|;
      assert (a + b)[..|a + b| - 1] == a + b[..n - 1];
      assert (a + b)[|a + b| - 1] == b[n - 1];
      HistoryOfAppend(a, b[..n - 1]);
    }
  }

  /** A single message becomes one entry when it is a user or assistant message, and none otherwise. */
  lemma HistoryOfOne(m: Message)
    ensures HistoryOf([m]) == if Conversational(m) then [ContentOf(m)] else []
  {
    assert [m][..0] == [];
  }

  /** Each history entry comes from a message with the same text, user to "user", assistant to "model". */
  lemma {:induction false} HistoryEntriesFromMessages(messages: seq<Message>, k: nat)
    requires k < |HistoryOf(messages)|
    ensures exists i :: (0 <= i < |messages| && Conversational(messages[i])
                         && HistoryOf(messages)[k] == ContentOf(messages[i]))
  {
    var n := |messages|;
    var prefix := HistoryOf(messages[..n - 1]);
    if k < |prefix| {
      HistoryEntriesFromMessages(messages[..n - 1], k);
      var i :| 0 <= i < n - 1 && Conversational(messages[..n - 1][i])
        && prefix[k] == ContentOf(messages[..n - 1][i]);
      assert messages[i] == messages[..n - 1][i];
    } else {
      assert HistoryOf(messages)[k] == ContentOf(messages[n - 1]);
    }
  }

  /** `_convert_messages`: one pass over the messages, overwriting the instruction and appending history. */
  method ConvertMessages(messages: seq<Message>) returns (systemInstruction: Option<string>, history: seq<Content>)
    ensures systemInstruction == SystemInstructionOf(messages)
    ensures history == HistoryOf(messages)
  {
    systemInstruction := None;
    history := [];
    var i := 0;
    while i < |messages|
      invariant 0 <= i <= |messages|
      invariant systemInstruction == SystemInstructionOf(messages[..i])
      invariant history == HistoryOf(messages[..i])
    {
      var msg := messages[i];
      assert messages[..i + 1][..i] == messages[..i];
      if msg.role == "system" {
        systemInstruction := Some(msg.content);
      } else if msg.role == "user" {
        history := history + [Content("user", msg.content)];
      } else if msg.role == "assistant" {
        history := history + [Content("model", msg.content)];
      }
      i := i + 1;
    }
    assert messages[..i] == messages;
  }

  /** What is sent: the model's system instruction (when non-empty), the earlier turns and the last text. */
  datatype ChatRequest = ChatRequest(
    systemInstruction: Option<string>,
    history: seq<Content>,
    lastMessage: string,
    maxOutputTokens: int,
    temperature: real)

  /**
   * The request `complete` and `stream` build, or None when the history is
   * empty. An empty or absent instruction selects the default model.
   */
  function BuildRequest(call: ChatCall): (r: Option<ChatRequest>)
    ensures r.None? <==> HistoryOf(call.messages) == []
    ensures r.Some? ==>
      var h := HistoryOf(call.messages);
      && r.value.history + [Content(h[|h| - 1].role, r.value.lastMessage)] == h
      && (r.value.systemInstruction.Some? <==>
            SystemInstructionOf(call.messages).Some? && SystemInstructionOf(call.messages).value != "")
      && (r.value.systemInstruction.Some? ==> r.value.systemInstruction == SystemInstructionOf(call.messages))
      && r.value.maxOutputTokens == call.maxTokens && r.value.temperature == call.temperature
  {
    var instruction := SystemInstructionOf(call.messages);
    var history := HistoryOf(call.messages);
    if history == [] then None
    else
      var chatHistory := if |history| > 1 then history[..|history| - 1] else [];
      var selected := if instruction.Some? && instruction.value != "" then instruction else None;
      Some(ChatRequest(selected, chatHistory, history[|history| - 1].text, call.maxTokens, call.temperature))
  }

  /** The last history entry is sent as the new turn even when it is an assistant ("model") message. */
  lemma LastEntrySentEvenIfModel(call: ChatCall)
    requires |call.messages| > 0 && call.messages[|call.messages| - 1].role == "assistant"
    ensures BuildRequest(call).Some?
    ensures BuildRequest(call).value.lastMessage == call.messages[|call.messages| - 1].content
  {
    var n := |call.messages|;
    assert HistoryOf(call.messages) == HistoryOf(call.messages[..n - 1]) + [Content("model", call.messages[n - 1].content)];
  }

  /** The exceptions of the Google API client, most specific first, each with its `str(e)`. */
  datatype SdkError =
    | ResourceExhausted(text: string)
    | InvalidArgument(text: string)
    | GoogleApiError(text: string)
    | OtherError(text: string)

  /** The `except` clauses of `complete`. */
  function CompleteError(e: SdkError): (pe: ProviderError)
    ensures pe.provider == Gemini
    ensures pe.retryable <==> e.ResourceExhausted? || e.GoogleApiError?
    ensures pe.statusCode == (match e
                              case ResourceExhausted(_) => Some(429)
                              case InvalidArgument(_) => Some(400)
                              case _ => None)
    ensures e.ResourceExhausted? ==> pe.message == "Rate limit exceeded: " + e.text
    ensures e.InvalidArgument? ==> pe.message == "Invalid request: " + e.text
    ensures e.GoogleApiError? ==> pe.message == e.text
    ensures e.OtherError? ==> pe.message == "Unexpected error: " + e.text
  {
    match e
    case ResourceExhausted(t) => ProviderError(Gemini, "Rate limit exceeded: " + t, Some(429), true)
    case InvalidArgument(t) => ProviderError(Gemini, "Invalid request: " + t, Some(400), false)
    case GoogleApiError(t) => ProviderError(Gemini, t, None, true)
    case OtherError(t) => ProviderError(Gemini, "Unexpected error: " + t, None, false)
  }

  /** The error raised inside the `try` when there is no history to send. */
  const NoUserMessage: ProviderError := ProviderError(Gemini, "No user message provided", None, false)

  datatype Usage = Usage(promptTokens: nat, candidatesTokens: nat)

  datatype ChatResponse = ChatResponse(text: string, usage: Option<Usage>)

  datatype SdkReply = Replied(response: ChatResponse) | Raised(error: SdkError)

  /**
   * `complete`, with the chat call answered by `send`. With an empty history
   * the SDK is never called, and the generic handler re-wraps the
   * non-retryable error.
   */
  function Complete(model: string, call: ChatCall, send: ChatRequest -> SdkReply, latencyMs: real): (o: Outcome)
    ensures HistoryOf(call.messages) == [] ==>
      o == Failure(ProviderError(Gemini, "Unexpected error: " + NoUserMessage.ToString(), None, false))
    ensures HistoryOf(call.messages) != [] ==>
      match send(BuildRequest(call).value)
      case Raised(e) => o == Failure(CompleteError(e))
      case Replied(r) =>
        && o.Success? && o.result.content == r.text && o.result.provider == Gemini && o.result.model == model
        && o.result.inputTokens == (if r.usage.Some? then r.usage.value.promptTokens else 0)
        && o.result.outputTokens == (if r.usage.Some? then r.usage.value.candidatesTokens else 0)
        && o.result.costUsd == EstimateCost(model, o.result.inputTokens, o.result.outputTokens)
  {
    match BuildRequest(call)
    case None => Failure(CompleteError(OtherError(NoUserMessage.ToString())))
    case Some(request) =>
      match send(request)
      case Raised(e) => Failure(CompleteError(e))
      case Replied(r) =>
        var inputTokens := if r.usage.Some? then r.usage.value.promptTokens else 0;
        var outputTokens := if r.usage.Some? then r.usage.value.candidatesTokens else 0;
        Success(CompletionResult(r.text, Gemini, model, inputTokens, outputTokens, latencyMs,
                                 EstimateCost(model, inputTokens, outputTokens)))
  }

  /**
   * With no conversational message the error names the provider twice: the
   * inner error's text, already prefixed with "gemini: ", is re-wrapped by
   * the generic handler. The error is final and carries no status.
   */
  lemma EmptyHistoryMessage(model: string, call: ChatCall, send: ChatRequest -> SdkReply, latencyMs: real)
    requires HistoryOf(call.messages) == []
    ensures var o := Complete(model, call, send, latencyMs);
      && o.Failure? && !o.error.retryable && o.error.statusCode.None?
      && o.error.message == "Unexpected error: " + Gemini.Value() + ": " + NoUserMessage.message
  {
    PrefixedText("Unexpected error: ", NoUserMessage);
  }

  lemma PrefixedText(prefix: string, e: ProviderError)
    ensures prefix + e.ToString() == prefix + e.provider.Value() + ": " + e.message
  {
  }

  datatype StreamEnd = Finished | Failed(error: ProviderError) | Escaped(cause: SdkError)

  datatype StreamRun = StreamRun(yielded: seq<string>, end: StreamEnd)

  /** The SDK's streamed answer: the chunk texts, then possibly an exception. */
  datatype StreamReply = StreamReply(chunks: seq<string>, failure: Option<SdkError>)

  /** The `except` clauses of `stream`: only the Google API errors are caught, all as retryable. */
  function StreamError(e: SdkError): (end: StreamEnd)
    ensures end.Escaped? <==> e.OtherError?
    ensures !e.OtherError? ==> end.Failed?
    ensures end.Failed? ==> end.error.provider == Gemini && end.error.retryable
    ensures end.Failed? ==> (end.error.statusCode == Some(429) <==> e.ResourceExhausted?)
    ensures end.Failed? && !e.ResourceExhausted? ==> end.error.statusCode == None
    ensures end.Failed? ==> end.error.message == if e.ResourceExhausted? then "Rate limit exceeded: " + e.text else e.text
  {
    match e
    case ResourceExhausted(t) => Failed(ProviderError(Gemini, "Rate limit exceeded: " + t, Some(429), true))
    case InvalidArgument(t) => Failed(ProviderError(Gemini, t, None, true))
    case GoogleApiError(t) => Failed(ProviderError(Gemini, t, None, true))
    case OtherError(_) => Escaped(e)
  }

  function AsDeltas(chunks: seq<string>): (d: seq<Option<string>>)
    ensures |d| == |chunks| && forall i :: 0 <= i < |chunks| ==> d[i] == Some(chunks[i])
  {
    seq(|chunks|, i requires 0 <= i < |chunks| => Some(chunks[i]))
  }

  /**
   * `stream`: the non-empty chunk texts in order. With an empty history the
   * non-retryable error itself propagates, since no handler of `stream` catches it.
   */
  function Stream(call: ChatCall, send: ChatRequest -> StreamReply): (run: StreamRun)
    ensures HistoryOf(call.messages) == [] ==> run == StreamRun([], Failed(NoUserMessage))
    ensures forall i :: 0 <= i < |run.yielded| ==> run.yielded[i] != ""
    ensures HistoryOf(call.messages) != [] ==>
      Concat(run.yielded) == StreamedText(AsDeltas(send(BuildRequest(call).value).chunks))
    ensures HistoryOf(call.messages) != [] ==>
      var failure := send(BuildRequest(call).value).failure;
      && (run.end.Finished? <==> failure.None?)
      && (failure.Some? ==> run.end == StreamError(failure.value))
  {
    match BuildRequest(call)
    case None => StreamRun([], Failed(NoUserMessage))
    case Some(request) =>
      var reply := send(request);
      YieldedTextsLoseNothing(AsDeltas(reply.chunks));
      StreamRun(YieldedTexts(AsDeltas(reply.chunks)),
                if reply.failure.None? then Finished else StreamError(reply.failure.value))
  }
}
