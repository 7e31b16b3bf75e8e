/**
 * The completion endpoint without HTTP: one conversation turn that loads or
 * creates the session, appends the user message, calls the fallback chain,
 * appends the reply and saves; plus the session lookup and delete routes.
 */
module CompletionRoutes {
  import opened Wrappers
  import opened LlmClient
  import opened Products
  import opened SessionStore
  import opened Fallback

  /** The request body. Field bounds are checked by the schema before the handler runs. */
  datatype CompletionRequest = CompletionRequest(
    product: ProductType,
    sessionId: string,
    message: string,
    maxTokens: Option<int>,
    temperature: Option<real>,
    stream: bool)

  /** The schema's bounds on a request. */
  predicate ValidRequest(r: CompletionRequest)
  {
    && 1 <= |r.sessionId| <= 128
    && 1 <= |r.message| <= 100000
    && (r.maxTokens.Some? ==> 1 <= r.maxTokens.value <= 4000)
    && (r.temperature.Some? ==> 0.0 <= r.temperature.value <= 2.0)
  }

  /** `request.max_tokens or product_config.max_tokens`: a missing or zero value falls back. */
  function MaxTokensFor(r: CompletionRequest, config: ProductConfig): (n: int)
    ensures r.maxTokens.Some? && r.maxTokens.value != 0 ==> n == r.maxTokens.value
    ensures !(r.maxTokens.Some? && r.maxTokens.value != 0) ==> n == config.maxTokens
  {
    if r.maxTokens.Some? && r.maxTokens.value != 0 then r.maxTokens.value else config.maxTokens
  }

  /** The temperature: the request's whenever it is not None, else the product's. */
  function TemperatureFor(r: CompletionRequest, config: ProductConfig): (t: real)
    ensures r.temperature.Some? ==> t == r.temperature.value
    ensures r.temperature.None? ==> t == config.temperature
  {
    if r.temperature.Some? then r.temperature.value else config.temperature
  }

  /**
   * For a request that passed the schema, an explicit `max_tokens` always
   * wins, an explicit temperature wins even when it is 0.0, and with a
   * well-formed product the parameters stay within their ranges.
   */
  lemma ParametersOfValidRequest(r: CompletionRequest, config: ProductConfig)
    requires ValidRequest(r)
    ensures r.maxTokens.Some? ==> MaxTokensFor(r, config) == r.maxTokens.value
    ensures r.maxTokens.None? ==> MaxTokensFor(r, config) == config.maxTokens
    ensures WellFormedConfig(config) ==> MaxTokensFor(r, config) >= 1
    ensures WellFormedConfig(config) ==> 0.0 <= TemperatureFor(r, config) <= 2.0
  {
  }

  /** The success body of the endpoint. */
  datatype CompletionResponse = CompletionResponse(
    response: string,
    sessionId: string,
    product: string,
    provider: string,
    model: string,
    inputTokens: int,
    outputTokens: int,
    latencyMs: real,
    costUsd: real,
    fallbackUsed: bool)

  /** The response fields, copied from the chain's result and the request. */
  function ResponseFor(r: CompletionRequest, fr: FallbackResult): (resp: CompletionResponse)
    ensures resp.response == fr.result.content && resp.sessionId == r.sessionId
    ensures resp.product == r.product.Value() && resp.provider == fr.result.provider.Value()
    ensures resp.model == fr.result.model && resp.inputTokens == fr.result.inputTokens
    ensures resp.outputTokens == fr.result.outputTokens && resp.latencyMs == fr.result.latencyMs
    ensures resp.costUsd == fr.result.costUsd
    ensures resp.fallbackUsed <==> |fr.attempts| > 1
  {
    CompletionResponse(
      fr.result.content, r.sessionId, r.product.Value(), fr.result.provider.Value(), fr.result.model,
      fr.result.inputTokens, fr.result.outputTokens, fr.result.latencyMs, fr.result.costUsd,
      fr.FallbackUsed())
  }

  /** How a turn ends. */
  datatype TurnResult =
    | Replied(response: CompletionResponse)
    | Unavailable(statusCode: int, error: string, detail: string, requestId: string)
    | StoreFailed   // `save` raised: a store whose capacity is below one cannot evict

  /** The messages the chain is called with: the stored history (or the product's system prompt) and the user message. */
  function TurnMessages(prior: Option<seq<Message>>, config: ProductConfig, message: string): (ms: seq<Message>)
    ensures |ms| == (if prior.Some? then |prior.value| else 1) + 1
    ensures prior.Some? ==> ms[..|ms| - 1] == prior.value
    ensures prior.None? ==> ms == [Message("system", config.systemPrompt), Message("user", message)]
    ensures ms[|ms| - 1] == Message("user", message)
  {
    (if prior.Some? then prior.value else [Message("system", config.systemPrompt)]) + [Message("user", message)]
  }

  /** The session object a turn may change: the stored one, if there is one. */
  function TurnFrame(store: InMemorySessionStorage, r: CompletionRequest): set<Session>
    reads store
  {
    match store.Get(r.sessionId, r.product)
    case Some(s) => {s}
    case None => {}
  }

  /**
   * `create_completion`. `catalog` stands for the product table, `requestId`
   * for the random request id, and `created`, `userAt` and `replyAt` for the
   * clock readings at session creation and at the two `add_message` calls.
   */
  method CreateCompletion(
    r: CompletionRequest, chain: FallbackChain, store: InMemorySessionStorage,
    catalog: ProductType -> ProductConfig, requestId: string, created: Time, userAt: Time, replyAt: Time)
    returns (reply: TurnResult, ghost call: ChatCall, ghost session: Session, ghost evicted: Option<string>)
    requires store.Valid()
    modifies store, TurnFrame(store, r)
    ensures store.Valid()
    ensures var prior := old(store.Get(r.sessionId, r.product));
      && (prior.Some? ==> session == prior.value)
      && (prior.None? ==> fresh(session) && session.createdAt == created)
      && call == ChatCall(
           TurnMessages(if prior.Some? then Some(old(prior.value.messages)) else None, catalog(r.product), r.message),
           MaxTokensFor(r, catalog(r.product)), TemperatureFor(r, catalog(r.product)))
    ensures var outcome := Run(chain.providers, Answers(chain.providers, call));
      var prior := old(store.Get(r.sessionId, r.product));
      var key := MakeKey(r.sessionId, r.product);
      && (outcome.AllProvidersFailed? ==>
            && reply == Unavailable(503, "All providers unavailable", FailureMessage(outcome.attempts), requestId)
            && store.keys == old(store.keys) && store.sessions == old(store.sessions)
            && session.messages == call.messages && session.updatedAt == userAt)
      && (outcome.Completed? ==>
            && session.messages == call.messages + [Message("assistant", outcome.value.result.content)]
            && session.updatedAt == replyAt
            && (reply.Replied? || reply.StoreFailed?)
            && (reply.StoreFailed? <==> prior.None? && |old(store.sessions)| == 0 && store.maxSessions <= 0)
            && (reply.Replied? ==>
                  reply.response == ResponseFor(r, outcome.value)
                  && store.Get(r.sessionId, r.product) == Some(session)
                  && (evicted.Some? <==> prior.None? && |old(store.sessions)| >= store.maxSessions)
                  && (evicted.Some? ==> evicted.value in old(store.sessions) && evicted.value != key)
                  && (evicted.Some? ==> evicted.value == old(store.Entries())[FirstMinIndex(old(store.Entries()))].key)
                  && (evicted.Some? ==>
                        && store.sessions == (old(store.sessions) - {evicted.value})[key := session]
                        && store.keys == Without(old(store.keys), evicted.value) + [key])
                  && (evicted.None? ==>
                        && store.sessions == old(store.sessions)[key := session]
                        && store.keys == if prior.Some? then old(store.keys) else old(store.keys) + [key]))
            && (reply.StoreFailed? ==> store.keys == old(store.keys) && store.sessions == old(store.sessions)))
  {
    ghost var keys0, sessions0 := store.keys, store.sessions;
    ghost var key := MakeKey(r.sessionId, r.product);
    ghost var entries0 := store.Entries();
    var config := catalog(r.product);
    var prior := store.Get(r.sessionId, r.product);
    var current: Session;
    if prior.Some? {
      current := prior.value;
    } else {
      current := new Session(r.sessionId, r.product, [Message("system", config.systemPrompt)], created, created);
    }
    session := current;
    current.AddMessage(Message("user", r.message), userAt);
    var sent := ChatCall(current.messages, MaxTokensFor(r, config), TemperatureFor(r, config));
    call := sent;
    evicted := None;
    var outcome, notified;
    ghost var calls: nat;
    outcome, notified, calls := chain.Complete(sent);
    match outcome
    case AllProvidersFailed(attempts) =>
      reply := Unavailable(503, "All providers unavailable", FailureMessage(attempts), requestId);
    case Completed(fr) =>
      current.AddMessage(Message("assistant", fr.result.content), replyAt);
      assert store.keys == keys0 && store.sessions == sessions0;
      assert KeyOf(current) == key && (key in sessions0 <==> prior.Some?);
      if prior.None? {
        EntriesUnchanged(store);
      }
      var stored;
      stored, evicted := store.Save(current);
      if stored {
        reply := Replied(ResponseFor(r, fr));
      } else {
        reply := StoreFailed;
      }
  }

  /** A new session ends a successful turn with system prompt, user message and reply; an existing one grows by two. */
  lemma TurnGrowth(prior: Option<seq<Message>>, config: ProductConfig, message: string, reply: string)
    ensures var after := TurnMessages(prior, config, message) + [Message("assistant", reply)];
      && (prior.None? ==> after == [Message("system", config.systemPrompt), Message("user", message), Message("assistant", reply)])
      && (prior.Some? ==> |after| == |prior.value| + 2 && after[..|prior.value|] == prior.value)
  {
    if prior.Some? {
      var ms := TurnMessages(prior, config, message);
      assert (ms + [Message("assistant", reply)])[..|prior.value|] == ms[..|ms| - 1];
    }
  }

  // ---------------------------------------------------------------------------
  // Session routes

  /** The body of `get_session`. */
  datatype SessionInfo = SessionInfo(sessionId: string, product: string, messageCount: nat, createdAt: Time, updatedAt: Time)

  datatype Lookup =
    | Found(info: SessionInfo)
    | NotFound(statusCode: int, error: string, sessionId: string)

  /** `get_session`: 404 for an absent session, otherwise its id, product, message count and timestamps. */
  function GetSession(store: InMemorySessionStorage, product: ProductType, sessionId: string): (l: Lookup)
    reads store, store.sessions.Values
    requires store.Valid()
    ensures l.NotFound? <==> store.Get(sessionId, product).None?
    ensures l.NotFound? ==> l == NotFound(404, "Session not found", sessionId)
    ensures l.Found? ==>
      var s := store.Get(sessionId, product).value;
      && l.info.sessionId == sessionId && l.info.product == product.Value()
      && l.info.messageCount == |s.messages|
      && l.info.createdAt == s.createdAt && l.info.updatedAt == s.updatedAt
  {
    match store.Get(sessionId, product)
    case None => NotFound(404, "Session not found", sessionId)
    case Some(s) => Found(SessionInfo(s.sessionId, s.product.Value(), s.MessageCount(), s.createdAt, s.updatedAt))
  }

  datatype DeleteReply =
    | Deleted(status: string, sessionId: string, product: string)
    | DeleteNotFound(statusCode: int, error: string, sessionId: string)

  /** `delete_session`: "deleted" iff the store removed a session, else 404. */
  method DeleteSession(store: InMemorySessionStorage, product: ProductType, sessionId: string) returns (reply: DeleteReply)
    requires store.Valid()
    modifies store
    ensures store.Valid()
    ensures reply.Deleted? <==> old(store.Get(sessionId, product)).Some?
    ensures reply.Deleted? ==> reply == Deleted("deleted", sessionId, product.Value())
    ensures reply.DeleteNotFound? ==> reply == DeleteNotFound(404, "Session not found", sessionId)
    ensures store.Get(sessionId, product).None?
    ensures store.sessions == old(store.sessions) - {MakeKey(sessionId, product)}
    ensures store.keys == Without(old(store.keys), MakeKey(sessionId, product))
  {
    var deleted := store.Delete(sessionId, product);
    if deleted {
      reply := Deleted("deleted", sessionId, product.Value());
    } else {
      reply := DeleteNotFound(404, "Session not found", sessionId);
    }
  }
}
