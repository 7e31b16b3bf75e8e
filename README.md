# Unified AI gateway: a verified model of its core

The gateway is one HTTP API that serves several "products" (a chatbot, a
writing helper, a code reviewer, a support bot, a content summariser).
Each product sends chat completions through a chain of LLM providers:
Groq, Gemini, OpenAI and, in the settings only, Anthropic. The chain tries
each provider in order. A retryable failure moves on to the next provider.
A non-retryable failure stops the chain only when it comes from the last
provider. Conversations are kept as sessions in a bounded in-memory store
that evicts the least recently updated session.

This project models that core in Dafny and proves properties of the model:

- `wrappers.dfy` (`Wrappers`): the `Option` type and the `Time` stamp.
- `text.dfy` (`Text`): the few Python string operations the core relies on:
  `split` on one character, `join`, `strip`, `lower` and `upper`
  (ASCII only), and list slicing `xs[:n]`.
- `products.dfy` (`Products`): the product enumeration, its string values,
  and the product configuration record.
- `llm_client.dfy` (`LlmClient`): provider names, messages, completion
  results, the `ProviderError` exception, the shared per-million-token cost
  formula, and a provider client (`Client`) whose answer to a call is a
  parameter. This file also holds the health probe and the filter that
  decides which streamed chunks are yielded.
- `groq.dfy`, `gemini.dfy`, `openai.dfy`: per provider, the pricing table,
  the mapping from SDK exceptions to `ProviderError` in `complete` and in
  `stream`, and how an SDK reply becomes a `CompletionResult`. Gemini also
  has its message conversion (a loop) and its request building.
- `config.dfy` (`Config`): `provider_order`, `available_providers` and the
  log-level validator of the settings.
- `fallback.dfy` (`Fallback`): the fallback chain. `FallbackChain.Complete`
  is the imperative loop, proved equal to a recursive specification `Run`.
  The file also has the failure message, the provider factory, and the
  concurrent health check.
- `session_store.dfy` (`SessionStore`): the mutable `Session` and the
  `InMemorySessionStorage` class. The store keeps its sessions as a map,
  plus the insertion order of the keys, which decides ties in eviction.
  The file also has the Redis key format and how `list_sessions` parses it.
- `completion_routes.dfy` (`CompletionRoutes`): the `POST /api/v1/completion` route
  handler (one conversational turn), and the session lookup and delete
  routes.
- `health_routes.dfy` (`HealthRoutes`): the `/health` status and the
  product list.

Time stamps are integers. Money and temperatures are exact `real`s.
SDK calls, the clock and random ids are parameters of the operations
that use them.

## Model

| member | source | states |
|---|---|---|
| Products.ProductOf | src/unified_ai/core/products.py:12-19 | `ProductType(value)` returns the member with that value, or none if no member has it |
| Products.ValueFacts | src/unified_ai/core/products.py:12-19 | every product value maps back to its product; it is non-empty and has no ':' |
| LlmClient.ProviderValues | src/unified_ai/core/llm_client.py:15-21 | the provider values are "groq", "gemini", "openai" and "anthropic", and distinct providers have distinct values |
| LlmClient.Message.ToDict | src/unified_ai/core/llm_client.py:24-33 | the dict has exactly the keys role and content, holding the message's fields |
| LlmClient.CompletionResult.TotalTokens | src/unified_ai/core/llm_client.py:49-52 | the total is the input tokens plus the output tokens |
| LlmClient.ProviderError.ToString | src/unified_ai/core/llm_client.py:64-65 | the text is the provider value, then ": ", then the message, by position |
| LlmClient.UnclassifiedError | src/unified_ai/core/llm_client.py:55-62 | an error built with the defaults has no status code and is retryable |
| LlmClient.ErrorTextNonEmpty | src/unified_ai/core/llm_client.py:64-65 | an error's text is never empty and begins with its provider's name |
| LlmClient.CostAdditive | src/unified_ai/core/providers/groq.py:182-198 | the cost of two token counts added together is the sum of their costs |
| LlmClient.CostDoubles | src/unified_ai/core/providers/groq.py:182-198 | doubling both token counts doubles the cost |
| LlmClient.CostZero | src/unified_ai/core/providers/groq.py:182-198 | no tokens cost nothing |
| LlmClient.CostNonNegative | src/unified_ai/core/providers/groq.py:182-198 | non-negative prices and counts give a non-negative cost |
| LlmClient.Client.HealthCheck | src/unified_ai/core/llm_client.py:157-172 | healthy iff the probe call ("Hi", 5 tokens) succeeds; unhealthy iff it fails with a provider error |
| LlmClient.YieldedTexts | src/unified_ai/core/providers/groq.py:163-165 | no more chunks are yielded than arrived, and none of them is empty |
| LlmClient.YieldedTextsLoseNothing | src/unified_ai/core/providers/groq.py:163-165 | skipping empty or missing deltas loses no text: the yielded chunks join to the whole streamed text |
| Text.SplitLength | src/unified_ai/config.py:86-89 | `split` on a character gives one more piece than there are separators |
| Text.SplitPiecesFree | src/unified_ai/storage/session.py:226-231 | no piece of a split holds the separator |
| Text.JoinSplit | src/unified_ai/storage/session.py:226-231 | joining the pieces of a split with the separator restores the string |
| Config.ProviderOrder | src/unified_ai/config.py:86-89 | one name per comma-separated piece; piece i becomes name i, stripped and lower-cased; empty pieces are kept |
| Config.ProviderOrderOfPlainNames | src/unified_ai/config.py:86-89 | four plain lower-case names joined by commas come back unchanged and in order |
| Config.DefaultProviderOrderValue | src/unified_ai/config.py:53-56 | the default order parses to groq, gemini, openai, anthropic |
| Config.EmptyPieceKept | src/unified_ai/config.py:86-89 | a trailing comma yields an empty last name, which is not filtered out |
| Config.AvailableProviders | src/unified_ai/config.py:91-103 | each provider is listed iff its API key is set and non-empty; only the four names appear, at most four |
| Config.AvailableProvidersOrdered | src/unified_ai/config.py:91-103 | the available providers appear in the fixed order groq, gemini, openai, anthropic, without duplicates |
| Config.UppercaseLogLevel | src/unified_ai/config.py:105-109 | a non-string passes unchanged; a string keeps its length, each character is replaced by its upper-case form, and no lower-case letter is left |
| Text.StripInfix | src/unified_ai/config.py:89 | `strip()` removes only whitespace: the result is the infix of the input after its leading whitespace, and every character cut on either side is whitespace |
| Config.UppercaseLogLevelIdempotent | src/unified_ai/config.py:105-109 | validating the log level twice is the same as once |
| Groq.PricingFor | src/unified_ai/core/providers/groq.py:23-32 | an unknown model gets the default price of 0.50/0.50 per million tokens; no price is negative |
| Groq.EstimateCost | src/unified_ai/core/providers/groq.py:182-198 | the cost is non-negative for non-negative counts; an unknown model is charged at the default price |
| Groq.EstimateCostLinear | src/unified_ai/core/providers/groq.py:182-198 | for every model, no tokens cost nothing and the cost is linear in the token counts |
| Groq.CompleteError | src/unified_ai/core/providers/groq.py:113-132 | the error names Groq; it is retryable iff it is a rate limit or an API error whose status (500 if absent) is at least 500; the status is 429, the API's own, or none; the message is `Rate limit exceeded: `, the API error's own text, or `Unexpected error: ` followed by the SDK's text |
| Groq.RateLimitMatchedFirst | src/unified_ai/core/providers/groq.py:113-126 | a rate-limit error is retryable, while an API error carrying status 429 is not |
| Groq.Complete | src/unified_ai/core/providers/groq.py:64-132 | success iff the SDK replied with at least one choice; content and token counts default to "" and 0; the cost is the estimate; a raised error is classified as in `CompleteError` |
| Groq.StreamEndFor | src/unified_ai/core/providers/groq.py:167-180 | a stream ends normally iff nothing was raised; unclassified exceptions escape; the others are mapped as in `complete` |
| Groq.Stream | src/unified_ai/core/providers/groq.py:134-180 | every yielded chunk is non-empty, and together they are the whole streamed text; the stream ends as `StreamEndFor` classifies the SDK's exception (normally iff none was raised) |
| OpenAi.PricingFor | src/unified_ai/core/providers/openai.py:22-31 | an unknown model gets the default price; no price is negative |
| OpenAi.EstimateCost | src/unified_ai/core/providers/openai.py:185-201 | the cost is non-negative for non-negative counts; an unknown model is charged at the default price |
| OpenAi.EstimateCostLinear | src/unified_ai/core/providers/openai.py:185-201 | for every model, no tokens cost nothing and the cost is linear in the token counts |
| OpenAi.CompleteError | src/unified_ai/core/providers/openai.py:110-135 | the error names OpenAI; rate limits and connection errors are retryable, and an API error is retryable iff its status is at least 500; the status code matches each case; the message is the SDK's text after `Rate limit exceeded: `, `Connection error: ` or `Unexpected error: `, or the API error's text alone |
| OpenAi.Complete | src/unified_ai/core/providers/openai.py:63-135 | success iff the SDK replied with at least one choice; content and token counts default to "" and 0; a raised error is classified as in `CompleteError` |
| OpenAi.StreamError | src/unified_ai/core/providers/openai.py:170-183 | in `stream`, every caught error ends the stream as a retryable failure: status 429 for a rate limit, none for a connection error, the API's own status for an API error, and the SDK's text (after `Rate limit exceeded: ` for a rate limit); unclassified exceptions escape |
| OpenAi.StreamRetriesClientErrors | src/unified_ai/core/providers/openai.py:123-183 | a 400 error is final in `complete` but retryable in `stream` |
| OpenAi.Stream | src/unified_ai/core/providers/openai.py:137-183 | yielded chunks are non-empty and together are the whole text; the stream ends normally iff nothing was raised, and otherwise as `StreamError` classifies the exception |
| Gemini.PricingFor | src/unified_ai/core/providers/gemini.py:25-32 | an unknown model gets the default price; no price is negative |
| Gemini.EstimateCost | src/unified_ai/core/providers/gemini.py:268-284 | the cost is non-negative for non-negative counts; an unknown model is charged at the default price |
| Gemini.EstimateCostLinear | src/unified_ai/core/providers/gemini.py:268-284 | the cost is linear in the token counts, and the experimental flash model is free |
| Gemini.SystemInstructionOf | src/unified_ai/core/providers/gemini.py:78-89 | none iff no message is a system message; otherwise the content of the last system message |
| Gemini.HistoryOf | src/unified_ai/core/providers/gemini.py:78-89 | one entry per user or assistant message, each with role "user" or "model" |
| Gemini.HistoryOfAppend | src/unified_ai/core/providers/gemini.py:81-87 | converting a concatenation of messages gives the concatenation of their histories, so entries keep the order of their messages |
| Gemini.HistoryOfOne | src/unified_ai/core/providers/gemini.py:82-87 | a user message becomes a "user" entry with its text, an assistant message a "model" entry, and any other role no entry |
| Gemini.HistoryEntriesFromMessages | src/unified_ai/core/providers/gemini.py:81-87 | every history entry is the converted form of some user or assistant message |
| Gemini.ConvertMessages | src/unified_ai/core/providers/gemini.py:65-89 | the loop returns the last system instruction and the converted history |
| Gemini.BuildRequest | src/unified_ai/core/providers/gemini.py:117-146 | no request iff the history is empty; the history minus its last entry is sent as the chat history and the last text as the new turn; an empty or missing instruction is dropped; the token limit and temperature are passed through |
| Gemini.LastEntrySentEvenIfModel | src/unified_ai/core/providers/gemini.py:139-146 | when the last message is from the assistant, its text is still sent as the new turn |
| Gemini.CompleteError | src/unified_ai/core/providers/gemini.py:171-196 | the error names Gemini; it is retryable iff it is a quota error or a generic Google API error; only the quota error has status 429; the message is the SDK's text after `Rate limit exceeded: `, `Invalid request: ` or `Unexpected error: `, or the Google API error's text alone |
| Gemini.Complete | src/unified_ai/core/providers/gemini.py:91-196 | an empty history fails without calling the SDK; otherwise the reply's text, token counts (0 if absent) and estimated cost make the result, and a raised error is classified |
| Gemini.EmptyHistoryMessage | src/unified_ai/core/providers/gemini.py:132-137 | with an empty history, the error is final, has no status, and its message names the provider twice |
| Gemini.StreamError | src/unified_ai/core/providers/gemini.py:254-266 | in `stream`, every Google API error ends the stream as a retryable failure, with status 429 for the quota error and no status otherwise; the message is the SDK's text (after `Rate limit exceeded: ` for a quota error); other exceptions escape |
| Gemini.Stream | src/unified_ai/core/providers/gemini.py:198-266 | an empty history raises the final error and yields nothing; otherwise the yielded chunks are non-empty and together are the whole text, and the stream ends normally iff the SDK raised nothing, else as `StreamError` classifies the exception |
| Fallback.FailureMessage | src/unified_ai/core/fallback.py:58-61 | the message starts with "All providers failed: "; with no error text it is that prefix alone |
| Fallback.FallbackResult.FallbackUsed | src/unified_ai/core/fallback.py:49-52 | true iff more than one provider was attempted |
| Fallback.Run | src/unified_ai/core/fallback.py:162-237 | at most one attempt per provider, at least one when there is a provider; an empty chain fails with no attempts; a completed chain ends with its successful attempt |
| Fallback.RunFromBounds | src/unified_ai/core/fallback.py:184-237 | from position i on, the attempts recorded so far stay a prefix and each remaining provider adds at most one |
| Fallback.ErrorLinesAllErrors | src/unified_ai/core/fallback.py:55-61 | with every attempt failed, the message has one line per attempt, in order |
| Fallback.AllFailedMessage | src/unified_ai/core/fallback.py:55-61 | when every provider fails, the message lists each attempt's provider and error |
| Fallback.RunFromMatchesExhaust | src/unified_ai/core/fallback.py:184-237 | with distinct providers, the loop from position i equals trying the remaining providers one after another |
| Fallback.NonRetryableNeverSkips | src/unified_ai/core/fallback.py:233-235 | with distinct providers, a non-retryable error never skips a provider: the chain behaves as if all errors were retryable |
| Fallback.ExhaustFirstSuccess | src/unified_ai/core/fallback.py:184-210 | trying providers in turn stops at the first success, with one attempt per provider tried |
| Fallback.ExhaustAllFail | src/unified_ai/core/fallback.py:212-237 | when every provider fails, every one is tried and recorded |
| Fallback.FirstSuccessWins | src/unified_ai/core/fallback.py:184-210 | the first success gives the result; earlier providers are recorded as failures; `fallback_used` iff that provider was not the first |
| Fallback.AllFailuresRecorded | src/unified_ai/core/fallback.py:212-237 | when all fail, every provider is recorded in order, with its error text |
| Fallback.DuplicateClientCutsChain | src/unified_ai/core/fallback.py:233-235 | with the same client listed first and last, its final error stops the chain at once, even though a later provider would have answered |
| Fallback.FailedOnlyAllFailed | src/unified_ai/core/fallback.py:212-231 | the observer sees every attempt when all of them failed |
| Fallback.CreateProvider | src/unified_ai/core/fallback.py:64-96 | a provider is built iff the name is groq, gemini or openai and its key is set; it carries that key and the configured model |
| Fallback.ConfiguredAppend | src/unified_ai/core/fallback.py:99-129 | building the chain distributes over concatenating the name lists |
| Fallback.ConfiguredFromNames | src/unified_ai/core/fallback.py:99-129 | every provider in the chain was built from one of the configured names |
| Fallback.CreateProviderChain | src/unified_ai/core/fallback.py:99-129 | the loop builds, in order, the providers for the names of the provider order that can be built |
| Fallback.HealthMapKeys | src/unified_ai/core/fallback.py:263-269 | a provider name is in the health map iff some provider with that name did not crash |
| Fallback.HealthMapLastWins | src/unified_ai/core/fallback.py:263-269 | for a name, the last provider whose probe did not crash decides its entry: true iff it answered and was healthy |
| Fallback.FallbackChain.Complete | src/unified_ai/core/fallback.py:162-237 | the loop's outcome is the specification `Run`; the observer is told exactly the failed attempts; one provider call per recorded attempt |
| Fallback.FallbackChain.HealthCheck | src/unified_ai/core/fallback.py:239-269 | the health check's map is the health map of the probes |
| SessionStore.MakeKeyLayout | src/unified_ai/storage/session.py:83-85 | the key is the product value, then ':', then the session id, by position |
| SessionStore.RedisKey | src/unified_ai/storage/session.py:157-159 | the Redis key is "session:" followed by the in-memory key |
| SessionStore.Session.MessageCount | src/unified_ai/storage/session.py:28-31 | the count is the number of messages |
| SessionStore.KeyInjective | src/unified_ai/storage/session.py:83-85 | two store keys are equal iff session id and product are |
| SessionStore.ParseRedisKey | src/unified_ai/storage/session.py:226-231 | a key is skipped iff it does not have exactly two ':'; a listed key's product and id rebuild it |
| SessionStore.RedisKeyListedIff | src/unified_ai/storage/session.py:157-159 | a Redis key is listed back with its product and id iff the session id has no ':' |
| SessionStore.ParseThreePieces | src/unified_ai/storage/session.py:226-231 | a key with three ':'-separated pieces is parsed into product and id, or is rejected as unknown when the product is unknown |
| SessionStore.Session.AddMessage | src/unified_ai/storage/session.py:33-36 | appends exactly the message, keeps the earlier ones, and sets the update time |
| SessionStore.FirstMinIndexIsOldest | src/unified_ai/storage/session.py:98-101 | the evicted entry has the least update time, and it is the first in insertion order with that time |
| SessionStore.Without | src/unified_ai/storage/session.py:106-112 | removing a key keeps every other key, keeps them distinct, and shortens the list by one exactly when the key was present |
| SessionStore.OfProduct | src/unified_ai/storage/session.py:120-121 | without a product, every session is kept; with one, exactly the sessions of that product |
| SessionStore.OfProductSnoc | src/unified_ai/storage/session.py:120-121 | the filter keeps dictionary order: an entry added last is filtered last, after the earlier matches |
| SessionStore.SortByRecencyFacts | src/unified_ai/storage/session.py:124 | sorting is a permutation, newest first, and stable among equal times |
| SessionStore.ListedOfProduct | src/unified_ai/storage/session.py:114-126 | every listed session is stored and of the requested product |
| SessionStore.ListedOrdered | src/unified_ai/storage/session.py:114-126 | the list is newest first and never longer than the store; with n matches it holds min(limit, n) entries for a non-negative limit, and max(n + limit, 0) for a negative one (Python's `[:limit]`) |
| SessionStore.ListedNewest | src/unified_ai/storage/session.py:114-126 | the slice drops only the oldest: a matching entry left out is no newer than any listed entry |
| SessionStore.ListedSessionsNewest | src/unified_ai/storage/session.py:114-126 | the same for one session: a matching session whose entry is not listed has an `updated_at` no later than any listed session's |
| SessionStore.ListedWhenLimitCovers | src/unified_ai/storage/session.py:114-126 | when the limit covers the store, every matching session is listed |
| SessionStore.RemoveKeepsInvariant | src/unified_ai/storage/session.py:106-112 | deleting a key keeps the store's invariant and shrinks it by one |
| SessionStore.InsertKeepsInvariant | src/unified_ai/storage/session.py:92-104 | storing a session under its own key, when it is already there or there is room, keeps the invariant |
| SessionStore.InMemorySessionStorage.constructor | src/unified_ai/storage/session.py:73-81 | the store starts empty, with the given bound |
| SessionStore.InMemorySessionStorage.Get | src/unified_ai/storage/session.py:87-90 | found iff the key is stored; the session found has that id and product |
| SessionStore.InMemorySessionStorage.OldestIndex | src/unified_ai/storage/session.py:98-101 | the `min` scan returns the first least recently updated entry |
| SessionStore.InMemorySessionStorage.EvictOldest | src/unified_ai/storage/session.py:97-102 | removes exactly the oldest entry and keeps the invariant |
| SessionStore.InMemorySessionStorage.Put | src/unified_ai/storage/session.py:104 | stores the session under its key and appends the key when it is new |
| SessionStore.InMemorySessionStorage.Save | src/unified_ai/storage/session.py:92-104 | evicts the oldest other session iff the key is new and the store is full; afterwards `get` returns the saved session; the store never exceeds its bound |
| SessionStore.InMemorySessionStorage.Delete | src/unified_ai/storage/session.py:106-112 | true iff the key was stored; afterwards it is gone and nothing else changed |
| SessionStore.InMemorySessionStorage.ListSessions | src/unified_ai/storage/session.py:114-126 | at most `limit` sessions when `limit` is non-negative, and never more than are stored |
| SessionStore.InMemorySessionStorage.ListSessionsFacts | src/unified_ai/storage/session.py:114-126 | every listed session is stored and of the product; the list is newest first; it holds min(limit, n) of the n matching sessions for a non-negative limit, and max(n + limit, 0) for a negative one |
| SessionStore.InMemorySessionStorage.ListSessionsKeepsNewest | src/unified_ai/storage/session.py:114-126 | a stored session of the product that is not listed was updated no later than every listed one |
| SessionStore.InMemorySessionStorage.ListSessionsComplete | src/unified_ai/storage/session.py:114-126 | when the limit covers the store, every matching session is listed |
| CompletionRoutes.MaxTokensFor | src/unified_ai/api/routes/completion.py:103 | the product's limit, unless the request gave a non-zero one |
| CompletionRoutes.TemperatureFor | src/unified_ai/api/routes/completion.py:104-108 | the request's temperature when given (0 included), otherwise the product's |
| CompletionRoutes.ParametersOfValidRequest | src/unified_ai/api/schemas.py:26-48 | for a request within the schema bounds, the given limit is used as is, and a well-formed product yields a limit of at least 1 and a temperature in [0, 2] |
| CompletionRoutes.ResponseFor | src/unified_ai/api/routes/completion.py:135-146 | the response carries the reply, the session and product, the provider's name, the model, both token counts, the latency and the cost of the result, and `fallback_used` iff there was more than one attempt |
| CompletionRoutes.TurnMessages | src/unified_ai/api/routes/completion.py:89-100 | a new session starts with the product's system prompt; the user message is appended after the earlier messages |
| CompletionRoutes.CreateCompletion | src/unified_ai/api/routes/completion.py:60-161 | the chain is sent the history plus the user message; on success the reply is appended and the session saved, and the store changes exactly as `save` does (the session stored under its key; one other stored session evicted, the least recently updated (the first in key order on ties), iff the key is new and the store full, with the key order updated to match); the save fails (`StoreFailed`) iff the key is new, the store is empty and `max_sessions` is at most 0; if all providers fail, the answer is 503 with the failure message and the store is unchanged |
| CompletionRoutes.TurnGrowth | src/unified_ai/api/routes/completion.py:89-124 | a successful turn adds two messages to an existing session, and makes a new one hold three |
| CompletionRoutes.GetSession | src/unified_ai/api/routes/completion.py:192-212 | 404 iff the session is not stored; otherwise its id, product, messages and times |
| CompletionRoutes.DeleteSession | src/unified_ai/api/routes/completion.py:169-184 | "deleted" iff the session was stored, otherwise 404; exactly that key is removed and every other session stays |
| HealthRoutes.OverallStatus | src/unified_ai/api/routes/health.py:44-45 | "healthy" iff some provider is healthy, otherwise "degraded" |
| HealthRoutes.HealthCheck | src/unified_ai/api/routes/health.py:31-52 | the response carries the map, version and time; an empty map is "degraded" |
| HealthRoutes.HealthMapTrueEntries | src/unified_ai/core/fallback.py:248-269 | a true entry comes from a provider that answered the probe and was healthy |
| HealthRoutes.StatusFromProbes | src/unified_ai/api/routes/health.py:41-45 | "healthy" only if some provider answered its probe and was healthy; conversely, such a provider makes the status "healthy" when no later provider of the same name got its probe through |
| HealthRoutes.GetProducts | src/unified_ai/api/routes/health.py:78-81 | one entry per product, in enumeration order, with its id, name, description and version |
| HealthRoutes.ProductListComplete | src/unified_ai/core/products.py:166-181 | every product appears in the list, and no id twice |

## Left out

- The provider SDKs and their network calls: each call's answer is a parameter (`Client.respond`, `SdkReply`, `send`).
- LlmClient.Client.Complete: a client's answer is a fixed function of the call, so a client listed twice in the chain answers the same call the same way both times. The source's client may fail on one call and succeed on the next. The chain lemmas (`DuplicateClientCutsChain` among them) hold for this deterministic client only.
- Latency and time stamps of attempts: they are clock readings and are taken as parameters.
- Fallback.FallbackChain.Complete: does not model "any other exception propagates", because the modelled outcome of a provider call is only a success or a `ProviderError`.
- Fallback.FallbackChain.HealthCheck: the `asyncio.gather` and per-provider timeouts become one `Probe` value per provider (answered, timed out, crashed); concurrency itself is not modelled.
- Anthropic: it is a provider name and a setting only; no client exists for it, so `CreateProvider` never builds one.
- `RedisSessionStorage`: only its key format and the parsing in `list_sessions` are modelled. Its I/O, TTL, `scan_iter` and JSON encoding are left out.
- Floating point: prices, costs and temperatures are exact reals, so rounding is not modelled.
- The clock and the random request id (`uuid4`, first 8 characters) are parameters of `CreateCompletion`. Session ids come from the request.
- The prompt table of the products (`PRODUCTS`) is a parameter `catalog`. Its text is not part of this model.
- The application entry point, logging, the rate-limit middleware, settings loading and caching are not part of this model.
- Text.Strip, Text.Lower and Text.Upper handle ASCII whitespace and letters only. Python's Unicode rules are not modelled.
- The `prompt_variant` request field and session metadata other than an empty map are not modelled.
- Concurrent requests interleaving on the same store are not modelled; each operation runs alone.
- SessionStore.InMemorySessionStorage.Save: with `max_sessions` of 0 or less, the source raises `ValueError` from `min` on an empty dict; the model returns `stored == false` and the route answers `StoreFailed`.
- CompletionRoutes.CreateCompletion: that `save` runs exactly once per successful turn follows from the method's body, not from its `ensures`.
- Groq.StreamEndFor, OpenAi.StreamError and Gemini.StreamError: an escaping exception is only named (`Escaped`), and what the caller does with it is not modelled.
- The HTTP layer (FastAPI routing, pydantic validation errors, status code mapping outside the handlers) is left out; request bounds are the predicate `ValidRequest`.
