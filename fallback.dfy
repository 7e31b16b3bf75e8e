/**
 * The provider factory and the fallback chain: building the ordered client
 * list from settings, walking it until a provider succeeds, recording one
 * attempt per call, and folding the per-provider health probes into a map.
 */
module Fallback {
  import opened Wrappers
  import opened Text
  import opened LlmClient
  import opened Config

  /** The record of one provider call. Latency and timestamp are not modelled. */
  datatype FallbackAttempt = FallbackAttempt(provider: ProviderName, success: bool, error: Option<string>)

  datatype FallbackResult = FallbackResult(result: CompletionResult, attempts: seq<FallbackAttempt>)
  {
    /** Whether more than one provider had to be tried. */
    function FallbackUsed(): (used: bool)
      ensures used <==> |attempts| > 1
    {
      |attempts| > 1
    }
  }

  /** How `complete` ends: with a result, or by raising `AllProvidersFailedError(attempts)`. */
  datatype ChainOutcome =
    | Completed(value: FallbackResult)
    | AllProvidersFailed(attempts: seq<FallbackAttempt>)
  {
    function Attempts(): seq<FallbackAttempt>
    {
      match this
      case Completed(r) => r.attempts
      case AllProvidersFailed(a) => a
    }
  }

  // ---------------------------------------------------------------------------
  // The error message of AllProvidersFailedError

  function ErrorLine(a: FallbackAttempt): string
    requires a.error.Some?
  {
    a.provider.Value() + ": " + a.error.value
  }

  /** One line per attempt whose error is truthy, in attempt order. */
  function ErrorLines(attempts: seq<FallbackAttempt>): seq<string>
  {
    if attempts == [] then []
    else
      var a := attempts[0];
      (if a.error.Some? && a.error.value != "" then [ErrorLine(a)] else []) + ErrorLines(attempts[1..])
  }

  const FailurePrefix := "All providers failed: "

  /** The text of `AllProvidersFailedError`: the fixed prefix, then the error lines joined by "; ". */
  function FailureMessage(attempts: seq<FallbackAttempt>): (m: string)
    ensures |m| >= |FailurePrefix| && m[..|FailurePrefix|] == FailurePrefix
    ensures ErrorLines(attempts) == [] ==> m == FailurePrefix
  {
    FailurePrefix + Join("; ", ErrorLines(attempts))
  }

  /** When every attempt carries a non-empty error, every attempt contributes its line. */
  lemma {:induction false} ErrorLinesAllErrors(attempts: seq<FallbackAttempt>)
    requires forall j :: 0 <= j < |attempts| ==> attempts[j].error.Some? && attempts[j].error.value != ""
    ensures |ErrorLines(attempts)| == |attempts|
    ensures forall j :: 0 <= j < |attempts| ==> ErrorLines(attempts)[j] == ErrorLine(attempts[j])
  {
    if attempts != [] {
      ErrorLinesAllErrors(attempts[1..]);
    }
  }

  // ---------------------------------------------------------------------------
  // The attempt loop, as a specification

  function AttemptFor(p: Client, o: Outcome): (a: FallbackAttempt)
  {
    match o
    case Success(_) => FallbackAttempt(p.Name(), true, None)
    case Failure(e) => FallbackAttempt(p.Name(), false, Some(e.ToString()))
  }

  /** What each provider of the list answers to the call. */
  function Answers(ps: seq<Client>, call: ChatCall): (answers: seq<Outcome>)
    ensures |answers| == |ps|
  {
    seq(|ps|, i requires 0 <= i < |ps| => ps[i].respond(call))
  }

  /** The attempts recorded for the first `n` providers. */
  function Attempts(ps: seq<Client>, answers: seq<Outcome>, n: nat): (r: seq<FallbackAttempt>)
    requires n <= |ps| == |answers|
  {
    seq(n, j requires 0 <= j < n => AttemptFor(ps[j], answers[j]))
  }

  predicate Distinct(ps: seq<Client>)
  {
    forall i, j :: 0 <= i < j < |ps| ==> ps[i] != ps[j]
  }

  /**
   * The loop of `complete` from position `i` on, with `attempts` recorded so
   * far. A non-retryable error stops the walk only when the failing client is
   * the very object at the end of the list.
   */
  function RunFrom(ps: seq<Client>, answers: seq<Outcome>, i: nat, attempts: seq<FallbackAttempt>): ChainOutcome
    requires |answers| == |ps| && i <= |ps|
    decreases |ps| - i
  {
    if i == |ps| then AllProvidersFailed(attempts)
    else
      var recorded := attempts + [AttemptFor(ps[i], answers[i])];
      match answers[i]
      case Success(r) => Completed(FallbackResult(r, recorded))
      case Failure(e) =>
        if !e.retryable && ps[i] == ps[|ps| - 1] then AllProvidersFailed(recorded)
        else RunFrom(ps, answers, i + 1, recorded)
  }

  /**
   * The specification of `complete`: at most one attempt per provider, at
   * least one when there is a provider, and a completed chain ends with its
   * successful attempt.
   */
  function Run(ps: seq<Client>, answers: seq<Outcome>): (r: ChainOutcome)
    requires |answers| == |ps|
    ensures |r.Attempts()| <= |ps|
    ensures |ps| > 0 ==> |r.Attempts()| >= 1
    ensures ps == [] ==> r == AllProvidersFailed([])
    ensures r.Completed? ==> |r.value.attempts| > 0 && r.value.attempts[|r.value.attempts| - 1].success
  {
    RunFromBounds(ps, answers, 0, []);
    RunFrom(ps, answers, 0, [])
  }

  /** From position i on, the walk keeps the earlier attempts and adds at most one per remaining provider. */
  lemma {:induction false} RunFromBounds(ps: seq<Client>, answers: seq<Outcome>, i: nat, attempts: seq<FallbackAttempt>)
    requires |answers| == |ps| && i <= |ps|
    ensures var r := RunFrom(ps, answers, i, attempts);
      && |attempts| <= |r.Attempts()| <= |attempts| + |ps| - i
      && r.Attempts()[..|attempts|] == attempts
      && (i < |ps| ==> |r.Attempts()| > |attempts|)
      && (r.Completed? ==> |r.value.attempts| > 0 && r.value.attempts[|r.value.attempts| - 1].success)
    decreases |ps| - i
  {
    if i < |ps| {
      var recorded := attempts + [AttemptFor(ps[i], answers[i])];
      match answers[i]
      case Success(_) =>
        assert recorded[..|attempts|] == attempts;
      case Failure(e) =>
        if !(!e.retryable && ps[i] == ps[|ps| - 1]) {
          RunFromBounds(ps, answers, i + 1, recorded);
          var tail := RunFrom(ps, answers, i + 1, recorded).Attempts();
          assert tail[..|attempts|] == tail[..|recorded|][..|attempts|];
          assert recorded[..|attempts|] == attempts;
        } else {
          assert recorded[..|attempts|] == attempts;
        }
    }
  }

  /** `earlier` attempts put in front of an outcome's attempts. */
  function WithEarlier(earlier: seq<FallbackAttempt>, o: ChainOutcome): ChainOutcome
  {
    match o
    case Completed(r) => Completed(FallbackResult(r.result, earlier + r.attempts))
    case AllProvidersFailed(a) => AllProvidersFailed(earlier + a)
  }

  /**
   * The reference behaviour of a fallback chain, with no early stop at all:
   * the first success wins, and every earlier failure is recorded.
   */
  function Exhaust(ps: seq<Client>, answers: seq<Outcome>): ChainOutcome
    requires |answers| == |ps|
  {
    if ps == [] then AllProvidersFailed([])
    else
      match answers[0]
      case Success(r) => Completed(FallbackResult(r, [AttemptFor(ps[0], answers[0])]))
      case Failure(_) => WithEarlier([AttemptFor(ps[0], answers[0])], Exhaust(ps[1..], answers[1..]))
  }

  lemma WithEarlierTwice(a: seq<FallbackAttempt>, b: seq<FallbackAttempt>, o: ChainOutcome)
    ensures WithEarlier(a, WithEarlier(b, o)) == WithEarlier(a + b, o)
  {
    match o
    case Completed(r) => assert a + (b + r.attempts) == (a + b) + r.attempts;
    case AllProvidersFailed(x) => assert a + (b + x) == (a + b) + x;
  }

  lemma {:induction false} RunFromMatchesExhaust(ps: seq<Client>, answers: seq<Outcome>, i: nat, attempts: seq<FallbackAttempt>)
    requires |answers| == |ps| && i <= |ps| && Distinct(ps)
    ensures RunFrom(ps, answers, i, attempts) == WithEarlier(attempts, Exhaust(ps[i..], answers[i..]))
    decreases |ps| - i
  {
    if i == |ps| {
      assert attempts + [] == attempts;
    } else {
      var a := AttemptFor(ps[i], answers[i]);
      assert ps[i..][0] == ps[i] && answers[i..][0] == answers[i];
      assert ps[i..][1..] == ps[i + 1..] && answers[i..][1..] == answers[i + 1..];
      match answers[i]
      case Success(r) =>
      case Failure(e) =>
        if !e.retryable && ps[i] == ps[|ps| - 1] {
          assert i == |ps| - 1;
          assert ps[i + 1..] == [];
          assert attempts + [a] + [] == attempts + [a];
        } else {
          RunFromMatchesExhaust(ps, answers, i + 1, attempts + [a]);
          WithEarlierTwice(attempts, [a], Exhaust(ps[i + 1..], answers[i + 1..]));
        }
    }
  }

  /**
   * For a list of distinct clients the non-retryable stop changes nothing:
   * the chain behaves exactly as the reference that never stops early.
   */
  lemma NonRetryableNeverSkips(ps: seq<Client>, answers: seq<Outcome>)
    requires |answers| == |ps| && Distinct(ps)
    ensures Run(ps, answers) == Exhaust(ps, answers)
  {
    RunFromMatchesExhaust(ps, answers, 0, []);
    assert ps[0..] == ps && answers[0..] == answers;
    match Exhaust(ps, answers)
    case Completed(r) => assert [] + r.attempts == r.attempts;
    case AllProvidersFailed(x) => assert [] + x == x;
  }

  lemma {:induction false} ExhaustFirstSuccess(ps: seq<Client>, answers: seq<Outcome>, i: nat)
    requires |answers| == |ps| && i < |ps|
    requires forall j :: 0 <= j < i ==> answers[j].Failure?
    requires answers[i].Success?
    ensures Exhaust(ps, answers) == Completed(FallbackResult(answers[i].result, Attempts(ps, answers, i + 1)))
  {
    AttemptsCons(ps, answers, i + 1);
    if i > 0 {
      assert answers[0].Failure?;
      var first := [AttemptFor(ps[0], answers[0])];
      assert Exhaust(ps, answers) == WithEarlier(first, Exhaust(ps[1..], answers[1..]));
      ExhaustFirstSuccess(ps[1..], answers[1..], i - 1);
    }
  }

  lemma {:induction false} ExhaustAllFail(ps: seq<Client>, answers: seq<Outcome>)
    requires |answers| == |ps|
    requires forall j :: 0 <= j < |ps| ==> answers[j].Failure?
    ensures Exhaust(ps, answers) == AllProvidersFailed(Attempts(ps, answers, |ps|))
  {
    if ps != [] {
      AttemptsCons(ps, answers, |ps|);
      assert answers[0].Failure?;
      var first := [AttemptFor(ps[0], answers[0])];
      assert Exhaust(ps, answers) == WithEarlier(first, Exhaust(ps[1..], answers[1..]));
      ExhaustAllFail(ps[1..], answers[1..]);
    }
  }

  lemma AttemptsCons(ps: seq<Client>, answers: seq<Outcome>, n: nat)
    requires 1 <= n <= |ps| == |answers|
    ensures Attempts(ps, answers, n) == [AttemptFor(ps[0], answers[0])] + Attempts(ps[1..], answers[1..], n - 1)
  {
  }

  /**
   * If the providers before position `i` fail and provider `i` succeeds, the
   * result is provider `i`'s, there are `i + 1` attempts of which only the
   * last succeeded, and fallback was used iff `i > 0`.
   */
  lemma FirstSuccessWins(ps: seq<Client>, answers: seq<Outcome>, i: nat)
    requires |answers| == |ps| && Distinct(ps) && i < |ps|
    requires forall j :: 0 <= j < i ==> answers[j].Failure?
    requires answers[i].Success?
    ensures Run(ps, answers).Completed?
    ensures Run(ps, answers).value.result == answers[i].result
    ensures |Run(ps, answers).value.attempts| == i + 1
    ensures forall j :: 0 <= j <= i ==>
      Run(ps, answers).value.attempts[j].provider == ps[j].Name()
      && (Run(ps, answers).value.attempts[j].success <==> j == i)
    ensures Run(ps, answers).value.FallbackUsed() <==> i > 0
  {
    NonRetryableNeverSkips(ps, answers);
    ExhaustFirstSuccess(ps, answers, i);
  }

  /**
   * If every provider fails, the chain raises with exactly one failed attempt
   * per provider, in list order, each carrying `str(error)`. An empty list
   * raises with no attempts.
   */
  lemma AllFailuresRecorded(ps: seq<Client>, answers: seq<Outcome>)
    requires |answers| == |ps| && Distinct(ps)
    requires forall j :: 0 <= j < |ps| ==> answers[j].Failure?
    ensures Run(ps, answers).AllProvidersFailed?
    ensures |Run(ps, answers).attempts| == |ps|
    ensures forall j :: 0 <= j < |ps| ==>
      Run(ps, answers).attempts[j] == FallbackAttempt(ps[j].Name(), false, Some(answers[j].error.ToString()))
  {
    NonRetryableNeverSkips(ps, answers);
    ExhaustAllFail(ps, answers);
  }

  /**
   * The message of the exhausted chain lists every provider's own error, in
   * order; since `str(error)` already starts with the provider name, each
   * line names the provider twice.
   */
  lemma AllFailedMessage(ps: seq<Client>, answers: seq<Outcome>)
    requires |answers| == |ps| && Distinct(ps)
    requires forall j :: 0 <= j < |ps| ==> answers[j].Failure?
    ensures FailureMessage(Run(ps, answers).Attempts())
         == "All providers failed: "
            + Join("; ", seq(|ps|, j requires 0 <= j < |ps| => ps[j].Name().Value() + ": " + answers[j].error.ToString()))
  {
    AllFailuresRecorded(ps, answers);
    var attempts := Run(ps, answers).attempts;
    forall j | 0 <= j < |attempts|
      ensures attempts[j].error.Some? && attempts[j].error.value != ""
    {
      ErrorTextNonEmpty(answers[j].error);
    }
    ErrorLinesAllErrors(attempts);
    assert ErrorLines(attempts)
        == seq(|ps|, j requires 0 <= j < |ps| => ps[j].Name().Value() + ": " + answers[j].error.ToString());
  }

  /**
   * Identity, not position, decides the early stop: when the last client
   * also stands first, its non-retryable failure ends the walk at once, and a
   * second client that would have succeeded is never called.
   */
  lemma DuplicateClientCutsChain(a: Client, b: Client, answers: seq<Outcome>)
    requires a != b && |answers| == 3
    requires answers[0].Failure? && !answers[0].error.retryable && answers[1].Success?
    ensures Run([a, b, a], answers) == AllProvidersFailed([AttemptFor(a, answers[0])])
    ensures Exhaust([a, b, a], answers).Completed?
  {
    var ps := [a, b, a];
    assert ps[1..][0] == b;
  }

  /** The attempts `on_fallback` is called with: the failed ones, in order. */
  function FailedOnly(attempts: seq<FallbackAttempt>): (r: seq<FallbackAttempt>)
    ensures forall j :: 0 <= j < |r| ==> !r[j].success
  {
    if attempts == [] then []
    else
      var last := attempts[|attempts| - 1];
      FailedOnly(attempts[..|attempts| - 1]) + (if last.success then [] else [last])
  }

  lemma FailedOnlySnoc(attempts: seq<FallbackAttempt>, a: FallbackAttempt)
    ensures FailedOnly(attempts + [a]) == FailedOnly(attempts) + (if a.success then [] else [a])
  {
    assert (attempts + [a])[..|attempts|] == attempts;
  }

  lemma {:induction false} FailedOnlyAllFailed(attempts: seq<FallbackAttempt>)
    requires forall j :: 0 <= j < |attempts| ==> !attempts[j].success
    ensures FailedOnly(attempts) == attempts
  {
    if attempts != [] {
      FailedOnlyAllFailed(attempts[..|attempts| - 1]);
    }
  }

  // ---------------------------------------------------------------------------
  // The provider factory

  /** The key `create_provider` tests for each provider. */
  function KeyFor(name: ProviderName, s: Settings): Option<string>
  {
    match name
    case Groq => s.groqApiKey
    case Gemini => s.googleApiKey
    case OpenAI => s.openaiApiKey
    case Anthropic => s.anthropicApiKey
  }

  function ModelFor(name: ProviderName, s: Settings): string
  {
    match name
    case Groq => s.groqModel
    case Gemini => s.geminiModel
    case OpenAI => s.openaiModel
    case Anthropic => s.anthropicModel
  }

  /**
   * `create_provider`: a client for groq, gemini or openai (any case) whose
   * key is truthy; nothing for anthropic, unknown names or a missing key.
   */
  function CreateProvider(name: string, s: Settings): (c: Option<ClientConfig>)
    ensures c.Some? ==>
      && c.value.name != Anthropic
      && c.value.name.Value() == Lower(name)
      && Truthy(KeyFor(c.value.name, s))
      && c.value.apiKey == KeyFor(c.value.name, s).value
      && c.value.model == ModelFor(c.value.name, s)
    ensures c.None? <==>
      forall p: ProviderName :: p != Anthropic && p.Value() == Lower(name) ==> !Truthy(KeyFor(p, s))
  {
    var n := Lower(name);
    if n == "groq" && Truthy(s.groqApiKey) then Some(ClientConfig(Groq, s.groqApiKey.value, s.groqModel))
    else if n == "gemini" && Truthy(s.googleApiKey) then Some(ClientConfig(Gemini, s.googleApiKey.value, s.geminiModel))
    else if n == "openai" && Truthy(s.openaiApiKey) then Some(ClientConfig(OpenAI, s.openaiApiKey.value, s.openaiModel))
    else None
  }

  /** The clients built for a list of names: one per name that `CreateProvider` accepts, in order. */
  function Configured(names: seq<string>, s: Settings): seq<ClientConfig>
  {
    if names == [] then []
    else
      var c := CreateProvider(names[|names| - 1], s);
      Configured(names[..|names| - 1], s) + (if c.Some? then [c.value] else [])
  }

  /** Building for one more name of the list appends that name's client, if it was built. */
  lemma ConfiguredStep(names: seq<string>, i: nat, s: Settings)
    requires i < |names|
    ensures var c := CreateProvider(names[i], s);
      Configured(names[..i + 1], s) == Configured(names[..i], s) + (if c.Some? then [c.value] else [])
  {
    assert names[..i + 1][..i] == names[..i];
  }

  /** Building for a concatenation is building for each part: order is kept and duplicates are not removed. */
  lemma {:induction false} ConfiguredAppend(a: seq<string>, b: seq<string>, s: Settings)
    ensures Configured(a + b, s) == Configured(a, s) + Configured(b, s)
  {
    if b == [] {
      assert a + b == a;
    } else {
      var n := |b|;
      assert (a + b)[..|a + b| - 1] == a + b[..n - 1];
      assert (a + b)[|a + b| - 1] == b[n - 1];
      ConfiguredAppend(a, b[..n - 1], s);
    }
  }

  /** Every built client comes from some name of the list, and only anthropic-free, keyed providers appear. */
  lemma {:induction false} ConfiguredFromNames(names: seq<string>, s: Settings, k: nat)
    requires k < |Configured(names, s)|
    ensures exists j :: 0 <= j < |names| && CreateProvider(names[j], s) == Some(Configured(names, s)[k])
  {
    var n := |names|;
    var prefix := Configured(names[..n - 1], s);
    if k < |prefix| {
      ConfiguredFromNames(names[..n - 1], s, k);
      var j :| 0 <= j < n - 1 && CreateProvider(names[..n - 1][j], s) == Some(prefix[k]);
      assert names[j] == names[..n - 1][j];
    } else {
      assert CreateProvider(names[n - 1], s) == Some(Configured(names, s)[k]);
    }
  }

  /** `create_provider_chain`: the loop over `provider_order`, appending each client that was built. */
  method CreateProviderChain(s: Settings) returns (providers: seq<ClientConfig>)
    ensures providers == Configured(ProviderOrder(s.llmProviderOrder), s)
  {
    var names := ProviderOrder(s.llmProviderOrder);
    providers := [];
    var i := 0;
    while i < |names|
      invariant 0 <= i <= |names|
      invariant providers == Configured(names[..i], s)
    {
      ConfiguredStep(names, i, s);
      var client := CreateProvider(names[i], s);
      if client.Some? {
        providers := providers + [client.value];
      }
      i := i + 1;
    }
    assert names[..i] == names;
  }

  // ---------------------------------------------------------------------------
  // Health aggregation

  /** How one concurrent probe ended: its `health_check` returned, it timed out, or it raised. */
  datatype Probe = Answered | TimedOut | Crashed

  /** The map entry a probe contributes, if any. */
  function HealthEntry(p: Client, probe: Probe): Option<bool>
  {
    match probe
    case Answered => Some(p.HealthCheck())
    case TimedOut => Some(false)
    case Crashed => None
  }

  /** The fold over the gathered probe results, in list order; a later entry overwrites an earlier one. */
  function HealthMap(ps: seq<Client>, probes: seq<Probe>): map<string, bool>
    requires |probes| == |ps|
  {
    if ps == [] then map[]
    else
      var n := |ps|;
      var m := HealthMap(ps[..n - 1], probes[..n - 1]);
      match HealthEntry(ps[n - 1], probes[n - 1])
      case None => m
      case Some(b) => m[ps[n - 1].Name().Value() := b]
  }

  /** A provider name is a key iff some provider with that name has a probe that did not raise. */
  lemma {:induction false} HealthMapKeys(ps: seq<Client>, probes: seq<Probe>, name: string)
    requires |probes| == |ps|
    ensures name in HealthMap(ps, probes) <==>
      exists j :: 0 <= j < |ps| && ps[j].Name().Value() == name && probes[j] != Crashed
  {
    if ps != [] {
      var n := |ps|;
      HealthMapKeys(ps[..n - 1], probes[..n - 1], name);
      if name in HealthMap(ps[..n - 1], probes[..n - 1]) {
        var j :| 0 <= j < n - 1 && ps[..n - 1][j].Name().Value() == name && probes[..n - 1][j] != Crashed;
        assert ps[j] == ps[..n - 1][j] && probes[j] == probes[..n - 1][j];
      }
      if exists j :: 0 <= j < n && ps[j].Name().Value() == name && probes[j] != Crashed {
        var j :| 0 <= j < n && ps[j].Name().Value() == name && probes[j] != Crashed;
        if j < n - 1 {
          assert ps[..n - 1][j] == ps[j] && probes[..n - 1][j] == probes[j];
        }
      }
    }
  }

  /**
   * The value under a name is the one from the last probe of that name that
   * did not raise: the provider's own health check if it answered, false if
   * it timed out.
   */
  lemma {:induction false} HealthMapLastWins(ps: seq<Client>, probes: seq<Probe>, j: nat)
    requires |probes| == |ps| && j < |ps| && probes[j] != Crashed
    requires forall l :: j < l < |ps| && ps[l].Name() == ps[j].Name() ==> probes[l] == Crashed
    ensures ps[j].Name().Value() in HealthMap(ps, probes)
    ensures HealthMap(ps, probes)[ps[j].Name().Value()] == (probes[j] == Answered && ps[j].HealthCheck())
  {
    var n := |ps|;
    if j < n - 1 {
      var front, frontProbes := ps[..n - 1], probes[..n - 1];
      forall l | j < l < n - 1 && front[l].Name() == front[j].Name()
        ensures frontProbes[l] == Crashed
      {
        assert front[l] == ps[l];
      }
      HealthMapLastWins(ps[..n - 1], probes[..n - 1], j);
      assert ps[..n - 1][j] == ps[j] && probes[..n - 1][j] == probes[j];
      ProviderValues(ps[n - 1].Name(), ps[j].Name());
    }
  }

  /**
   * The fallback chain: an ordered client list fixed at construction and an
   * optional `on_fallback` observer, whose calls `Complete` returns.
   */
  class FallbackChain {
    const providers: seq<Client>
    const hasObserver: bool

    constructor(providers: seq<Client>, hasObserver: bool)
      ensures this.providers == providers && this.hasObserver == hasObserver
    {
      this.providers := providers;
      this.hasObserver := hasObserver;
    }

    /**
     * `complete`: calls the providers in order and stops at the first
     * success. `notified` lists the observer's calls, and `calls` counts the
     * provider calls made: one per recorded attempt, so no provider after
     * the deciding one is called.
     */
    method Complete(call: ChatCall) returns (outcome: ChainOutcome, notified: seq<FallbackAttempt>, ghost calls: nat)
      ensures outcome == Run(providers, Answers(providers, call))
      ensures notified == (if hasObserver then FailedOnly(outcome.Attempts()) else [])
      ensures calls == |outcome.Attempts()|
    {
      ghost var answers := Answers(providers, call);
      ghost var target := Run(providers, answers);
      var attempts: seq<FallbackAttempt> := [];
      notified := [];
      calls := 0;
      var i := 0;
      while i < |providers|
        invariant 0 <= i <= |providers| && |attempts| == i && calls == i
        invariant FailedOnly(attempts) == attempts
        invariant target == RunFrom(providers, answers, i, attempts)
        invariant notified == (if hasObserver then attempts else [])
      {
        var provider := providers[i];
        var answer := provider.Complete(call);
        calls := calls + 1;
        assert answer == answers[i];
        match answer
        case Success(result) =>
          var attempt := FallbackAttempt(provider.Name(), true, None);
          FailedOnlySnoc(attempts, attempt);
          attempts := attempts + [attempt];
          outcome := Completed(FallbackResult(result, attempts));
          return;
        case Failure(e) =>
          var attempt := FallbackAttempt(provider.Name(), false, Some(e.ToString()));
          FailedOnlySnoc(attempts, attempt);
          attempts := attempts + [attempt];
          if hasObserver {
            notified := notified + [attempt];
          }
          if !e.retryable && provider == providers[|providers| - 1] {
            outcome := AllProvidersFailed(attempts);
            return;
          }
        i := i + 1;
      }
      outcome := AllProvidersFailed(attempts);
    }

    /** The aggregation half of `health_check`, given how each provider's probe ended. */
    method HealthCheck(probes: seq<Probe>) returns (results: map<string, bool>)
      requires |probes| == |providers|
      ensures results == HealthMap(providers, probes)
    {
      results := map[];
      var i := 0;
      while i < |probes|
        invariant 0 <= i <= |probes|
        invariant results == HealthMap(providers[..i], probes[..i])
      {
        assert providers[..i + 1][..i] == providers[..i] && probes[..i + 1][..i] == probes[..i];
        var provider := providers[i];
        if probes[i] == Answered {
          results := results[provider.Name().Value() := provider.HealthCheck()];
        } else if probes[i] == TimedOut {
          results := results[provider.Name().Value() := false];
        }
        i := i + 1;
      }
      assert providers[..i] == providers && probes[..i] == probes;
    }
  }
}
