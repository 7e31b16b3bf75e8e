/**
 * Settings: the provider keys, the configured fallback order and the
 * derived lists. Environment loading is not modelled; a `Settings` value is
 * the already-loaded configuration.
 */
module Config {
  import opened Wrappers
  import opened Text

  datatype Settings = Settings(
    groqApiKey: Option<string>,
    googleApiKey: Option<string>,
    openaiApiKey: Option<string>,
    anthropicApiKey: Option<string>,
    llmProviderOrder: string,
    groqModel: string,
    geminiModel: string,
    openaiModel: string,
    anthropicModel: string)

  const DefaultProviderOrder: string := "groq,gemini,openai,anthropic"

  /** Python truthiness of an optional key: present and non-empty. */
  predicate Truthy(key: Option<string>)
  {
    key.Some? && key.value != ""
  }

  /** `provider_order`: the comma-separated pieces, each stripped and lower-cased. */
  function ProviderOrder(order: string): (names: seq<string>)
    ensures |names| == |Split(order, ',')| == Count(order, ',') + 1
    ensures forall i :: 0 <= i < |names| ==> names[i] == Lower(Strip(Split(order, ',')[i]))
  {
    SplitLength(order, ',');
    var pieces := Split(order, ',');
    seq(|pieces|, i requires 0 <= i < |pieces| => Lower(Strip(pieces[i])))
  }

  lemma LowerStripPlain(s: string)
    requires PlainName(s)
    ensures Lower(Strip(s)) == s
  {
    if s != [] {
      assert StripLeft(s) == s;
      assert StripRight(s) == s;
    }
    assert Lower(s) == s;
  }

  lemma SplitFourPieces(a: string, b: string, c: string, d: string)
    requires ',' !in a && ',' !in b && ',' !in c && ',' !in d
    ensures Split(a + "," + b + "," + c + "," + d, ',') == [a, b, c, d]
  {
    var cd := c + [','] + d;
    var bcd := b + [','] + cd;
    var abcd := a + [','] + bcd;
    CommaRegroup(a, b, c, d);
    SplitNoSeparator(d, ',');
    SplitAfterPiece(c, ',', d);
    assert Split(cd, ',') == [c, d];
    SplitAfterPiece(b, ',', cd);
    assert Split(bcd, ',') == [b, c, d];
    SplitAfterPiece(a, ',', bcd);
    assert Split(abcd, ',') == [a, b, c, d];
  }

  /** Regroups a comma-joined list of four pieces to the right. */
  lemma CommaRegroup(a: string, b: string, c: string, d: string)
    ensures a + [','] + (b + [','] + (c + [','] + d)) == a + "," + b + "," + c + "," + d
  {
    assert [','] == ",";
  }

  predicate PlainName(s: string)
  {
    forall i :: 0 <= i < |s| ==> 'a' <= s[i] <= 'z'
  }

  lemma ProviderOrderOfPlainNames(a: string, b: string, c: string, d: string)
    requires PlainName(a) && PlainName(b) && PlainName(c) && PlainName(d)
    ensures ProviderOrder(a + "," + b + "," + c + "," + d) == [a, b, c, d]
  {
    var order := a + "," + b + "," + c + "," + d;
    SplitFourPieces(a, b, c, d);
    var pieces := Split(order, ',');
    var names := ProviderOrder(order);
    assert |names| == 4;
    forall i | 0 <= i < 4
      ensures names[i] == pieces[i]
    {
      assert names[i] == Lower(Strip(pieces[i]));
      LowerStripPlain(pieces[i]);
    }
  }

  /** The default order gives the four providers in order; nothing is dropped or reordered. */
  lemma DefaultProviderOrderValue()
    ensures ProviderOrder(DefaultProviderOrder) == ["groq", "gemini", "openai", "anthropic"]
  {
    var a, b, c, d := "groq", "gemini", "openai", "anthropic";
    assert DefaultProviderOrder == a + "," + b + "," + c + "," + d;
    ProviderOrderOfPlainNames(a, b, c, d);
  }

  /** Empty pieces are kept: a trailing comma yields a final "" entry. */
  lemma EmptyPieceKept(order: string)
    ensures ProviderOrder(order + ",")[|ProviderOrder(order + ",")| - 1] == ""
  {
    var names := ProviderOrder(order + ",");
    var pieces := Split(order + ",", ',');
    assert |names| == |pieces|;
    var last := |pieces| - 1;
    SplitTrailingSeparator(order);
    assert pieces[last] == "";
    NormalisedEmpty(pieces[last]);
    assert names[last] == Lower(Strip(pieces[last]));
  }

  lemma NormalisedEmpty(s: string)
    ensures s == "" ==> Lower(Strip(s)) == ""
  {
    if s == "" {
      assert |Strip(s)| == 0;
    }
  }

  lemma {:induction false} SplitTrailingSeparator(s: string)
    ensures Split(s + ",", ',')[|Split(s + ",", ',')| - 1] == ""
  {
    if s == [] {
      assert Split(",", ',') == [""] + Split("", ',');
    } else {
      assert (s + ",")[1..] == s[1..] + ",";
      SplitTrailingSeparator(s[1..]);
    }
  }

  /** `available_providers`: the providers with a non-empty key, in the fixed order. */
  function AvailableProviders(s: Settings): (names: seq<string>)
    ensures "groq" in names <==> Truthy(s.groqApiKey)
    ensures "gemini" in names <==> Truthy(s.googleApiKey)
    ensures "openai" in names <==> Truthy(s.openaiApiKey)
    ensures "anthropic" in names <==> Truthy(s.anthropicApiKey)
    ensures forall i :: 0 <= i < |names| ==> names[i] in ["groq", "gemini", "openai", "anthropic"]
    ensures |names| <= 4
  {
    (if Truthy(s.groqApiKey) then ["groq"] else [])
    + (if Truthy(s.googleApiKey) then ["gemini"] else [])
    + (if Truthy(s.openaiApiKey) then ["openai"] else [])
    + (if Truthy(s.anthropicApiKey) then ["anthropic"] else [])
  }

  /** The position of a provider name in the fixed order groq, gemini, openai, anthropic. */
  function Rank(name: string): nat
  {
    if name == "groq" then 0 else if name == "gemini" then 1 else if name == "openai" then 2 else 3
  }

  /** The available providers are listed in the fixed order, each at most once. */
  lemma AvailableProvidersOrdered(s: Settings)
    ensures forall i, j :: 0 <= i < j < |AvailableProviders(s)| ==>
      Rank(AvailableProviders(s)[i]) < Rank(AvailableProviders(s)[j])
  {
  }

  /** The raw value handed to the `log_level` validator: a string or anything else. */
  datatype LogLevelInput = Text(s: string) | NotText(raw: int)

  /** `uppercase_log_level`: strings are upper-cased, anything else is returned as is. */
  function UppercaseLogLevel(v: LogLevelInput): (r: LogLevelInput)
    ensures v.NotText? ==> r == v
    ensures v.Text? ==> r.Text? && |r.s| == |v.s| && forall i :: 0 <= i < |v.s| ==> !('a' <= r.s[i] <= 'z')
    ensures v.Text? ==> forall i :: 0 <= i < |v.s| ==> r.s[i] == UpperChar(v.s[i])
  {
    match v
    case Text(s) => Text(Upper(s))
    case NotText(_) => v
  }

  /** Applying the validator twice is the same as applying it once. */
  lemma UppercaseLogLevelIdempotent(v: LogLevelInput)
    ensures UppercaseLogLevel(UppercaseLogLevel(v)) == UppercaseLogLevel(v)
  {
    if v.Text? {
      assert Upper(Upper(v.s)) == Upper(v.s);
    }
  }
}
