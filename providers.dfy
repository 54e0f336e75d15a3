/** Provider selection: the fixed table of providers, resolving the current
    provider from the `PROVIDER` flag, building a model handle and checking
    that the provider's credential is set. Every operation is a function of a
    snapshot of the environment. */
module Providers {
  import opened JsEnv

  /** The closed enumeration `"anthropic" | "openrouter" | "openai"`. */
  datatype ProviderName = Anthropic | OpenRouter | OpenAI

  /** The string spelling of each provider name. */
  function NameString(p: ProviderName): (s: string)
    ensures s != "" && IsLowerAscii(s)
  {
    match p
    case Anthropic => "anthropic"
    case OpenRouter => "openrouter"
    case OpenAI => "openai"
  }

  /** Recognises a string as one of the table's keys. */
  function ParseProviderName(s: string): (r: Option<ProviderName>)
    ensures r.Some? ==> NameString(r.value) == s
    ensures r.None? ==> forall p :: NameString(p) != s
  {
    if s == "anthropic" then Some(Anthropic)
    else if s == "openrouter" then Some(OpenRouter)
    else if s == "openai" then Some(OpenAI)
    else None
  }

  datatype ModelIds = ModelIds(primary: string, fallback: Option<string>)

  datatype ProviderConfig = ProviderConfig(name: ProviderName, models: ModelIds, apiKeyEnv: string)

  /** `PROVIDER_CONFIGS`: one entry per provider name. */
  const ProviderConfigs: map<ProviderName, ProviderConfig> := map[
    Anthropic := ProviderConfig(
      Anthropic,
      ModelIds("claude-4-sonnet-20250514", Some("claude-3-7-sonnet-20250219")),
      "ANTHROPIC_API_KEY"),
    OpenRouter := ProviderConfig(
      OpenRouter,
      ModelIds("anthropic/claude-3.5-sonnet", Some("meta-llama/llama-3.1-70b-instruct")),
      "OPENROUTER_API_KEY"),
    OpenAI := ProviderConfig(
      OpenAI,
      ModelIds("gpt-5-2025-08-07", Some("gpt-4.1-2025-04-14")),
      "OPENAI_API_KEY")
  ]

  /** `PROVIDER_CONFIGS[p]`; the table has every provider as a key. */
  function Config(p: ProviderName): (c: ProviderConfig)
    ensures c.name == p
    ensures c.models.primary != "" && Truthy(c.models.fallback) && c.apiKeyEnv != ""
  {
    match p
    case Anthropic => ProviderConfigs[Anthropic]
    case OpenRouter => ProviderConfigs[OpenRouter]
    case OpenAI => ProviderConfigs[OpenAI]
  }

  /** Every name is a key of the table, its entry carries that name, a primary
      and a fallback model id that differ, and a credential variable of its
      own. */
  lemma ConfigTableWellFormed()
    ensures forall p :: p in ProviderConfigs && ProviderConfigs[p].name == p
    ensures forall p :: Truthy(Config(p).models.fallback) && Config(p).models.fallback.value != Config(p).models.primary
    ensures forall p, q :: p != q ==> Config(p).apiKeyEnv != Config(q).apiKeyEnv
  {
    forall p ensures p in ProviderConfigs && ProviderConfigs[p].name == p {
      match p
      case Anthropic =>
      case OpenRouter =>
      case OpenAI =>
    }
  }

  /** `getCurrentProvider()`: the lowercased `PROVIDER` flag when it is a key of
      the table, `anthropic` otherwise. */
  function GetCurrentProvider(env: Env): (r: ProviderName)
    ensures "PROVIDER" in env && (exists p :: NameString(p) == ToLowerAscii(env["PROVIDER"]))
            ==> NameString(r) == ToLowerAscii(env["PROVIDER"])
    ensures !("PROVIDER" in env && (exists p :: NameString(p) == ToLowerAscii(env["PROVIDER"])))
            ==> r == Anthropic
  {
    var flag := Lookup(env, "PROVIDER");
    var provider := if flag.Some? then Some(ToLowerAscii(flag.value)) else None;
    if Truthy(provider) && ParseProviderName(provider.value).Some? then
      ParseProviderName(provider.value).value
    else
      Anthropic
  }

  /** `provider || getCurrentProvider()`: every provider name is a non-empty
      string, so an explicit argument always wins. */
  function ResolveProvider(env: Env, provider: Option<ProviderName>): (r: ProviderName)
    ensures provider.Some? ==> r == provider.value
    ensures provider.None? ==> r == GetCurrentProvider(env)
  {
    if provider.Some? && NameString(provider.value) != "" then provider.value
    else GetCurrentProvider(env)
  }

  /** `getProviderConfig(provider?)`. */
  function GetProviderConfig(env: Env, provider: Option<ProviderName>): (c: ProviderConfig)
    ensures c.name == ResolveProvider(env, provider)
    ensures c == Config(c.name)
  {
    ProviderConfigs[ResolveProvider(env, provider)]
  }

  /** The model id `createModel` uses: the fallback id when it is requested and
      present, otherwise the primary. */
  function SelectModelId(config: ProviderConfig, useFallback: bool): (id: string)
    ensures id == config.models.primary || Some(id) == config.models.fallback
    ensures !useFallback ==> id == config.models.primary
    ensures useFallback && Truthy(config.models.fallback) ==> Some(id) == config.models.fallback
    ensures !(useFallback && Truthy(config.models.fallback)) ==> id == config.models.primary
  {
    if useFallback && Truthy(config.models.fallback) then config.models.fallback.value
    else config.models.primary
  }

  /** The options object passed as the second argument of `openai(...)`. */
  datatype OpenAISettings = OpenAISettings(baseURL: string, apiKey: Option<string>, headers: map<string, string>)

  /** The handle returned by the vendor libraries, recorded by its arguments:
      `anthropic(modelId)`, and `openai(modelId)` or `openai(modelId, settings)`. */
  datatype ModelHandle =
    | AnthropicModel(modelId: string)
    | OpenAIModel(modelId: string, settings: Option<OpenAISettings>)

  const OpenRouterBaseUrl := "https://openrouter.ai/api/v1"
  const DefaultReferer := "http://localhost:3000"
  const AppTitle := "AI Builder App"

  /** The settings of the OpenRouter handle: OpenRouter's fixed endpoint, its own
      key (possibly `undefined`), and the headers naming the calling app. */
  function OpenRouterSettings(env: Env): (s: OpenAISettings)
    ensures s.baseURL == "https://openrouter.ai/api/v1"
    ensures s.apiKey.Some? <==> "OPENROUTER_API_KEY" in env
    ensures s.apiKey.Some? ==> s.apiKey.value == env["OPENROUTER_API_KEY"]
    ensures s.headers.Keys == {"HTTP-Referer", "X-Title"}
    ensures s.headers["X-Title"] == "AI Builder App"
    ensures s.headers["HTTP-Referer"] != ""
    ensures "APP_URL" in env && env["APP_URL"] != "" ==> s.headers["HTTP-Referer"] == env["APP_URL"]
    ensures !("APP_URL" in env && env["APP_URL"] != "") ==> s.headers["HTTP-Referer"] == "http://localhost:3000"
  {
    OpenAISettings(
      OpenRouterBaseUrl,
      Lookup(env, "OPENROUTER_API_KEY"),
      map["HTTP-Referer" := OrElse(Lookup(env, "APP_URL"), DefaultReferer), "X-Title" := AppTitle])
  }

  /** Which provider's branch of `createModel` built a handle: an independent
      reading of the handle's shape. */
  function HandleProvider(h: ModelHandle): ProviderName {
    match h
    case AnthropicModel(_) => Anthropic
    case OpenAIModel(_, None) => OpenAI
    case OpenAIModel(_, Some(_)) => OpenRouter
  }

  /** `createModel(provider?, useFallback = false)`. The dispatch is on
      `config.name`, which always equals the resolved provider, so the match is
      exhaustive and the JavaScript `default:` branch has no counterpart. */
  function CreateModel(env: Env, provider: Option<ProviderName>, useFallback: bool): (h: ModelHandle)
    ensures HandleProvider(h) == ResolveProvider(env, provider)
    ensures h.modelId == SelectModelId(Config(ResolveProvider(env, provider)), useFallback)
    ensures h.OpenAIModel? && h.settings.Some? ==> h.settings.value == OpenRouterSettings(env)
  {
    var config := GetProviderConfig(env, provider);
    var modelName := SelectModelId(config, useFallback);
    match config.name
    case Anthropic => AnthropicModel(modelName)
    case OpenRouter => OpenAIModel(modelName, Some(OpenRouterSettings(env)))
    case OpenAI => OpenAIModel(modelName, None)
  }

  /** The `{ isValid, error? }` result of `validateProviderSetup`. */
  datatype Validation = Validation(isValid: bool, error: Option<string>)

  /** `Missing API key: ${name} is not set`. */
  function MissingKeyMessage(name: string): (m: string)
    ensures |m| == |name| + 28
    ensures m[..17] == "Missing API key: " && m[17..17 + |name|] == name
    ensures m[17 + |name|..] == " is not set"
  {
    "Missing API key: " + name + " is not set"
  }

  /** `validateProviderSetup(provider?)`: invalid exactly when the credential
      variable of the resolved provider is unset or empty. */
  function ValidateProviderSetup(env: Env, provider: Option<ProviderName>): (v: Validation)
    ensures var key := Config(ResolveProvider(env, provider)).apiKeyEnv;
            v.isValid <==> key in env && env[key] != ""
    ensures v.isValid ==> v.error.None?
    ensures !v.isValid ==> v.error == Some(MissingKeyMessage(Config(ResolveProvider(env, provider)).apiKeyEnv))
  {
    var config := GetProviderConfig(env, provider);
    var apiKey := Lookup(env, config.apiKeyEnv);
    if !Truthy(apiKey) then
      Validation(false, Some(MissingKeyMessage(config.apiKeyEnv)))
    else
      Validation(true, None)
  }

  // ---------------------------------------------------------------------------
  // Properties

  /** `getProviderConfig(p).name == p` for every explicit name. */
  lemma ConfigNameRoundTrip(env: Env, p: ProviderName)
    ensures GetProviderConfig(env, Some(p)).name == p
    ensures GetProviderConfig(env, Some(p)) == ProviderConfigs[p]
  {
  }

  /** Names and parsing are inverse to each other. */
  lemma ParseNameRoundTrip(p: ProviderName, s: string)
    ensures ParseProviderName(NameString(p)) == Some(p)
    ensures ParseProviderName(s) == Some(p) ==> s == NameString(p)
  {
  }

  /** The flag is case-insensitive: any spelling whose lowercase is a
      provider's name selects that provider. */
  lemma {:induction false} FlagSelectsProvider(env: Env, p: ProviderName)
    requires "PROVIDER" in env && ToLowerAscii(env["PROVIDER"]) == NameString(p)
    ensures GetCurrentProvider(env) == p
  {
    ParseNameRoundTrip(p, ToLowerAscii(env["PROVIDER"]));
  }

  /** Every provider can be selected by the flag, spelled exactly as its name. */
  lemma EveryProviderSelectable(env: Env, p: ProviderName)
    ensures GetCurrentProvider(env["PROVIDER" := NameString(p)]) == p
  {
    LowerOfLowerIsIdentity(NameString(p));
    FlagSelectsProvider(env["PROVIDER" := NameString(p)], p);
  }

  /** The result depends on the flag only through its lowercase. */
  lemma CurrentProviderCaseInsensitive(env1: Env, env2: Env)
    requires ("PROVIDER" in env1) == ("PROVIDER" in env2)
    requires "PROVIDER" in env1 ==> ToLowerAscii(env1["PROVIDER"]) == ToLowerAscii(env2["PROVIDER"])
    ensures GetCurrentProvider(env1) == GetCurrentProvider(env2)
  {
  }

  /** `PROVIDER=OpenAI` gives `openai`. */
  lemma MixedCaseFlagExample(env: Env)
    ensures GetCurrentProvider(env["PROVIDER" := "OpenAI"]) == OpenAI
  {
    assert ToLowerAscii("OpenAI") == "openai";
    FlagSelectsProvider(env["PROVIDER" := "OpenAI"], OpenAI);
  }

  /** `PROVIDER=OPENROUTER` gives `openrouter`. */
  lemma UpperCaseFlagExample(env: Env)
    ensures GetCurrentProvider(env["PROVIDER" := "OPENROUTER"]) == OpenRouter
  {
    assert ToLowerAscii("OPENROUTER") == "openrouter";
    FlagSelectsProvider(env["PROVIDER" := "OPENROUTER"], OpenRouter);
  }

  /** Unset, empty and unrecognised flags give `anthropic`. */
  lemma DefaultFlagExamples(env: Env)
    ensures GetCurrentProvider(env - {"PROVIDER"}) == Anthropic
    ensures GetCurrentProvider(env["PROVIDER" := ""]) == Anthropic
    ensures GetCurrentProvider(env["PROVIDER" := "gemini"]) == Anthropic
  {
    var g := ToLowerAscii("gemini");
    assert g[0] == 'g';
    assert forall p :: NameString(p) != g;
  }

  /** An omitted provider argument behaves exactly like `getCurrentProvider()`
      in all three entry points. */
  lemma OmittedProviderIsCurrent(env: Env, useFallback: bool)
    ensures GetProviderConfig(env, None) == GetProviderConfig(env, Some(GetCurrentProvider(env)))
    ensures CreateModel(env, None, useFallback) == CreateModel(env, Some(GetCurrentProvider(env)), useFallback)
    ensures ValidateProviderSetup(env, None) == ValidateProviderSetup(env, Some(GetCurrentProvider(env)))
  {
  }

  /** With the table's entries, the fallback id is used if and only if the
      fallback flag is set. */
  lemma FallbackUsedIffRequested(env: Env, p: ProviderName, useFallback: bool)
    ensures CreateModel(env, Some(p), useFallback).modelId == Config(p).models.fallback.value
            <==> useFallback
    ensures CreateModel(env, Some(p), useFallback).modelId == Config(p).models.primary
            <==> !useFallback
  {
    ConfigTableWellFormed();
  }

  /** `openrouter` gives `anthropic/claude-3.5-sonnet` by default and
      `meta-llama/llama-3.1-70b-instruct` with the fallback flag. */
  lemma OpenRouterModelExamples(env: Env)
    ensures CreateModel(env, Some(OpenRouter), false).modelId == "anthropic/claude-3.5-sonnet"
    ensures CreateModel(env, Some(OpenRouter), true).modelId == "meta-llama/llama-3.1-70b-instruct"
  {
  }

  /** `createModel` builds a handle of the requested provider's branch, and the
      handle's shape identifies that provider; the Anthropic and OpenAI
      branches carry only the model id. */
  lemma HandleIdentifiesProvider(env: Env, p: ProviderName, useFallback: bool)
    ensures HandleProvider(CreateModel(env, Some(p), useFallback)) == p
    ensures p == Anthropic <==> CreateModel(env, Some(p), useFallback).AnthropicModel?
    ensures p == OpenAI <==> CreateModel(env, Some(p), useFallback) == OpenAIModel(SelectModelId(Config(p), useFallback), None)
    ensures p == OpenRouter <==> CreateModel(env, Some(p), useFallback).OpenAIModel? && CreateModel(env, Some(p), useFallback).settings.Some?
  {
  }

  /** Only the OpenRouter handle reads the environment, and only
      `OPENROUTER_API_KEY` and `APP_URL`. */
  lemma CreateModelReadsOnlyItsVariables(env1: Env, env2: Env, p: ProviderName, useFallback: bool)
    requires Lookup(env1, "OPENROUTER_API_KEY") == Lookup(env2, "OPENROUTER_API_KEY")
    requires Lookup(env1, "APP_URL") == Lookup(env2, "APP_URL")
    ensures CreateModel(env1, Some(p), useFallback) == CreateModel(env2, Some(p), useFallback)
  {
  }

  /** A setup that validates for OpenRouter hands a non-empty key to the
      OpenRouter handle. */
  lemma ValidOpenRouterSetupHasKey(env: Env, useFallback: bool)
    requires ValidateProviderSetup(env, Some(OpenRouter)).isValid
    ensures CreateModel(env, Some(OpenRouter), useFallback).settings.value.apiKey == Some(env["OPENROUTER_API_KEY"])
    ensures env["OPENROUTER_API_KEY"] != ""
  {
  }

  /** `validateProviderSetup("openai")`: invalid with a message naming
      `OPENAI_API_KEY` when the variable is unset or empty, valid for any
      non-empty value. */
  lemma ValidateOpenAIExamples(env: Env, key: string)
    ensures !ValidateProviderSetup(env - {"OPENAI_API_KEY"}, Some(OpenAI)).isValid
    ensures ValidateProviderSetup(env - {"OPENAI_API_KEY"}, Some(OpenAI)).error
            == Some("Missing API key: OPENAI_API_KEY is not set")
    ensures !ValidateProviderSetup(env["OPENAI_API_KEY" := ""], Some(OpenAI)).isValid
    ensures ValidateProviderSetup(env["OPENAI_API_KEY" := ""], Some(OpenAI)).error
            == Some("Missing API key: OPENAI_API_KEY is not set")
    ensures key != "" ==> ValidateProviderSetup(env["OPENAI_API_KEY" := key], Some(OpenAI)) == Validation(true, None)
  {
    assert MissingKeyMessage("OPENAI_API_KEY") == "Missing API key: OPENAI_API_KEY is not set";
  }
}
