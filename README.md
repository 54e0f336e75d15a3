# Provider selection for a chat-streaming web app

This project models the provider-selection module of a small web application
that forwards chat requests to one of three large-language-model providers:
Anthropic, OpenRouter (an OpenAI-compatible proxy) and OpenAI. The module
holds a fixed table of the three providers. For each one the table gives a
primary model id, a fallback model id and the name of the environment
variable that holds its API key. The module's functions:

- resolve the current provider from the `PROVIDER` environment flag,
  case-insensitively, defaulting to `anthropic`;
- look up a provider's configuration;
- build a model handle, choosing the primary or the fallback model;
- check that the provider's credential variable is set.

At load time the module also computes two constants, `MODEL` and
`CURRENT_PROVIDER`.

Every operation is a function of a snapshot of `process.env`, modelled as a
`map<string, string>` (`JsEnv.Env`).

- `js_env.dfy` (module `JsEnv`): the JavaScript semantics the module relies on.
  It gives `process.env[name]` as an `Option`, the truthiness of
  `string | undefined`, the `a || b` default and an ASCII `toLowerCase`.
- `providers.dfy` (module `Providers`): the provider enumeration, the table,
  `getCurrentProvider`, `getProviderConfig`, `createModel` and
  `validateProviderSetup`.
- `provider_exports.dfy` (module `ProviderExports`): the load-time constants
  `MODEL` and `CURRENT_PROVIDER`. They are a record computed once from the
  initial environment. A process is that record together with an environment
  that later changes may rewrite.

The vendor constructors `anthropic(id)` and `openai(id, settings?)` are
foreign library calls. Here they are constructors of `Providers.ModelHandle`
that record their arguments:

- `AnthropicModel(id)` for `anthropic(id)`;
- `OpenAIModel(id, None)` for `openai(id)`;
- `OpenAIModel(id, Some(settings))` for the OpenRouter call. The settings
  hold the base URL, the key and the headers.

`Providers.HandleProvider` reads back from a handle's shape which branch
built it.

The OpenAI branch passes only the model id (src/lib/providers.ts:81), so the
recorded OpenAI call carries no key argument.

## Model

| member | source | states |
|---|---|---|
| `JsEnv.OrElse` | src/lib/providers.ts:75 | `v \|\| fallback` is always either the fallback or the value of `v`; it is `v` when that is a non-empty string and the fallback when `v` is unset or empty; a non-empty fallback makes the result non-empty |
| `JsEnv.LowerChar` | src/lib/providers.ts:46 | one lowered character is never an upper-case ASCII letter; upper-case letters move to their lower-case partner and every other character stays |
| `JsEnv.ToLowerAscii` | src/lib/providers.ts:46 | lowering keeps the length, lowers each character in place, and leaves no upper-case letter |
| `JsEnv.LowerOfLowerIsIdentity` | src/lib/providers.ts:46 | a string without upper-case letters is its own lowercase |
| `JsEnv.ToLowerIdempotent` | src/lib/providers.ts:46 | lowering twice equals lowering once |
| `Providers.NameString` | src/lib/providers.ts:5 | every provider name is a non-empty lower-case string |
| `Providers.ParseProviderName` | src/lib/providers.ts:47 | a string is recognised exactly when it is the name of a provider, and then that provider is returned |
| `Providers.ParseNameRoundTrip` | src/lib/providers.ts:45-49 | parsing a provider's name gives that provider, and only its name parses to it |
| `Providers.Config` | src/lib/providers.ts:17-42 | each table entry carries its own name, a non-empty primary id, a non-empty fallback id and a non-empty credential variable |
| `Providers.ConfigTableWellFormed` | src/lib/providers.ts:17-42 | every provider is a key of the table with its own name; each fallback differs from its primary; the credential variables of distinct providers differ |
| `Providers.GetCurrentProvider` | src/lib/providers.ts:45-51 | when the lowercased `PROVIDER` is a provider name, that provider is chosen; when `PROVIDER` is unset, empty or unrecognised, `anthropic` is chosen |
| `Providers.FlagSelectsProvider` | src/lib/providers.ts:45-51 | any spelling of `PROVIDER` whose lowercase is a provider's name selects that provider |
| `Providers.EveryProviderSelectable` | src/lib/providers.ts:45-51 | each of the three providers is chosen when `PROVIDER` is set to its name |
| `Providers.CurrentProviderCaseInsensitive` | src/lib/providers.ts:46-47 | environments whose `PROVIDER` flags have the same lowercase (or are both unset) select the same provider |
| `Providers.MixedCaseFlagExample` | src/lib/providers.ts:45-51 | `PROVIDER=OpenAI` selects `openai` |
| `Providers.UpperCaseFlagExample` | src/lib/providers.ts:45-51 | `PROVIDER=OPENROUTER` selects `openrouter` |
| `Providers.DefaultFlagExamples` | src/lib/providers.ts:45-51 | unset, empty and unrecognised (`gemini`) flags select `anthropic` |
| `Providers.ResolveProvider` | src/lib/providers.ts:55 | an explicit provider wins; an omitted one is the current provider |
| `Providers.GetProviderConfig` | src/lib/providers.ts:54-57 | the configuration returned is the table entry of the resolved provider and carries that provider's name |
| `Providers.ConfigNameRoundTrip` | src/lib/providers.ts:54-57 | `getProviderConfig(p).name == p` for every provider, whatever the environment |
| `Providers.SelectModelId` | src/lib/providers.ts:62-64 | the chosen id is always the entry's primary or its fallback; it is the primary whenever the fallback is not requested, and the fallback when it is requested and present (non-empty) |
| `Providers.FallbackUsedIffRequested` | src/lib/providers.ts:62-64 | with the table's entries, the handle's model id is the fallback if and only if the fallback flag is set, and the primary if and only if it is not |
| `Providers.OpenRouterModelExamples` | src/lib/providers.ts:28-31 | `openrouter` builds `anthropic/claude-3.5-sonnet` by default and `meta-llama/llama-3.1-70b-instruct` with the fallback flag |
| `Providers.OpenRouterSettings` | src/lib/providers.ts:71-78 | base URL `https://openrouter.ai/api/v1`; key is `OPENROUTER_API_KEY` (undefined when unset); exactly two headers; `HTTP-Referer` is `APP_URL` when non-empty and `http://localhost:3000` otherwise, so it is never empty; `X-Title` is `AI Builder App` |
| `Providers.CreateModel` | src/lib/providers.ts:60-87 | the handle comes from the resolved provider's branch, carries the model id chosen from that provider's entry, and the only handle with settings is the OpenRouter one, whose settings are the OpenRouter settings |
| `Providers.HandleIdentifiesProvider` | src/lib/providers.ts:66-86 | every provider builds a handle of its own branch; the Anthropic and OpenAI handles carry only the chosen model id, and only OpenRouter's handle has settings |
| `Providers.CreateModelReadsOnlyItsVariables` | src/lib/providers.ts:66-86 | with an explicit provider, the handle depends on the environment only through `OPENROUTER_API_KEY` and `APP_URL` |
| `Providers.MissingKeyMessage` | src/lib/providers.ts:100 | the error text is `Missing API key: ` then the variable name then ` is not set` |
| `Providers.ValidateProviderSetup` | src/lib/providers.ts:90-105 | valid exactly when the resolved provider's credential variable is set and non-empty; valid results carry no error, and invalid ones carry the message naming that variable |
| `Providers.ValidateOpenAIExamples` | src/lib/providers.ts:90-105 | for `openai`, an unset or empty `OPENAI_API_KEY` is invalid with `Missing API key: OPENAI_API_KEY is not set`, and any non-empty value is valid with no error |
| `Providers.ValidOpenRouterSetupHasKey` | src/lib/providers.ts:70-104 | when the OpenRouter setup validates, the OpenRouter handle receives that same non-empty key |
| `Providers.OmittedProviderIsCurrent` | src/lib/providers.ts:54-94 | omitting the provider is the same as passing `getCurrentProvider()` to `getProviderConfig`, `createModel` and `validateProviderSetup` |
| `ProviderExports.LoadExports` | src/lib/providers.ts:108-109 | `CURRENT_PROVIDER` is the provider current at load; `MODEL` is a handle of that provider's branch with that provider's primary model id |
| `ProviderExports.Start` | src/lib/providers.ts:108-109 | a freshly loaded process holds the initial environment and the constants computed from it |
| `ProviderExports.Step` | src/lib/providers.ts:108-109 | an environment change rewrites the environment and leaves the loaded constants as they were |
| `ProviderExports.RunKeepsExports` | src/lib/providers.ts:108-109 | after any sequence of environment changes the loaded constants are unchanged and the environment is the changes applied in order |
| `ProviderExports.ExportsFixedAtLoad` | src/lib/providers.ts:108-109 | after any later changes, `MODEL` is still `createModel()` and `CURRENT_PROVIDER` is still `getCurrentProvider()`, both evaluated on the initial environment |
| `ProviderExports.LateFlagChangeNotSeen` | src/lib/providers.ts:108-109 | setting `PROVIDER=openai` after loading with an empty environment changes a fresh `getCurrentProvider()` to `openai`; `CURRENT_PROVIDER` stays `anthropic` and `MODEL` stays the Anthropic primary model |

## Left out

- The `default:` branch of the `switch` in `createModel` (src/lib/providers.ts:83-85) has no counterpart. `config.name` is always one of the three names, so the model's `match` covers every case and the branch cannot be reached.
- The vendor constructors from `@ai-sdk/anthropic` and `@ai-sdk/openai` are foreign calls. They are recorded as `ModelHandle` constructors holding their arguments. What the libraries do with those arguments is not modelled. That includes reading `ANTHROPIC_API_KEY` or `OPENAI_API_KEY` on their own, and whether `openai(id, settings)` honours the base URL and headers it is given.
- `console.warn` (src/lib/providers.ts:84) and the load-time `console.log` (src/lib/providers.ts:112) are output only.
- `JsEnv.ToLowerAscii` lowers ASCII letters only; full Unicode `toLowerCase` is not modelled. For the three provider names this changes nothing. Apart from the KELVIN SIGN, which lowers to `k`, and U+0130 (capital I with dot above), which lowers to `i` followed by U+0307, no non-ASCII character lowers to something containing an ASCII letter; no provider name contains `k` or U+0307.
- The lookup `PROVIDER_CONFIGS[provider]` is modelled as membership among the three keys. In JavaScript, a flag such as `constructor` also finds a value through `Object.prototype`; that case is not modelled.
- Provider arguments outside the enumeration cannot occur in the model, because the argument's type is the closed enumeration. An untyped JavaScript caller could pass one.
- `src/lib/model.ts` re-exports `MODEL` as `ANTHROPIC_MODEL`, and `createModel` and `getCurrentProvider` under their own names; it has no logic of its own.
- `src/App.tsx` (the React shell) is not part of this model.
- The stream route handlers in `src/app/api/chat/[id]/stream/route.ts` are not part of this model. They call `getStream`/`stopStream` from `@/lib/internal/stream-manager`, which is outside this module, and what they do is HTTP and stream plumbing.
