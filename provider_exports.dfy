/** The module-level constants `MODEL` and `CURRENT_PROVIDER`, evaluated once
    when the provider module is loaded. A running process is modelled as its
    current environment together with the record of those constants; changes
    to the environment after load replace the environment and leave the
    record as it was. */
module ProviderExports {
  import opened JsEnv
  import opened Providers

  /** The values bound at load: `MODEL` and `CURRENT_PROVIDER`. */
  datatype LoadedExports = LoadedExports(model: ModelHandle, currentProvider: ProviderName)

  /** Loading the module against the initial environment `env0`. */
  function LoadExports(env0: Env): (x: LoadedExports)
    ensures x.currentProvider == GetCurrentProvider(env0)
    ensures HandleProvider(x.model) == x.currentProvider
    ensures x.model.modelId == Config(x.currentProvider).models.primary
  {
    LoadedExports(CreateModel(env0, None, false), GetCurrentProvider(env0))
  }

  /** A change a running process makes to `process.env`. */
  datatype EnvChange = SetVar(name: string, value: string) | UnsetVar(name: string)

  function ApplyChange(env: Env, c: EnvChange): Env {
    match c
    case SetVar(n, v) => env[n := v]
    case UnsetVar(n) => env - {n}
  }

  function ApplyChanges(env: Env, cs: seq<EnvChange>): Env
    decreases |cs|
  {
    if cs == [] then env else ApplyChanges(ApplyChange(env, cs[0]), cs[1..])
  }

  datatype Process = Process(env: Env, exports: LoadedExports)

  /** A process right after the module was loaded. */
  function Start(env0: Env): (q: Process)
    ensures q.env == env0 && q.exports == LoadExports(env0)
  {
    Process(env0, LoadExports(env0))
  }

  /** One environment change; the loaded record is not recomputed. */
  function Step(q: Process, c: EnvChange): (q': Process)
    ensures q'.env == ApplyChange(q.env, c)
    ensures q'.exports == q.exports
  {
    Process(ApplyChange(q.env, c), q.exports)
  }

  function Run(q: Process, cs: seq<EnvChange>): Process
    decreases |cs|
  {
    if cs == [] then q else Run(Step(q, cs[0]), cs[1..])
  }

  lemma {:induction false} RunKeepsExports(q: Process, cs: seq<EnvChange>)
    ensures Run(q, cs).exports == q.exports
    ensures Run(q, cs).env == ApplyChanges(q.env, cs)
    decreases |cs|
  {
    if cs != [] {
      RunKeepsExports(Step(q, cs[0]), cs[1..]);
    }
  }

  /** Whatever the process does to its environment after load, `MODEL` and
      `CURRENT_PROVIDER` stay what they were computed to be from the initial
      environment. */
  lemma ExportsFixedAtLoad(env0: Env, cs: seq<EnvChange>)
    ensures Run(Start(env0), cs).exports.model == CreateModel(env0, None, false)
    ensures Run(Start(env0), cs).exports.currentProvider == GetCurrentProvider(env0)
    ensures Run(Start(env0), cs).env == ApplyChanges(env0, cs)
  {
    RunKeepsExports(Start(env0), cs);
  }

  /** The loaded constants and a fresh lookup can disagree: setting
      `PROVIDER=openai` after load changes `getCurrentProvider()` but not
      `CURRENT_PROVIDER` or `MODEL`. */
  lemma LateFlagChangeNotSeen()
    ensures Run(Start(map[]), [SetVar("PROVIDER", "openai")]).exports.currentProvider == Anthropic
    ensures Run(Start(map[]), [SetVar("PROVIDER", "openai")]).exports.model
            == AnthropicModel("claude-4-sonnet-20250514")
    ensures GetCurrentProvider(Run(Start(map[]), [SetVar("PROVIDER", "openai")]).env) == OpenAI
  {
    ExportsFixedAtLoad(map[], [SetVar("PROVIDER", "openai")]);
    EveryProviderSelectable(map[], OpenAI);
  }
}
