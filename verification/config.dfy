/** The process-wide settings record, built once from the environment. Each
    variable that is unset or set to the empty string falls back to a fixed
    default, because the loader combines them with `||`. The record is an
    immutable value, so it is read-only after construction. */
module Config {
  import opened Numbers

  /** The environment: the variables that are set, with their values. */
  type Env = map<string, string>

  const OpenAiApiKeyVar := "OPENAI_API_KEY"
  const OpenAiModelVar := "OPENAI_MODEL"
  const HuggingFaceApiKeyVar := "HUGGINGFACE_API_KEY"
  const HuggingFaceModelVar := "HUGGINGFACE_MODEL"
  const TfBackendVar := "TF_BACKEND"
  const PortVar := "PORT"

  const DefaultOpenAiModel := "gpt-3.5-turbo"
  const DefaultHuggingFaceModel := "microsoft/DialoGPT-medium"
  const DefaultTfBackend := "cpu"
  const DefaultPort := "3000"

  /** The variables the loader reads. */
  const Variables: set<string> :=
    {OpenAiApiKeyVar, OpenAiModelVar, HuggingFaceApiKeyVar, HuggingFaceModelVar, TfBackendVar, PortVar}

  datatype OpenAiSettings = OpenAiSettings(apiKey: string, model: string)
  datatype HuggingFaceSettings = HuggingFaceSettings(apiKey: string, model: string)
  datatype TensorFlowSettings = TensorFlowSettings(backend: string)
  datatype ServerSettings = ServerSettings(port: ParsedInt)

  datatype Settings = Settings(
    openai: OpenAiSettings,
    huggingface: HuggingFaceSettings,
    tensorflow: TensorFlowSettings,
    server: ServerSettings)

  /** A variable counts as given only when it is set to a non-empty string. */
  predicate Given(env: Env, name: string) {
    name in env && env[name] != ""
  }

  /** The variable's value when it is set and non-empty, the default otherwise. */
  function EnvOr(env: Env, name: string, default: string): string {
    if name in env && env[name] != "" then env[name] else default
  }

  /** The settings the loader builds from `env`. */
  function Load(env: Env): (s: Settings)
    ensures Given(env, OpenAiApiKeyVar) ==> s.openai.apiKey == env[OpenAiApiKeyVar]
    ensures !Given(env, OpenAiApiKeyVar) ==> s.openai.apiKey == ""
    ensures Given(env, OpenAiModelVar) ==> s.openai.model == env[OpenAiModelVar]
    ensures !Given(env, OpenAiModelVar) ==> s.openai.model == DefaultOpenAiModel
    ensures Given(env, HuggingFaceApiKeyVar) ==> s.huggingface.apiKey == env[HuggingFaceApiKeyVar]
    ensures !Given(env, HuggingFaceApiKeyVar) ==> s.huggingface.apiKey == ""
    ensures Given(env, HuggingFaceModelVar) ==> s.huggingface.model == env[HuggingFaceModelVar]
    ensures !Given(env, HuggingFaceModelVar) ==> s.huggingface.model == DefaultHuggingFaceModel
    ensures Given(env, TfBackendVar) ==> s.tensorflow.backend == env[TfBackendVar]
    ensures !Given(env, TfBackendVar) ==> s.tensorflow.backend == DefaultTfBackend
    ensures Given(env, PortVar) ==> s.server.port == ParseInt(env[PortVar])
    ensures !Given(env, PortVar) ==> s.server.port == Int(3000)
  {
    ParseIntDefaultPort();
    Settings(
      OpenAiSettings(EnvOr(env, OpenAiApiKeyVar, ""), EnvOr(env, OpenAiModelVar, DefaultOpenAiModel)),
      HuggingFaceSettings(EnvOr(env, HuggingFaceApiKeyVar, ""), EnvOr(env, HuggingFaceModelVar, DefaultHuggingFaceModel)),
      TensorFlowSettings(EnvOr(env, TfBackendVar, DefaultTfBackend)),
      ServerSettings(ParseInt(EnvOr(env, PortVar, DefaultPort))))
  }

  /** With no variable set, every setting takes its default. */
  lemma LoadWithoutOverrides()
    ensures Load(map[]) == Settings(
      OpenAiSettings("", "gpt-3.5-turbo"),
      HuggingFaceSettings("", "microsoft/DialoGPT-medium"),
      TensorFlowSettings("cpu"),
      ServerSettings(Int(3000)))
  {
  }

  /** Settings depend only on which of the six variables are given and on
      their values: unset and empty are indistinguishable, and no other
      variable is read. */
  lemma LoadDependsOnlyOnGivenVariables(env1: Env, env2: Env)
    requires forall v :: v in Variables ==> Given(env1, v) == Given(env2, v)
    requires forall v :: v in Variables && Given(env1, v) && Given(env2, v) ==> env1[v] == env2[v]
    ensures Load(env1) == Load(env2)
  {
    forall v, d | v in Variables ensures EnvOr(env1, v, d) == EnvOr(env2, v, d) {
      assert Given(env1, v) == Given(env2, v);
    }
  }

  /** A variable set to the empty string is treated exactly like an unset one. */
  lemma EmptyIsUnset(env: Env, name: string)
    ensures Load(env[name := ""]) == Load(env - {name})
  {
    LoadDependsOnlyOnGivenVariables(env[name := ""], env - {name});
  }
}
