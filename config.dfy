/** `load_api_config`: where the API key, base URL and model name come from.
    The config file, the environment (after `.env` loading) and the fatal
    missing-key exit are explicit inputs and outputs here. */
module Config {
  import opened Wrappers
  import opened Text

  const AnthropicUrl: String := "https://api.anthropic.com"
  const AnthropicModel: String := "claude-3-sonnet-20240229"
  const OpenAiUrl: String := "https://api.openai.com/v1"
  const OpenAiModel: String := "gpt-4o"
  const AnthropicKeyPrefix: String := "sk-ant-"

  /** What reading `config.ini` yields. `Sections` holds the three lookups
      `api.api_key`, `api.base_url`, `model.model` (None when the section or
      key is missing, or when the file does not parse); `Undecodable` is a
      file whose reading raises an error outside the handled ones. */
  datatype ConfigFile =
    | Sections(apiKey: Option<String>, baseUrl: Option<String>, model: Option<String>)
    | Undecodable

  /** The four environment variables consulted, after `.env` loading. */
  datatype Env = Env(
    openAiKey: Option<String>,
    anthropicKey: Option<String>,
    baseUrl: Option<String>,
    model: Option<String>)

  /** The environment as `load_api_config` finds it after trying to load
      `.env`: the variables, or a `.env` whose loading raised an error
      other than `ImportError` (a file that is not valid UTF-8, say). */
  datatype Environment = Loaded(vars: Env) | DotEnvFailed

  /** The resolved triple; the model name may be absent (MODEL unset while
      BASE_URL is set). */
  datatype Credentials = Credentials(apiKey: String, baseUrl: String, model: Option<String>)

  datatype ConfigError =
    | MissingApiKey   // the message and `sys.exit(1)`
    | LoadFailed      // an exception escaping from reading `config.ini` or `.env`

  /** Python truthiness of an optional string: present and non-empty. */
  predicate Truthy(v: Option<String>)
    ensures Truthy(v) <==> v != None && v != Some("")
  {
    v.Some? && v.value != ""
  }

  /** Python's `a or b` on optional strings. */
  function Or(a: Option<String>, b: Option<String>): (r: Option<String>)
    ensures Truthy(r) <==> Truthy(a) || Truthy(b)
    ensures Truthy(a) ==> r == a
    ensures !Truthy(a) ==> r == b
  {
    if Truthy(a) then a else b
  }

  predicate Complete(f: ConfigFile) {
    f.Sections? && f.apiKey.Some? && f.baseUrl.Some? && f.model.Some?
  }

  /** The key the environment supplies: OPENAI_API_KEY unless it is unset
      or empty, then ANTHROPIC_API_KEY. */
  function EnvKey(env: Env): (r: Option<String>)
    ensures Truthy(r) <==> Truthy(env.openAiKey) || Truthy(env.anthropicKey)
    ensures r == if Truthy(env.openAiKey) then env.openAiKey else env.anthropicKey
  {
    Or(env.openAiKey, env.anthropicKey)
  }

  /** Environment resolution with default inference and the missing-key exit. */
  function FromEnv(env: Env): (r: Result<Credentials, ConfigError>)
    ensures r.Failure? <==> !Truthy(EnvKey(env))
    ensures r.Failure? ==> r.error == MissingApiKey
    ensures r.Success? ==> r.value.apiKey != "" && r.value.baseUrl != ""
  {
    var key := EnvKey(env);
    var (base, model) :=
      if Truthy(env.baseUrl) then (env.baseUrl.value, env.model)
      else if Truthy(key) && StartsWith(key.value, AnthropicKeyPrefix) then
        (AnthropicUrl, if Truthy(env.model) then env.model else Some(AnthropicModel))
      else
        (OpenAiUrl, if Truthy(env.model) then env.model else Some(OpenAiModel));
    if !Truthy(key) then Failure(MissingApiKey)
    else Success(Credentials(key.value, base, model))
  }

  /** `load_api_config`: the config file if all three lookups succeed,
      otherwise the environment. */
  function LoadApiConfig(file: ConfigFile, env: Environment): (r: Result<Credentials, ConfigError>)
    ensures Complete(file) ==>
      r == Success(Credentials(file.apiKey.value, file.baseUrl.value, file.model))
    ensures file.Sections? && !Complete(file) && env.Loaded? ==> r == FromEnv(env.vars)
    ensures r == Failure(LoadFailed) <==>
      file.Undecodable? || (file.Sections? && !Complete(file) && env.DotEnvFailed?)
  {
    match file
    case Undecodable => Failure(LoadFailed)
    case Sections(k, b, m) =>
      if k.Some? && b.Some? && m.Some? then Success(Credentials(k.value, b.value, m))
      else
        match env
        case DotEnvFailed => Failure(LoadFailed)
        case Loaded(vars) => FromEnv(vars)
  }

  /** All or nothing: a complete config file is used verbatim whatever the
      environment holds, and an incomplete one contributes no field, so two
      incomplete files resolve alike. */
  lemma ConfigFileAllOrNothing(f1: ConfigFile, f2: ConfigFile, env1: Environment, env2: Environment)
    requires f1.Sections? && f2.Sections?
    ensures Complete(f1) ==> LoadApiConfig(f1, env1) == LoadApiConfig(f1, env2)
    ensures !Complete(f1) && !Complete(f2) ==> LoadApiConfig(f1, env1) == LoadApiConfig(f2, env1)
  {
  }

  /** The missing-key check never applies to the config file: an empty
      key from a complete file is returned as it is. */
  lemma ConfigFileSkipsKeyCheck(b: String, m: String, env: Environment)
    ensures LoadApiConfig(Sections(Some(""), Some(b), Some(m)), env)
         == Success(Credentials("", b, Some(m)))
  {
  }

  /** OPENAI_API_KEY wins when non-empty; an empty one falls through to
      ANTHROPIC_API_KEY as if unset. */
  lemma OpenAiKeyWins(env: Env)
    ensures Truthy(env.openAiKey) ==> FromEnv(env).Success? && FromEnv(env).value.apiKey == env.openAiKey.value
    ensures !Truthy(env.openAiKey) && Truthy(env.anthropicKey) ==>
      FromEnv(env).Success? && FromEnv(env).value.apiKey == env.anthropicKey.value
    ensures env.openAiKey == Some("") ==> FromEnv(env) == FromEnv(env.(openAiKey := None))
  {
  }

  /** Defaults inferred from the key when BASE_URL is unset or empty: an
      `sk-ant-` key selects the Anthropic endpoint and model, any other
      key the OpenAI ones; MODEL, when non-empty, is kept. */
  lemma EnvDefaults(env: Env)
    requires Truthy(EnvKey(env)) && !Truthy(env.baseUrl)
    ensures var c := FromEnv(env).value;
      var anthropic := StartsWith(EnvKey(env).value, AnthropicKeyPrefix);
      && c.baseUrl == (if anthropic then AnthropicUrl else OpenAiUrl)
      && c.model == (if Truthy(env.model) then env.model
                     else if anthropic then Some(AnthropicModel) else Some(OpenAiModel))
  {
  }

  /** With BASE_URL set, the URL is used as given and the model is never
      defaulted, so it may be absent or empty. */
  lemma ExplicitBaseUrl(env: Env)
    requires Truthy(EnvKey(env)) && Truthy(env.baseUrl)
    ensures FromEnv(env) == Success(Credentials(EnvKey(env).value, env.baseUrl.value, env.model))
  {
  }

  /** No key in the environment is fatal even though the URL and model
      defaults were already filled in. */
  lemma MissingKeyIsFatal(file: ConfigFile, env: Env)
    requires file.Sections? && !Complete(file)
    ensures LoadApiConfig(file, Loaded(env)) == Failure(MissingApiKey) <==> !Truthy(EnvKey(env))
  {
  }
}
