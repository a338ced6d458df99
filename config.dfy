/**
 * The agent's configuration (agent/config.py): one record read from the process
 * environment at start-up, and the checks `validate` makes on it.
 */
module AgentConfig {
  import opened Wrappers
  import opened Strings

  /** The process environment as `os.getenv` sees it. */
  type Env = map<string, string>

  /** `os.getenv(key)`: the value, or `None` when the variable is unset. */
  function Getenv(env: Env, key: string): Option<string> {
    if key in env then Some(env[key]) else None
  }

  /** `os.getenv(key, default)`. */
  function GetenvOr(env: Env, key: string, default: string): string {
    Getenv(env, key).GetOr(default)
  }

  datatype Config = Config(
    kubeconfig: Option<string>,
    monitoredNamespaces: seq<string>,
    llmProvider: string,
    llmApiKey: Option<string>,
    llmEndpoint: Option<string>,
    llmModel: string,
    rabbitmqHost: string,
    rabbitmqPort: int,
    rabbitmqQueue: string,
    pollingInterval: int,
    ragDocsPath: string,
    enableAutoFix: bool,
    autoFixRules: string,     // the raw AUTO_FIX_RULES text; its JSON decoding is not modelled
    apiEnabled: bool,
    apiPort: int)

  /** Why building or validating the configuration raised. */
  datatype ConfigError =
    | InvalidInteger(variable: string, text: string)   // `int()` refused the text
    | AssertionFailed(message: string)                   // an `assert` of `validate` failed

  /** `os.getenv(key, "false").lower() == "true"`: a flag is on only for some casing of "true". */
  function ParseFlag(text: string): bool {
    Lower(text) == "true"
  }

  /** The namespaces to watch: MONITORED_NAMESPACES split at every comma. */
  function Namespaces(env: Env): seq<string> {
    Split(GetenvOr(env, "MONITORED_NAMESPACES", "default"), ',')
  }

  /** The LLM provider: LLM_PROVIDER lowered, "openai" when unset. */
  function Provider(env: Env): string {
    Lower(GetenvOr(env, "LLM_PROVIDER", "openai"))
  }

  /** The model used when LLM_MODEL is unset. */
  function DefaultModel(provider: string): string {
    if provider == "openai" then "gpt-4" else "gemini-pro"
  }

  /** `int(os.getenv(key, default))`, with Python's `int()` given as the abstract parser `parseInt`. */
  function IntSetting(env: Env, key: string, default: string, parseInt: string -> Option<int>): Result<int, ConfigError> {
    var text := GetenvOr(env, key, default);
    match parseInt(text)
    case Some(n) => Success(n)
    case None => Failure(InvalidInteger(key, text))
  }

  /** `Config.__init__`: every field read from `env`, the integer settings in the order the source reads them. */
  function Load(env: Env, parseInt: string -> Option<int>): Result<Config, ConfigError> {
    var provider := Provider(env);
    var port :- IntSetting(env, "RABBITMQ_PORT", "5672", parseInt);
    var interval :- IntSetting(env, "POLLING_INTERVAL_SECONDS", "60", parseInt);
    var apiPort :- IntSetting(env, "API_PORT", "8080", parseInt);
    Success(Config(
      kubeconfig := Getenv(env, "KUBECONFIG"),
      monitoredNamespaces := Namespaces(env),
      llmProvider := provider,
      llmApiKey := Getenv(env, "LLM_API_KEY"),
      llmEndpoint := Getenv(env, "LLM_ENDPOINT"),
      llmModel := GetenvOr(env, "LLM_MODEL", DefaultModel(provider)),
      rabbitmqHost := GetenvOr(env, "RABBITMQ_HOST", "localhost"),
      rabbitmqPort := port,
      rabbitmqQueue := GetenvOr(env, "RABBITMQ_QUEUE", "k8s-monitor-alerts"),
      pollingInterval := interval,
      ragDocsPath := GetenvOr(env, "RAG_DOCS_PATH", "./docs"),
      enableAutoFix := ParseFlag(GetenvOr(env, "ENABLE_AUTO_FIX", "false")),
      autoFixRules := GetenvOr(env, "AUTO_FIX_RULES", "{}"),
      apiEnabled := ParseFlag(GetenvOr(env, "API_ENABLED", "false")),
      apiPort := apiPort))
  }

  const ApiKeyRequired := "LLM_API_KEY is required"
  const ProviderUnknown := "LLM_PROVIDER must be 'openai' or 'gemini'"
  const DocsPathRequired := "RAG_DOCS_PATH is required"

  /** `Config.validate`: the three asserts, checked in order; the first that fails raises. */
  function Validate(c: Config): Outcome<ConfigError> {
    if c.llmApiKey.None? || c.llmApiKey.value == "" then Fail(AssertionFailed(ApiKeyRequired))
    else if c.llmProvider !in ["openai", "gemini"] then Fail(AssertionFailed(ProviderUnknown))
    else if c.ragDocsPath == "" then Fail(AssertionFailed(DocsPathRequired))
    else Pass
  }

  /** The module-level `config = Config(); config.validate()`. */
  function LoadValidated(env: Env, parseInt: string -> Option<int>): Result<Config, ConfigError> {
    var c :- Load(env, parseInt);
    match Validate(c)
    case Pass => Success(c)
    case Fail(e) => Failure(e)
  }

  /** The namespace list is the comma-split of MONITORED_NAMESPACES: joining it back gives the text,
      it has one entry more than the text has commas, and empty pieces are kept. */
  lemma NamespacesSplit(env: Env)
    ensures Join(Namespaces(env), ',') == GetenvOr(env, "MONITORED_NAMESPACES", "default")
    ensures |Namespaces(env)| == Occurrences(GetenvOr(env, "MONITORED_NAMESPACES", "default"), ',') + 1
    ensures forall k :: 0 <= k < |Namespaces(env)| ==> ',' !in Namespaces(env)[k]
    ensures "MONITORED_NAMESPACES" !in env ==> Namespaces(env) == ["default"]
  {
    var text := GetenvOr(env, "MONITORED_NAMESPACES", "default");
    JoinSplit(text, ',');
    SplitShape(text, ',');
    if "MONITORED_NAMESPACES" !in env {
      SplitJoin(["default"], ',');
    }
  }

  /** A flag is on exactly when its text is "true" in some mix of upper and lower case. */
  lemma {:induction false} FlagIff(text: string)
    ensures ParseFlag(text) <==> |text| == 4 && forall i :: 0 <= i < 4 ==> LowerChar(text[i]) == "true"[i]
  {
    if |text| == 4 && forall i :: 0 <= i < 4 ==> LowerChar(text[i]) == "true"[i] {
      assert forall i :: 0 <= i < 4 ==> Lower(text)[i] == "true"[i];
    }
  }

  /** Unset flags are off; "TRUE" turns a flag on, "1" and "yes" do not. */
  lemma FlagExamples()
    ensures !ParseFlag("false") && ParseFlag("TRUE") && ParseFlag("True")
    ensures !ParseFlag("1") && !ParseFlag("yes")
  {
    FlagIff("TRUE");
    FlagIff("True");
    FlagIff("false");
  }

  /** The provider is always lower case, and the model default follows the lowered provider. */
  lemma {:induction false} ProviderAndModel(env: Env, parseInt: string -> Option<int>)
    requires Load(env, parseInt).Success?
    ensures var c := Load(env, parseInt).value;
      && (forall i :: 0 <= i < |c.llmProvider| ==> !IsUpper(c.llmProvider[i]))
      && ("LLM_PROVIDER" !in env ==> c.llmProvider == "openai")
      && ("LLM_MODEL" !in env ==> c.llmModel == (if c.llmProvider == "openai" then "gpt-4" else "gemini-pro"))
      && ("LLM_MODEL" in env ==> c.llmModel == env["LLM_MODEL"])
  {
    LoadProviderFields(env, parseInt);
    ProviderLower(env);
  }

  /** The provider text is lower case, and "openai" when LLM_PROVIDER is unset. */
  lemma ProviderLower(env: Env)
    ensures forall i :: 0 <= i < |Provider(env)| ==> !IsUpper(Provider(env)[i])
    ensures "LLM_PROVIDER" !in env ==> Provider(env) == "openai"
  {
    LowerIsLower(GetenvOr(env, "LLM_PROVIDER", "openai"));
    if "LLM_PROVIDER" !in env {
      assert Lower("openai") == "openai";
    }
  }

  /** A loaded configuration's provider and model are the ones `Provider` and `DefaultModel` give. */
  lemma LoadProviderFields(env: Env, parseInt: string -> Option<int>)
    requires Load(env, parseInt).Success?
    ensures Load(env, parseInt).value.llmProvider == Provider(env)
    ensures Load(env, parseInt).value.llmModel == GetenvOr(env, "LLM_MODEL", DefaultModel(Provider(env)))
  {
  }

  /** The parsed forms of the default texts. */
  lemma DefaultTexts()
    ensures Provider(map[]) == "openai" && !ParseFlag("false") && Namespaces(map[]) == ["default"]
  {
    NamespacesSplit(map[]);
    assert Lower("openai") == "openai";
    FlagIff("false");
  }

  /** With nothing set, every field takes the source's default. */
  lemma Defaults(parseInt: string -> Option<int>)
    requires parseInt("5672") == Some(5672) && parseInt("60") == Some(60) && parseInt("8080") == Some(8080)
    ensures Load(map[], parseInt) == Success(Config(
      None, ["default"], "openai", None, None, "gpt-4", "localhost", 5672,
      "k8s-monitor-alerts", 60, "./docs", false, "{}", false, 8080))
  {
    DefaultTexts();
  }

  /** In any environment that loads, each unset variable takes its default, whatever else is set. */
  lemma DefaultsEach(env: Env, parseInt: string -> Option<int>)
    requires Load(env, parseInt).Success?
    ensures var c := Load(env, parseInt).value;
      && ("MONITORED_NAMESPACES" !in env ==> c.monitoredNamespaces == ["default"])
      && ("RABBITMQ_HOST" !in env ==> c.rabbitmqHost == "localhost")
      && ("RABBITMQ_QUEUE" !in env ==> c.rabbitmqQueue == "k8s-monitor-alerts")
      && ("RAG_DOCS_PATH" !in env ==> c.ragDocsPath == "./docs")
      && ("AUTO_FIX_RULES" !in env ==> c.autoFixRules == "{}")
      && ("ENABLE_AUTO_FIX" !in env ==> !c.enableAutoFix)
      && ("API_ENABLED" !in env ==> !c.apiEnabled)
  {
    LoadTextFields(env, parseInt);
    UnsetTexts(env);
  }

  /** A loaded configuration's text and flag fields are the getenv texts, parsed as the source parses them. */
  lemma LoadTextFields(env: Env, parseInt: string -> Option<int>)
    requires Load(env, parseInt).Success?
    ensures var c := Load(env, parseInt).value;
      && c.monitoredNamespaces == Namespaces(env)
      && c.rabbitmqHost == GetenvOr(env, "RABBITMQ_HOST", "localhost")
      && c.rabbitmqQueue == GetenvOr(env, "RABBITMQ_QUEUE", "k8s-monitor-alerts")
      && c.ragDocsPath == GetenvOr(env, "RAG_DOCS_PATH", "./docs")
      && c.autoFixRules == GetenvOr(env, "AUTO_FIX_RULES", "{}")
      && c.enableAutoFix == ParseFlag(GetenvOr(env, "ENABLE_AUTO_FIX", "false"))
      && c.apiEnabled == ParseFlag(GetenvOr(env, "API_ENABLED", "false"))
  {
  }

  /** What the getenv texts of unset variables parse to. */
  lemma UnsetTexts(env: Env)
    ensures "MONITORED_NAMESPACES" !in env ==> Namespaces(env) == ["default"]
    ensures "ENABLE_AUTO_FIX" !in env ==> !ParseFlag(GetenvOr(env, "ENABLE_AUTO_FIX", "false"))
    ensures "API_ENABLED" !in env ==> !ParseFlag(GetenvOr(env, "API_ENABLED", "false"))
  {
    NamespacesSplit(env);
    FlagIff("false");
  }

  /** In any environment that loads, an unset integer variable takes the value its default text parses to. */
  lemma IntDefaultsEach(env: Env, parseInt: string -> Option<int>)
    requires Load(env, parseInt).Success?
    ensures var c := Load(env, parseInt).value;
      && ("RABBITMQ_PORT" !in env ==> Some(c.rabbitmqPort) == parseInt("5672"))
      && ("POLLING_INTERVAL_SECONDS" !in env ==> Some(c.pollingInterval) == parseInt("60"))
      && ("API_PORT" !in env ==> Some(c.apiPort) == parseInt("8080"))
  {
  }

  /** Building the configuration fails exactly when one of the integer texts does not parse, and then with
      the first of RABBITMQ_PORT, POLLING_INTERVAL_SECONDS and API_PORT (the order they are read) that fails. */
  lemma LoadFailure(env: Env, parseInt: string -> Option<int>)
    ensures var port, interval, api :=
        GetenvOr(env, "RABBITMQ_PORT", "5672"), GetenvOr(env, "POLLING_INTERVAL_SECONDS", "60"), GetenvOr(env, "API_PORT", "8080");
      && (Load(env, parseInt).Failure? <==> parseInt(port).None? || parseInt(interval).None? || parseInt(api).None?)
      && (parseInt(port).None? ==> Load(env, parseInt) == Failure(InvalidInteger("RABBITMQ_PORT", port)))
      && (parseInt(port).Some? && parseInt(interval).None? ==>
            Load(env, parseInt) == Failure(InvalidInteger("POLLING_INTERVAL_SECONDS", interval)))
      && (parseInt(port).Some? && parseInt(interval).Some? && parseInt(api).None? ==>
            Load(env, parseInt) == Failure(InvalidInteger("API_PORT", api)))
  {
  }

  /** `validate` passes exactly when there is a non-empty API key, a known provider and a non-empty docs path,
      and otherwise raises with the message of the first assert that fails. */
  lemma ValidateIff(c: Config)
    ensures Validate(c).Pass? <==>
      c.llmApiKey.Some? && c.llmApiKey.value != "" && c.llmProvider in {"openai", "gemini"} && c.ragDocsPath != ""
    ensures (c.llmApiKey.None? || c.llmApiKey.value == "") ==> Validate(c) == Fail(AssertionFailed(ApiKeyRequired))
  {
  }

  /** Start-up succeeds exactly when the integers parse, LLM_API_KEY is set and non-empty,
      LLM_PROVIDER (lowered, default "openai") is "openai" or "gemini", and RAG_DOCS_PATH is unset or non-empty. */
  lemma {:induction false} LoadValidatedIff(env: Env, parseInt: string -> Option<int>)
    requires Load(env, parseInt).Success?
    ensures LoadValidated(env, parseInt).Success? <==>
      && "LLM_API_KEY" in env && env["LLM_API_KEY"] != ""
      && Provider(env) in {"openai", "gemini"}
      && ("RAG_DOCS_PATH" in env ==> env["RAG_DOCS_PATH"] != "")
  {
    var c := Load(env, parseInt).value;
    ValidateIff(c);
    assert c.llmApiKey == Getenv(env, "LLM_API_KEY");
    assert c.ragDocsPath == GetenvOr(env, "RAG_DOCS_PATH", "./docs");
  }
}
