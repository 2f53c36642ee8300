/** The `config key|model|provider <value>` sub-commands
    (src/commands/config.ts): each either reports an error and leaves the
    store alone, or writes exactly one setting and reports success. */
module ConfigCommand {
  import opened Text
  import opened ConfigStore

  /** What the command prints: a success line or an error line. */
  datatype Report = Saved(message: string) | Rejected(message: string)

  datatype Outcome = Outcome(config: Config, report: Report)

  datatype Action = SetKey(key: string) | SetModel(model: string) | SetProvider(provider: string)

  const EmptyKeyMessage: string := "API key cannot be empty."
  const KeySavedMessage: string := "OpenAI API key saved successfully."
  const InvalidProviderMessage: string := "Invalid provider. Supported: openai, lmstudio"
  const SwitchedToOpenAIMessage: string := "Switched to OpenAI."
  const SwitchedToLmStudioMessage: string := "Switched to LM Studio. Be sure to set the base_url."

  /** The providers `config provider` accepts. */
  const ValidProviders: seq<string> := ["openai", "lmstudio"]

  /** The setting an action writes when it succeeds. */
  function Target(action: Action): string
  {
    match action
    case SetKey(_) => ApiKeySetting
    case SetModel(_) => ModelSetting
    case SetProvider(_) => ProviderSetting
  }

  /** The value an action writes when it succeeds. */
  function Argument(action: Action): string
  {
    match action
    case SetKey(k) => k
    case SetModel(m) => m
    case SetProvider(p) => p
  }

  /** `config key <key>`: a key that is blank once trimmed is refused and
      nothing is stored; any other key is stored verbatim, untrimmed. */
  function ConfigKey(cfg: Config, key: string): (o: Outcome)
    ensures o.report.Rejected? <==> IsBlank(key)
    ensures o.report.Rejected? ==> o == Outcome(cfg, Rejected(EmptyKeyMessage))
    ensures o.report.Saved? ==> o.config == cfg[ApiKeySetting := key]
  {
    TrimEmptyIffBlank(key);
    if Trim(key) == "" then Outcome(cfg, Rejected(EmptyKeyMessage))
    else Outcome(Set(cfg, ApiKeySetting, key), Saved(KeySavedMessage))
  }

  /** `config model <model>`: always stored, without validation, even empty. */
  function ConfigModel(cfg: Config, model: string): (o: Outcome)
    ensures o.report == Saved("Model set to: " + model)
    ensures o.config == cfg[ModelSetting := model]
  {
    Outcome(Set(cfg, ModelSetting, model), Saved("Model set to: " + model))
  }

  /** `config provider <provider>`: only `openai` and `lmstudio` are stored;
      anything else is refused with the store unchanged. */
  function ConfigProvider(cfg: Config, provider: string): (o: Outcome)
    ensures o.report.Rejected? <==> provider != "openai" && provider != "lmstudio"
    ensures o.report.Rejected? ==> o.config == cfg
    ensures o.report.Saved? ==> o.config == cfg[ProviderSetting := provider]
    ensures o.report == Saved(SwitchedToOpenAIMessage) <==> provider == "openai"
  {
    if provider !in ValidProviders then Outcome(cfg, Rejected(InvalidProviderMessage))
    else
      var saved := Set(cfg, ProviderSetting, provider);
      if provider == "openai" then Outcome(saved, Saved(SwitchedToOpenAIMessage))
      else Outcome(saved, Saved(SwitchedToLmStudioMessage))
  }

  /** Runs one `config` sub-command. */
  function Apply(cfg: Config, action: Action): Outcome
  {
    match action
    case SetKey(k) => ConfigKey(cfg, k)
    case SetModel(m) => ConfigModel(cfg, m)
    case SetProvider(p) => ConfigProvider(cfg, p)
  }

  /** Every sub-command writes its own setting, and only on success; every
      other setting keeps its value, and in particular `BASE_URL`, which no
      sub-command sets. */
  lemma OnlyTargetChanges(cfg: Config, action: Action)
    ensures Apply(cfg, action).report.Rejected? ==> Apply(cfg, action).config == cfg
    ensures Apply(cfg, action).report.Saved? ==> Apply(cfg, action).config == cfg[Target(action) := Argument(action)]
    ensures forall key :: key != Target(action) ==> Get(Apply(cfg, action).config, key) == Get(cfg, key)
    ensures Get(Apply(cfg, action).config, BaseUrlSetting) == Get(cfg, BaseUrlSetting)
  {
  }
}
