/** `getOpenAIClient` (src/lib/openai.ts): the factory the `do` command
    actually uses.  It never looks at the provider setting. */
module OpenAi {
  import opened Wrappers
  import opened Text
  import opened ConfigStore
  import opened Clients
  import ConfigCommand
  import Llm

  /** An error exactly when the API key is missing or empty; otherwise an
      OpenAI client bound to exactly the stored key. */
  function GetOpenAIClient(cfg: Config): (r: Result<Client, string>)
    ensures r.Err? <==> !Truthy(Get(cfg, ApiKeySetting))
    ensures r.Err? ==> r.error == MissingKeyMessage
    ensures r.Ok? ==> r.value == OpenAIClient(cfg[ApiKeySetting])
  {
    var apiKey := Get(cfg, ApiKeySetting);
    if !Truthy(apiKey) then Err(MissingKeyMessage) else Ok(OpenAIClient(apiKey.value))
  }

  /** The `PROVIDER` and `BASE_URL` settings have no bearing on the result. */
  lemma IgnoresProvider(cfg: Config, provider: string, baseURL: string)
    ensures GetOpenAIClient(cfg[ProviderSetting := provider][BaseUrlSetting := baseURL]) == GetOpenAIClient(cfg)
  {
  }

  /** The two factories agree whenever the provider resolves to `openai`;
      they part ways for any other provider, where only `getClient` accepts
      a configuration without a key. */
  lemma AgreesWithGetClient(cfg: Config)
    ensures GetOr(cfg, ProviderSetting, DefaultProvider) == "openai" ==> GetOpenAIClient(cfg) == Llm.GetClient(cfg)
    ensures GetOr(cfg, ProviderSetting, DefaultProvider) != "openai" && !Truthy(Get(cfg, ApiKeySetting)) ==>
              GetOpenAIClient(cfg).Err? && Llm.GetClient(cfg).Ok?
  {
  }

  /** `config key` followed by `getOpenAIClient`: a saved key yields a client
      bound to it, a refused (blank) key leaves the previous outcome as it was. */
  lemma KeyRoundTrip(cfg: Config, key: string)
    ensures !IsBlank(key) ==> GetOpenAIClient(ConfigCommand.ConfigKey(cfg, key).config) == Ok(OpenAIClient(key))
    ensures IsBlank(key) ==> GetOpenAIClient(ConfigCommand.ConfigKey(cfg, key).config) == GetOpenAIClient(cfg)
  {
  }

  /** `config model` followed by `getModelName`: a non-empty model is used
      as given; an empty one is accepted by `config model` but makes every
      later model lookup fail. */
  lemma ModelRoundTrip(cfg: Config, model: string)
    ensures model != "" ==> GetModelName(ConfigCommand.ConfigModel(cfg, model).config) == Ok(model)
    ensures model == "" ==> GetModelName(ConfigCommand.ConfigModel(cfg, model).config) == Err(NoModelMessage)
  {
  }
}
