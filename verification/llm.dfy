/** `getClient` (src/lib/llm.ts): the provider-aware backend factory.  No
    network call happens here; it only checks what is configured. */
module Llm {
  import opened Wrappers
  import opened Text
  import opened ConfigStore
  import opened Clients
  import ConfigCommand

  /** The provider defaults to `openai`.  With `openai` a missing or empty key
      is an error and otherwise the client is bound to that key; any other
      provider gets the compatible client named `lmstudio` at the configured
      base URL (default `http://localhost:1234/v1`), whatever the key. */
  function GetClient(cfg: Config): (r: Result<Client, string>)
    ensures GetOr(cfg, ProviderSetting, DefaultProvider) == "openai" ==>
              (r.Err? <==> !Truthy(Get(cfg, ApiKeySetting)))
    ensures GetOr(cfg, ProviderSetting, DefaultProvider) == "openai" && Truthy(Get(cfg, ApiKeySetting)) ==>
              r == Ok(OpenAIClient(cfg[ApiKeySetting]))
    ensures r.Err? ==> r.error == MissingKeyMessage
    ensures r.Ok? && r.value.OpenAIClient? ==>
              GetOr(cfg, ProviderSetting, DefaultProvider) == "openai" && Get(cfg, ApiKeySetting) == Some(r.value.apiKey)
    ensures GetOr(cfg, ProviderSetting, DefaultProvider) != "openai" ==>
              r == Ok(CompatibleClient(CompatibleName, GetOr(cfg, BaseUrlSetting, DefaultBaseUrl)))
  {
    var provider := GetOr(cfg, ProviderSetting, DefaultProvider);
    var apiKey := Get(cfg, ApiKeySetting);
    var baseURL := GetOr(cfg, BaseUrlSetting, DefaultBaseUrl);
    if provider == "openai" then
      if !Truthy(apiKey) then Err(MissingKeyMessage) else Ok(OpenAIClient(apiKey.value))
    else
      Ok(CompatibleClient(CompatibleName, baseURL))
  }

  /** With nothing configured the factory insists on an OpenAI key. */
  lemma EmptyConfigNeedsKey()
    ensures GetClient(map[]) == Err(MissingKeyMessage)
  {
  }

  /** After `config provider lmstudio` the client is the compatible one,
      whatever key is (or is not) stored. */
  lemma LmStudioIgnoresKey(cfg: Config, key: string)
    ensures GetClient(ConfigCommand.ConfigProvider(cfg, "lmstudio").config)
         == GetClient(ConfigCommand.ConfigProvider(cfg, "lmstudio").config[ApiKeySetting := key])
    ensures GetClient(ConfigCommand.ConfigProvider(cfg, "lmstudio").config).Ok?
  {
  }

  /** After a successful `config key k` under the `openai` provider the
      factory returns a client bound to exactly `k`. */
  lemma KeyThenClient(cfg: Config, key: string)
    requires !IsBlank(key)
    requires GetOr(cfg, ProviderSetting, DefaultProvider) == "openai"
    ensures GetClient(ConfigCommand.ConfigKey(cfg, key).config) == Ok(OpenAIClient(key))
  {
  }
}
