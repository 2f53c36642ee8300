/** The persistent configuration store, as an in-memory map from setting
    name to value.  `config.get(key)` yields `undefined` for a missing key,
    and `config.get(key, fallback)` yields the fallback instead. */
module ConfigStore {
  import opened Wrappers

  type Config = map<string, string>

  const ApiKeySetting: string := "OPENAI_API_KEY"
  const ModelSetting: string := "MODEL_NAME"
  const ProviderSetting: string := "PROVIDER"
  const BaseUrlSetting: string := "BASE_URL"

  /** `config.get(key)`. */
  function Get(cfg: Config, key: string): Option<string>
  {
    if key in cfg then Some(cfg[key]) else None
  }

  /** `config.get(key, fallback)`: a stored empty string is returned as is. */
  function GetOr(cfg: Config, key: string, fallback: string): string
  {
    if key in cfg then cfg[key] else fallback
  }

  /** `config.set(key, value)`. */
  function Set(cfg: Config, key: string, value: string): Config
  {
    cfg[key := value]
  }
}
