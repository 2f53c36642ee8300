/** The model handles the backend factories return, the settings' default
    values, and the model-name lookup shared by src/lib/llm.ts and
    src/lib/openai.ts (the two files hold the same `getModelName`). */
module Clients {
  import opened Wrappers
  import opened ConfigStore

  /** An opaque, stateless handle to a backend: the OpenAI provider bound to
      an API key, or an OpenAI-compatible provider with a name and base URL. */
  datatype Client =
    | OpenAIClient(apiKey: string)
    | CompatibleClient(name: string, baseURL: string)

  const DefaultProvider: string := "openai"
  const DefaultModel: string := "gpt-4o-mini"
  const DefaultBaseUrl: string := "http://localhost:1234/v1"
  const CompatibleName: string := "lmstudio"

  const MissingKeyMessage: string := "OpenAI API key not found. Please set it using: nlc config key <your-api-key>"
  const NoModelMessage: string := "No model configured. Set one using: nlc config model <model-name>"

  /** `getModelName()`: `gpt-4o-mini` when no model is stored, the stored
      model when it is not empty, and an error (a thrown `Error`) when the
      stored model is the empty string. */
  function GetModelName(cfg: Config): (r: Result<string, string>)
    ensures ModelSetting !in cfg ==> r == Ok(DefaultModel)
    ensures r.Err? <==> ModelSetting in cfg && cfg[ModelSetting] == ""
    ensures r.Err? ==> r.error == NoModelMessage
    ensures r.Ok? && ModelSetting in cfg ==> r.value == cfg[ModelSetting]
    ensures r.Ok? ==> r.value != ""
  {
    var model := GetOr(cfg, ModelSetting, DefaultModel);
    if model == "" then Err(NoModelMessage) else Ok(model)
  }
}
