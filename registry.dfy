/** `CONFIG_MODELOS`: the three providers, the two models each one allows, and the validation
    `carrega_modelo` runs against it. */
module Registry {
  import opened Wrappers

  /** The `chat` constructor each provider entry holds. DeepSeek's entry is the lambda that
      returns its key; it is never called, because DeepSeek never gets a chain. */
  datatype ChatKind = ChatGroq | ChatOpenAI | KeyPassthrough

  /** One entry of `CONFIG_MODELOS`: its `modelos` list and its `chat` constructor. */
  datatype ProviderConfig = ProviderConfig(modelos: seq<string>, chat: ChatKind)

  const DeepSeek: string := "DeepSeek"

  const ConfigModelos: map<string, ProviderConfig> := map[
    "Groq" := ProviderConfig(["llama-3.3-70b-versatile", "gemma2-9b-it"], ChatGroq),
    "OpenAI" := ProviderConfig(["gpt-4o-mini", "gpt-4o"], ChatOpenAI),
    DeepSeek := ProviderConfig(["deepseek_chat", "deepseek-v3"], KeyPassthrough)
  ]

  /** The six provider/model pairs the registry accepts, written out as a reference table. */
  const SupportedPairs: set<(string, string)> := {
    ("Groq", "llama-3.3-70b-versatile"), ("Groq", "gemma2-9b-it"),
    ("OpenAI", "gpt-4o-mini"), ("OpenAI", "gpt-4o"),
    ("DeepSeek", "deepseek_chat"), ("DeepSeek", "deepseek-v3")
  }

  /** The two `ValueError`s raised by the validation. */
  datatype ValidationError = InvalidProvider | InvalidModel

  /** The validation in `carrega_modelo`: the provider is checked first and only then is its
      model list consulted. It accepts exactly the six supported pairs. */
  function Resolve(provider: string, model: string): (r: Result<ProviderConfig, ValidationError>)
    ensures r == Err(InvalidProvider) <==> provider !in ConfigModelos
    ensures r == Err(InvalidModel) <==> provider in ConfigModelos && model !in ConfigModelos[provider].modelos
    ensures r.Ok? <==> (provider, model) in SupportedPairs
    ensures r.Ok? ==> r.value == ConfigModelos[provider] && model in r.value.modelos
  {
    if provider !in ConfigModelos then Err(InvalidProvider)
    else
      var config := ConfigModelos[provider];
      if model !in config.modelos then Err(InvalidModel)
      else Ok(config)
  }
}
