/**
 * `AddLlmProvider`: registers the chat-completion service named by the
 * settings on a kernel builder. The builder is modelled by the list of
 * services registered on it; the registration itself is a foreign call.
 */
module Providers {
  import opened Wrappers
  import opened Text
  import opened LlmConfig

  datatype Provider = OpenAI | Gemini

  /** A chat-completion service registered on the builder. */
  datatype Registration =
    | OpenAIWithCustomEndpoint(modelId: string, apiKey: string, endpoint: string)
    | OpenAIStandard(modelId: string, apiKey: string)
    | GoogleAIGemini(modelId: string, apiKey: string)

  /** The kernel builder, seen through the services registered on it so far. */
  datatype KernelBuilder = KernelBuilder(services: seq<Registration>)

  const EmptyBuilder: KernelBuilder := KernelBuilder([])

  /** The exceptions thrown while registering a provider. */
  datatype ConfigError =
    | UnknownProvider(name: string)            // ArgumentException
    | ApiKeyNotConfigured(provider: Provider)  // InvalidOperationException

  /** The `ToLowerInvariant()` switch on the provider name. */
  function ProviderNamed(name: string): (p: Option<Provider>)
    ensures p == Some(OpenAI) <==> EqualsIgnoreCase(name, "openai")
    ensures p == Some(Gemini) <==> EqualsIgnoreCase(name, "gemini")
  {
    var lower := ToLowerAscii(name);
    assert ToLowerAscii("openai") == "openai" && ToLowerAscii("gemini") == "gemini";
    if lower == "openai" then Some(OpenAI) else if lower == "gemini" then Some(Gemini) else None
  }

  /** The service registered most recently. */
  function LastService(builder: KernelBuilder): Registration
    requires builder.services != []
  {
    builder.services[|builder.services| - 1]
  }

  /** `builder` with `reg` added and every earlier registration kept. */
  predicate Extends(after: KernelBuilder, before: KernelBuilder, reg: Registration) {
    after.services == before.services + [reg]
  }

  /** `AddOpenAiProvider`: rejects a blank key, then registers with a custom endpoint iff one is set. */
  function AddOpenAiProvider(builder: KernelBuilder, settings: OpenAiSettings): (r: Result<KernelBuilder, ConfigError>)
    ensures r.Err? <==> IsBlank(settings.apiKey)
    ensures r.Err? ==> r.error == ApiKeyNotConfigured(OpenAI)
    ensures r.Ok? ==> r.value.services != [] && Extends(r.value, builder, LastService(r.value))
    ensures r.Ok? ==> var reg := LastService(r.value);
      && reg.modelId == settings.modelId && reg.apiKey == settings.apiKey
      && !reg.GoogleAIGemini?
      && (reg.OpenAIWithCustomEndpoint? <==> !IsNullOrWhiteSpace(settings.endpoint))
      && (reg.OpenAIWithCustomEndpoint? ==> Some(reg.endpoint) == settings.endpoint)
  {
    if IsBlank(settings.apiKey) then Err(ApiKeyNotConfigured(OpenAI))
    else
      var reg :=
        if !IsNullOrWhiteSpace(settings.endpoint)
        then OpenAIWithCustomEndpoint(settings.modelId, settings.apiKey, settings.endpoint.value)
        else OpenAIStandard(settings.modelId, settings.apiKey);
      Ok(KernelBuilder(builder.services + [reg]))
  }

  /** `AddGeminiProvider`: rejects a blank key, then registers the model and key. */
  function AddGeminiProvider(builder: KernelBuilder, settings: GeminiSettings): (r: Result<KernelBuilder, ConfigError>)
    ensures r.Err? <==> IsBlank(settings.apiKey)
    ensures r.Err? ==> r.error == ApiKeyNotConfigured(Gemini)
    ensures r.Ok? ==> Extends(r.value, builder, GoogleAIGemini(settings.modelId, settings.apiKey))
  {
    if IsBlank(settings.apiKey) then Err(ApiKeyNotConfigured(Gemini))
    else Ok(KernelBuilder(builder.services + [GoogleAIGemini(settings.modelId, settings.apiKey)]))
  }

  /** The model id and API key of the provider the settings name, if they name one. */
  function SelectedCredentials(settings: LlmSettings): Option<(string, string)> {
    match ProviderNamed(settings.defaultProvider)
    case Some(OpenAI) => Some((settings.openAi.modelId, settings.openAi.apiKey))
    case Some(Gemini) => Some((settings.gemini.modelId, settings.gemini.apiKey))
    case None => None
  }

  /**
   * `AddLlmProvider`: dispatches on the provider name, case-insensitively.
   * It fails exactly when the name is unknown or the chosen provider's key is
   * blank; otherwise the same builder comes back with one more service, for
   * the chosen provider's model and key.
   */
  function AddLlmProvider(builder: KernelBuilder, settings: LlmSettings): (r: Result<KernelBuilder, ConfigError>)
    ensures ProviderNamed(settings.defaultProvider).None? ==> r == Err(UnknownProvider(settings.defaultProvider))
    ensures r.Err? <==> SelectedCredentials(settings).None? || IsBlank(SelectedCredentials(settings).value.1)
    ensures ProviderNamed(settings.defaultProvider).Some? && IsBlank(SelectedCredentials(settings).value.1) ==>
      r == Err(ApiKeyNotConfigured(ProviderNamed(settings.defaultProvider).value))
    ensures r.Ok? ==> r.value.services != [] && Extends(r.value, builder, LastService(r.value))
    ensures r.Ok? ==> var reg := LastService(r.value);
      && (reg.modelId, reg.apiKey) == SelectedCredentials(settings).value
      && (reg.GoogleAIGemini? <==> EqualsIgnoreCase(settings.defaultProvider, "gemini"))
  {
    match ProviderNamed(settings.defaultProvider)
    case Some(OpenAI) => AddOpenAiProvider(builder, settings.openAi)
    case Some(Gemini) => AddGeminiProvider(builder, settings.gemini)
    case None => Err(UnknownProvider(settings.defaultProvider))
  }

  /** Two provider names that differ only in letter case select the same registration. */
  lemma {:induction false} ProviderNameCaseInsensitive(builder: KernelBuilder, settings: LlmSettings, name: string)
    requires EqualsIgnoreCase(name, settings.defaultProvider)
    ensures ProviderNamed(name) == ProviderNamed(settings.defaultProvider)
    ensures ProviderNamed(name).Some? ==>
      AddLlmProvider(builder, settings.(defaultProvider := name)) == AddLlmProvider(builder, settings)
  {
    assert ProviderNamed(name) == ProviderNamed(settings.defaultProvider);
  }

  /**
   * The default settings name OpenAI but carry no key, so registration
   * fails; switching the default provider to Gemini fails the same way.
   */
  lemma DefaultSettingsRejected(builder: KernelBuilder)
    ensures ProviderNamed(DefaultLlmSettings.defaultProvider) == Some(OpenAI)
    ensures AddLlmProvider(builder, DefaultLlmSettings) == Err(ApiKeyNotConfigured(OpenAI))
    ensures AddLlmProvider(builder, DefaultLlmSettings.(defaultProvider := "Gemini")) == Err(ApiKeyNotConfigured(Gemini))
  {
    assert ToLowerAscii("OpenAI") == "openai";
    assert ToLowerAscii("Gemini") == "gemini";
  }
}
