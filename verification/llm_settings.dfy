/** The `LlmProviders` configuration section: which provider to use and each provider's credentials. */
module LlmConfig {
  import opened Wrappers

  /** The configuration section these settings are bound from. */
  const SectionName: string := "LlmProviders"

  datatype OpenAiSettings = OpenAiSettings(apiKey: string, modelId: string, endpoint: Option<string>)

  datatype GeminiSettings = GeminiSettings(apiKey: string, modelId: string)

  datatype LlmSettings = LlmSettings(defaultProvider: string, openAi: OpenAiSettings, gemini: GeminiSettings)

  /** `new OpenAiSettings()`: no key, model `gpt-4o`, no custom endpoint. */
  const DefaultOpenAiSettings: OpenAiSettings := OpenAiSettings("", "gpt-4o", None)

  /** `new GeminiSettings()`: no key, model `gemini-2.0-flash`. */
  const DefaultGeminiSettings: GeminiSettings := GeminiSettings("", "gemini-2.0-flash")

  /** `new LlmSettings()`: provider `OpenAI` with default sub-settings. */
  const DefaultLlmSettings: LlmSettings := LlmSettings("OpenAI", DefaultOpenAiSettings, DefaultGeminiSettings)
}
