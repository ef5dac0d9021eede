/** The switch that decides whether the language-model paths are tried at all. */
module LlmConfig {
  import opened Wrappers

  /** Placeholder value of OPENAI_API_KEY shipped in the example environment file. */
  const PlaceholderKey := "your_openai_api_key_here"

  /** `apiKey && apiKey !== 'your_openai_api_key_here'`: only then is the model called. */
  predicate UsableKey(key: Option<string>) {
    key.Some? && key.value != "" && key.value != PlaceholderKey
  }
}
