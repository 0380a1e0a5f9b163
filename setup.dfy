/**
  The configuration both scripts hand to crewai: the Gemini credential
  check, the LLM settings built from it, and the crew's process mode.
  `os.getenv("GEMINI_API_KEY")` is a parameter: None when the variable is
  unset, otherwise its text.
 */
module Setup {
  import opened Wrappers

  const GEMINI_MODEL := "gemini/gemini-2.0-flash"

  /** The settings passed to `LLM(model=..., api_key=..., temperature=...)`. */
  datatype LlmConfig = LlmConfig(model: string, apiKey: string, temperature: real)

  /** `ValueError("GEMINI_API_KEY environment variable not set.")` */
  datatype ConfigError = ApiKeyNotSet

  /** crewai's process modes; both scripts configure `Process.sequential`. */
  datatype Process = Sequential | Hierarchical

  /** `not gemini_api_key` is false exactly for a present, non-empty string. */
  predicate ApiKeySet(apiKey: Option<string>) {
    apiKey.Some? && apiKey.value != ""
  }

  /**
    The guard `if not gemini_api_key: raise ValueError(...)` followed by the
    `LLM(...)` construction: the client exists only when the key is set,
    and then carries that key, the Gemini model and the given temperature.
   */
  function ConfigureGemini(apiKey: Option<string>, temperature: real): (r: Result<LlmConfig, ConfigError>)
    ensures r.Failure? <==> apiKey.None? || apiKey.value == ""
    ensures r.Success? ==> r.value.apiKey == apiKey.value && r.value.apiKey != ""
    ensures r.Success? ==> r.value.model == GEMINI_MODEL && r.value.temperature == temperature
  {
    if !ApiKeySet(apiKey) then Failure(ApiKeyNotSet)
    else Success(LlmConfig(GEMINI_MODEL, apiKey.value, temperature))
  }
}
