/**
 * The provider-independent part of an LLM service: the answer record, the
 * description of a model, and the generation parameters every service
 * starts with.
 */
module Llm {
  import opened Strings

  /**
   * `CompletionResponse`: the answer text, whether the request succeeded,
   * the error text otherwise, the tokens the provider reported and the model
   * that answered. `success` has no default in the C++ record; every path
   * that builds one sets it.
   */
  datatype CompletionResponse = CompletionResponse(content: string, success: bool, error: string, tokensUsed: SizeT, model: string)

  /** A failed answer as a freshly default-constructed record holds it: no content, no tokens, no model. */
  function Failed(error: string): (r: CompletionResponse)
    ensures !r.success && r.error == error && r.content == "" && r.tokensUsed == 0 && r.model == ""
  {
    CompletionResponse("", false, error, 0, "")
  }

  /** `ModelInfo`: a model's id, display name, context length and streaming support. */
  datatype ModelInfo = ModelInfo(id: string, name: string, contextLength: SizeT, supportsStreaming: bool)

  /** The parameters `LLMService` starts with; the current model stays empty until a provider sets it. */
  const DEFAULT_TEMPERATURE: real := 0.7
  const DEFAULT_MAX_TOKENS: SizeT := 2048
  const DEFAULT_SYSTEM_PROMPT: string := "You are a helpful AI assistant."
  const INITIAL_MODEL: string := ""
}
