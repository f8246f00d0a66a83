/**
 * `validateModelAndMessages`: the ordered chain of checks every handler runs before any upstream
 * call. The model name is parsed, the clean name must be in the catalogue, and a request with images
 * needs a vision-capable model. The first failing check decides the error.
 */
module ModelValidation {
  import opened Wrappers
  import opened Types
  import opened Errors
  import opened MessageProcessing

  /** The catalogue of model names the upstream serves (`ALL_ONE_MIN_AVAILABLE_MODELS`). */
  const AvailableModels: seq<string> := [
    "dall-e-2", "dall-e-3", "gpt-3.5-turbo", "gpt-4-turbo", "gpt-4.1", "gpt-4.1-mini",
    "gpt-4.1-nano", "gpt-4o", "gpt-4o-mini", "gpt-5", "gpt-5-chat-latest", "gpt-5-mini",
    "gpt-5-nano", "gpt-5.1", "gpt-5.1-codex", "gpt-5.1-codex-mini", "gpt-5.2", "gpt-5.2-pro", "o3",
    "o3-deep-research", "o3-mini", "o3-pro", "o4-mini", "o4-mini-deep-research",
    "openai/gpt-oss-120b", "openai/gpt-oss-20b", "tts-1", "tts-1-hd", "whisper-1",
    "claude-haiku-4-5-20251001", "claude-opus-4-1-20250805", "claude-opus-4-20250514",
    "claude-opus-4-5-20251101", "claude-sonnet-4-20250514", "claude-sonnet-4-5-20250929",
    "gemini-2.5-flash", "gemini-2.5-pro", "gemini-3-pro-preview", "magistral-medium-latest",
    "magistral-small-latest", "ministral-14b-latest", "mistral-large-latest",
    "mistral-medium-latest", "mistral-small-latest", "open-mistral-nemo", "meta/llama-2-70b-chat",
    "meta/llama-4-maverick-instruct", "meta/llama-4-scout-instruct",
    "meta/meta-llama-3-70b-instruct", "meta/meta-llama-3.1-405b-instruct", "deepseek-chat",
    "deepseek-reasoner", "command-r-08-2024", "grok-3", "grok-3-mini", "grok-4-0709",
    "grok-4-fast-non-reasoning", "grok-4-fast-reasoning", "grok-code-fast-1", "sonar",
    "sonar-deep-research", "sonar-pro", "sonar-reasoning-pro", "qwen-flash", "qwen-max",
    "qwen-plus", "qwen3-max", "qwen3-coder-flash", "qwen3-coder-plus", "qwen-vl-max",
    "qwen-vl-plus", "qwen3-vl-flash", "qwen3-vl-plus", "albedo-base-xl", "anime-xl",
    "diffusion-xl", "kino-xl", "lightning-xl", "phoenix", "vision-xl", "midjourney",
    "midjourney_6_1", "flux-1.1-pro", "flux-dev", "flux-pro", "flux-schnell", "qwen-image-plus",
    "qwen-image-max", "qwen-image-edit-plus", "qwen3-tts-flash", "qwen3-asr-flash",
    "qwen3-livetranslate-flash"
  ]

  datatype ValidatedModel = ValidatedModel(cleanModel: string, webSearch: Option<WebSearchConfig>, processedMessages: seq<Message>)

  function VisionMessage(cleanModel: string): string
  {
    "Model '" + cleanModel + "' does not support image inputs"
  }

  function ValidateModelAndMessages(rawModel: string, messages: seq<Message>, svc: Services): (r: Result<ValidatedModel, AppError>)
    ensures Truthy(svc.parseModel(rawModel).error) ==>
      r == Failure(ValidationError(svc.parseModel(rawModel).error.value, Some("model"), Some("model_not_found")))
    ensures !Truthy(svc.parseModel(rawModel).error) && svc.parseModel(rawModel).cleanModel !in AvailableModels ==>
      r == Failure(ModelNotFoundError(svc.parseModel(rawModel).cleanModel))
    ensures !Truthy(svc.parseModel(rawModel).error) && svc.parseModel(rawModel).cleanModel in AvailableModels &&
            ProcessMessagesWithImageCheck(messages, svc.imageOf).hasImages &&
            !svc.supportsVision(svc.parseModel(rawModel).cleanModel) ==>
      r == Failure(ValidationError(VisionMessage(svc.parseModel(rawModel).cleanModel), Some("model"), Some("model_not_supported")))
    ensures r.Success? ==>
      r.value.cleanModel == svc.parseModel(rawModel).cleanModel &&
      r.value.webSearch == svc.parseModel(rawModel).webSearch &&
      r.value.processedMessages == ProcessMessages(messages, svc.imageOf)
  {
    var parsed := svc.parseModel(rawModel);
    if Truthy(parsed.error) then
      Failure(NewValidationError(parsed.error.value, Some("model"), Some("model_not_found")))
    else if parsed.cleanModel !in AvailableModels then
      Failure(ModelNotFoundError(parsed.cleanModel))
    else
      var check := ProcessMessagesWithImageCheck(messages, svc.imageOf);
      if check.hasImages && !svc.supportsVision(parsed.cleanModel) then
        Failure(NewValidationError(VisionMessage(parsed.cleanModel), Some("model"), Some("model_not_supported")))
      else
        Success(ValidatedModel(parsed.cleanModel, parsed.webSearch, check.processedMessages))
  }

  /**
   * Validation succeeds exactly when all three checks pass; a validated model is in the catalogue,
   * supports vision whenever some message carries an image, and keeps one message per input.
   */
  lemma ValidationSucceedsIff(rawModel: string, messages: seq<Message>, svc: Services)
    ensures ValidateModelAndMessages(rawModel, messages, svc).Success? <==>
      !Truthy(svc.parseModel(rawModel).error) &&
      svc.parseModel(rawModel).cleanModel in AvailableModels &&
      (forall i :: 0 <= i < |messages| && HasImage(messages[i], svc.imageOf) ==> svc.supportsVision(svc.parseModel(rawModel).cleanModel))
    ensures ValidateModelAndMessages(rawModel, messages, svc).Success? ==>
      |ValidateModelAndMessages(rawModel, messages, svc).value.processedMessages| == |messages|
  {
  }

  /** Every failure is one of the three typed errors, each a client error (400 or 404). */
  lemma ValidationFailuresAreClientErrors(rawModel: string, messages: seq<Message>, svc: Services)
    requires ValidateModelAndMessages(rawModel, messages, svc).Failure?
    ensures ToOpenAIError(ValidateModelAndMessages(rawModel, messages, svc).error).status in {400, 404}
    ensures ValidateModelAndMessages(rawModel, messages, svc).error.ValidationError? ==>
      ValidateModelAndMessages(rawModel, messages, svc).error.param == Some("model")
  {
  }
}
