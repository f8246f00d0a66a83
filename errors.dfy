/**
 * The gateway's error taxonomy: five error classes with fixed wire fields, and the two total
 * mappings that turn any thrown value into an OpenAI-shaped or an Anthropic-shaped error.
 */
module Errors {
  import opened Wrappers
  import opened Types

  /**
   * A thrown value: one of the five error classes, some other `Error` (only its message is
   * known), or a value that is not an `Error` at all.
   */
  datatype AppError =
    | ValidationError(message: string, param: Option<string>, code: Option<string>)
    | AuthenticationError(message: string)
    | RateLimitError(message: string)
    | ModelNotFoundError(model: string)
    | ApiError(message: string, status: int)
    | OtherError(message: string)
    | NonError
  {
    /** One of the five classes the mappings recognise by `instanceof`. */
    predicate IsKnown()
    {
      !OtherError? && !NonError?
    }

    /** The `message` an `Error` carries. */
    function Message(): string
      requires !NonError?
    {
      match this
      case ValidationError(message, _, _) => message
      case AuthenticationError(message) => message
      case RateLimitError(message) => message
      case ModelNotFoundError(model) => ModelNotFoundMessage(model)
      case ApiError(message, _) => message
      case OtherError(message) => message
    }

    /** The readonly `type` field of the error classes. */
    function Type(): string
      requires IsKnown()
    {
      match this
      case RateLimitError(_) => "rate_limit_error"
      case ApiError(_, _) => "api_error"
      case _ => "invalid_request_error"
    }

    /** The readonly `code` field of the error classes. */
    function Code(): Option<string>
      requires IsKnown()
    {
      match this
      case ValidationError(_, _, code) => code
      case AuthenticationError(_) => Some("invalid_api_key")
      case RateLimitError(_) => Some("rate_limit_exceeded")
      case ModelNotFoundError(_) => Some("model_not_found")
      case ApiError(_, _) => None
    }

    /** The readonly `param` field of the error classes. */
    function Param(): Option<string>
      requires IsKnown()
    {
      match this
      case ValidationError(_, param, _) => param
      case AuthenticationError(_) => Some("authorization")
      case ModelNotFoundError(_) => Some("model")
      case _ => None
    }

    /** The readonly `status` field of the error classes. */
    function Status(): int
      requires IsKnown()
    {
      match this
      case ValidationError(_, _, _) => 400
      case AuthenticationError(_) => 401
      case RateLimitError(_) => 429
      case ModelNotFoundError(_) => 404
      case ApiError(_, status) => status
    }
  }

  function ModelNotFoundMessage(model: string): string
  {
    "The model '" + model + "' does not exist"
  }

  /** `new ValidationError(message, param?, code?)`: a falsy param or code becomes null. */
  function NewValidationError(message: string, param: Option<string>, code: Option<string>): (e: AppError)
    ensures e.ValidationError? && e.Message() == message
    ensures e.Type() == "invalid_request_error" && e.Status() == 400
    ensures e.Param() == (if Truthy(param) then param else None)
    ensures e.Code() == (if Truthy(code) then code else None)
  {
    ValidationError(message, if Truthy(param) then param else None, if Truthy(code) then code else None)
  }

  /** `new AuthenticationError(message?)`, whose message defaults when none is passed. */
  function NewAuthenticationError(message: Option<string>): (e: AppError)
    ensures e.AuthenticationError?
    ensures e.Message() == (if message.Some? then message.value else "Invalid or missing API key")
    ensures e.Type() == "invalid_request_error" && e.Status() == 401
    ensures e.Code() == Some("invalid_api_key") && e.Param() == Some("authorization")
  {
    AuthenticationError(if message.Some? then message.value else "Invalid or missing API key")
  }

  /** `new ApiError(message, status?)`, whose status defaults to 500 when none is passed. */
  function NewApiError(message: string, status: Option<int>): (e: AppError)
    ensures e.ApiError? && e.Message() == message && e.Type() == "api_error"
    ensures e.Status() == (if status.Some? then status.value else 500)
    ensures e.Code() == None && e.Param() == None
  {
    ApiError(message, if status.Some? then status.value else 500)
  }

  /** The OpenAI error body `{message, type, param, code}` and its HTTP status. */
  datatype OpenAIError = OpenAIError(message: string, errorType: string, param: Option<string>, code: Option<string>, status: int)

  /** The Anthropic error body `{type, message}` and its HTTP status. */
  datatype AnthropicError = AnthropicError(errorType: string, message: string, status: int)

  /** `toOpenAIError`: the known classes keep their own fields; anything else is a 500 `api_error`. */
  function ToOpenAIError(e: AppError): (r: OpenAIError)
    ensures e.ValidationError? ==> r == OpenAIError(e.message, "invalid_request_error", e.param, e.code, 400)
    ensures e.AuthenticationError? ==>
      r == OpenAIError(e.message, "invalid_request_error", Some("authorization"), Some("invalid_api_key"), 401)
    ensures e.RateLimitError? ==> r == OpenAIError(e.message, "rate_limit_error", None, Some("rate_limit_exceeded"), 429)
    ensures e.ModelNotFoundError? ==>
      r == OpenAIError("The model '" + e.model + "' does not exist", "invalid_request_error", Some("model"), Some("model_not_found"), 404)
    ensures e.ApiError? ==> r == OpenAIError(e.message, "api_error", None, None, e.status)
    ensures e.OtherError? ==> r == OpenAIError(e.message, "api_error", None, None, 500)
    ensures e.NonError? ==> r == OpenAIError("An unknown error occurred", "api_error", None, None, 500)
  {
    if e.IsKnown() then
      OpenAIError(e.Message(), e.Type(), e.Param(), e.Code(), e.Status())
    else if e.OtherError? then
      OpenAIError(e.message, "api_error", None, None, 500)
    else
      OpenAIError("An unknown error occurred", "api_error", None, None, 500)
  }

  /** `toAnthropicError`: each class gets its Anthropic error type; anything else is a 500 `api_error`. */
  function ToAnthropicError(e: AppError): (r: AnthropicError)
    ensures e.AuthenticationError? ==> r == AnthropicError("authentication_error", e.message, 401)
    ensures e.RateLimitError? ==> r == AnthropicError("rate_limit_error", e.message, 429)
    ensures e.ModelNotFoundError? ==>
      r == AnthropicError("not_found_error", "The model '" + e.model + "' does not exist", 404)
    ensures e.ValidationError? ==> r == AnthropicError("invalid_request_error", e.message, 400)
    ensures e.ApiError? ==> r == AnthropicError("api_error", e.message, e.status)
    ensures e.OtherError? ==> r == AnthropicError("api_error", e.message, 500)
    ensures e.NonError? ==> r == AnthropicError("api_error", "An unknown error occurred", 500)
  {
    match e
    case AuthenticationError(_) => AnthropicError("authentication_error", e.Message(), 401)
    case RateLimitError(_) => AnthropicError("rate_limit_error", e.Message(), 429)
    case ModelNotFoundError(_) => AnthropicError("not_found_error", e.Message(), 404)
    case ValidationError(_, _, _) => AnthropicError("invalid_request_error", e.Message(), 400)
    case ApiError(_, status) => AnthropicError("api_error", e.Message(), status)
    case OtherError(_) => AnthropicError("api_error", e.Message(), 500)
    case NonError => AnthropicError("api_error", "An unknown error occurred", 500)
  }

  /** Whichever envelope is chosen, a thrown value gets the same HTTP status and the same message. */
  lemma EnvelopesAgree(e: AppError)
    ensures ToOpenAIError(e).status == ToAnthropicError(e).status
    ensures ToOpenAIError(e).message == ToAnthropicError(e).message
  {
  }

  /** The status of a known error class is its own `status` field under both mappings. */
  lemma KnownStatus(e: AppError)
    requires e.IsKnown()
    ensures ToOpenAIError(e).status == e.Status() == ToAnthropicError(e).status
    ensures ToOpenAIError(e).errorType == e.Type()
  {
  }
}
