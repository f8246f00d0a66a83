/**
 * The error-handling middleware: a request that throws gets an error envelope whose shape is chosen
 * by the request path, Anthropic-shaped under `/v1/messages`, OpenAI-shaped everywhere else.
 */
module ErrorHandler {
  import opened Wrappers
  import opened Json
  import opened Strings
  import opened Errors

  /** What the rest of the request pipeline did: returned a response, or threw. */
  datatype Outcome<R> = Returned(response: R) | Threw(error: AppError)

  /** A response built by `c.json(body, status)`. */
  datatype JsonResponse = JsonResponse(body: Json, status: int)

  /** What the middleware hands back: the untouched response, or an error envelope. */
  datatype Reply<R> = PassThrough(response: R) | ErrorReply(reply: JsonResponse)

  const AnthropicPrefix := "/v1/messages"

  /** `{type: "error", error: {type, message}}` with the status of `toAnthropicError`. */
  function AnthropicEnvelope(e: AppError): JsonResponse
  {
    var a := ToAnthropicError(e);
    JsonResponse(
      JObj([("type", JStr("error")), ("error", JObj([("type", JStr(a.errorType)), ("message", JStr(a.message))]))]),
      a.status)
  }

  /** `{error: {message, type, param, code}}` with the status of `toOpenAIError`. */
  function OpenAIEnvelope(e: AppError): JsonResponse
  {
    var o := ToOpenAIError(e);
    JsonResponse(
      JObj([("error", JObj([("message", JStr(o.message)), ("type", JStr(o.errorType)),
                            ("param", OptStr(o.param)), ("code", OptStr(o.code))]))]),
      o.status)
  }

  /** The middleware, given the request's path name and what the route did. */
  function HandleErrors<R>(path: string, outcome: Outcome<R>): (r: Reply<R>)
    ensures outcome.Returned? ==> r == PassThrough(outcome.response)
    ensures outcome.Threw? ==> r.ErrorReply?
    ensures outcome.Threw? && StartsWith(path, "/v1/messages") ==>
      r.reply.status == ToAnthropicError(outcome.error).status &&
      At(r.reply.body, ["type"]) == Some(JStr("error")) &&
      At(r.reply.body, ["error", "type"]) == Some(JStr(ToAnthropicError(outcome.error).errorType)) &&
      At(r.reply.body, ["error", "message"]) == Some(JStr(ToAnthropicError(outcome.error).message))
    ensures outcome.Threw? && !StartsWith(path, "/v1/messages") ==>
      r.reply.status == ToOpenAIError(outcome.error).status &&
      At(r.reply.body, ["error", "message"]) == Some(JStr(ToOpenAIError(outcome.error).message)) &&
      At(r.reply.body, ["error", "type"]) == Some(JStr(ToOpenAIError(outcome.error).errorType)) &&
      At(r.reply.body, ["error", "param"]) == Some(OptStr(ToOpenAIError(outcome.error).param)) &&
      At(r.reply.body, ["error", "code"]) == Some(OptStr(ToOpenAIError(outcome.error).code))
  {
    match outcome
    case Returned(response) => PassThrough(response)
    case Threw(error) =>
      if StartsWith(path, AnthropicPrefix) then
        var env := AnthropicEnvelope(error);
        MemberAt(env.body.members, "error", 1);
        MemberAt(env.body.members[1].1.members, "message", 1);
        ErrorReply(env)
      else
        var env := OpenAIEnvelope(error);
        var inner := env.body.members[0].1;
        MemberAt(inner.members, "type", 1);
        MemberAt(inner.members, "param", 2);
        MemberAt(inner.members, "code", 3);
        ErrorReply(env)
  }

  /** The reply's HTTP status does not depend on which path threw. */
  lemma StatusIndependentOfPath<R>(p1: string, p2: string, e: AppError)
    ensures HandleErrors<R>(p1, Threw(e)).reply.status == HandleErrors<R>(p2, Threw(e)).reply.status
  {
    EnvelopesAgree(e);
  }
}
