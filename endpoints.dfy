/**
 * The three request handlers end to end: the checks of each handler, then either the streaming
 * pipeline with that protocol's callbacks or the non-streaming transformer, drawing UUIDs and clock
 * readings in the order the handlers do. The upstream call itself is a parameter: the upstream's
 * answer (non-streaming) or its body (streaming).
 */
module Endpoints {
  import opened Wrappers
  import opened Json
  import opened Types
  import opened Errors
  import opened Runtime
  import opened Sse
  import opened ModelValidation
  import opened Streaming
  import ChatHandler
  import ResponsesHandler
  import MessagesHandler

  /** What a handler answers: an error response with a message, a thrown error, a JSON body or a stream. */
  datatype Reply = ErrorMessage(message: string) | ErrorReply(error: AppError) | JsonReply(body: Json) | StreamReply(writer: Writer)

  /**
   * `handleChatCompletionsWithBody`. `sent` is the message list handed to the upstream request, or
   * None when no upstream call is made.
   */
  method HandleChat<D>(req: ChatHandler.ChatRequest, svc: Services, p: Platform, answer: UpstreamAnswer, up: Upstream,
                       dec: Decoder<D>, capacity: Option<nat>)
    returns (reply: Reply, sent: Option<seq<Message>>)
    modifies p
    ensures ChatHandler.Decide(req, svc).Rejected? ==>
      reply == ErrorMessage(ChatHandler.Decide(req, svc).message) && sent.None? && unchanged(p)
    ensures ChatHandler.Decide(req, svc).Failed? ==>
      reply == ErrorReply(ChatHandler.Decide(req, svc).error) && sent.None? && unchanged(p)
    ensures ChatHandler.Decide(req, svc).Proceed? ==>
      var v := ChatHandler.Decide(req, svc).validated;
      sent == Some(v.processedMessages) &&
      (req.stream ==>
        reply.StreamReply? && fresh(reply.writer) &&
        reply.writer.frames == Deliver([], Full(ChatAdapter(v.cleanModel), p, svc, old(p.uuidsDrawn), old(p.clockReads), dec, up), capacity)) &&
      (!req.stream ==>
        reply == JsonReply(ChatHandler.TransformToOpenAIFormat(answer, v.cleanModel, p.uuid(old(p.uuidsDrawn)), p.nowMs(old(p.clockReads)))))
  {
    var decision := ChatHandler.Decide(req, svc);
    match decision
    case Rejected(message) =>
      return ErrorMessage(message), None;
    case Failed(error) =>
      return ErrorReply(error), None;
    case Proceed(v, stream) =>
      sent := Some(v.processedMessages);
      if stream {
        var w, trace := ExecuteStreamingPipeline(ChatAdapter(v.cleanModel), up, dec, svc, p, capacity);
        reply := StreamReply(w);
      } else {
        var uuid := p.RandomUUID();
        var now := p.nowMs(p.clockReads);
        p.clockReads := p.clockReads + 1;
        reply := JsonReply(ChatHandler.TransformToOpenAIFormat(answer, v.cleanModel, uuid, now));
      }
  }

  /**
   * `handleResponsesWithBody`: the structured-output prompt goes into the messages sent upstream, while
   * the stream's input-token estimate is taken from the validated messages without it. A stream draws
   * the response id, then the message id; the transformer draws the message id first.
   */
  method HandleResponses<D>(req: ResponsesHandler.ResponsesRequest, svc: Services, p: Platform, answer: UpstreamAnswer,
                            up: Upstream, dec: Decoder<D>, capacity: Option<nat>)
    returns (reply: Reply, sent: Option<seq<Message>>)
    modifies p
    ensures ResponsesHandler.Decide(req, svc).Rejected? ==>
      reply == ErrorMessage(ResponsesHandler.InputRequired) && sent.None? && unchanged(p)
    ensures ResponsesHandler.Decide(req, svc).Failed? ==>
      reply == ErrorReply(ResponsesHandler.Decide(req, svc).error) && sent.None? && unchanged(p)
    ensures ResponsesHandler.Decide(req, svc).Proceed? ==>
      var v := ResponsesHandler.Decide(req, svc).validated;
      var u0 := old(p.uuidsDrawn);
      sent == Some(ResponsesHandler.Enhanced(v.processedMessages, req.responseFormat, req.reasoningEffort, svc.stringify)) &&
      (req.stream ==>
        reply.StreamReply? && fresh(reply.writer) &&
        reply.writer.frames == Deliver([], Full(ResponsesAdapter(v.cleanModel, "resp-" + p.uuid(u0), "msg-" + p.uuid(u0 + 1), v.processedMessages),
                                                p, svc, u0 + 2, old(p.clockReads), dec, up), capacity)) &&
      (!req.stream ==>
        reply == JsonReply(ResponsesHandler.TransformToResponsesFormat(answer, v.cleanModel, req.responseFormat, svc,
                                                                       p.uuid(u0), p.uuid(u0 + 1), p.nowMs(old(p.clockReads)))))
  {
    var decision := ResponsesHandler.Decide(req, svc);
    match decision
    case Rejected(message) =>
      return ErrorMessage(message), None;
    case Failed(error) =>
      return ErrorReply(error), None;
    case Proceed(v, stream) =>
      reply, sent := ProceedResponses(req, v, svc, p, answer, up, dec, capacity);
  }

  /** The rest of `handleResponsesWithBody` once the request has been validated. */
  method ProceedResponses<D>(req: ResponsesHandler.ResponsesRequest, v: ValidatedModel, svc: Services, p: Platform,
                             answer: UpstreamAnswer, up: Upstream, dec: Decoder<D>, capacity: Option<nat>)
    returns (reply: Reply, sent: Option<seq<Message>>)
    modifies p
    ensures sent == Some(ResponsesHandler.Enhanced(v.processedMessages, req.responseFormat, req.reasoningEffort, svc.stringify))
    ensures var u0 := old(p.uuidsDrawn);
      req.stream ==>
        reply.StreamReply? && fresh(reply.writer) &&
        reply.writer.frames == Deliver([], Full(ResponsesAdapter(v.cleanModel, "resp-" + p.uuid(u0), "msg-" + p.uuid(u0 + 1), v.processedMessages),
                                                p, svc, u0 + 2, old(p.clockReads), dec, up), capacity)
    ensures var u0 := old(p.uuidsDrawn);
      !req.stream ==>
        reply == JsonReply(ResponsesHandler.TransformToResponsesFormat(answer, v.cleanModel, req.responseFormat, svc,
                                                                       p.uuid(u0), p.uuid(u0 + 1), p.nowMs(old(p.clockReads))))
  {
    var enhanced := ResponsesHandler.EnhanceMessagesForStructuredResponse(v.processedMessages, req.responseFormat,
                                                                         req.reasoningEffort, svc.stringify);
    sent := Some(enhanced);
    reply := ReplyResponses(req.stream, req.responseFormat, v, svc, p, answer, up, dec, capacity);
  }

  /** The reply of `handleResponsesWithBody`: a stream or the transformed answer. */
  method ReplyResponses<D>(stream: bool, format: Option<ResponsesHandler.ResponseFormat>, v: ValidatedModel, svc: Services,
                           p: Platform, answer: UpstreamAnswer, up: Upstream, dec: Decoder<D>, capacity: Option<nat>)
    returns (reply: Reply)
    modifies p
    ensures var u0 := old(p.uuidsDrawn);
      stream ==>
        reply.StreamReply? && fresh(reply.writer) &&
        reply.writer.frames == Deliver([], Full(ResponsesAdapter(v.cleanModel, "resp-" + p.uuid(u0), "msg-" + p.uuid(u0 + 1), v.processedMessages),
                                                p, svc, u0 + 2, old(p.clockReads), dec, up), capacity)
    ensures var u0 := old(p.uuidsDrawn);
      !stream ==>
        reply == JsonReply(ResponsesHandler.TransformToResponsesFormat(answer, v.cleanModel, format, svc,
                                                                       p.uuid(u0), p.uuid(u0 + 1), p.nowMs(old(p.clockReads))))
  {
    if stream {
      reply := StreamResponses(v.cleanModel, v.processedMessages, svc, p, up, dec, capacity);
    } else {
      reply := RespondResponses(answer, v.cleanModel, format, svc, p);
    }
  }

  /** The streaming branch of `handleResponsesWithBody`: the response id is drawn before the message id. */
  method StreamResponses<D>(model: string, messages: seq<Message>, svc: Services, p: Platform, up: Upstream,
                            dec: Decoder<D>, capacity: Option<nat>)
    returns (reply: Reply)
    modifies p
    ensures var u0 := old(p.uuidsDrawn);
      reply.StreamReply? && fresh(reply.writer) &&
      reply.writer.frames == Deliver([], Full(ResponsesAdapter(model, "resp-" + p.uuid(u0), "msg-" + p.uuid(u0 + 1), messages),
                                              p, svc, u0 + 2, old(p.clockReads), dec, up), capacity)
  {
    var responseUuid := p.RandomUUID();
    var messageUuid := p.RandomUUID();
    var w, trace := ExecuteStreamingPipeline(ResponsesAdapter(model, "resp-" + responseUuid, "msg-" + messageUuid, messages),
                                             up, dec, svc, p, capacity);
    reply := StreamReply(w);
  }

  /** The non-streaming branch of `handleResponsesWithBody`: the message id is drawn before the response id. */
  method RespondResponses(answer: UpstreamAnswer, model: string, format: Option<ResponsesHandler.ResponseFormat>, svc: Services,
                          p: Platform)
    returns (reply: Reply)
    modifies p
    ensures var u0 := old(p.uuidsDrawn);
      reply == JsonReply(ResponsesHandler.TransformToResponsesFormat(answer, model, format, svc,
                                                                     p.uuid(u0), p.uuid(u0 + 1), p.nowMs(old(p.clockReads))))
  {
    var messageUuid := p.RandomUUID();
    var responseUuid := p.RandomUUID();
    var now := p.nowMs(p.clockReads);
    p.clockReads := p.clockReads + 1;
    reply := JsonReply(ResponsesHandler.TransformToResponsesFormat(answer, model, format, svc, messageUuid, responseUuid, now));
  }

  /** `handleMessages`: its checks throw; a stream draws one UUID for the `msg_` id, as does the transformer. */
  method HandleMessages<D>(req: MessagesHandler.AnthropicRequest, svc: Services, p: Platform, answer: UpstreamAnswer,
                           up: Upstream, dec: Decoder<D>, capacity: Option<nat>)
    returns (reply: Reply, sent: Option<seq<Message>>)
    modifies p
    ensures MessagesHandler.Decide(req, svc).Failure? ==>
      reply == ErrorReply(MessagesHandler.Decide(req, svc).error) && sent.None? && unchanged(p)
    ensures MessagesHandler.Decide(req, svc).Success? ==>
      var v := MessagesHandler.Decide(req, svc).value.validated;
      var u0 := old(p.uuidsDrawn);
      sent == Some(v.processedMessages) &&
      (req.stream ==>
        reply.StreamReply? && fresh(reply.writer) &&
        reply.writer.frames == Deliver([], Full(AnthropicAdapter(v.cleanModel, MessagesHandler.MessageId(p.uuid(u0)), v.processedMessages),
                                                p, svc, u0 + 1, old(p.clockReads), dec, up), capacity)) &&
      (!req.stream ==>
        reply == JsonReply(MessagesHandler.TransformToAnthropicFormat(answer, v.cleanModel, v.processedMessages, svc, p.uuid(u0))))
  {
    var decision := MessagesHandler.Decide(req, svc);
    if decision.Failure? {
      return ErrorReply(decision.error), None;
    }
    var v := decision.value.validated;
    sent := Some(v.processedMessages);
    if decision.value.stream {
      var uuid := p.RandomUUID();
      var w, trace := ExecuteStreamingPipeline(AnthropicAdapter(v.cleanModel, MessagesHandler.MessageId(uuid), v.processedMessages),
                                               up, dec, svc, p, capacity);
      reply := StreamReply(w);
    } else {
      var uuid := p.RandomUUID();
      reply := JsonReply(MessagesHandler.TransformToAnthropicFormat(answer, v.cleanModel, v.processedMessages, svc, uuid));
    }
  }

  /**
   * The three non-streaming transformers agree on the answer text when the Responses request asks
   * for no JSON format; with `json_object` or `json_schema` the Responses text is the re-serialised
   * answer when it parses, and the raw answer otherwise.
   */
  lemma TransformersAgreeOnText(data: UpstreamAnswer, model: string, messages: seq<Message>, svc: Services,
                                format: Option<ResponsesHandler.ResponseFormat>,
                                uuid: string, messageUuid: string, nowMs: nat)
    ensures Get(ChatHandler.TransformToOpenAIFormat(data, model, uuid, nowMs), "choices") ==
      Some(JArr([ChatHandler.CompletionChoiceJson(AnswerText(data))]))
    ensures Get(MessagesHandler.TransformToAnthropicFormat(data, model, messages, svc, uuid), "content") ==
      Some(JArr([MessagesHandler.TextBlockJson(AnswerText(data))]))
    ensures !(format.Some? && format.value.formatType in {"json_object", "json_schema"}) ==>
      Get(ResponsesHandler.TransformToResponsesFormat(data, model, format, svc, messageUuid, uuid, nowMs), "output") ==
        Some(JArr([ResponsesHandler.ItemJson("msg-" + messageUuid, AnswerText(data), "completed")]))
    ensures format.Some? && format.value.formatType in {"json_object", "json_schema"} ==>
      Get(ResponsesHandler.TransformToResponsesFormat(data, model, format, svc, messageUuid, uuid, nowMs), "output") ==
        Some(JArr([ResponsesHandler.ItemJson("msg-" + messageUuid,
                                             if svc.reparseJson(AnswerText(data)).Some? then svc.reparseJson(AnswerText(data)).value
                                             else AnswerText(data), "completed")]))
  {
    ChatHandler.ChatCompletionReadsBack(data, model, uuid, nowMs);
    ResponsesHandler.ResponsesOutputReadsBack(data, model, format, svc, messageUuid, uuid, nowMs);
    MessagesHandler.AnthropicFormatReadsBack(data, model, messages, svc, uuid);
  }

  lemma OnlyAnthropicEstimatesUsage(data: UpstreamAnswer, model: string, messages: seq<Message>, svc: Services,
                                    uuid: string, messageUuid: string, nowMs: nat)
    requires !TruthyNum(PromptTokens(data))
    ensures At(ChatHandler.TransformToOpenAIFormat(data, model, uuid, nowMs), ["usage", "prompt_tokens"]) == Some(JNum(0))
    ensures At(ResponsesHandler.TransformToResponsesFormat(data, model, None, svc, messageUuid, uuid, nowMs), ["usage", "input_tokens"]) ==
      Some(JNum(0))
    ensures At(MessagesHandler.TransformToAnthropicFormat(data, model, messages, svc, uuid), ["usage", "input_tokens"]) ==
      Some(JNum(svc.estimateInputTokens(messages)))
  {
    ChatHandler.ChatUsageDefaultsToZero(data, model, uuid, nowMs);
    ResponsesHandler.ResponsesUsageDefaultsToZero(data, model, None, svc, messageUuid, uuid, nowMs);
    MessagesHandler.AnthropicUsageFallsBackToEstimates(data, model, messages, svc, uuid);
  }
}
