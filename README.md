# 1min-relay gateway core in Dafny

This project models the request and stream translation core of the 1min-relay gateway. The gateway
accepts OpenAI Chat Completions, OpenAI Responses and Anthropic Messages requests and forwards them
to a single upstream chat API. It translates the upstream answer back into the caller's wire format,
either as one JSON body or as a server-sent-event stream.

The model covers these parts:

- **The streaming pipeline** (`Streaming.ExecuteStreamingPipeline`). It reads upstream byte chunks,
  threads an abstract stateful UTF-8 decoder through them and calls the protocol's `onStart`, `onChunk`
  and `onEnd` callbacks. It then closes the writer, or aborts it on a failure. A ghost trace of
  callback and decode calls states the ordering contract.
- **The SSE framing** (`Sse`). The outbound `Writer` is a class holding the log of frames it has
  accepted, a status (Open, Closed, Aborted) and the number of writes the client accepts before it goes
  away. Each frame renders to exact wire text. A small reader written after the event-stream
  interpretation rules of section 9.2 of the WHATWG HTML Living Standard (`EventStream`) reads that
  text back into the dispatched events.
- **The three adapters** (`ChatHandler`, `ResponsesHandler`, `MessagesHandler`). Each adapter has
  request validation, stream callbacks that append frames, and a non-streaming transformer to JSON.
  `Endpoints` wires validation, id and clock draws, and the choice between streaming and non-streaming
  into one method per endpoint.
- **Request normalisation.** Responses `input` becomes chat messages, and structured-output prompts
  are added to the messages. Anthropic messages become internal chat messages. `MessageProcessing`
  holds the text-extraction and image helpers.
- **Model validation** (`ModelValidation`), **the error taxonomy** (`Errors`) and **the error-handling
  middleware** (`ErrorHandler`).

### Collaborators

The collaborators the core calls but does not define are injected through `Types.Services`:

- the model-name parser;
- the vision-capable model list;
- the image extractor;
- the two token estimators;
- `JSON.stringify`, and `JSON.parse` followed by re-serialisation;
- the default model.

`crypto.randomUUID` and `Date.now` are the supplies of a `Runtime.Platform` object. The k-th draw
returns the k-th value, so id reuse and timestamps can be stated.

### Behaviour worth knowing

- **The decoder is never flushed.** The UTF-8 decoder's `decode` takes an `isFinal` flag that would
  flush bytes it still holds. The read loop leaves on `done` before it decodes
  (src/utils/streaming.ts:51-54), so `decode` is never called with `isFinal = true`. Bytes the decoder
  still holds when the body ends are never emitted (`Streaming.DecodeNeverFinal`).
- **Responses input-token estimate.** The streamed Responses usage estimates input tokens from the
  processed messages, not from the messages enhanced with the structured-output prompt
  (src/handlers/responses.ts:305; `Endpoints.HandleResponses`).
- **A schema-less `json_schema` format still edits the conversation.** Its prompt is empty, but the
  first system message still gains a bare `"\n\n"`, or an empty system message is put in front
  (`ResponsesHandler.SchemalessFormatAddsEmptyPrompt`).

## Model

| member | source | states |
|---|---|---|
| Streaming.ExecuteStreamingPipeline | src/utils/streaming.ts:26-71 | the writer ends Closed or Aborted. Its frame log is the protocol's full frame sequence cut at the client's capacity. With no body it is Closed with an empty trace. With a body it is Closed exactly when no read failed and every write fit. The callback trace is a prefix of the full call sequence, and equal to it when every write fit |
| Streaming.CallsStartFirst | src/utils/streaming.ts:46-48 | when the protocol has `onStart` it is the first call, and no start call appears anywhere else |
| Streaming.DecodeNeverFinal | src/utils/streaming.ts:50-54 | every decode call in a run has `isFinal` false |
| Streaming.CallArguments | src/utils/streaming.ts:50-59 | decode receives exactly the upstream chunks in order; `onChunk` receives exactly the non-empty decoded fragments in order, and none of them is empty |
| Streaming.LoopCallsShape | src/utils/streaming.ts:50-59 | the read loop makes only non-final decode calls and chunk calls, its decode arguments are the chunks and its chunk arguments are the pushed fragments |
| Streaming.CallsEndLast | src/utils/streaming.ts:60-63 | `onEnd` is called only when no read failed, only as the last call, and with the concatenation of exactly the fragments passed to `onChunk` |
| Streaming.ReadErrorDropsClosing | src/utils/streaming.ts:64-67 | a read failure yields a prefix of the clean run's frames that lacks exactly the closing frames (2 chat, 5 Responses, 3 Anthropic) and has no `[DONE]` |
| Streaming.ChatRunIsChatStream | src/handlers/chat.ts:142-156 | a clean chat run writes exactly the chat stream frames over the fragments the decoder produced |
| Streaming.ResponsesRunIsResponsesStream | src/handlers/responses.ts:225-326 | a clean Responses run writes exactly the Responses stream frames, with usage estimated from the messages and from the concatenated text |
| Streaming.AnthropicRunIsMessagesStream | src/handlers/messages.ts:202-260 | a clean Anthropic run writes exactly the Messages stream frames, with the estimated input and output tokens |
| Sse.Writer.Write | src/utils/sse.ts:38-65 | a write succeeds exactly on an open stream whose client still reads. It then appends one frame, and otherwise changes nothing |
| Sse.Writer.Close | src/utils/streaming.ts:63 | closing succeeds only on an open stream and leaves the frames unchanged |
| Sse.Writer.Abort | src/utils/streaming.ts:66 | aborting turns an open stream Aborted, leaves an ended stream as it was, and leaves the frames unchanged |
| Sse.WriteSSEEvent | src/utils/sse.ts:38-43 | appends exactly one unlabeled data frame with the given payload when the write succeeds, and nothing otherwise. For every serialiser the stream's wire text then grows by exactly `data: <json>\n\n` |
| Sse.WriteSSEEventWithType | src/utils/sse.ts:48-56 | appends exactly one typed frame with the given event name and payload when the write succeeds. The wire text then grows by exactly `event: <type>\ndata: <json>\n\n` |
| Sse.WriteSSEDone | src/utils/sse.ts:61-65 | appends exactly the `[DONE]` frame when the write succeeds. The wire text then grows by exactly `data: [DONE]\n\n` |
| Sse.WrittenWireText | src/utils/sse.ts:42-64 | after any log, one more unlabeled, typed or sentinel frame extends the log's wire text by exactly `data: <json>\n\n`, `event: <type>\ndata: <json>\n\n` or `data: [DONE]\n\n` |
| Sse.WireTextAppend | src/utils/sse.ts:38-65 | the wire text of two frame logs written one after the other is the concatenation of their wire texts |
| Sse.ParseFrame | src/utils/sse.ts:38-65 | an event-stream reader parsing a frame's wire text dispatches exactly that frame's event and then reads on from the following text |
| Sse.ParseWireText | src/utils/sse.ts:38-65 | reading back a whole log's wire text yields exactly one event per frame, in order, with its name and data |
| Sse.Events | src/utils/sse.ts:38-65 | the events of a log are one per frame, each the event its frame stands for |
| Sse.DeliverAppend | src/utils/sse.ts:38-65 | writing `a` then `b` to a client of limited capacity delivers what writing `a + b` delivers; once a write is refused no later frame is delivered |
| Sse.CreateOpenAISSEChunk | src/utils/sse.ts:14-33 | the chunk uses the supplied id when it is truthy, else `chatcmpl-` with a fresh uuid, which is drawn only in that case. Its `created` is the clock in whole seconds |
| Sse.ChunkShape | src/utils/sse.ts:20-32 | a chunk reads back with its id, object `chat.completion.chunk`, its model and exactly one choice: index 0, the given delta, and the finish reason or null |
| ChatHandler.Decide | src/handlers/chat.ts:38-83 | a request without `messages` is rejected with the fixed message. Otherwise validation runs on the request's model, falling back to the default model. Its failure is reported, and its success proceeds with the request's stream flag |
| ChatHandler.ChatProceedsIff | src/handlers/chat.ts:44-57 | a chat request proceeds exactly when messages are present, the model parses, is in the catalogue, and every message with an image goes to a vision model; with no model the default model is used |
| ChatHandler.OnChunk | src/handlers/chat.ts:143-150 | one chunk frame with delta `{content: fragment}`, a fresh id and a null finish reason |
| ChatHandler.OnEnd | src/handlers/chat.ts:151-155 | an empty-delta chunk with finish reason `stop`, then `[DONE]`, drawing one id and one clock reading |
| ChatHandler.StreamOrder | src/handlers/chat.ts:142-156 | the chat stream is one unlabeled data frame per fragment, each carrying that fragment, then the stop chunk, then `[DONE]` |
| ChatHandler.StreamIdsAreFresh | src/handlers/chat.ts:144-153 | each chunk's id is `chatcmpl-` with the next uuid, and with distinct uuids no two chunks of a stream share an id |
| ChatHandler.ChatCompletionReadsBack | src/handlers/chat.ts:166-194 | the completion has id `chatcmpl-<uuid>`, object `chat.completion`, the model and one choice with the answer text |
| ChatHandler.CompletionChoiceReadsBack | src/handlers/chat.ts:175-186 | the single choice has index 0, role assistant, the text as content and finish reason `stop` |
| ChatHandler.ChatUsageDefaultsToZero | src/handlers/chat.ts:188-192 | each usage field copies the upstream value when it is truthy and is 0 otherwise |
| ResponsesHandler.Decide | src/handlers/responses.ts:46-111 | a request with falsy `input` and no `messages` is rejected. Otherwise validation runs on the converted input, or on the messages; its failure is reported and its success proceeds |
| ResponsesHandler.InputTakesPrecedence | src/handlers/responses.ts:63-77 | when `input` is truthy, the outcome does not depend on `messages` |
| ResponsesHandler.ConvertInputToMessages | src/handlers/responses.ts:113-143 | the loop builds exactly the specified message list |
| ResponsesHandler.InputMessagesShape | src/handlers/responses.ts:117-142 | instructions give a leading system message; a string input gives one trailing user message; an array input gives at most one message per item |
| ResponsesHandler.ItemMessagesAppend | src/handlers/responses.ts:128-139 | items are converted one by one and in order: the messages of `a + b` are those of `a` followed by those of `b` |
| ResponsesHandler.ItemMessagesMembers | src/handlers/responses.ts:128-139 | a message comes from an array input exactly when some item of type `message` converts to it |
| ResponsesHandler.PartTextsMembers | src/handlers/responses.ts:133-136 | a text is kept from array content exactly when some part has type `text` and that non-empty text |
| ResponsesHandler.FirstSystem | src/handlers/responses.ts:370-372 | finds the first system message, or reports that there is none |
| ResponsesHandler.EnhanceMessagesForStructuredResponse | src/handlers/responses.ts:333-391 | the copy-then-mutate procedure returns exactly the specified enhanced list |
| ResponsesHandler.EnhanceEffect | src/handlers/responses.ts:338-390 | with no format the messages are unchanged. Otherwise the first system message gets `\n\n` plus the prompt when its content is a string, and keeps its content when that is an array. In both cases the message is rebuilt from its role and content, so it loses its `name`; every other message is unchanged. With no system message a new one is inserted at index 0, so the length grows by at most one |
| ResponsesHandler.StructurePromptShape | src/handlers/responses.ts:341-368 | the prompt starts with the JSON-object or plain-text prompt for those formats and ends with the effort instruction when one is given. It is empty exactly for a `json_schema` format without a schema and without an effort |
| ResponsesHandler.SchemalessFormatAddsEmptyPrompt | src/handlers/responses.ts:348-387 | a `json_schema` format without a schema and without an effort still appends a bare `"\n\n"` to the first string system message, or puts an empty system message in front |
| ResponsesHandler.OnStart | src/handlers/responses.ts:226-263 | writes the created, item-added and part-added events, reading the clock once |
| ResponsesHandler.OnChunk | src/handlers/responses.ts:264-271 | one `response.output_text.delta` event per fragment |
| ResponsesHandler.OnEnd | src/handlers/responses.ts:272-325 | writes the four closing events with estimated usage, then `[DONE]`; it reads the clock once, and only if it gets past the first three writes |
| ResponsesHandler.StreamOrder | src/handlers/responses.ts:226-325 | the labels are created, item added, part added, one delta per fragment, text done, part done, item done, `response.done`, and `[DONE]`. Each event's `type` is its event name |
| ResponsesHandler.StreamResponseIds | src/handlers/responses.ts:222-317 | every event that carries a response carries the one response id |
| ResponsesHandler.StreamItemIds | src/handlers/responses.ts:222-300 | every event that carries an item carries the one message id |
| ResponsesHandler.StreamUsageTotal | src/handlers/responses.ts:305-318 | the final usage is the given input and output tokens, and total is their sum |
| ResponsesHandler.ResponsesFormatReadsBack | src/handlers/responses.ts:393-440 | the response has id `resp-<uuid>`, object `response` and status `completed` |
| ResponsesHandler.ResponsesOutputReadsBack | src/handlers/responses.ts:404-433 | the output is one completed message item `msg-<uuid>`. Its text is the answer re-serialised when the format is `json_object` or `json_schema` and the answer parses, and the answer unchanged otherwise |
| ResponsesHandler.ResponsesUsageDefaultsToZero | src/handlers/responses.ts:434-438 | each usage field copies the upstream value when it is truthy and is 0 otherwise |
| MessagesHandler.ExtractAnthropicContent | src/handlers/messages.ts:103-134 | the loop computes exactly the specified extraction |
| MessagesHandler.ExtractedContentCases | src/handlers/messages.ts:106-118 | a string passes through. The extraction fails exactly when block content holds an image, and the failure is the `content`/`unsupported_content_type` validation error |
| MessagesHandler.ContentTextsMembers | src/handlers/messages.ts:120-133 | a text is kept exactly when it is a text block or a tool result's text |
| MessagesHandler.ToolUseContributesNothing | src/handlers/messages.ts:120-133 | removing a `tool_use` block does not change the extracted texts |
| MessagesHandler.ConvertToInternalMessages | src/handlers/messages.ts:73-101 | the loop computes exactly the specified conversion |
| MessagesHandler.ConvertedMessagesShape | src/handlers/messages.ts:89-98 | conversion succeeds exactly when every message's content extracts. On success it keeps each message's role and order with its extracted text as content; on failure it reports the image error |
| MessagesHandler.InternalMessagesLength | src/handlers/messages.ts:77-98 | the result has one message per input plus one leading system message when there is a system prompt, and that message carries the joined system text |
| MessagesHandler.Decide | src/handlers/messages.ts:29-71 | missing `messages` fails with `messages: Field required`, and a missing or non-positive `max_tokens` fails next. Then a conversion failure is thrown unchanged, a validation failure is thrown unchanged, and when both succeed the request proceeds with the validated model and the request's stream flag |
| MessagesHandler.DecideFailuresAreClientErrors | src/handlers/messages.ts:29-71 | every rejection of a Messages request maps to Anthropic status 400 or 404 |
| MessagesHandler.MessageId | src/handlers/messages.ts:283 | the id starts with `msg_`, has no dash and at most 24 characters, exactly 24 when the uuid has at least 20 non-dash characters; for a dash-free uuid it is `msg_` and its first 20 characters |
| MessagesHandler.OnStart | src/handlers/messages.ts:203-232 | writes `message_start`, `content_block_start` and `ping` with the estimated input tokens |
| MessagesHandler.OnChunk | src/handlers/messages.ts:233-239 | one `content_block_delta` text delta per fragment |
| MessagesHandler.OnEnd | src/handlers/messages.ts:240-259 | writes `content_block_stop`, `message_delta` with the computed output tokens, and `message_stop` |
| MessagesHandler.StreamOrder | src/handlers/messages.ts:203-259 | the labels are start, block start, ping, one delta per fragment, block stop, message delta and message stop, with no `[DONE]`. Every frame is typed, and its `type` is its event name |
| MessagesHandler.StreamUsage | src/handlers/messages.ts:206-257 | `message_start` carries the id, a null stop reason, the input tokens and 0 output tokens; `message_delta` carries `end_turn` and the output tokens |
| MessagesHandler.AnthropicFormatReadsBack | src/handlers/messages.ts:267-295 | the message has the `msg_` id, one text block with the answer, stop reason `end_turn` and a null stop sequence |
| MessagesHandler.MessageJsonMembers | src/handlers/messages.ts:282-293 | the message object reads back with its id, content, stop reason and a null stop sequence |
| MessagesHandler.AnthropicUsageFallsBackToEstimates | src/handlers/messages.ts:277-280 | input and output tokens are the upstream values when truthy, else the local estimates |
| MessageProcessing.ExtractTextFromMessageContent | src/utils/message-processing.ts:19-30 | a string comes back unchanged; a part list gives its text parts joined with a newline |
| MessageProcessing.ExtractedTextSplitsBack | src/utils/message-processing.ts:19-30 | when no text part holds a newline, splitting the joined text at newlines gives back exactly the text parts |
| MessageProcessing.TextsOfAppend | src/utils/message-processing.ts:23-29 | the texts of `a + b` are those of `a` followed by those of `b` |
| MessageProcessing.TextsOfMembers | src/utils/message-processing.ts:24-28 | a text is extracted exactly when it is one of the text parts |
| MessageProcessing.ExtractAllMessageText | src/utils/message-processing.ts:36-59 | the loop returns the specified texts joined with a space |
| MessageProcessing.AllTextsAppend | src/utils/message-processing.ts:39-58 | the texts of messages `a + b` are those of `a` followed by those of `b` |
| MessageProcessing.AllTextsOfStrings | src/utils/message-processing.ts:36-59 | for all-string contents, the collected texts are exactly those strings in order |
| MessageProcessing.ProcessMessage | src/utils/message-processing.ts:72-95 | a message with no extracted image is unchanged; otherwise it keeps its role and name, and each part is the same except that an image part loses its detail |
| MessageProcessing.ProcessMessagesWithImageCheck | src/utils/message-processing.ts:67-97 | the same number of messages, each processed in place, and `hasImages` exactly when some message yields an image |
| MessageProcessing.ProcessMessages | src/utils/message-processing.ts:118-120 | the same as the processed component: each message processed, in order |
| MessageProcessing.CheckForImages | src/utils/message-processing.ts:102-113 | true exactly when some message with array content has an image part with a truthy url |
| ModelValidation.ValidateModelAndMessages | src/utils/model-validation.ts:26-56 | a parser error fails with `model`/`model_not_found`; a model outside the catalogue fails with a model-not-found error; images with a non-vision model fail with `model_not_supported`, in that order. Success carries the clean model, the web-search settings and the processed messages |
| ModelValidation.ValidationSucceedsIff | src/utils/model-validation.ts:32-55 | validation succeeds exactly when the model parses, is in the catalogue, and every message with an image goes to a vision model. The processed list then has the input's length |
| ModelValidation.ValidationFailuresAreClientErrors | src/utils/model-validation.ts:32-53 | every validation failure has status 400 or 404, and a validation error names the `model` parameter |
| Errors.NewValidationError | src/utils/errors.ts:5-17 | status 400, type `invalid_request_error`, and param and code kept only when given (non-empty) |
| Errors.NewAuthenticationError | src/utils/errors.ts:19-29 | status 401, the default message when none is given, and the fixed param and code |
| Errors.NewApiError | src/utils/errors.ts:55-66 | type `api_error`, and status 500 unless one is given |
| Errors.ToOpenAIError | src/utils/errors.ts:71-112 | each known class maps to its own message, type, param, code and status. A model-not-found error carries the fixed message. A plain error gives `api_error`/500 with its message, and a non-error gives the unknown-error message with 500 |
| Errors.ToAnthropicError | src/utils/errors.ts:117-175 | auth maps to `authentication_error` 401, rate limit to `rate_limit_error` 429, model not found to `not_found_error` 404 and validation to `invalid_request_error` 400. An API error maps to `api_error` with its own status, and anything else to `api_error` 500 |
| Errors.EnvelopesAgree | src/utils/errors.ts:71-175 | for every input both mappings give the same status and the same message |
| Errors.KnownStatus | src/utils/errors.ts:5-112 | for a known error class, both mappings give the class's own status and the OpenAI mapping gives its own type |
| ErrorHandler.HandleErrors | src/middleware/error-handler.ts:6-50 | a request that throws nothing passes through. Under `/v1/messages` the Anthropic envelope `{type: "error", error: {type, message}}` is sent with the Anthropic status; elsewhere the OpenAI envelope `{error: {message, type, param, code}}` is sent with the OpenAI status |
| ErrorHandler.StatusIndependentOfPath | src/middleware/error-handler.ts:21-48 | the HTTP status of an error reply does not depend on the path |
| Endpoints.HandleChat | src/handlers/chat.ts:38-164 | a rejected or failed request makes no draw and sends nothing. Otherwise the processed messages are sent upstream. A stream replies with a fresh writer holding the chat pipeline's frames; a non-stream replies with the transformed completion using the next uuid and clock reading |
| Endpoints.HandleResponses | src/handlers/responses.ts:46-331 | rejection and failure send nothing. Otherwise the enhanced messages are sent upstream. A stream draws the response id, then the message id, then runs the Responses pipeline; a non-stream transforms the answer with the message uuid, then the response uuid |
| Endpoints.HandleMessages | src/handlers/messages.ts:29-265 | a failed decision is thrown with nothing sent. Otherwise the processed messages are sent upstream, and a stream uses one `msg_` id drawn first for the Anthropic pipeline; a non-stream transforms with that uuid |
| Endpoints.TransformersAgreeOnText | src/handlers/chat.ts:181-183 | the chat and Anthropic transformers carry the answer text chosen by the shared fallback, and so does the Responses transformer unless the request asks for a `json_object` or `json_schema` format; with such a format the Responses text is the re-serialised answer when it parses (src/handlers/responses.ts:404-415), and the raw answer otherwise |
| Endpoints.OnlyAnthropicEstimatesUsage | src/handlers/messages.ts:277-280 | with no upstream prompt count, chat and Responses report 0 input tokens while the Anthropic transformer reports the local estimate |
| Strings.RemoveDashes | src/handlers/messages.ts:283 | the result has no dash, equals the input when it has none, and keeps every other character with its multiplicity |
| Strings.RemoveDashesAppend | src/handlers/messages.ts:283 | removing dashes works piece by piece, so the kept characters stay in their order |
| Strings.SplitJoin | src/handlers/responses.ts:136 | splitting a newline-joined list of newline-free strings gives the list back |
| Runtime.Platform.RandomUUID | src/handlers/chat.ts:171 | returns the next uuid of the supply and advances only the uuid counter |
| Runtime.Platform.NowSeconds | src/utils/sse.ts:23 | returns the next clock reading in whole seconds, rounded down, and advances only the clock counter |
| Types.AnswerText | src/handlers/chat.ts:181-183 | the answer text is the first result when truthy, else the content when truthy, else `No response generated`; it is never empty |
| Types.RawModel | src/handlers/chat.ts:50 | the request's model when truthy, else the default model; it is empty only when the default model is |

## Left out

- The async fire-and-forget task, `TransformStream` back-pressure and promises are left out. The pipeline is a sequential method, and a client that goes away is modelled as a write capacity.
- `SimpleUTF8Decoder` is not part of this model. It is an abstract state with a `decode(state, bytes, isFinal)` function, and nothing is assumed about its buffering.
- `calculateTokens`, `estimateInputTokens`, `extractImageFromContent`, the model parser and `supportsVision` are not part of this model. They are injected functions.
- `JSON.stringify` and `JSON.parse` are injected. The serialiser is assumed to emit no raw line break, which is what the read-back lemma needs.
- The model catalogue is a sequence constant holding the catalogue's names, and `DEFAULT_MODEL` is a field of the injected services.
- `createErrorResponse` and `createErrorResponseFromError` (src/utils/response.ts) are not part of this model. Their results are the `ErrorMessage` and `ErrorReply` replies.
- The upstream HTTP call (building the request body, sending it, passing temperature and max tokens) is left out. The upstream answer and byte stream are parameters.
- The handlers' `try`/`catch` around the upstream call is left out, because the upstream call is not modelled. This covers the non-streaming handlers' 500 `ApiError` and the streaming handlers' failures before the stream opens: a 500 error response in src/handlers/chat.ts:157-163 and src/handlers/responses.ts:327-330, and a thrown 500 `ApiError` in src/handlers/messages.ts:261-264.
- Routing, authentication, rate limiting, CORS and the `createSSEResponse` headers are left out as framework wiring. Console logging is left out too.
- Request and response shapes are typed datatypes. Untyped JSON inputs (a number where a string belongs, say) are not modelled.
- Frames are modelled as text. Their UTF-8 encoding by `TextEncoder` is left out.
- The event-stream reader splits lines at LF only; CR and CRLF line endings are not modelled, because the writer never emits them.
- Token counts are integers; NaN is not modelled.
- `reasoning_effort` is an enumeration, so unknown effort strings are not modelled.
- MessagesHandler.MessageId: for a uuid with dashes, the contract states the prefix, the length and the absence of dashes rather than the exact 20-character slice; `Strings.RemoveDashes` and `Strings.RemoveDashesAppend` state what the slice is taken from.
