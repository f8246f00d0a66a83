/**
 * The Anthropic Messages adapter: request validation, the conversion of Anthropic messages and
 * content blocks into the internal chat messages, the `message_start` ... `message_stop` event stream,
 * and the non-streaming transformer with its local token estimates.
 */
module MessagesHandler {
  import opened Wrappers
  import opened Strings
  import opened Json
  import opened Types
  import opened Errors
  import opened Sse
  import opened ModelValidation

  // ----- request shapes -----

  datatype TextBlock = TextBlock(text: string)

  /** The `content` of a `tool_result` block: a string or text blocks. */
  datatype ToolResultContent = ToolResultString(text: string) | ToolResultBlocks(blocks: seq<TextBlock>)

  /** A content block: text, image, tool use or tool result. */
  datatype ContentBlock = TextContent(text: string) | ImageContent | ToolUseContent | ToolResultContent(result: ToolResultContent)

  datatype AnthropicContent = StringContent(text: string) | BlockContent(blocks: seq<ContentBlock>)

  datatype AnthropicMessage = AnthropicMessage(role: Role, content: AnthropicContent)

  /** The top-level `system` prompt: a string or text blocks. */
  datatype SystemPrompt = SystemString(text: string) | SystemBlocks(blocks: seq<TextBlock>)

  /** The fields of a Messages request the gateway reads (`messages` is None when missing or not an array). */
  datatype AnthropicRequest = AnthropicRequest(
    messages: Option<seq<AnthropicMessage>>, maxTokens: Option<int>, model: Option<string>,
    system: Option<SystemPrompt>, stream: bool)

  // ----- extractAnthropicContent -----

  const ImageBlocksUnsupported := "Image content blocks in Anthropic format are not yet supported. Use the OpenAI Chat Completions API (/v1/chat/completions) for vision requests."

  /** The error an image block raises. */
  const ImageBlockError := ValidationError(ImageBlocksUnsupported, Some("content"), Some("unsupported_content_type"))

  function BlockTexts(blocks: seq<TextBlock>): seq<string>
  {
    seq(|blocks|, i requires 0 <= i < |blocks| => blocks[i].text)
  }

  /** The text of a tool result: the string, or its blocks' texts joined by LF. */
  function ToolResultText(c: ToolResultContent): string
  {
    match c
    case ToolResultString(s) => s
    case ToolResultBlocks(bs) => Join(BlockTexts(bs), "\n")
  }

  /** The text a block contributes: text blocks and tool results give one text, the others none. */
  function ContributedTexts(b: ContentBlock): seq<string>
  {
    match b
    case TextContent(t) => [t]
    case ToolResultContent(c) => [ToolResultText(c)]
    case _ => []
  }

  /** The texts of the text and tool-result blocks, in order. */
  function ContentTexts(blocks: seq<ContentBlock>): seq<string>
  {
    if |blocks| == 0 then [] else ContentTexts(blocks[..|blocks| - 1]) + ContributedTexts(blocks[|blocks| - 1])
  }

  predicate HasImageBlock(blocks: seq<ContentBlock>)
  {
    exists i :: 0 <= i < |blocks| && blocks[i].ImageContent?
  }

  /** What `extractAnthropicContent` returns or throws. */
  function ExtractedContent(content: AnthropicContent): Result<string, AppError>
  {
    match content
    case StringContent(s) => Success(s)
    case BlockContent(bs) =>
      if HasImageBlock(bs) then Failure(NewValidationError(ImageBlocksUnsupported, Some("content"), Some("unsupported_content_type")))
      else Success(Join(ContentTexts(bs), "\n"))
  }

  /** `extractAnthropicContent`: strings pass; an image block is refused; text and tool results are joined. */
  method ExtractAnthropicContent(content: AnthropicContent) returns (r: Result<string, AppError>)
    ensures r == ExtractedContent(content)
  {
    if content.StringContent? {
      return Success(content.text);
    }
    var blocks := content.blocks;
    if HasImageBlock(blocks) {
      return Failure(NewValidationError(ImageBlocksUnsupported, Some("content"), Some("unsupported_content_type")));
    }
    var textParts: seq<string> := [];
    var i := 0;
    while i < |blocks|
      invariant 0 <= i <= |blocks|
      invariant textParts == ContentTexts(blocks[..i])
    {
      var block := blocks[i];
      if block.TextContent? {
        textParts := textParts + [block.text];
      } else if block.ToolResultContent? {
        var resultText := ToolResultText(block.result);
        textParts := textParts + [resultText];
      }
      assert blocks[..i + 1][..i] == blocks[..i];
      i := i + 1;
    }
    assert blocks[..i] == blocks;
    r := Success(Join(textParts, "\n"));
  }

  /**
   * Extraction refuses exactly the block lists that hold an image, with the `content` /
   * `unsupported_content_type` validation error; a kept text is that of a text block or a tool result,
   * and tool-use blocks contribute nothing.
   */
  lemma ExtractedContentCases(content: AnthropicContent)
    ensures content.StringContent? ==> ExtractedContent(content) == Success(content.text)
    ensures ExtractedContent(content).Failure? <==> content.BlockContent? && HasImageBlock(content.blocks)
    ensures ExtractedContent(content).Failure? ==> ExtractedContent(content).error == ImageBlockError
  {
  }

  /** Which blocks give the extracted texts: every text block and tool result, and nothing else. */
  lemma {:induction false} ContentTextsMembers(blocks: seq<ContentBlock>, t: string)
    ensures t in ContentTexts(blocks) <==>
      exists i :: 0 <= i < |blocks| &&
        (blocks[i] == TextContent(t) || (blocks[i].ToolResultContent? && ToolResultText(blocks[i].result) == t))
  {
    if |blocks| > 0 {
      var init := blocks[..|blocks| - 1];
      ContentTextsMembers(init, t);
      assert forall i :: 0 <= i < |init| ==> init[i] == blocks[i];
    }
  }

  /** Tool-use blocks can be dropped without changing the extracted texts. */
  lemma {:induction false} ToolUseContributesNothing(a: seq<ContentBlock>, b: seq<ContentBlock>)
    ensures ContentTexts(a + [ToolUseContent] + b) == ContentTexts(a + b)
    decreases |b|
  {
    if |b| == 0 {
      assert (a + [ToolUseContent] + b)[..|a|] == a;
      assert a + b == a;
    } else {
      var b' := b[..|b| - 1];
      assert (a + [ToolUseContent] + b)[..|a| + 1 + |b'|] == a + [ToolUseContent] + b';
      assert (a + b)[..|a| + |b'|] == a + b';
      ToolUseContributesNothing(a, b');
    }
  }

  // ----- convertToInternalMessages -----

  /** JavaScript truthiness of `system`: an array always, a string when non-empty. */
  predicate SystemTruthy(system: Option<SystemPrompt>)
  {
    system.Some? && (system.value.SystemBlocks? || system.value.text != "")
  }

  function SystemText(system: SystemPrompt): string
  {
    match system
    case SystemString(s) => s
    case SystemBlocks(bs) => Join(BlockTexts(bs), "\n")
  }

  function SystemMessages(system: Option<SystemPrompt>): seq<Message>
  {
    if SystemTruthy(system) then [Message(System, Text(SystemText(system.value)), None)] else []
  }

  /** The converted messages, one per input, or the first extraction error. */
  function ConvertedMessages(messages: seq<AnthropicMessage>): Result<seq<Message>, AppError>
  {
    if |messages| == 0 then Success([])
    else
      match ConvertedMessages(messages[..|messages| - 1])
      case Failure(e) => Failure(e)
      case Success(converted) =>
        var m := messages[|messages| - 1];
        match ExtractedContent(m.content)
        case Failure(e) => Failure(e)
        case Success(text) => Success(converted + [Message(m.role, Text(text), None)])
  }

  /** What `convertToInternalMessages` returns or throws. */
  function InternalMessages(messages: seq<AnthropicMessage>, system: Option<SystemPrompt>): Result<seq<Message>, AppError>
  {
    match ConvertedMessages(messages)
    case Failure(e) => Failure(e)
    case Success(converted) => Success(SystemMessages(system) + converted)
  }

  /** `convertToInternalMessages`: the system prompt first, then one message per input, same role and order. */
  method ConvertToInternalMessages(messages: seq<AnthropicMessage>, system: Option<SystemPrompt>)
    returns (r: Result<seq<Message>, AppError>)
    ensures r == InternalMessages(messages, system)
  {
    var internalMessages: seq<Message> := [];
    if SystemTruthy(system) {
      var systemText := SystemText(system.value);
      internalMessages := internalMessages + [Message(System, Text(systemText), None)];
    }
    var i := 0;
    while i < |messages|
      invariant 0 <= i <= |messages|
      invariant ConvertedMessages(messages[..i]).Success?
      invariant internalMessages == SystemMessages(system) + ConvertedMessages(messages[..i]).value
    {
      var msg := messages[i];
      assert messages[..i + 1][..i] == messages[..i];
      var content := ExtractAnthropicContent(msg.content);
      if content.Failure? {
        ConvertedFailureSticks(messages, i + 1);
        return Failure(content.error);
      }
      internalMessages := internalMessages + [Message(msg.role, Text(content.value), None)];
      i := i + 1;
    }
    assert messages[..i] == messages;
    r := Success(internalMessages);
  }

  /** Once a prefix fails to convert, the whole list fails with the same error. */
  lemma {:induction false} ConvertedFailureSticks(messages: seq<AnthropicMessage>, k: nat)
    requires k <= |messages| && ConvertedMessages(messages[..k]).Failure?
    ensures ConvertedMessages(messages) == ConvertedMessages(messages[..k])
    decreases |messages| - k
  {
    if k < |messages| {
      assert messages[..k + 1][..k] == messages[..k];
      ConvertedFailureSticks(messages, k + 1);
    } else {
      assert messages[..k] == messages;
    }
  }

  /**
   * A successful conversion has one message per input after the optional system message, each with
   * its input's role and extracted text; conversion fails exactly when some input has an image block.
   */
  lemma {:induction false} ConvertedMessagesShape(messages: seq<AnthropicMessage>)
    ensures ConvertedMessages(messages).Success? <==>
      forall k :: 0 <= k < |messages| ==> ExtractedContent(messages[k].content).Success?
    ensures ConvertedMessages(messages).Failure? ==> ConvertedMessages(messages).error == ImageBlockError
    ensures ConvertedMessages(messages).Success? ==>
      |ConvertedMessages(messages).value| == |messages| &&
      forall k :: 0 <= k < |messages| ==>
        ConvertedMessages(messages).value[k] == Message(messages[k].role, Text(ExtractedContent(messages[k].content).value), None)
  {
    if |messages| > 0 {
      var init := messages[..|messages| - 1];
      ConvertedMessagesShape(init);
      assert forall k :: 0 <= k < |init| ==> init[k] == messages[k];
    }
  }

  /** The internal list is the input list plus one when there is a truthy system prompt. */
  lemma InternalMessagesLength(messages: seq<AnthropicMessage>, system: Option<SystemPrompt>)
    ensures InternalMessages(messages, system).Success? ==>
      |InternalMessages(messages, system).value| == |messages| + (if SystemTruthy(system) then 1 else 0)
    ensures InternalMessages(messages, system).Success? && SystemTruthy(system) ==>
      InternalMessages(messages, system).value[0] == Message(System, Text(SystemText(system.value)), None)
  {
    ConvertedMessagesShape(messages);
  }

  // ----- handleMessages, up to the upstream call -----

  const MessagesRequired := "messages: Field required"
  const MaxTokensRequired := "max_tokens: Field required"

  datatype Plan = Plan(validated: ValidatedModel, stream: bool)

  /** `handleMessages` up to the upstream call: each check throws, in order. */
  function Decide(req: AnthropicRequest, svc: Services): (r: Result<Plan, AppError>)
    ensures req.messages.None? ==> r == Failure(ValidationError(MessagesRequired, None, None))
    ensures req.messages.Some? && !(TruthyNum(req.maxTokens) && req.maxTokens.value > 0) ==>
      r == Failure(ValidationError(MaxTokensRequired, None, None))
    ensures req.messages.Some? && TruthyNum(req.maxTokens) && req.maxTokens.value > 0 &&
            InternalMessages(req.messages.value, req.system).Failure? ==>
      r == Failure(InternalMessages(req.messages.value, req.system).error)
    ensures req.messages.Some? && TruthyNum(req.maxTokens) && req.maxTokens.value > 0 &&
            InternalMessages(req.messages.value, req.system).Success? ==>
      var validation := ValidateModelAndMessages(RawModel(req.model, svc), InternalMessages(req.messages.value, req.system).value, svc);
      (validation.Failure? ==> r == Failure(validation.error)) &&
      (validation.Success? ==> r == Success(Plan(validation.value, req.stream)))
    ensures r.Success? ==>
      r.value.stream == req.stream &&
      InternalMessages(req.messages.value, req.system).Success? &&
      ValidateModelAndMessages(RawModel(req.model, svc), InternalMessages(req.messages.value, req.system).value, svc)
        == Success(r.value.validated)
  {
    if req.messages.None? then Failure(NewValidationError(MessagesRequired, None, None))
    else if !(TruthyNum(req.maxTokens) && req.maxTokens.value > 0) then Failure(NewValidationError(MaxTokensRequired, None, None))
    else
      match InternalMessages(req.messages.value, req.system)
      case Failure(e) => Failure(e)
      case Success(internal) =>
        match ValidateModelAndMessages(RawModel(req.model, svc), internal, svc)
        case Failure(e) => Failure(e)
        case Success(v) => Success(Plan(v, req.stream))
  }

  /** Every refusal of `handleMessages` is a client error (400 or 404) in the Anthropic envelope. */
  lemma DecideFailuresAreClientErrors(req: AnthropicRequest, svc: Services)
    requires Decide(req, svc).Failure?
    ensures ToAnthropicError(Decide(req, svc).error).status in {400, 404}
  {
    if req.messages.Some? && TruthyNum(req.maxTokens) && req.maxTokens.value > 0 {
      ConvertedMessagesShape(req.messages.value);
      var internal := InternalMessages(req.messages.value, req.system);
      if internal.Success? {
        var validation := ValidateModelAndMessages(RawModel(req.model, svc), internal.value, svc);
        assert Decide(req, svc).error == validation.error;
        ValidationFailuresAreClientErrors(RawModel(req.model, svc), internal.value, svc);
        EnvelopesAgree(validation.error);
      }
    }
  }

  // ----- streaming -----

  /** `msg_` and the first 20 characters of the UUID without its dashes. */
  function MessageId(uuid: string): (r: string)
    ensures |r| <= 24 && '-' !in r
    ensures |r| >= 4 && r[..4] == "msg_"
    ensures |RemoveDashes(uuid)| >= 20 ==> |r| == 24
    ensures '-' !in uuid && |uuid| >= 20 ==> r == "msg_" + uuid[..20]
  {
    var hex := RemoveDashes(uuid);
    "msg_" + hex[..if |hex| < 20 then |hex| else 20]
  }

  /** An Anthropic message object. */
  function MessageJson(id: string, content: seq<Json>, model: string, stopReason: Option<string>,
                       inputTokens: int, outputTokens: int): Json
  {
    JObj([("id", JStr(id)), ("type", JStr("message")), ("role", JStr("assistant")), ("content", JArr(content)),
          ("model", JStr(model)), ("stop_reason", OptStr(stopReason)), ("stop_sequence", JNull),
          ("usage", JObj([("input_tokens", JNum(inputTokens)), ("output_tokens", JNum(outputTokens))]))])
  }

  function TextBlockJson(text: string): Json
  {
    JObj([("type", JStr("text")), ("text", JStr(text))])
  }

  function MessageStartEvent(messageId: string, model: string, inputTokens: int): Json
  {
    JObj([("type", JStr("message_start")), ("message", MessageJson(messageId, [], model, None, inputTokens, 0))])
  }

  const ContentBlockStartEvent := JObj([("type", JStr("content_block_start")), ("index", JNum(0)), ("content_block", TextBlockJson(""))])

  const PingEvent := JObj([("type", JStr("ping"))])

  function ContentBlockDeltaEvent(fragment: string): Json
  {
    JObj([("type", JStr("content_block_delta")), ("index", JNum(0)),
          ("delta", JObj([("type", JStr("text_delta")), ("text", JStr(fragment))]))])
  }

  const ContentBlockStopEvent := JObj([("type", JStr("content_block_stop")), ("index", JNum(0))])

  function MessageDeltaEvent(outputTokens: int): Json
  {
    JObj([("type", JStr("message_delta")), ("delta", JObj([("stop_reason", JStr("end_turn"))])),
          ("usage", JObj([("output_tokens", JNum(outputTokens))]))])
  }

  const MessageStopEvent := JObj([("type", JStr("message_stop"))])

  /** The frames `onStart` writes: message start with the input estimate, content block start, ping. */
  function StartFrames(messageId: string, model: string, inputTokens: int): seq<Frame>
  {
    [EventFrame("message_start", MessageStartEvent(messageId, model, inputTokens)),
     EventFrame("content_block_start", ContentBlockStartEvent),
     EventFrame("ping", PingEvent)]
  }

  function DeltaFrame(fragment: string): Frame
  {
    EventFrame("content_block_delta", ContentBlockDeltaEvent(fragment))
  }

  /** The frames `onEnd` writes: content block stop, the message delta with output tokens, message stop. */
  function EndFrames(outputTokens: int): seq<Frame>
  {
    [EventFrame("content_block_stop", ContentBlockStopEvent),
     EventFrame("message_delta", MessageDeltaEvent(outputTokens)),
     EventFrame("message_stop", MessageStopEvent)]
  }

  /** `onStart`: estimates the input tokens, then writes its three frames; a refused write stops the rest. */
  method OnStart(w: Writer, svc: Services, messageId: string, model: string, messages: seq<Message>) returns (ok: bool)
    requires w.Valid() && w.status == Open
    modifies w
    ensures w.Valid() && w.status == Open
    ensures ok == Fits(old(w.frames), 3, w.capacity)
    ensures w.frames == Deliver(old(w.frames), StartFrames(messageId, model, svc.estimateInputTokens(messages)), w.capacity)
  {
    var inputTokens := svc.estimateInputTokens(messages);
    ghost var fs := StartFrames(messageId, model, inputTokens);
    DeliverCons(w.frames, fs, w.capacity);
    ok := WriteSSEEventWithType(w, "message_start", MessageStartEvent(messageId, model, inputTokens));
    if ok {
      DeliverCons(w.frames, fs[1..], w.capacity);
      ok := WriteSSEEventWithType(w, "content_block_start", ContentBlockStartEvent);
      if ok {
        assert fs[1..][1..] == fs[2..];
        DeliverCons(w.frames, fs[2..], w.capacity);
        ok := WriteSSEEventWithType(w, "ping", PingEvent);
        assert fs[2..][1..] == [];
      }
    }
  }

  /** `onChunk`: one `content_block_delta` with a `text_delta` carrying the fragment. */
  method OnChunk(w: Writer, chunk: string) returns (ok: bool)
    requires w.Valid() && w.status == Open
    modifies w
    ensures w.Valid() && w.status == Open
    ensures ok == Fits(old(w.frames), 1, w.capacity)
    ensures w.frames == Deliver(old(w.frames), [DeltaFrame(chunk)], w.capacity)
  {
    ok := WriteSSEEventWithType(w, "content_block_delta", ContentBlockDeltaEvent(chunk));
  }

  /** `onEnd`: content block stop, the message delta with the counted output tokens, message stop. */
  method OnEnd(w: Writer, svc: Services, model: string, text: string) returns (ok: bool)
    requires w.Valid() && w.status == Open
    modifies w
    ensures w.Valid() && w.status == Open
    ensures ok == Fits(old(w.frames), 3, w.capacity)
    ensures w.frames == Deliver(old(w.frames), EndFrames(svc.calculateTokens(text, model)), w.capacity)
  {
    ghost var fs := EndFrames(svc.calculateTokens(text, model));
    DeliverCons(w.frames, fs, w.capacity);
    ok := WriteSSEEventWithType(w, "content_block_stop", ContentBlockStopEvent);
    if ok {
      var outputTokens := svc.calculateTokens(text, model);
      DeliverCons(w.frames, fs[1..], w.capacity);
      ok := WriteSSEEventWithType(w, "message_delta", MessageDeltaEvent(outputTokens));
      if ok {
        assert fs[1..][1..] == fs[2..];
        DeliverCons(w.frames, fs[2..], w.capacity);
        ok := WriteSSEEventWithType(w, "message_stop", MessageStopEvent);
        assert fs[2..][1..] == [];
      }
    }
  }

  /** The whole stream for a list of fragments when every write goes through and the upstream ends cleanly. */
  function StreamFrames(messageId: string, model: string, fragments: seq<string>, inputTokens: int, outputTokens: int): seq<Frame>
  {
    StartFrames(messageId, model, inputTokens) +
    seq(|fragments|, i requires 0 <= i < |fragments| => DeltaFrame(fragments[i])) +
    EndFrames(outputTokens)
  }

  /**
   * The event order of a Messages stream: message start, content block start, ping, one delta per
   * fragment, content block stop, message delta, message stop, and no `[DONE]` sentinel. Every frame is
   * typed and carries its own event name in its `type` field.
   */
  lemma StreamOrder(messageId: string, model: string, fragments: seq<string>, inputTokens: int, outputTokens: int)
    ensures var f := StreamFrames(messageId, model, fragments, inputTokens, outputTokens);
      Labels(f) ==
        ["message_start", "content_block_start", "ping"] +
        seq(|fragments|, i => "content_block_delta") +
        ["content_block_stop", "message_delta", "message_stop"]
    ensures var f := StreamFrames(messageId, model, fragments, inputTokens, outputTokens);
      forall k :: 0 <= k < |f| ==> f[k].EventFrame? && Get(f[k].data, "type") == Some(JStr(f[k].event))
  {
    var f := StreamFrames(messageId, model, fragments, inputTokens, outputTokens);
    var n := |fragments|;
    var names := ["message_start", "content_block_start", "ping"] + seq(n, i => "content_block_delta") +
        ["content_block_stop", "message_delta", "message_stop"];
    assert |f| == |names| == n + 6;
    forall k | 0 <= k < |f|
      ensures Label(f[k]) == names[k]
      ensures f[k].EventFrame? && Get(f[k].data, "type") == Some(JStr(f[k].event))
    {
      if 3 <= k < 3 + n {
        assert f[k] == DeltaFrame(fragments[k - 3]);
      }
    }
  }

  /**
   * The stream reports the input estimate in `message_start` (with no output yet and no stop reason),
   * and the counted output tokens with stop reason `end_turn` in `message_delta`.
   */
  lemma StreamUsage(messageId: string, model: string, fragments: seq<string>, inputTokens: int, outputTokens: int)
    ensures var f := StreamFrames(messageId, model, fragments, inputTokens, outputTokens);
      At(f[0].data, ["message", "id"]) == Some(JStr(messageId)) &&
      At(f[0].data, ["message", "stop_reason"]) == Some(JNull) &&
      At(f[0].data, ["message", "usage", "input_tokens"]) == Some(JNum(inputTokens)) &&
      At(f[0].data, ["message", "usage", "output_tokens"]) == Some(JNum(0)) &&
      At(f[|f| - 2].data, ["delta", "stop_reason"]) == Some(JStr("end_turn")) &&
      At(f[|f| - 2].data, ["usage", "output_tokens"]) == Some(JNum(outputTokens))
  {
    var f := StreamFrames(messageId, model, fragments, inputTokens, outputTokens);
    var start := f[0].data;
    assert start == MessageStartEvent(messageId, model, inputTokens);
    var message := start.members[1].1;
    var usage := message.members[7].1;
    MemberAt(start.members, "message", 1);
    MemberAt(message.members, "stop_reason", 5);
    MemberAt(message.members, "usage", 7);
    MemberAt(usage.members, "output_tokens", 1);
    AtTwo(start, "message", "id");
    AtTwo(start, "message", "stop_reason");
    AtThree(start, "message", "usage", "input_tokens");
    AtThree(start, "message", "usage", "output_tokens");
    AtTwo(message, "usage", "input_tokens");
    AtTwo(message, "usage", "output_tokens");
    var delta := f[|f| - 2].data;
    assert delta == MessageDeltaEvent(outputTokens);
    MemberAt(delta.members, "delta", 1);
    MemberAt(delta.members, "usage", 2);
    AtTwo(delta, "delta", "stop_reason");
    AtTwo(delta, "usage", "output_tokens");
  }

  // ----- non-streaming -----

  /** Input tokens: the upstream's prompt count when truthy, otherwise the local estimate. */
  function InputTokens(data: UpstreamAnswer, messages: seq<Message>, svc: Services): int
  {
    if TruthyNum(PromptTokens(data)) then PromptTokens(data).value else svc.estimateInputTokens(messages)
  }

  /** Output tokens: the upstream's completion count when truthy, otherwise counted from the answer text. */
  function OutputTokens(data: UpstreamAnswer, model: string, svc: Services): int
  {
    if TruthyNum(CompletionTokens(data)) then CompletionTokens(data).value else svc.calculateTokens(AnswerText(data), model)
  }

  /** `transformToAnthropicFormat`, with the UUID it draws passed in. */
  function TransformToAnthropicFormat(data: UpstreamAnswer, model: string, messages: seq<Message>, svc: Services, uuid: string): Json
  {
    MessageJson(MessageId(uuid), [TextBlockJson(AnswerText(data))], model, Some("end_turn"),
                InputTokens(data, messages, svc), OutputTokens(data, model, svc))
  }

  /**
   * Read back, a non-streaming message has the answer as its single text block, stop reason
   * `end_turn` and a null stop sequence.
   */
  lemma AnthropicFormatReadsBack(data: UpstreamAnswer, model: string, messages: seq<Message>, svc: Services, uuid: string)
    ensures var r := TransformToAnthropicFormat(data, model, messages, svc, uuid);
      Get(r, "id") == Some(JStr(MessageId(uuid))) &&
      Get(r, "content") == Some(JArr([TextBlockJson(AnswerText(data))])) &&
      Get(r, "stop_reason") == Some(JStr("end_turn")) &&
      Get(r, "stop_sequence") == Some(JNull)
  {
    MessageJsonMembers(MessageId(uuid), [TextBlockJson(AnswerText(data))], model, Some("end_turn"),
                       InputTokens(data, messages, svc), OutputTokens(data, model, svc));
  }

  lemma MessageJsonMembers(id: string, content: seq<Json>, model: string, stopReason: Option<string>,
                           inputTokens: int, outputTokens: int)
    ensures var r := MessageJson(id, content, model, stopReason, inputTokens, outputTokens);
      Get(r, "id") == Some(JStr(id)) && Get(r, "content") == Some(JArr(content)) &&
      Get(r, "stop_reason") == Some(OptStr(stopReason)) && Get(r, "stop_sequence") == Some(JNull)
  {
    var r := MessageJson(id, content, model, stopReason, inputTokens, outputTokens);
    MemberAt(r.members, "content", 3);
    MemberAt(r.members, "stop_reason", 5);
    MemberAt(r.members, "stop_sequence", 6);
  }

  /**
   * The token counts of a non-streaming message prefer the upstream's and fall back to the local
   * estimates (of the request messages, and of the answer text) when those are missing or zero.
   */
  lemma AnthropicUsageFallsBackToEstimates(data: UpstreamAnswer, model: string, messages: seq<Message>, svc: Services, uuid: string)
    ensures var r := TransformToAnthropicFormat(data, model, messages, svc, uuid);
      At(r, ["usage", "input_tokens"]) ==
        Some(JNum(if TruthyNum(PromptTokens(data)) then PromptTokens(data).value else svc.estimateInputTokens(messages))) &&
      At(r, ["usage", "output_tokens"]) ==
        Some(JNum(if TruthyNum(CompletionTokens(data)) then CompletionTokens(data).value else svc.calculateTokens(AnswerText(data), model)))
  {
    var r := TransformToAnthropicFormat(data, model, messages, svc, uuid);
    MemberAt(r.members, "usage", 7);
    var usage := r.members[7].1;
    MemberAt(usage.members, "output_tokens", 1);
    AtTwo(r, "usage", "input_tokens");
    AtTwo(r, "usage", "output_tokens");
  }
}
