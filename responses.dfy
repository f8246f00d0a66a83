/**
 * The OpenAI Responses adapter: the `input`/`messages` request normalisation, the structured-output
 * and reasoning prompts, the eight-event stream around the decoded fragments, and the non-streaming
 * transformer into a `response` object with one output message.
 */
module ResponsesHandler {
  import opened Wrappers
  import opened Strings
  import opened Json
  import opened Types
  import opened Errors
  import opened Runtime
  import opened Sse
  import opened ModelValidation

  // ----- request shapes -----

  /** A content part of an input item: its `type` and optional `text`. */
  datatype InputPart = InputPart(partType: string, text: Option<string>)

  datatype ItemContent = ItemText(text: string) | ItemParts(parts: seq<InputPart>)

  /** One entry of an `input` array: its `type`, role and content. */
  datatype InputItem = InputItem(itemType: string, role: Role, content: ItemContent)

  /** The `input` field: a string or an array of items. */
  datatype Input = InputString(text: string) | InputArray(items: seq<InputItem>)

  datatype Effort = LowEffort | MediumEffort | HighEffort

  datatype JsonSchemaSpec = JsonSchemaSpec(name: string, description: Option<string>, schema: Json)

  /** `response_format`: its `type` and optional `json_schema`. */
  datatype ResponseFormat = ResponseFormat(formatType: string, jsonSchema: Option<JsonSchemaSpec>)

  /** The fields of a Responses request the gateway reads (`messages` is None when missing or not an array). */
  datatype ResponsesRequest = ResponsesRequest(
    input: Option<Input>, messages: Option<seq<Message>>, instructions: Option<string>, model: Option<string>,
    stream: bool, responseFormat: Option<ResponseFormat>, reasoningEffort: Option<Effort>)

  /** JavaScript truthiness of `input`: an array always, a string when non-empty. */
  predicate InputTruthy(input: Option<Input>)
  {
    input.Some? && (input.value.InputArray? || input.value.text != "")
  }

  // ----- convertInputToMessages -----

  /** The texts of the parts of type "text" whose text is truthy, in order. */
  function PartTexts(parts: seq<InputPart>): seq<string>
  {
    if |parts| == 0 then []
    else
      var p := parts[|parts| - 1];
      PartTexts(parts[..|parts| - 1]) + (if p.partType == "text" && Truthy(p.text) then [p.text.value] else [])
  }

  /** A text is kept exactly when some part of type "text" carries it, non-empty. */
  lemma {:induction false} PartTextsMembers(parts: seq<InputPart>, t: string)
    ensures t in PartTexts(parts) <==>
      exists i :: 0 <= i < |parts| && parts[i].partType == "text" && parts[i].text == Some(t) && t != ""
  {
    if |parts| > 0 {
      var init := parts[..|parts| - 1];
      PartTextsMembers(init, t);
      assert forall i :: 0 <= i < |init| ==> init[i] == parts[i];
    }
  }

  /** The content of the message built from an item. */
  function ItemContentText(c: ItemContent): string
  {
    match c
    case ItemText(s) => s
    case ItemParts(ps) => Join(PartTexts(ps), "\n")
  }

  function ItemMessage(item: InputItem): Message
  {
    Message(item.role, Text(ItemContentText(item.content)), None)
  }

  /** The messages built from the items of type "message", in order. */
  function ItemMessages(items: seq<InputItem>): seq<Message>
  {
    if |items| == 0 then []
    else
      var item := items[|items| - 1];
      ItemMessages(items[..|items| - 1]) + (if item.itemType == "message" then [ItemMessage(item)] else [])
  }

  /** Conversion works item by item: the messages of a concatenation are the concatenation of messages. */
  lemma {:induction false} ItemMessagesAppend(a: seq<InputItem>, b: seq<InputItem>)
    ensures ItemMessages(a + b) == ItemMessages(a) + ItemMessages(b)
    decreases |b|
  {
    if |b| == 0 {
      assert a + b == a;
    } else {
      var b' := b[..|b| - 1];
      assert (a + b)[..|a + b| - 1] == a + b';
      assert (a + b)[|a + b| - 1] == b[|b| - 1];
      ItemMessagesAppend(a, b');
    }
  }

  /** Every converted message comes from a message item, and every message item gives one. */
  lemma {:induction false} ItemMessagesMembers(items: seq<InputItem>, m: Message)
    ensures m in ItemMessages(items) <==>
      exists i :: 0 <= i < |items| && items[i].itemType == "message" && m == ItemMessage(items[i])
  {
    if |items| > 0 {
      var init := items[..|items| - 1];
      ItemMessagesMembers(init, m);
      assert forall i :: 0 <= i < |init| ==> init[i] == items[i];
    }
  }

  /** The system message built from truthy instructions. */
  function SystemPrefix(instructions: Option<string>): seq<Message>
  {
    if Truthy(instructions) then [Message(System, Text(instructions.value), None)] else []
  }

  /** What `convertInputToMessages` builds. */
  function InputMessages(input: Input, instructions: Option<string>): seq<Message>
  {
    SystemPrefix(instructions) +
      match input
      case InputString(s) => [Message(User, Text(s), None)]
      case InputArray(items) => ItemMessages(items)
  }

  /** `convertInputToMessages`: instructions first, then the string as a user message or the message items. */
  method ConvertInputToMessages(input: Input, instructions: Option<string>) returns (messages: seq<Message>)
    ensures messages == InputMessages(input, instructions)
  {
    messages := [];
    if Truthy(instructions) {
      messages := messages + [Message(System, Text(instructions.value), None)];
    }
    match input {
      case InputString(s) =>
        messages := messages + [Message(User, Text(s), None)];
      case InputArray(items) =>
        var i := 0;
        while i < |items|
          invariant 0 <= i <= |items|
          invariant messages == SystemPrefix(instructions) + ItemMessages(items[..i])
        {
          var item := items[i];
          if item.itemType == "message" {
            var content := ItemContentText(item.content);
            messages := messages + [Message(item.role, Text(content), None)];
          }
          assert items[..i + 1][..i] == items[..i];
          i := i + 1;
        }
        assert items[..i] == items;
    }
  }

  /**
   * Shape of the converted list: a system message leads exactly when instructions are truthy, a string
   * input adds one user message, and an array input adds no more messages than it has items.
   */
  lemma InputMessagesShape(input: Input, instructions: Option<string>)
    ensures var r := InputMessages(input, instructions);
      (Truthy(instructions) ==> |r| > 0 && r[0] == Message(System, Text(instructions.value), None)) &&
      (input.InputString? ==> |r| == |SystemPrefix(instructions)| + 1 && r[|r| - 1] == Message(User, Text(input.text), None)) &&
      (input.InputArray? ==> |r| <= |SystemPrefix(instructions)| + |input.items|)
  {
    if input.InputArray? {
      ItemMessagesLength(input.items);
    }
  }

  lemma {:induction false} ItemMessagesLength(items: seq<InputItem>)
    ensures |ItemMessages(items)| <= |items|
  {
    if |items| > 0 {
      ItemMessagesLength(items[..|items| - 1]);
    }
  }

  // ----- handleResponsesWithBody, up to the upstream call -----

  const InputRequired := "Either \"input\" field (string or array) or \"messages\" field (array) is required"

  /** The messages a request asks about: from `input` when truthy, else `messages` after the instructions. */
  function RequestMessages(req: ResponsesRequest): seq<Message>
    requires InputTruthy(req.input) || req.messages.Some?
  {
    if InputTruthy(req.input) then InputMessages(req.input.value, req.instructions)
    else SystemPrefix(req.instructions) + req.messages.value
  }

  datatype Decision = Rejected(message: string) | Failed(error: AppError) | Proceed(validated: ValidatedModel, stream: bool)

  /** `handleResponsesWithBody` up to the upstream call. */
  function Decide(req: ResponsesRequest, svc: Services): (r: Decision)
    ensures r.Rejected? <==> !InputTruthy(req.input) && req.messages.None?
    ensures r.Rejected? ==> r.message == InputRequired
    ensures r.Failed? ==> ValidateModelAndMessages(RawModel(req.model, svc), RequestMessages(req), svc) == Failure(r.error)
    ensures r.Proceed? ==>
      r.stream == req.stream &&
      ValidateModelAndMessages(RawModel(req.model, svc), RequestMessages(req), svc) == Success(r.validated)
  {
    if !InputTruthy(req.input) && req.messages.None? then Rejected(InputRequired)
    else
      match ValidateModelAndMessages(RawModel(req.model, svc), RequestMessages(req), svc)
      case Failure(e) => Failed(e)
      case Success(v) => Proceed(v, req.stream)
  }

  /** A truthy `input` wins: whatever `messages` holds, the decision is the same. */
  lemma InputTakesPrecedence(req: ResponsesRequest, otherMessages: Option<seq<Message>>, svc: Services)
    requires InputTruthy(req.input)
    ensures Decide(req, svc) == Decide(req.(messages := otherMessages), svc)
  {
  }

  // ----- enhanceMessagesForStructuredResponse -----

  const JsonObjectPrompt := "Please respond with a valid JSON object only. Do not include any text outside the JSON structure."
  const TextPrompt := "Please provide a clear and structured text response."

  function SchemaPrompt(spec: JsonSchemaSpec, ser: Serializer): string
  {
    "Please respond with a valid JSON object that strictly follows this schema: " + ser(spec.schema) +
    ". The response should be named \"" + spec.name + "\". " + (if Truthy(spec.description) then spec.description.value else "")
  }

  function EffortInstruction(e: Effort): string
  {
    match e
    case LowEffort => "Provide a direct and concise response."
    case MediumEffort => "Think through the problem step by step and provide a well-reasoned response."
    case HighEffort => "Carefully analyze all aspects of the problem, consider multiple perspectives, and provide a thoroughly reasoned response with detailed explanations."
  }

  /** The prompt for a response format: JSON object, JSON schema (empty without a schema), or plain text. */
  function FormatPrompt(f: ResponseFormat, ser: Serializer): string
  {
    if f.formatType == "json_object" then JsonObjectPrompt
    else if f.formatType == "json_schema" then (if f.jsonSchema.Some? then SchemaPrompt(f.jsonSchema.value, ser) else "")
    else TextPrompt
  }

  /** The format prompt, followed by the reasoning instruction when an effort is given. */
  function StructurePrompt(f: ResponseFormat, effort: Option<Effort>, ser: Serializer): string
  {
    FormatPrompt(f, ser) + (if effort.Some? then " " + EffortInstruction(effort.value) else "")
  }

  /** `findIndex` of the first system message. */
  function FirstSystem(messages: seq<Message>): (r: Option<nat>)
    ensures r.None? <==> forall j :: 0 <= j < |messages| ==> messages[j].role != System
    ensures r.Some? ==>
      r.value < |messages| && messages[r.value].role == System &&
      forall j :: 0 <= j < r.value ==> messages[j].role != System
  {
    if |messages| == 0 then None
    else if messages[0].role == System then Some(0)
    else match FirstSystem(messages[1..])
      case None => None
      case Some(i) => Some(i + 1)
  }

  /** The system message rebuilt with the prompt: appended to string content, array content kept; `name` dropped. */
  function WithPrompt(existing: Message, prompt: string): Message
  {
    Message(existing.role, if existing.content.Text? then Text(existing.content.text + "\n\n" + prompt) else existing.content, None)
  }

  /** What `enhanceMessagesForStructuredResponse` returns. */
  function Enhanced(messages: seq<Message>, format: Option<ResponseFormat>, effort: Option<Effort>, ser: Serializer): seq<Message>
  {
    if format.None? then messages
    else
      var prompt := StructurePrompt(format.value, effort, ser);
      match FirstSystem(messages)
      case Some(i) => messages[i := WithPrompt(messages[i], prompt)]
      case None => [Message(System, Text(prompt), None)] + messages
  }

  /** `enhanceMessagesForStructuredResponse`: copy, build the prompt, then patch or insert the system message. */
  method EnhanceMessagesForStructuredResponse(messages: seq<Message>, format: Option<ResponseFormat>, effort: Option<Effort>, ser: Serializer)
    returns (enhanced: seq<Message>)
    ensures enhanced == Enhanced(messages, format, effort, ser)
  {
    enhanced := messages;
    if format.Some? {
      var structurePrompt := BuildStructurePrompt(format.value, effort, ser);
      var systemMessageIndex := FirstSystem(enhanced);
      if systemMessageIndex.Some? {
        var index := systemMessageIndex.value;
        var existing := enhanced[index];
        enhanced := enhanced[index := WithPrompt(existing, structurePrompt)];
      } else {
        enhanced := [Message(System, Text(structurePrompt), None)] + enhanced;
      }
    }
  }

  /** The `switch` on the format type, then the effort suffix. */
  method BuildStructurePrompt(f: ResponseFormat, effort: Option<Effort>, ser: Serializer) returns (structurePrompt: string)
    ensures structurePrompt == StructurePrompt(f, effort, ser)
  {
    structurePrompt := "";
    if f.formatType == "json_object" {
      structurePrompt := JsonObjectPrompt;
    } else if f.formatType == "json_schema" {
      if f.jsonSchema.Some? {
        structurePrompt := SchemaPrompt(f.jsonSchema.value, ser);
      }
    } else {
      structurePrompt := TextPrompt;
    }
    assert structurePrompt == FormatPrompt(f, ser);
    if effort.Some? {
      structurePrompt := structurePrompt + " " + EffortInstruction(effort.value);
    } else {
      assert structurePrompt == structurePrompt + "";
    }
  }

  /**
   * Without a format the messages come back unchanged. With one, the first system message is rebuilt
   * from its role and content alone, so it loses its `name`: string content gets the prompt, array
   * content is kept; nothing else changes. With no system message a new one holding the prompt goes
   * first. The list grows by at most one.
   */
  lemma EnhanceEffect(messages: seq<Message>, format: Option<ResponseFormat>, effort: Option<Effort>, ser: Serializer)
    ensures format.None? ==> Enhanced(messages, format, effort, ser) == messages
    ensures var r := Enhanced(messages, format, effort, ser);
      |messages| <= |r| <= |messages| + 1
    ensures format.Some? && (exists j :: 0 <= j < |messages| && messages[j].role == System) ==>
      var r := Enhanced(messages, format, effort, ser);
      var i := FirstSystem(messages).value;
      |r| == |messages| &&
      r[i].role == System && r[i].name == None &&
      (messages[i].content.Text? ==> r[i].content == Text(messages[i].content.text + "\n\n" + StructurePrompt(format.value, effort, ser))) &&
      (messages[i].content.Parts? ==> r[i].content == messages[i].content) &&
      (forall j :: 0 <= j < |messages| && j != i ==> r[j] == messages[j])
    ensures format.Some? && (forall j :: 0 <= j < |messages| ==> messages[j].role != System) ==>
      Enhanced(messages, format, effort, ser) == [Message(System, Text(StructurePrompt(format.value, effort, ser)), None)] + messages
  {
    if format.Some? {
      var prompt := StructurePrompt(format.value, effort, ser);
      var r := Enhanced(messages, format, effort, ser);
      match FirstSystem(messages)
      case Some(i) =>
        assert r == messages[i := WithPrompt(messages[i], prompt)];
      case None =>
        assert r == [Message(System, Text(prompt), None)] + messages;
    }
  }

  /**
   * The prompt starts with the format's own prompt and ends with the effort instruction when one is
   * given; it is empty only for a `json_schema` format without a schema and without an effort.
   */
  lemma StructurePromptShape(f: ResponseFormat, effort: Option<Effort>, ser: Serializer)
    ensures StructurePrompt(f, effort, ser) == "" <==> f.formatType == "json_schema" && f.jsonSchema.None? && effort.None?
    ensures f.formatType == "json_object" ==> JsonObjectPrompt <= StructurePrompt(f, effort, ser)
    ensures f.formatType != "json_object" && f.formatType != "json_schema" ==> TextPrompt <= StructurePrompt(f, effort, ser)
    ensures effort.Some? ==>
      var p, tail := StructurePrompt(f, effort, ser), " " + EffortInstruction(effort.value);
      |tail| <= |p| && p[|p| - |tail|..] == tail
  {
    var p := StructurePrompt(f, effort, ser);
    var fp := FormatPrompt(f, ser);
    if effort.Some? {
      var tail := " " + EffortInstruction(effort.value);
      assert p == fp + tail;
      assert p[|p| - |tail|..] == tail;
    } else {
      assert p == fp + "";
    }
    if f.formatType == "json_schema" && f.jsonSchema.Some? {
      assert |SchemaPrompt(f.jsonSchema.value, ser)| > 0;
    }
  }

  /**
   * A `json_schema` format without a schema and without an effort still rewrites the conversation:
   * the first string system message gains a bare `"\n\n"`, or an empty system message is put in front.
   */
  lemma SchemalessFormatAddsEmptyPrompt(messages: seq<Message>, f: ResponseFormat, ser: Serializer)
    requires f.formatType == "json_schema" && f.jsonSchema.None?
    ensures (forall j :: 0 <= j < |messages| ==> messages[j].role != System) ==>
      Enhanced(messages, Some(f), None, ser) == [Message(System, Text(""), None)] + messages
    ensures FirstSystem(messages).Some? && messages[FirstSystem(messages).value].content.Text? ==>
      var i := FirstSystem(messages).value;
      Enhanced(messages, Some(f), None, ser)[i].content == Text(messages[i].content.text + "\n\n")
  {
    StructurePromptShape(f, None, ser);
    EnhanceEffect(messages, Some(f), None, ser);
    if FirstSystem(messages).Some? {
      var i := FirstSystem(messages).value;
      assert messages[i].role == System;
      if messages[i].content.Text? {
        assert messages[i].content.text + "\n\n" + "" == messages[i].content.text + "\n\n";
      }
    }
  }

  // ----- streaming -----

  /** An `output_text` content part. */
  function PartJson(text: string): Json
  {
    JObj([("type", JStr("output_text")), ("text", JStr(text))])
  }

  /** The assistant output message with one text part. */
  function ItemJson(messageId: string, text: string, status: string): Json
  {
    JObj([("type", JStr("message")), ("id", JStr(messageId)), ("role", JStr("assistant")),
          ("content", JArr([PartJson(text)])), ("status", JStr(status))])
  }

  function UsageJson(inputTokens: int, outputTokens: int, totalTokens: int): Json
  {
    JObj([("input_tokens", JNum(inputTokens)), ("output_tokens", JNum(outputTokens)), ("total_tokens", JNum(totalTokens))])
  }

  /** A `response` object. */
  function ResponseJson(responseId: string, createdAt: int, model: string, output: seq<Json>, status: string, usage: Json): Json
  {
    JObj([("id", JStr(responseId)), ("object", JStr("response")), ("created_at", JNum(createdAt)), ("model", JStr(model)),
          ("output", JArr(output)), ("status", JStr(status)), ("usage", usage)])
  }

  function CreatedEvent(responseId: string, createdAt: int, model: string): Json
  {
    JObj([("type", JStr("response.created")),
          ("response", ResponseJson(responseId, createdAt, model, [], "in_progress", UsageJson(0, 0, 0)))])
  }

  function ItemAddedEvent(messageId: string): Json
  {
    JObj([("type", JStr("response.output_item.added")), ("output_index", JNum(0)), ("item", ItemJson(messageId, "", "in_progress"))])
  }

  const PartAddedEvent := JObj([("type", JStr("response.content_part.added")), ("output_index", JNum(0)),
                                ("content_index", JNum(0)), ("part", PartJson(""))])

  function DeltaEvent(fragment: string): Json
  {
    JObj([("type", JStr("response.output_text.delta")), ("output_index", JNum(0)), ("content_index", JNum(0)),
          ("delta", JStr(fragment))])
  }

  function TextDoneEvent(text: string): Json
  {
    JObj([("type", JStr("response.output_text.done")), ("output_index", JNum(0)), ("content_index", JNum(0)),
          ("text", JStr(text))])
  }

  function PartDoneEvent(text: string): Json
  {
    JObj([("type", JStr("response.content_part.done")), ("output_index", JNum(0)), ("content_index", JNum(0)),
          ("part", PartJson(text))])
  }

  function ItemDoneEvent(messageId: string, text: string): Json
  {
    JObj([("type", JStr("response.output_item.done")), ("output_index", JNum(0)), ("item", ItemJson(messageId, text, "completed"))])
  }

  /** The completed response: the finished item and usage whose total is input plus output. */
  function FinalResponse(responseId: string, messageId: string, model: string, text: string, createdAt: int,
                         inputTokens: int, outputTokens: int): Json
  {
    ResponseJson(responseId, createdAt, model, [ItemJson(messageId, text, "completed")], "completed",
                 UsageJson(inputTokens, outputTokens, inputTokens + outputTokens))
  }

  function ResponseDoneEvent(response: Json): Json
  {
    JObj([("type", JStr("response.done")), ("response", response)])
  }

  /** The frames `onStart` writes: the response is created, its output item and content part are added. */
  function StartFrames(responseId: string, messageId: string, model: string, createdAt: int): seq<Frame>
  {
    [EventFrame("response.created", CreatedEvent(responseId, createdAt, model)),
     EventFrame("response.output_item.added", ItemAddedEvent(messageId)),
     EventFrame("response.content_part.added", PartAddedEvent)]
  }

  /** The frame `onChunk` writes for one fragment. */
  function DeltaFrame(fragment: string): Frame
  {
    EventFrame("response.output_text.delta", DeltaEvent(fragment))
  }

  /** The frames `onEnd` writes: text, part and item done, the completed response with usage, then `[DONE]`. */
  function EndFrames(responseId: string, messageId: string, model: string, text: string, createdAt: int,
                     inputTokens: int, outputTokens: int): seq<Frame>
  {
    [EventFrame("response.output_text.done", TextDoneEvent(text)),
     EventFrame("response.content_part.done", PartDoneEvent(text)),
     EventFrame("response.output_item.done", ItemDoneEvent(messageId, text)),
     EventFrame("response.done", ResponseDoneEvent(FinalResponse(responseId, messageId, model, text, createdAt, inputTokens, outputTokens))),
     DoneFrame]
  }

  /** `onStart`: reads the clock for `created_at`, then writes its three frames; a refused write stops the rest. */
  method OnStart(w: Writer, p: Platform, responseId: string, messageId: string, model: string) returns (ok: bool)
    requires w.Valid() && w.status == Open
    modifies w, p
    ensures w.Valid() && w.status == Open
    ensures ok == Fits(old(w.frames), 3, w.capacity)
    ensures w.frames == Deliver(old(w.frames), StartFrames(responseId, messageId, model, p.nowMs(old(p.clockReads)) / 1000), w.capacity)
    ensures p.clockReads == old(p.clockReads) + 1 && p.uuidsDrawn == old(p.uuidsDrawn)
  {
    var createdAt := p.NowSeconds();
    ghost var fs := StartFrames(responseId, messageId, model, createdAt);
    DeliverCons(w.frames, fs, w.capacity);
    ok := WriteSSEEventWithType(w, "response.created", CreatedEvent(responseId, createdAt, model));
    if ok {
      DeliverCons(w.frames, fs[1..], w.capacity);
      ok := WriteSSEEventWithType(w, "response.output_item.added", ItemAddedEvent(messageId));
      if ok {
        assert fs[1..][1..] == fs[2..];
        DeliverCons(w.frames, fs[2..], w.capacity);
        ok := WriteSSEEventWithType(w, "response.content_part.added", PartAddedEvent);
        assert fs[2..][1..] == [];
      }
    }
  }

  /** `onChunk`: one `response.output_text.delta` frame carrying the fragment. */
  method OnChunk(w: Writer, chunk: string) returns (ok: bool)
    requires w.Valid() && w.status == Open
    modifies w
    ensures w.Valid() && w.status == Open
    ensures ok == Fits(old(w.frames), 1, w.capacity)
    ensures w.frames == Deliver(old(w.frames), [DeltaFrame(chunk)], w.capacity)
  {
    ok := WriteSSEEventWithType(w, "response.output_text.delta", DeltaEvent(chunk));
  }

  /**
   * `onEnd`: three frames, then the token counts and a clock reading for the completed response, then
   * `response.done` and `[DONE]`. The clock is read only when the first three writes went through.
   */
  method OnEnd(w: Writer, p: Platform, svc: Services, responseId: string, messageId: string, model: string,
               messages: seq<Message>, text: string) returns (ok: bool)
    requires w.Valid() && w.status == Open
    modifies w, p
    ensures w.Valid() && w.status == Open
    ensures ok == Fits(old(w.frames), 5, w.capacity)
    ensures w.frames == Deliver(old(w.frames),
      EndFrames(responseId, messageId, model, text, p.nowMs(old(p.clockReads)) / 1000,
                svc.estimateInputTokens(messages), svc.calculateTokens(text, model)), w.capacity)
    ensures p.clockReads == old(p.clockReads) + (if Fits(old(w.frames), 3, w.capacity) then 1 else 0)
    ensures p.uuidsDrawn == old(p.uuidsDrawn)
  {
    ghost var fs := EndFrames(responseId, messageId, model, text, p.nowMs(p.clockReads) / 1000,
                              svc.estimateInputTokens(messages), svc.calculateTokens(text, model));
    DeliverCons(w.frames, fs, w.capacity);
    ok := WriteSSEEventWithType(w, "response.output_text.done", TextDoneEvent(text));
    if !ok {
      return;
    }
    DeliverCons(w.frames, fs[1..], w.capacity);
    ok := WriteSSEEventWithType(w, "response.content_part.done", PartDoneEvent(text));
    if !ok {
      return;
    }
    assert fs[1..][1..] == fs[2..];
    DeliverCons(w.frames, fs[2..], w.capacity);
    ok := WriteSSEEventWithType(w, "response.output_item.done", ItemDoneEvent(messageId, text));
    if !ok {
      return;
    }
    assert fs[2..][1..] == fs[3..];
    var outputTokens := svc.calculateTokens(text, model);
    var inputTokens := svc.estimateInputTokens(messages);
    var createdAt := p.NowSeconds();
    var finalResponse := FinalResponse(responseId, messageId, model, text, createdAt, inputTokens, outputTokens);
    DeliverCons(w.frames, fs[3..], w.capacity);
    ok := WriteSSEEventWithType(w, "response.done", ResponseDoneEvent(finalResponse));
    if !ok {
      return;
    }
    assert fs[3..][1..] == [DoneFrame];
    ok := WriteSSEDone(w);
  }

  /** The whole stream for a list of fragments when every write goes through and the upstream ends cleanly. */
  function StreamFrames(responseId: string, messageId: string, model: string, startedAt: int, finishedAt: int,
                        fragments: seq<string>, inputTokens: int, outputTokens: int): seq<Frame>
  {
    StartFrames(responseId, messageId, model, startedAt) +
    seq(|fragments|, i requires 0 <= i < |fragments| => DeltaFrame(fragments[i])) +
    EndFrames(responseId, messageId, model, Join(fragments, ""), finishedAt, inputTokens, outputTokens)
  }

  /**
   * The event order of a Responses stream: created, output item added, content part added, one text
   * delta per fragment, text done, content part done, output item done, response done, then `[DONE]`.
   * Every typed frame carries its own event name in its `type` field.
   */
  lemma StreamOrder(responseId: string, messageId: string, model: string, startedAt: int, finishedAt: int,
                    fragments: seq<string>, inputTokens: int, outputTokens: int)
    ensures var f := StreamFrames(responseId, messageId, model, startedAt, finishedAt, fragments, inputTokens, outputTokens);
      Labels(f) ==
        ["response.created", "response.output_item.added", "response.content_part.added"] +
        seq(|fragments|, i => "response.output_text.delta") +
        ["response.output_text.done", "response.content_part.done", "response.output_item.done", "response.done", "[DONE]"]
    ensures var f := StreamFrames(responseId, messageId, model, startedAt, finishedAt, fragments, inputTokens, outputTokens);
      forall k :: 0 <= k < |f| && f[k].EventFrame? ==> Get(f[k].data, "type") == Some(JStr(f[k].event))
  {
    var f := StreamFrames(responseId, messageId, model, startedAt, finishedAt, fragments, inputTokens, outputTokens);
    var n := |fragments|;
    var names := ["response.created", "response.output_item.added", "response.content_part.added"] +
        seq(n, i => "response.output_text.delta") +
        ["response.output_text.done", "response.content_part.done", "response.output_item.done", "response.done", "[DONE]"];
    assert |f| == |names| == n + 8;
    forall k | 0 <= k < |f|
      ensures Label(f[k]) == names[k]
      ensures f[k].EventFrame? ==> Get(f[k].data, "type") == Some(JStr(f[k].event))
    {
      if 3 <= k < 3 + n {
        assert f[k] == DeltaFrame(fragments[k - 3]);
      }
    }
  }

  /** Every `response` object in a Responses stream carries the one response id drawn for it. */
  lemma StreamResponseIds(responseId: string, messageId: string, model: string, startedAt: int, finishedAt: int,
                          fragments: seq<string>, inputTokens: int, outputTokens: int)
    ensures var f := StreamFrames(responseId, messageId, model, startedAt, finishedAt, fragments, inputTokens, outputTokens);
      forall k :: 0 <= k < |f| && f[k].EventFrame? && At(f[k].data, ["response"]).Some? ==>
        At(f[k].data, ["response", "id"]) == Some(JStr(responseId))
  {
    var f := StreamFrames(responseId, messageId, model, startedAt, finishedAt, fragments, inputTokens, outputTokens);
    forall k | 0 <= k < |f| && f[k].EventFrame? && At(f[k].data, ["response"]).Some?
      ensures At(f[k].data, ["response", "id"]) == Some(JStr(responseId))
    {
      AtOne(f[k].data, "response");
      AtTwo(f[k].data, "response", "id");
      if k == 0 || k == |f| - 2 {
        MemberAt(f[k].data.members, "response", 1);
      }
    }
  }

  /** Every output item in a Responses stream carries the one message id drawn for it. */
  lemma StreamItemIds(responseId: string, messageId: string, model: string, startedAt: int, finishedAt: int,
                      fragments: seq<string>, inputTokens: int, outputTokens: int)
    ensures var f := StreamFrames(responseId, messageId, model, startedAt, finishedAt, fragments, inputTokens, outputTokens);
      forall k :: 0 <= k < |f| && f[k].EventFrame? && At(f[k].data, ["item"]).Some? ==>
        At(f[k].data, ["item", "id"]) == Some(JStr(messageId))
  {
    var f := StreamFrames(responseId, messageId, model, startedAt, finishedAt, fragments, inputTokens, outputTokens);
    forall k | 0 <= k < |f| && f[k].EventFrame? && At(f[k].data, ["item"]).Some?
      ensures At(f[k].data, ["item", "id"]) == Some(JStr(messageId))
    {
      AtOne(f[k].data, "item");
      AtTwo(f[k].data, "item", "id");
      if k == 1 || k == |f| - 3 {
        MemberAt(f[k].data.members, "item", 2);
        MemberAt(f[k].data.members[2].1.members, "id", 1);
      }
    }
  }

  /** The completed response's usage total is its input plus output tokens. */
  lemma StreamUsageTotal(responseId: string, messageId: string, model: string, startedAt: int, finishedAt: int,
                         fragments: seq<string>, inputTokens: int, outputTokens: int)
    ensures var f := StreamFrames(responseId, messageId, model, startedAt, finishedAt, fragments, inputTokens, outputTokens);
      Label(f[|f| - 2]) == "response.done" &&
      At(f[|f| - 2].data, ["response", "usage", "input_tokens"]) == Some(JNum(inputTokens)) &&
      At(f[|f| - 2].data, ["response", "usage", "output_tokens"]) == Some(JNum(outputTokens)) &&
      At(f[|f| - 2].data, ["response", "usage", "total_tokens"]) == Some(JNum(inputTokens + outputTokens))
  {
    var f := StreamFrames(responseId, messageId, model, startedAt, finishedAt, fragments, inputTokens, outputTokens);
    var done := f[|f| - 2].data;
    assert done == ResponseDoneEvent(FinalResponse(responseId, messageId, model, Join(fragments, ""), finishedAt, inputTokens, outputTokens));
    var response := done.members[1].1;
    var usage := response.members[6].1;
    MemberAt(done.members, "response", 1);
    MemberAt(response.members, "usage", 6);
    MemberAt(usage.members, "output_tokens", 1);
    MemberAt(usage.members, "total_tokens", 2);
    AtThree(done, "response", "usage", "input_tokens");
    AtThree(done, "response", "usage", "output_tokens");
    AtThree(done, "response", "usage", "total_tokens");
    AtTwo(response, "usage", "input_tokens");
    AtTwo(response, "usage", "output_tokens");
    AtTwo(response, "usage", "total_tokens");
  }

  // ----- non-streaming -----

  /** The answer text, re-serialised for the JSON formats when it parses, otherwise as extracted. */
  function ResponseText(data: UpstreamAnswer, format: Option<ResponseFormat>, svc: Services): string
  {
    var content := AnswerText(data);
    if format.Some? && (format.value.formatType == "json_object" || format.value.formatType == "json_schema") then
      match svc.reparseJson(content)
      case Some(normalised) => normalised
      case None => content
    else content
  }

  /**
   * `transformToResponsesFormat`, with its two UUIDs (the message id is drawn first) and its clock
   * reading passed in: a completed response with one output message and the upstream usage, `|| 0`.
   */
  function TransformToResponsesFormat(data: UpstreamAnswer, model: string, format: Option<ResponseFormat>, svc: Services,
                                      messageUuid: string, responseUuid: string, nowMs: nat): Json
  {
    ResponseJson("resp-" + responseUuid, nowMs / 1000, model, [ItemJson("msg-" + messageUuid, ResponseText(data, format, svc), "completed")],
                 "completed", UsageJson(OrZero(PromptTokens(data)), OrZero(CompletionTokens(data)), OrZero(TotalTokens(data))))
  }

  /** Read back, a non-streaming response carries the drawn response id and is completed. */
  lemma ResponsesFormatReadsBack(data: UpstreamAnswer, model: string, format: Option<ResponseFormat>, svc: Services,
                                 messageUuid: string, responseUuid: string, nowMs: nat)
    ensures var r := TransformToResponsesFormat(data, model, format, svc, messageUuid, responseUuid, nowMs);
      Get(r, "id") == Some(JStr("resp-" + responseUuid)) &&
      Get(r, "object") == Some(JStr("response")) &&
      Get(r, "status") == Some(JStr("completed"))
  {
    var r := TransformToResponsesFormat(data, model, format, svc, messageUuid, responseUuid, nowMs);
    MemberAt(r.members, "object", 1);
    MemberAt(r.members, "status", 5);
  }

  /**
   * The output of a non-streaming response is one completed message item. Its text is the answer
   * re-serialised when the format asks for JSON and the answer parses, and the answer unchanged
   * in every other case.
   */
  lemma ResponsesOutputReadsBack(data: UpstreamAnswer, model: string, format: Option<ResponseFormat>, svc: Services,
                                 messageUuid: string, responseUuid: string, nowMs: nat)
    ensures var r := TransformToResponsesFormat(data, model, format, svc, messageUuid, responseUuid, nowMs);
      var raw := AnswerText(data);
      var wantsJson := format.Some? && (format.value.formatType == "json_object" || format.value.formatType == "json_schema");
      Get(r, "output") ==
        Some(JArr([ItemJson("msg-" + messageUuid, if wantsJson && svc.reparseJson(raw).Some? then svc.reparseJson(raw).value else raw,
                            "completed")]))
  {
    var r := TransformToResponsesFormat(data, model, format, svc, messageUuid, responseUuid, nowMs);
    MemberAt(r.members, "output", 4);
  }


  /** Each usage count of a non-streaming response is the upstream's when truthy and 0 otherwise. */
  lemma ResponsesUsageDefaultsToZero(data: UpstreamAnswer, model: string, format: Option<ResponseFormat>, svc: Services,
                                     messageUuid: string, responseUuid: string, nowMs: nat)
    ensures var r := TransformToResponsesFormat(data, model, format, svc, messageUuid, responseUuid, nowMs);
      At(r, ["usage", "input_tokens"]) == Some(JNum(if TruthyNum(PromptTokens(data)) then PromptTokens(data).value else 0)) &&
      At(r, ["usage", "output_tokens"]) == Some(JNum(if TruthyNum(CompletionTokens(data)) then CompletionTokens(data).value else 0)) &&
      At(r, ["usage", "total_tokens"]) == Some(JNum(if TruthyNum(TotalTokens(data)) then TotalTokens(data).value else 0))
  {
    var r := TransformToResponsesFormat(data, model, format, svc, messageUuid, responseUuid, nowMs);
    MemberAt(r.members, "usage", 6);
    var usage := r.members[6].1;
    MemberAt(usage.members, "output_tokens", 1);
    MemberAt(usage.members, "total_tokens", 2);
    AtTwo(r, "usage", "input_tokens");
    AtTwo(r, "usage", "output_tokens");
    AtTwo(r, "usage", "total_tokens");
  }
}
