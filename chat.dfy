/**
 * The OpenAI Chat Completions adapter: request validation, the streaming callbacks that turn each
 * decoded fragment into a `chat.completion.chunk`, and the non-streaming transformer.
 */
module ChatHandler {
  import opened Wrappers
  import opened Json
  import opened Types
  import opened Errors
  import opened Runtime
  import opened Sse
  import opened MessageProcessing
  import opened ModelValidation

  /** The fields of a chat request the gateway reads (`messages` is None when missing or not an array). */
  datatype ChatRequest = ChatRequest(messages: Option<seq<Message>>, model: Option<string>, stream: bool)

  const MessagesRequired := "Messages field is required and must be an array"

  /**
   * What the handler decides before calling upstream: an error response with a message, an error
   * raised by validation, or a validated request to serve as a stream or as one JSON reply.
   */
  datatype Decision = Rejected(message: string) | Failed(error: AppError) | Proceed(validated: ValidatedModel, stream: bool)

  /** `handleChatCompletionsWithBody` up to the upstream call. */
  function Decide(req: ChatRequest, svc: Services): (r: Decision)
    ensures r.Rejected? <==> req.messages.None?
    ensures r.Rejected? ==> r.message == MessagesRequired
    ensures r.Failed? ==> ValidateModelAndMessages(RawModel(req.model, svc), req.messages.value, svc) == Failure(r.error)
    ensures r.Proceed? ==>
      r.stream == req.stream &&
      ValidateModelAndMessages(RawModel(req.model, svc), req.messages.value, svc) == Success(r.validated)
  {
    if req.messages.None? then Rejected(MessagesRequired)
    else
      match ValidateModelAndMessages(RawModel(req.model, svc), req.messages.value, svc)
      case Failure(e) => Failed(e)
      case Success(v) => Proceed(v, req.stream)
  }

  /**
   * A chat request is served exactly when it has messages and its model (the default when none is
   * given) parses, is in the catalogue and, if any message carries an image, supports vision.
   */
  lemma ChatProceedsIff(req: ChatRequest, svc: Services)
    ensures Decide(req, svc).Proceed? <==>
      req.messages.Some? &&
      var parsed := svc.parseModel(RawModel(req.model, svc));
      !Truthy(parsed.error) && parsed.cleanModel in AvailableModels &&
      (forall i :: 0 <= i < |req.messages.value| && HasImage(req.messages.value[i], svc.imageOf) ==>
         svc.supportsVision(parsed.cleanModel))
    ensures Decide(req, svc).Proceed? && !Truthy(req.model) ==>
      Decide(req, svc).validated.cleanModel == svc.parseModel(svc.defaultModel).cleanModel
  {
    if req.messages.Some? {
      ValidationSucceedsIff(RawModel(req.model, svc), req.messages.value, svc);
    }
  }

  // ----- streaming -----

  /** The frame for one decoded fragment: a chunk with `{content: fragment}` and a null finish reason. */
  function ChunkFrame(id: string, created: int, model: string, fragment: string): Frame
  {
    DataFrame(ChunkJson(id, created, model, Delta(None, Some(fragment)), None))
  }

  /** The closing frames: a chunk with an empty delta and finish reason "stop", then `[DONE]`. */
  function EndFrames(id: string, created: int, model: string): seq<Frame>
  {
    [DataFrame(ChunkJson(id, created, model, EmptyDelta, Some("stop"))), DoneFrame]
  }

  /** The chunk id drawn from the k-th UUID, and the k-th clock reading in seconds. */
  function FreshId(uuid: nat -> string, k: nat): string
  {
    "chatcmpl-" + uuid(k)
  }

  /** `onChunk`: one chunk frame with a freshly drawn id and the current time. */
  method OnChunk(w: Writer, p: Platform, model: string, chunk: string) returns (ok: bool)
    requires w.Valid() && w.status == Open
    modifies w, p
    ensures w.Valid() && w.status == Open
    ensures ok == Fits(old(w.frames), 1, w.capacity)
    ensures w.frames == Deliver(old(w.frames),
      [ChunkFrame(FreshId(p.uuid, old(p.uuidsDrawn)), p.nowMs(old(p.clockReads)) / 1000, model, chunk)], w.capacity)
    ensures p.uuidsDrawn == old(p.uuidsDrawn) + 1 && p.clockReads == old(p.clockReads) + 1
  {
    var returnChunk := CreateOpenAISSEChunk(p, model, Delta(None, Some(chunk)), None, None);
    ok := WriteSSEEvent(w, returnChunk);
  }

  /** `onEnd`: the final chunk, then the `[DONE]` sentinel; a refused write stops the rest. */
  method OnEnd(w: Writer, p: Platform, model: string) returns (ok: bool)
    requires w.Valid() && w.status == Open
    modifies w, p
    ensures w.Valid() && w.status == Open
    ensures ok == Fits(old(w.frames), 2, w.capacity)
    ensures w.frames == Deliver(old(w.frames),
      EndFrames(FreshId(p.uuid, old(p.uuidsDrawn)), p.nowMs(old(p.clockReads)) / 1000, model), w.capacity)
    ensures p.uuidsDrawn == old(p.uuidsDrawn) + 1 && p.clockReads == old(p.clockReads) + 1
  {
    var finalChunk := CreateOpenAISSEChunk(p, model, EmptyDelta, Some("stop"), None);
    ghost var log := w.frames;
    var fs := EndFrames(FreshId(p.uuid, old(p.uuidsDrawn)), p.nowMs(old(p.clockReads)) / 1000, model);
    DeliverAppend(log, [fs[0]], [fs[1]], w.capacity);
    assert fs == [fs[0]] + [fs[1]];
    ok := WriteSSEEvent(w, finalChunk);
    if ok {
      ok := WriteSSEDone(w);
    }
  }

  /** One chunk per fragment, the k-th with the k-th UUID and clock reading after `u0` and `c0`. */
  function FragmentFrames(uuid: nat -> string, nowMs: nat -> nat, u0: nat, c0: nat, model: string, fragments: seq<string>): seq<Frame>
  {
    seq(|fragments|, k requires 0 <= k < |fragments| => ChunkFrame(FreshId(uuid, u0 + k), nowMs(c0 + k) / 1000, model, fragments[k]))
  }

  /**
   * The whole chat stream when every write goes through: the k-th fragment is sent with the k-th UUID
   * and clock reading after `u0` and `c0`, and the closing chunk with the next ones.
   */
  function StreamFrames(uuid: nat -> string, nowMs: nat -> nat, u0: nat, c0: nat, model: string, fragments: seq<string>): seq<Frame>
  {
    FragmentFrames(uuid, nowMs, u0, c0, model, fragments) +
    EndFrames(FreshId(uuid, u0 + |fragments|), nowMs(c0 + |fragments|) / 1000, model)
  }

  /**
   * A chat stream is one unlabeled chunk per fragment, carrying that fragment as its delta content
   * with a null finish reason, then a chunk with an empty delta and finish reason "stop", then
   * `[DONE]`.
   */
  lemma StreamOrder(uuid: nat -> string, nowMs: nat -> nat, u0: nat, c0: nat, model: string, fragments: seq<string>)
    ensures var f := StreamFrames(uuid, nowMs, u0, c0, model, fragments);
      Labels(f) == seq(|fragments| + 1, i => "") + ["[DONE]"]
    ensures var f := StreamFrames(uuid, nowMs, u0, c0, model, fragments);
      forall k :: 0 <= k < |fragments| ==>
        f[k].DataFrame? && At(f[k].data, ["choices"]) == Some(JArr([ChoiceJson(Delta(None, Some(fragments[k])), None)]))
    ensures var f := StreamFrames(uuid, nowMs, u0, c0, model, fragments);
      f[|fragments|].DataFrame? && At(f[|fragments|].data, ["choices"]) == Some(JArr([ChoiceJson(EmptyDelta, Some("stop"))]))
  {
    var f := StreamFrames(uuid, nowMs, u0, c0, model, fragments);
    var n := |fragments|;
    assert |f| == n + 2;
    forall k | 0 <= k <= n
      ensures f[k].DataFrame? && At(f[k].data, ["choices"]) ==
        Some(JArr([ChoiceJson(if k < n then Delta(None, Some(fragments[k])) else EmptyDelta, if k < n then None else Some("stop"))]))
    {
      var c := f[k].data;
      MemberAt(c.members, "choices", 4);
      AtOne(c, "choices");
    }
  }

  /**
   * Every chunk of a chat stream carries its own freshly drawn id: no two chunks share one when the
   * UUID supply never repeats itself.
   */
  lemma StreamIdsAreFresh(uuid: nat -> string, nowMs: nat -> nat, u0: nat, c0: nat, model: string, fragments: seq<string>)
    requires forall i, j :: uuid(i) == uuid(j) ==> i == j
    ensures var f := StreamFrames(uuid, nowMs, u0, c0, model, fragments);
      forall k :: 0 <= k <= |fragments| ==> Get(f[k].data, "id") == Some(JStr(FreshId(uuid, u0 + k)))
    ensures var f := StreamFrames(uuid, nowMs, u0, c0, model, fragments);
      forall j, k :: 0 <= j < k <= |fragments| ==> Get(f[j].data, "id") != Get(f[k].data, "id")
  {
    var f := StreamFrames(uuid, nowMs, u0, c0, model, fragments);
    forall j, k | 0 <= j < k <= |fragments|
      ensures Get(f[j].data, "id") != Get(f[k].data, "id")
    {
      var a := FreshId(uuid, u0 + j);
      var b := FreshId(uuid, u0 + k);
      assert a[|"chatcmpl-"|..] == uuid(u0 + j);
      assert b[|"chatcmpl-"|..] == uuid(u0 + k);
    }
  }

  // ----- non-streaming -----

  /**
   * `transformToOpenAIFormat`, with the UUID and the clock reading it draws passed in: a
   * `chat.completion` with one assistant choice and the upstream usage, each count `|| 0`.
   */
  function TransformToOpenAIFormat(data: UpstreamAnswer, model: string, uuid: string, nowMs: nat): Json
  {
    JObj([("id", JStr("chatcmpl-" + uuid)), ("object", JStr("chat.completion")), ("created", JNum(nowMs / 1000)),
          ("model", JStr(model)),
          ("choices", JArr([CompletionChoiceJson(AnswerText(data))])),
          ("usage", JObj([("prompt_tokens", JNum(OrZero(PromptTokens(data)))),
                          ("completion_tokens", JNum(OrZero(CompletionTokens(data)))),
                          ("total_tokens", JNum(OrZero(TotalTokens(data))))]))])
  }

  /**
   * Read back through member lookups, a completion is a `chat.completion` for the model, with the
   * drawn id and a single choice holding the extracted answer text.
   */
  lemma ChatCompletionReadsBack(data: UpstreamAnswer, model: string, uuid: string, nowMs: nat)
    ensures var r := TransformToOpenAIFormat(data, model, uuid, nowMs);
      Get(r, "id") == Some(JStr("chatcmpl-" + uuid)) &&
      Get(r, "object") == Some(JStr("chat.completion")) &&
      Get(r, "model") == Some(JStr(model)) &&
      Get(r, "choices") == Some(JArr([CompletionChoiceJson(AnswerText(data))]))
  {
    var r := TransformToOpenAIFormat(data, model, uuid, nowMs);
    MemberAt(r.members, "object", 1);
    MemberAt(r.members, "model", 3);
    MemberAt(r.members, "choices", 4);
  }

  /** The single choice of a completion: index 0, an assistant message with the text, finish reason "stop". */
  function CompletionChoiceJson(text: string): Json
  {
    JObj([("index", JNum(0)), ("message", JObj([("role", JStr("assistant")), ("content", JStr(text))])),
          ("finish_reason", JStr("stop"))])
  }

  lemma CompletionChoiceReadsBack(text: string)
    ensures var choice := CompletionChoiceJson(text);
      Get(choice, "index") == Some(JNum(0)) &&
      At(choice, ["message", "role"]) == Some(JStr("assistant")) &&
      At(choice, ["message", "content"]) == Some(JStr(text)) &&
      Get(choice, "finish_reason") == Some(JStr("stop"))
  {
    var choice := CompletionChoiceJson(text);
    MemberAt(choice.members, "message", 1);
    MemberAt(choice.members, "finish_reason", 2);
    var message := choice.members[1].1;
    MemberAt(message.members, "content", 1);
    AtTwo(choice, "message", "role");
    AtTwo(choice, "message", "content");
  }


  /** Each usage count of a completion is the upstream's when truthy and 0 otherwise. */
  lemma ChatUsageDefaultsToZero(data: UpstreamAnswer, model: string, uuid: string, nowMs: nat)
    ensures var r := TransformToOpenAIFormat(data, model, uuid, nowMs);
      At(r, ["usage", "prompt_tokens"]) == Some(JNum(if TruthyNum(PromptTokens(data)) then PromptTokens(data).value else 0)) &&
      At(r, ["usage", "completion_tokens"]) == Some(JNum(if TruthyNum(CompletionTokens(data)) then CompletionTokens(data).value else 0)) &&
      At(r, ["usage", "total_tokens"]) == Some(JNum(if TruthyNum(TotalTokens(data)) then TotalTokens(data).value else 0))
  {
    var r := TransformToOpenAIFormat(data, model, uuid, nowMs);
    MemberAt(r.members, "usage", 5);
    var usage := r.members[5].1;
    MemberAt(usage.members, "completion_tokens", 1);
    MemberAt(usage.members, "total_tokens", 2);
    AtTwo(r, "usage", "prompt_tokens");
    AtTwo(r, "usage", "completion_tokens");
    AtTwo(r, "usage", "total_tokens");
  }
}
