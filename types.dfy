/**
 * Message shapes shared by the three wire formats (the internal chat message of the gateway),
 * the upstream answer, and the collaborators the core calls but does not define.
 */
module Types {
  import opened Wrappers
  import opened Json

  datatype Role = System | User | Assistant

  datatype Detail = Auto | Low | High

  /** One typed content part: `{type: "text", text}` or `{type: "image_url", image_url: {url, detail?}}`. */
  datatype Part = TextPart(text: string) | ImagePart(url: string, detail: Option<Detail>)

  /** Message content: a plain string or an ordered list of parts. */
  datatype Content = Text(text: string) | Parts(parts: seq<Part>)

  datatype Message = Message(role: Role, content: Content, name: Option<string>)

  /** JavaScript truthiness of an optional string: present and non-empty. */
  predicate Truthy(s: Option<string>)
  {
    s.Some? && s.value != ""
  }

  /** JavaScript truthiness of an optional number (NaN is not modelled): present and non-zero. */
  predicate TruthyNum(n: Option<int>)
  {
    n.Some? && n.value != 0
  }

  /** `n || 0` on an optional count. */
  function OrZero(n: Option<int>): int
  {
    if TruthyNum(n) then n.value else 0
  }

  /** Web-search settings extracted from a model name by the model parser; opaque to the core. */
  datatype WebSearchConfig = WebSearchConfig(settings: Json)

  /** What the model parser returns: a clean model name, optional settings, or an error message. */
  datatype ParsedModel = ParsedModel(cleanModel: string, webSearch: Option<WebSearchConfig>, error: Option<string>)

  /**
   * The collaborators whose code is not part of this model, injected as pure functions:
   * the model parser and vision capability table, the image-url extractor, the two token
   * estimators, `JSON.parse` followed by `JSON.stringify` (None when parsing throws),
   * `JSON.stringify` itself, and the configured default model name.
   */
  datatype Services = Services(
    parseModel: string -> ParsedModel,
    supportsVision: string -> bool,
    imageOf: seq<Part> -> Option<string>,
    calculateTokens: (string, string) -> nat,
    estimateInputTokens: seq<Message> -> nat,
    reparseJson: string -> Option<string>,
    stringify: Serializer,
    defaultModel: string)

  /** `requestBody.model || DEFAULT_MODEL`. */
  function RawModel(model: Option<string>, svc: Services): (r: string)
    ensures Truthy(model) ==> r == model.value
    ensures !Truthy(model) ==> r == svc.defaultModel
    ensures r == "" ==> svc.defaultModel == ""
  {
    if Truthy(model) then model.value else svc.defaultModel
  }

  /** The upstream's token counts, each of which may be missing. */
  datatype UpstreamUsage = UpstreamUsage(promptTokens: Option<int>, completionTokens: Option<int>, totalTokens: Option<int>)

  /**
   * A complete (non-streaming) upstream answer: `aiRecord.aiRecordDetail.resultObject` (None when
   * any link of that chain is missing), a plain `content` field, and `usage`.
   */
  datatype UpstreamAnswer = UpstreamAnswer(resultObject: Option<seq<string>>, content: Option<string>, usage: Option<UpstreamUsage>)

  const NoResponse := "No response generated"

  /** `resultObject?.[0]`: the first result, if there is one. */
  function FirstResult(data: UpstreamAnswer): Option<string>
  {
    if data.resultObject.Some? && |data.resultObject.value| > 0 then Some(data.resultObject.value[0]) else None
  }

  /**
   * The answer text all three transformers extract: the first structured result if truthy, else
   * the content field if truthy, else the fixed placeholder. A sparse answer never fails.
   */
  function AnswerText(data: UpstreamAnswer): (r: string)
    ensures r != ""
    ensures Truthy(FirstResult(data)) ==> r == FirstResult(data).value
    ensures !Truthy(FirstResult(data)) && Truthy(data.content) ==> r == data.content.value
    ensures !Truthy(FirstResult(data)) && !Truthy(data.content) ==> r == NoResponse
  {
    if Truthy(FirstResult(data)) then FirstResult(data).value
    else if Truthy(data.content) then data.content.value
    else NoResponse
  }

  function PromptTokens(data: UpstreamAnswer): Option<int>
  {
    if data.usage.Some? then data.usage.value.promptTokens else None
  }

  function CompletionTokens(data: UpstreamAnswer): Option<int>
  {
    if data.usage.Some? then data.usage.value.completionTokens else None
  }

  function TotalTokens(data: UpstreamAnswer): Option<int>
  {
    if data.usage.Some? then data.usage.value.totalTokens else None
  }
}
