/** The flat (OpenAI chat-completions) side: the translated request, the upstream response
    and the upstream stream frames. */
module OpenAI {
  import opened Wrappers
  import opened JsonValues

  /** One part of a list-valued content: `{type: text}` or `{type: image_url}`. */
  datatype Part = TextPart(text: string) | ImageUrlPart(url: string)

  datatype FlatContent = FText(text: string) | FParts(parts: seq<Part>)

  /** `{id, type: "function", function: {name, arguments}}`. */
  datatype ToolCall = ToolCall(id: string, name: string, arguments: string)

  /** A flat message: `{role, content}`, an assistant message with `tool_calls`
      (content null when `text` is None), or a `role=tool` result. */
  datatype FlatMessage =
    | Plain(role: string, content: FlatContent)
    | AssistantCalls(text: Option<string>, calls: seq<ToolCall>)
    | ToolReply(result: string, toolCallId: string)

  /** `{type: "function", function: {name, description, parameters}}`. */
  datatype FnTool = FnTool(name: Option<string>, description: Option<string>, parameters: Json)

  /** A translated tool choice: null, one of the mode strings, or a named function. */
  datatype ToolChoiceOut = NoChoice | Mode(mode: string) | Function(name: string)

  /** The translated request. An outer None is a key the translation does not set;
      `includeUsage` is `stream_options: {include_usage: true}`. */
  datatype ConvertedRequest = ConvertedRequest(
    model: string,
    messages: seq<FlatMessage>,
    maxTokens: Json,
    stream: bool,
    includeUsage: bool,
    temperature: Option<Json>,
    topP: Option<Json>,
    stop: Option<Json>,
    tools: Option<Option<seq<FnTool>>>,
    toolChoice: Option<ToolChoiceOut>,
    user: Option<string>)

  /** A tool call of a complete response; `name` and `arguments` are read from its `function`. */
  datatype UpstreamCall = UpstreamCall(id: Option<string>, name: Option<string>, arguments: Option<string>)

  /** A choice's `message`; an absent message is `{}`, that is no content and no calls. */
  datatype ChoiceMessage = ChoiceMessage(content: Option<string>, toolCalls: seq<UpstreamCall>)

  datatype Choice = Choice(message: ChoiceMessage, finishReason: Option<string>)

  datatype Usage = Usage(promptTokens: Option<int>, completionTokens: Option<int>)

  /** A complete response; an absent `usage` is `{}`. */
  datatype UpstreamResponse = UpstreamResponse(choices: Option<seq<Choice>>, usage: Usage)

  /** One entry of a delta's `tool_calls`; its `index` key is never read and is not kept. */
  datatype ToolCallDelta = ToolCallDelta(id: Option<string>, name: Option<string>, arguments: Option<string>)

  /** What the proxy reads from one stream frame: `usage.completion_tokens` (Some only when
      `usage` is a non-empty object holding that key), the first choice's `finish_reason`,
      and its delta's `content` and `tool_calls` (an absent list is empty). */
  datatype Frame = Frame(
    completionTokens: Option<int>,
    finishReason: Option<string>,
    content: Option<string>,
    toolCalls: seq<ToolCallDelta>)

  /** The outcome of decoding one `data:` payload: not JSON (skipped), JSON whose shape makes
      the field reads raise (the stream ends with an error), or a frame. */
  datatype Decoded = NotJson | Raises(message: string) | Parsed(frame: Frame)
}
