/** The block-structured (Anthropic Messages) side: request bodies, response bodies and
    streaming events. An `Option` field is a dictionary key the proxy reads with `.get`. */
module Anthropic {
  import opened Wrappers
  import opened JsonValues

  /** An image block's `source` object: the three keys the proxy reads, and how many other
      keys (such as `url`) it holds. It is truthy when it has at least one key of either kind. */
  datatype ImageSource = ImageSource(sourceType: Option<string>, mediaType: Option<string>, data: Option<string>,
                                     otherKeys: nat) {
    predicate Truthy() {
      sourceType.Some? || mediaType.Some? || data.Some? || otherKeys > 0
    }
  }

  /** One content block, dispatched on its `type` key; `OtherBlock` is any other or a missing type. */
  datatype Block =
    | TextBlock(text: Option<string>)
    | ImageBlock(source: Option<ImageSource>)
    | ToolUseBlock(id: Option<string>, name: Option<string>, input: Option<Json>)
    | ToolResultBlock(toolUseId: Option<string>, content: Content)
    | OtherBlock(kind: Option<string>)

  /** A `content` (or `system`) value: a string, a list of blocks, or absent (for a tool result,
      absent reads as ""; for a message, a value that is neither a string nor a list). */
  datatype Content = Str(s: string) | Blocks(blocks: seq<Block>) | Absent {
    /** Python truthiness of the value. */
    predicate Truthy() {
      match this
      case Str(s) => s != ""
      case Blocks(bs) => bs != []
      case Absent => false
    }
  }

  datatype Message = Message(role: string, content: Content)

  /** A tool definition as the client sends it. */
  datatype ToolDef = ToolDef(name: Option<string>, description: Option<string>, inputSchema: Option<Json>)

  /** A request body. `tools` and the sampling fields are None when their key is absent;
      `toolChoice` is the choice object (a null choice behaves like `{}` and is the empty map);
      `userId` is `metadata.user_id`; a missing `messages` key is the empty list. */
  datatype Request = Request(
    model: string,
    messages: seq<Message>,
    system: Content,
    maxTokens: Option<Json>,
    stream: bool,
    temperature: Option<Json>,
    topP: Option<Json>,
    stopSequences: Option<Json>,
    tools: Option<seq<ToolDef>>,
    toolChoice: Option<map<string, string>>,
    userId: Option<string>)

  /** The three stop reasons the proxy ever reports. */
  datatype StopReason = EndTurn | MaxTokens | ToolUse

  /** A content block of a (non-streaming) response. */
  datatype ResponseBlock =
    | RText(text: string)
    | RToolUse(id: Option<string>, name: Option<string>, input: Json)

  /** A response body; `type`, `role` and `stop_sequence` are the constants
      "message", "assistant" and null and are not stored. */
  datatype Response = Response(
    id: string,
    content: seq<ResponseBlock>,
    model: string,
    stopReason: StopReason,
    inputTokens: int,
    outputTokens: int)

  /** One server-sent event of a streamed response, by its `event:` name. */
  datatype Event =
    | MessageStart(id: string, model: string, inputTokens: int, outputTokens: int)
    | TextBlockStart(index: nat)
    | ToolUseBlockStart(index: nat, id: string, name: string)
    | TextDelta(index: nat, text: string)
    | InputJsonDelta(index: nat, partialJson: string)
    | BlockStop(index: nat)
    | MessageDelta(stopReason: StopReason, outputTokens: int)
    | MessageStop
    | Error(message: string)
  {
    /** The `content_block_*` events, the ones that carry an index. */
    predicate IsContent() {
      TextBlockStart? || ToolUseBlockStart? || TextDelta? || InputJsonDelta? || BlockStop?
    }
  }
}
