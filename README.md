# A verified model of the proxy's translation engine

`proxy.py` is an HTTP proxy. It accepts requests in the Anthropic Messages format, forwards them
to an OpenAI-compatible chat-completions upstream, and translates the answers back. This
project models the deterministic engine inside it, in Dafny, and proves properties of it:

- **Request translation** (`request.dfy`, properties in `request_props.dfy`):
  - `validate_model`;
  - `content_to_string`;
  - `convert_messages`:
    - the leading system message;
    - string contents;
    - an assistant message with tool-use blocks becomes one message carrying `tool_calls`;
    - tool-result blocks become `role=tool` messages;
    - in the text-and-image branch, a single text part collapses to a string;
  - `convert_tools`, `convert_tool_choice` and `convert_request`.
- **Response translation** (`response.dfy`): `convert_response` and the finish-reason table.
- **Token accounting** (`tokens.dfy`):
  - `estimate_request_tokens`;
  - the arithmetic of the count-tokens endpoint;
  - the cases where the two agree, and examples of where they differ.
- **Stream reconstruction** (`lines.dfy`, `stream.dfy`, properties in `stream_props.dfy`): the
  loop of `stream_and_convert`. It has two layers:
  - a line buffer, which cuts the chunked upstream text into complete lines and keeps an
    unfinished remainder;
  - a state machine over the decoded `data:` frames, with state `idx`, `txt_started`,
    `tool_started`, `stop` and `out_tok`, which yields the block-structured stream events.

The other files hold the data model:
- `anthropic.dfy`: requests, responses and stream events on the block-structured side;
- `openai.dfy`: the flat side;
- `json.dfy`: JSON values and the foreign library functions;
- `wrappers.dfy`: an `Option` type;
- `strings.dfy`: the string helpers (concatenation, join, split).

## How the model is built

**Where the model follows the source's form:**
- Pure comprehensions are Dafny functions.
- Loops are Dafny methods with the source's loops and variables:
  - `convert_messages` appends to `result`;
  - `estimate_request_tokens` and the endpoint accumulate totals in nested loops;
  - `convert_response` appends to `content`;
  - the stream loop updates `buf` and the state variables while it emits events.
- Each method is proved equal to a specification function. The properties are lemmas about
  those functions.

**What the model takes as parameters:**
- **The foreign library functions:**
  - tiktoken's `len(encode(text))`, `json.dumps` and `json.loads` are the three fields of a
    `Library` value;
  - `loads` yields `None` where `json.loads` raises;
  - none of the three is interpreted.
- **Ids:**
  - message ids are parameters;
  - a tool-use block without an id gets `"call_" + mint(i, j)`, where `mint` is a parameter
    standing for the random hex digits.
- **Decoding in the stream:** decoding one `data:` payload is a parameter `decode`, with three
  outcomes:
  - not JSON, so the frame is skipped (lines 229-230);
  - JSON whose reading raises another exception, so the stream ends with the error event of
    lines 241-243;
  - the fields the loop reads.
- **The upstream:** either a failed status with its body (lines 177-180), or the sequence of
  text chunks it sends.

**How dictionaries are represented:**
- A dictionary key read with `.get` is an `Option` field, and its default is applied where the
  source applies it.
- Objects are typed records.
- JSON that is only copied or serialised is the `Json` datatype.

**Behaviour of the code that the model keeps, and proves where it matters:**
- Usage comes from the upstream:
  - the complete response copies `prompt_tokens` and `completion_tokens`, each defaulting to 0;
  - the stream reports the last `completion_tokens` it saw, starting from 0;
  - `message_start` carries the estimate of the translated request.
- A text delta does not close an open tool block. The text block then starts at the tool
  block's index, and the next tool call closes both blocks, one index apart.
  `TextDuringToolExample` shows this.
- The stream keeps the previous stop reason when a frame's finish reason is not in the table.
  The complete-response path maps the same reason to `end_turn` (`UnknownFinishKeepsStop`). The
  two agree whenever the last finish reason is one the table knows (`StopReasonsAgree`).
- The count-tokens endpoint counts the request body, not the translation.
  `EndpointMatchesEstimate` gives conditions under which it agrees with the estimate:
  - the system prompt is absent or a string;
  - there are no tools;
  - every content is a string or a non-empty list of text and image blocks.
  `EmptyListMessageCountsDiffer` and `ToolResultCountsDiffer` show that the two can differ
  otherwise.
- The remainder left in the line buffer after the last chunk is never processed: a final line
  without a newline is dropped. `StreamSummary` describes the stream in terms of the released
  lines only.
- With `include_usage` set, the upstream's usage frame has an empty `choices` list. Taking its
  first choice (line 197) raises an `IndexError`, which is not a JSON error. So the stream ends
  with the error event of lines 241-243: an open block is not stopped, and no `message_delta`
  carries the usage. `UsageOnlyFrameEndsStream` shows this.

## Model

| member | source | states |
|---|---|---|
| RequestTranslation.ValidateModel | proxy.py:52-55 | a model is accepted exactly when "claude" occurs in its name; a rejection carries the message that quotes the name |
| RequestTranslation.Filter | proxy.py:71-74 | the selected blocks all have the requested type and come from the content; the selection is empty exactly when no block has that type |
| RequestTranslation.FilterSingle | proxy.py:71-74 | one block is selected exactly when it has the requested type |
| RequestTranslation.FilterAppend | proxy.py:71-74 | selecting from a concatenation selects from each part in turn; with `FilterSingle` this fixes the selection, in order and with repetitions |
| RequestProperties.ContentToStringOnlyText | proxy.py:57-59 | `content_to_string` of a list looks only at its text blocks and distributes over list concatenation |
| RequestTranslation.ConvertMessages | proxy.py:61-91 | the appending loop returns the optional system message followed by each message's translation, in message order |
| RequestTranslation.ConvertMessage | proxy.py:67-90 | one iteration of the loop appends exactly that message's translation (string, tool calls, tool results, parts, or nothing) |
| RequestProperties.SystemLeads | proxy.py:63-65 | a truthy system prompt adds exactly one leading `system` message (the string, or the text blocks joined by "\n") and a falsy one adds none |
| RequestProperties.CallsFollowToolUses | proxy.py:76-77 | there is one call per tool-use block, in order; its name defaults to ""; its arguments are `dumps` of the input (default `{}`); its id is the block's id or starts with `call_` |
| RequestProperties.AssistantToolUseMessage | proxy.py:75-78 | an assistant message with a tool-use block becomes exactly one assistant message; its content is the concatenated texts, or null when there is no text block; its calls are those of its tool-use blocks |
| RequestProperties.RepliesFollowResults | proxy.py:80-82 | one `role=tool` message per tool-result block, in order; each carries the result's text and its `tool_use_id` (default "") |
| RequestTranslation.ToolMessages | proxy.py:80-82 | the loop over tool-result blocks appends one `role=tool` message per block, in order |
| RequestProperties.ToolResultMessage | proxy.py:79-82 | a message with tool results that is not an assistant's tool use becomes exactly its `role=tool` messages, with ids and flattened contents; all its other blocks are dropped |
| RequestTranslation.BuildParts | proxy.py:84-89 | the loop over the blocks collects the parts of the non-empty texts and of the images with a source, in block order |
| RequestProperties.PartsKeepText | proxy.py:84-89 | the text parts concatenate to `content_to_string` of the blocks; no text part is empty; every image part is a `data:` URL |
| RequestProperties.PartsSingle | proxy.py:85-89 | one block gives its own part (a non-empty text, or an image with a truthy source) or none |
| RequestProperties.PartsAppend | proxy.py:85-89 | the parts of a concatenation are the parts of each piece in turn; with `PartsSingle` this fixes the parts: one per non-empty text block and per truthy-source image, in block order |
| RequestProperties.PartsKeepImages | proxy.py:85-89 | the image parts' URLs are, in block order, `data:<media_type>;base64,<data>` (defaults `image/png` and "") of exactly the image blocks with a truthy source |
| RequestProperties.TextImageMessage | proxy.py:75-90 | a message with a text or image block, no tool result, and no tool call if it is the assistant's, becomes one message with its role; the content is a bare string exactly when the only part is a text, and that string is the message's text |
| RequestProperties.MessageDropped | proxy.py:66-90 | a message vanishes exactly when its content is neither a string nor a list, or is a list with only tool-use and unknown blocks that is not an assistant's tool use |
| RequestProperties.ToolUseExample | proxy.py:75-78 | worked example: one tool-use block with an id becomes one call with null content |
| RequestTranslation.ConvertTools | proxy.py:93-95 | no tools or an empty list gives None; otherwise one function tool per definition, in order, with name, description and schema (default `{}`) |
| RequestTranslation.ConvertToolChoice | proxy.py:97-104 | an empty choice gives none; `auto` gives "auto" and `any` gives "required"; "required" is produced exactly for `any`, "none" exactly for `none`, and a named function exactly for `tool` (name default ""); every other choice gives "auto" |
| RequestTranslation.ConvertRequest | proxy.py:106-116 | the model gets the `provider-7/` prefix; the messages are the translation; `include_usage` is set exactly when streaming; tools and tool_choice are set exactly when given, to their conversions; `max_tokens` (default null), `stream`, `temperature`, `top_p` and `stop` are copied; `user` is set exactly for a non-empty `user_id` |
| RequestProperties.SimpleTextRequest | proxy.py:106-116 | worked example: a single user string message passes through unchanged, with no system message and no tools |
| ResponseTranslation.StopReasonFor | proxy.py:131 | `stop`→end_turn, `length`→max_tokens, `tool_calls`→tool_use; any other reason gives the fallback, in both directions |
| ResponseTranslation.ConvertResponse | proxy.py:120-134 | the method with its loop over the tool calls computes exactly the translated response, or none when `choices` is an empty list |
| ResponseTranslation.ResponseShape | proxy.py:120-134 | the translation fails only on an empty `choices`. Otherwise the stop reason is the table's value for the finish reason (default "", fallback end_turn), a text block comes first exactly when the content is non-empty, then one tool-use block per call, in order, with the decoded arguments or `{}`; usage is copied with default 0 |
| ResponseTranslation.TextResponseExample | proxy.py:120-134 | worked example: content "Hi!" and finish `stop` give one text block, end_turn and zero usage |
| ResponseTranslation.MalformedArgumentsExample | proxy.py:126-131 | arguments that do not decode give input `{}` and the translation still succeeds, with stop reason tool_use |
| TokenAccounting.MessagesTokens | proxy.py:139-148 | the messages' share is at least 4 per message |
| TokenAccounting.RequestTokens | proxy.py:136-152 | the estimate is at least 4 per message, and it is 0 exactly when there are no messages and the tools count nothing |
| TokenAccounting.EstimateRequestTokens | proxy.py:136-152 | the nested accumulation computes the sum of the message contents, the non-empty text parts, 4 per message and the serialised tools |
| TokenAccounting.MessagesTokensAppend | proxy.py:139-148 | the estimate is additive over the message list |
| TokenAccounting.EndpointTokens | proxy.py:293-328 | the endpoint's total is at least its overhead, and at least 4 more than the message overhead when a system prompt is present |
| TokenAccounting.CountTokensEndpoint | proxy.py:293-328 | the endpoint's loops compute system, message and tool counts plus 4 per message and 4 for a system prompt |
| TokenAccounting.EndpointMatchesEstimate | proxy.py:293-328 | with no list system prompt, no tools, and only string or non-empty text-and-image contents, the endpoint equals the estimate of the translated request |
| TokenAccounting.EmptyListMessageCountsDiffer | proxy.py:308-316 | a message with an empty list counts 4 on the endpoint and 0 in the estimate |
| TokenAccounting.ToolResultCountsDiffer | proxy.py:312-315 | a tool result counts only its overhead on the endpoint, but its text too in the estimate |
| LineBuffer.Feed | proxy.py:184-186 | after one chunk, the released lines (each with its newline) followed by the remainder are the old buffer plus the chunk, and no piece contains a newline |
| LineBuffer.FeedUnique | proxy.py:185-186 | those two properties determine the released lines and the remainder |
| LineBuffer.FeedExtends | proxy.py:183-186 | one more chunk extends the released lines and keeps both buffer properties |
| LineBuffer.Buffered | proxy.py:182-186 | over any chunk sequence, all released lines with their newlines, then the remainder, are the concatenated chunks, and no piece contains a newline |
| LineBuffer.ChunkBoundariesIrrelevant | proxy.py:182-186 | the released lines plus the remainder are the received text split at its newlines, wherever the chunk boundaries fall |
| LineBuffer.SameTextSameLines | proxy.py:182-186 | two chunkings of the same text release the same lines and keep the same remainder |
| LineBuffer.Payload | proxy.py:189-193 | a line is processed exactly when it starts with `data: ` and its rest is not `[DONE]`; the payload is that rest |
| StreamReconstruction.Reconstruct | proxy.py:156-239 | the method yields exactly the specified events: `message_start` with the request's estimate, the frame events, and then the error or the closing events |
| StreamReconstruction.ReadChunks | proxy.py:182-230 | the chunk loop with its buffer handles exactly the released lines, in order, stopping at an exception |
| StreamReconstruction.HandleLines | proxy.py:188-230 | the line loop over one chunk's lines is the line step run over them, stopping at an exception |
| StreamReconstruction.HandleLine | proxy.py:189-230 | one line: skipped unless it carries a payload that is not `[DONE]`, skipped when the payload is not JSON, fatal when reading it raises, otherwise its frame is handled |
| StreamReconstruction.HandleFrame | proxy.py:197-228 | one frame in order: usage, then finish reason, then text delta, then its tool-call deltas |
| StreamReconstruction.HandleToolCall | proxy.py:216-228 | one tool-call delta: a block start for a non-empty id, then the argument fragment |
| StreamProperties.LinesAsFrames | proxy.py:188-230 | running the lines is running the frames they carry, then recording the exception that ended the loop |
| StreamProperties.IgnoredLinesChangeNothing | proxy.py:189-193 | inserting lines that carry no frame (non-`data:`, `[DONE]`, not JSON) anywhere changes neither the events nor the state |
| StreamProperties.StartInv | proxy.py:156-166 | the initial state after `message_start` satisfies the stream invariant |
| StreamProperties.FrameGrows | proxy.py:197-228 | one frame keeps the invariant and adds exactly its text and argument fragments. Its stop is the table's value for a non-empty finish reason, and its out_tok the reported completion tokens |
| StreamProperties.FramesGrow | proxy.py:195-228 | over any frames: the invariant holds; the text and argument fragments are the frames' own, verbatim and in order; the stop is the last recognised finish reason and out_tok the last reported count |
| StreamProperties.CloseTail | proxy.py:232-239 | closing adds one `content_block_stop` at the current index exactly when a text or tool block is open, then `message_delta(stop, out_tok)` and `message_stop`, with indexing intact |
| StreamProperties.CloseFailed | proxy.py:241-243 | after an exception the stream ends with the error event and nothing else is added |
| StreamProperties.StreamSummary | proxy.py:156-239 | the stream starts with `message_start`; the content events' indices start at 0 and grow by one only right after a stop at the old index; texts and fragments are the frames' own; it ends with the error, or with `message_delta` and `message_stop`, preceded by a stop at the highest index exactly when some frame opened a block |
| StreamProperties.StreamContent | proxy.py:156-239 | the first half of `StreamSummary`: the start, the indexing, the texts and fragments, and the ending events |
| StreamProperties.StreamClosing | proxy.py:209-239 | the second half of `StreamSummary`: without an exception, the closing stop is there exactly when some frame had text or a call with an id; without one, every content event is an argument fragment |
| StreamProperties.ClosingStop | proxy.py:209-239 | the same closing facts for the frames run from the start |
| StreamProperties.CallsOpenBlock | proxy.py:216-226 | after a frame's tool calls a block is open exactly when one was open before or some call has a non-empty id |
| StreamProperties.FramesOpenBlock | proxy.py:209-226 | after any frames a block is open exactly when one was open before or some frame had non-empty text or a call with a non-empty id |
| StreamProperties.QuietFrames | proxy.py:209-228 | frames that open no block, run with none open, add only argument fragments |
| StreamProperties.FailedUpstream | proxy.py:177-180 | a failed upstream status gives `message_start` then the error event with its body |
| StreamProperties.ToolStartClosesOpenBlocks | proxy.py:217-226 | a tool call with an id stops an open text block, then an open tool block, each at its index, and starts the new tool block after them |
| StreamProperties.ToolCallStreamExample | proxy.py:215-239 | worked example: call `c1`, fragments `{"a":` and `1}`, then `tool_calls` give one tool start at 0, two deltas, one stop at 0 and tool_use |
| StreamProperties.TextDuringToolExample | proxy.py:209-226 | a text delta while a tool block is open shares its index, and the next call stops both, indices 0 and 1, before starting index 2 |
| StreamProperties.UnknownFinishKeepsStop | proxy.py:205-207 | worked example: an unknown later finish reason keeps the stream's previous stop reason, where the response table gives end_turn |
| StreamProperties.StopReasonsAgree | proxy.py:205-207 | for a recognised last finish reason, the stream and the complete response report the same stop reason |
| StreamProperties.ChunkedExample | proxy.py:182-193 | any chunking of a two-frame stream with blank separators and `[DONE]` delivers exactly the two frames |
| StreamProperties.SplitLineExample | proxy.py:182-193 | worked example: four chunks, one of which cuts the second frame's line, deliver the same two frames |
| StreamProperties.BufferedOfTerminated | proxy.py:182-186 | when the received text is whole lines, the buffer releases exactly them and keeps nothing |
| StreamProperties.UsageOnlyFrameEndsStream | proxy.py:195-243 | worked example: a text frame and then a usage frame with no choices, however chunked, give `message_start`, the text block's start and delta, then the error event, with no stop and no `message_delta` |

## Left out

- HTTP and plumbing are not modelled:
  - the FastAPI routes and `handle_messages` dispatch;
  - API-key extraction;
  - the `httpx` client and the lifespan hook;
  - uvicorn startup and `print` logging.
- The non-streaming HTTP error replies are left out, because they are transport.
- The SSE text framing of each `yield` is the `Event` datatype, not JSON text.
- The async generator and cancellation are concurrency, not logic. Exceptions from the network
  in the middle of a stream are not modelled either.
- tiktoken, `json.dumps` and `json.loads` are uninterpreted parameters, because they are
  foreign libraries.
- `uuid` generation is replaced by `mint` and id parameters, because it is random. The model does
  not fix the length of twelve hex digits.
- Float values (temperature, top_p, JSON numbers) are copied opaquely, and no float arithmetic is
  modelled.
- Values of the wrong Python type are not represented. Examples are non-dict blocks, a
  non-string `type` of a block, or a `choices` that is null. In the source these raise, or take
  an unintended branch.
- A `tool_choice` is a map from its keys to their string values. Keys with a non-string value,
  such as the boolean `disable_parallel_tool_use`, are dropped from the map; the source ignores
  them too. This is not modelled:
  - a truthy `tool_choice` whose only keys have non-string values becomes the empty map, which
    is falsy, so the model sends a null `tool_choice` where the source sends "auto";
  - a non-string `name` is forwarded by the source, where the model uses "".
- A key holding null and an absent key mostly share one representation. Where the source
  differs, the model follows the absent case:
  - `usage.completion_tokens: null` would make `out_tok` null;
  - a tool result with content `null` raises in `content_to_string`;
  - `tools: null` is present but falsy.
- Apart from the fields it reads, the model keeps no other part of a request, response or
  frame (for example the delta's `index` key). An image `source` keeps only the number of its
  other keys, which decides its truthiness.
- A message's `role` is always a string. The source reads it with `.get` (line 67) and forwards
  a missing role as null; the model does not represent a missing role.
- StreamReconstruction.Reconstruct: when reading a frame raises partway, no event of that frame
  is emitted. The source keeps the events it yielded before the failing read.
- TokenAccounting.CountTokensEndpoint: the serialised client tools hold only the keys `name`,
  `description` and `input_schema`, in that order. The source serialises each tool object as sent.
- ResponseTranslation.ConvertResponse: an empty `choices` list is a `None` result. In the source
  an exception is raised there, and the HTTP layer turns it into a 500 reply.
