/** Request translation: block-structured request bodies into flat chat-completions requests
    (proxy.py lines 52-116). */
module RequestTranslation {
  import opened Wrappers
  import opened Strings
  import opened JsonValues
  import opened Anthropic
  import opened OpenAI

  /** The upstream model names are the client's model behind this provider prefix. */
  const ProviderPrefix: string := "provider-7"

  /** The fresh part of a generated tool-call id for the block at position `j` of message `i`
      (the source takes twelve hex digits of a random uuid). */
  type IdSource = (nat, nat) -> string

  // ---------------------------------------------------------------------------------------
  // Model validation

  datatype Validation = Accepted | Rejected(message: string)

  /** Only model names containing "claude" are accepted. */
  function ValidateModel(model: string): (r: Validation)
    ensures r.Accepted? <==> exists i :: OccursAt("claude", model, i)
    ensures r.Rejected? ==>
      r.message == "Model \"" + model + "\" is not a Claude model. Only Claude models are supported."
  {
    if !Contains(model, "claude") then
      Rejected("Model \"" + model + "\" is not a Claude model. Only Claude models are supported.")
    else Accepted
  }

  // ---------------------------------------------------------------------------------------
  // Selecting blocks by type

  /** `[x for x in s if p(x)]`. */
  function Filter<T>(s: seq<T>, p: T -> bool): (r: seq<T>)
    ensures |r| <= |s|
    ensures forall k :: 0 <= k < |r| ==> p(r[k]) && r[k] in s
    ensures |r| == 0 <==> forall k :: 0 <= k < |s| ==> !p(s[k])
  {
    if |s| == 0 then []
    else
      var init := Filter(s[..|s| - 1], p);
      assert forall k :: 0 <= k < |s| - 1 ==> s[..|s| - 1][k] == s[k];
      if p(s[|s| - 1]) then init + [s[|s| - 1]] else init
  }

  /** One element is kept exactly when it satisfies `p`. */
  lemma FilterSingle<T>(x: T, p: T -> bool)
    ensures Filter([x], p) == (if p(x) then [x] else [])
  {
    assert [x][..0] == [];
  }

  /** Selecting from a concatenation is selecting from each part in turn; with `FilterSingle`
      this fixes the selection of every sequence, order and repetitions included. */
  lemma {:induction false} FilterAppend<T>(a: seq<T>, b: seq<T>, p: T -> bool)
    ensures Filter(a + b, p) == Filter(a, p) + Filter(b, p)
  {
    if |b| == 0 {
      assert a + b == a;
    } else {
      var init, last := b[..|b| - 1], b[|b| - 1];
      FilterAppend(a, init, p);
      assert (a + b)[..|a + b| - 1] == a + init;
      assert (a + b)[|a + b| - 1] == last;
      if p(last) {
        Reassociate(Filter(a, p), Filter(init, p), [last]);
      }
    }
  }

  predicate IsText(b: Block) { b.TextBlock? }
  predicate IsImage(b: Block) { b.ImageBlock? }
  predicate IsToolUse(b: Block) { b.ToolUseBlock? }
  predicate IsToolResult(b: Block) { b.ToolResultBlock? }

  /** `b.get("text", "")` of every text block, in order. */
  function TextsOf(bs: seq<Block>): seq<string> {
    if |bs| == 0 then []
    else
      var init := TextsOf(bs[..|bs| - 1]);
      match bs[|bs| - 1]
      case TextBlock(t) => init + [t.GetOr("")]
      case _ => init
  }

  /** `content_to_string`: a string as it is, a list as the concatenation of its text blocks. */
  function ContentToString(c: Content): string
    requires !c.Absent?
  {
    match c
    case Str(s) => s
    case Blocks(bs) => Concat(TextsOf(bs))
  }

  // ---------------------------------------------------------------------------------------
  // The four shapes a message can take

  /** The call for the tool-use block at position `j` of message `i`. */
  function CallOf(i: nat, j: nat, id: Option<string>, name: Option<string>, input: Option<Json>,
                  lib: Library, mint: IdSource): ToolCall
  {
    ToolCall(id.GetOr("call_" + mint(i, j)), name.GetOr(""), lib.dumps(input.GetOr(EmptyObject)))
  }

  /** The calls of message `i`'s tool-use blocks in order; `bs` is a prefix of its content. */
  function CallsOf(i: nat, bs: seq<Block>, lib: Library, mint: IdSource): seq<ToolCall> {
    if |bs| == 0 then []
    else
      var init := CallsOf(i, bs[..|bs| - 1], lib, mint);
      match bs[|bs| - 1]
      case ToolUseBlock(id, name, input) => init + [CallOf(i, |bs| - 1, id, name, input, lib, mint)]
      case _ => init
  }

  /** The text of a tool result: a string content as it is, absent content as "". */
  function ResultText(c: Content): string {
    match c
    case Str(s) => s
    case Absent => ""
    case Blocks(_) => ContentToString(c)
  }

  /** The `role=tool` message of one tool-result block. */
  function ReplyOf(b: Block): FlatMessage
    requires b.ToolResultBlock?
  {
    ToolReply(ResultText(b.content), b.toolUseId.GetOr(""))
  }

  /** One `role=tool` message per tool-result block, in order. */
  function Replies(rs: seq<Block>): seq<FlatMessage>
    requires forall k :: 0 <= k < |rs| ==> rs[k].ToolResultBlock?
  {
    if |rs| == 0 then [] else Replies(rs[..|rs| - 1]) + [ReplyOf(rs[|rs| - 1])]
  }

  /** `data:<media type>;base64,<data>`, with the source's defaults. */
  function DataUrl(src: ImageSource): string {
    "data:" + src.mediaType.GetOr("image/png") + ";base64," + src.data.GetOr("")
  }

  /** The part a block contributes: a non-empty text, or an image with a truthy source. */
  function PartOf(b: Block): Option<Part> {
    match b
    case TextBlock(Some(t)) => if t != "" then Some(TextPart(t)) else None
    case ImageBlock(Some(src)) => if src.Truthy() then Some(ImageUrlPart(DataUrl(src))) else None
    case _ => None
  }

  /** The parts of a text-and-image message, in block order. */
  function Parts(bs: seq<Block>): seq<Part> {
    if |bs| == 0 then []
    else
      var init := Parts(bs[..|bs| - 1]);
      match PartOf(bs[|bs| - 1])
      case Some(p) => init + [p]
      case None => init
  }

  /** A single text part stands alone as a string; anything else stays a list. */
  function Collapse(parts: seq<Part>): FlatContent {
    if |parts| == 1 && parts[0].TextPart? then FText(parts[0].text) else FParts(parts)
  }

  /** What message `i` becomes. */
  function FlattenMessage(i: nat, m: Message, lib: Library, mint: IdSource): seq<FlatMessage> {
    match m.content
    case Str(s) => [Plain(m.role, FText(s))]
    case Absent => []
    case Blocks(bs) =>
      var uses, results := Filter(bs, IsToolUse), Filter(bs, IsToolResult);
      var texts, images := Filter(bs, IsText), Filter(bs, IsImage);
      if |uses| > 0 && m.role == "assistant" then
        [AssistantCalls(if |texts| > 0 then Some(Concat(TextsOf(bs))) else None, CallsOf(i, bs, lib, mint))]
      else if |results| > 0 then Replies(results)
      else if |images| > 0 || |texts| > 0 then [Plain(m.role, Collapse(Parts(bs)))]
      else []
  }

  /** The system prompt's text: a string as it is, the text blocks joined by newlines. */
  function SystemText(system: Content): string {
    match system
    case Str(s) => s
    case Blocks(bs) => Join(TextsOf(bs), "\n")
    case Absent => ""
  }

  function SystemPart(system: Content): seq<FlatMessage> {
    if system.Truthy() then [Plain("system", FText(SystemText(system)))] else []
  }

  function FlattenAll(msgs: seq<Message>, lib: Library, mint: IdSource): seq<FlatMessage> {
    if |msgs| == 0 then []
    else FlattenAll(msgs[..|msgs| - 1], lib, mint) + FlattenMessage(|msgs| - 1, msgs[|msgs| - 1], lib, mint)
  }

  /** What `convert_messages` returns. */
  function FlatMessages(msgs: seq<Message>, system: Content, lib: Library, mint: IdSource): seq<FlatMessage> {
    SystemPart(system) + FlattenAll(msgs, lib, mint)
  }

  lemma FlatMessagesStep(msgs: seq<Message>, system: Content, i: nat, lib: Library, mint: IdSource)
    requires i < |msgs|
    ensures FlatMessages(msgs[..i + 1], system, lib, mint)
         == FlatMessages(msgs[..i], system, lib, mint) + FlattenMessage(i, msgs[i], lib, mint)
  {
    assert msgs[..i + 1][..i] == msgs[..i];
    var a, b := SystemPart(system), FlattenAll(msgs[..i], lib, mint);
    assert (a + b) + FlattenMessage(i, msgs[i], lib, mint) == a + (b + FlattenMessage(i, msgs[i], lib, mint));
  }

  /** `convert_messages`, as the source writes it: one pass over the messages appending to
      `result`. */
  method ConvertMessages(msgs: seq<Message>, system: Content, lib: Library, mint: IdSource)
    returns (result: seq<FlatMessage>)
    ensures result == FlatMessages(msgs, system, lib, mint)
  {
    result := [];
    if system.Truthy() {
      var txt := SystemText(system);
      result := result + [Plain("system", FText(txt))];
    }
    assert result == FlatMessages(msgs[..0], system, lib, mint);
    for i := 0 to |msgs|
      invariant result == FlatMessages(msgs[..i], system, lib, mint)
    {
      var flat := ConvertMessage(i, msgs[i], lib, mint);
      FlatMessagesStep(msgs, system, i, lib, mint);
      result := result + flat;
    }
    assert msgs[..|msgs|] == msgs;
  }

  /** The body of the loop of `convert_messages` for message `i`: what it appends. */
  method ConvertMessage(i: nat, m: Message, lib: Library, mint: IdSource) returns (out: seq<FlatMessage>)
    ensures out == FlattenMessage(i, m, lib, mint)
  {
    out := [];
    match m.content {
      case Str(s) =>
        out := [Plain(m.role, FText(s))];
      case Absent =>
      case Blocks(bs) =>
        var toolUse, toolResult := Filter(bs, IsToolUse), Filter(bs, IsToolResult);
        var text, image := Filter(bs, IsText), Filter(bs, IsImage);
        if |toolUse| > 0 && m.role == "assistant" {
          var calls := CallsOf(i, bs, lib, mint);
          out := [AssistantCalls(if |text| > 0 then Some(Concat(TextsOf(bs))) else None, calls)];
        } else if |toolResult| > 0 {
          out := ToolMessages(toolResult);
        } else if |image| > 0 || |text| > 0 {
          var parts := BuildParts(bs);
          out := [Plain(m.role, if |parts| == 1 && parts[0].TextPart? then FText(parts[0].text) else FParts(parts))];
        }
    }
  }

  /** The loop over tool-result blocks: one `role=tool` message each. */
  method ToolMessages(toolResult: seq<Block>) returns (out: seq<FlatMessage>)
    requires forall k :: 0 <= k < |toolResult| ==> toolResult[k].ToolResultBlock?
    ensures out == Replies(toolResult)
  {
    out := [];
    for k := 0 to |toolResult|
      invariant out == Replies(toolResult[..k])
    {
      assert toolResult[..k + 1][..k] == toolResult[..k];
      var b := toolResult[k];
      var rc := match b.content
        case Str(s) => s
        case Absent => ""
        case Blocks(_) => ContentToString(b.content);
      out := out + [ToolReply(rc, b.toolUseId.GetOr(""))];
    }
    assert toolResult[..|toolResult|] == toolResult;
  }

  /** The loop over the blocks of a text-and-image message, collecting its parts. */
  method BuildParts(bs: seq<Block>) returns (parts: seq<Part>)
    ensures parts == Parts(bs)
  {
    parts := [];
    for j := 0 to |bs|
      invariant parts == Parts(bs[..j])
    {
      assert bs[..j + 1][..j] == bs[..j];
      match bs[j] {
        case TextBlock(Some(t)) =>
          if t != "" { parts := parts + [TextPart(t)]; }
        case ImageBlock(Some(s)) =>
          if s.Truthy() {
            parts := parts + [ImageUrlPart("data:" + s.mediaType.GetOr("image/png") + ";base64," + s.data.GetOr(""))];
          }
        case _ =>
      }
    }
    assert bs[..|bs|] == bs;
  }

  // ---------------------------------------------------------------------------------------
  // Tools and tool choice

  /** `convert_tools`: no tools (or an empty list) gives None, otherwise one function wrapper
      per definition with the schema passed through. */
  function ConvertTools(tools: seq<ToolDef>): (r: Option<seq<FnTool>>)
    ensures r.None? <==> |tools| == 0
    ensures r.Some? ==> |r.value| == |tools| && forall k :: 0 <= k < |tools| ==>
      r.value[k] == FnTool(tools[k].name, tools[k].description, tools[k].inputSchema.GetOr(EmptyObject))
  {
    if |tools| == 0 then None
    else Some(seq(|tools|, k requires 0 <= k < |tools| =>
      FnTool(tools[k].name, tools[k].description, tools[k].inputSchema.GetOr(EmptyObject))))
  }

  /** `choice.get(key)`. */
  function Get(choice: map<string, string>, key: string): Option<string> {
    if key in choice then Some(choice[key]) else None
  }

  /** `convert_tool_choice`. The block side's "any" is the flat side's "required". */
  function ConvertToolChoice(choice: map<string, string>): (r: ToolChoiceOut)
    ensures r.NoChoice? <==> choice == map[]
    ensures r.Mode? ==> r.mode in {"auto", "required", "none"}
    ensures r == Mode("required") <==> Get(choice, "type") == Some("any")
    ensures r == Mode("none") <==> Get(choice, "type") == Some("none")
    ensures r.Function? <==> Get(choice, "type") == Some("tool")
    ensures r.Function? ==> r.name == Get(choice, "name").GetOr("")
    ensures r == Mode("auto") <==> choice != map[] && Get(choice, "type") !in {Some("any"), Some("none"), Some("tool")}
  {
    if choice == map[] then NoChoice
    else
      var t := Get(choice, "type");
      if t == Some("auto") then Mode("auto")
      else if t == Some("any") then Mode("required")
      else if t == Some("none") then Mode("none")
      else if t == Some("tool") then Function(Get(choice, "name").GetOr(""))
      else Mode("auto")
  }

  // ---------------------------------------------------------------------------------------
  // The whole request

  /** `convert_request`. */
  function ConvertRequest(req: Request, lib: Library, mint: IdSource): (r: ConvertedRequest)
    ensures StartsWith(r.model, ProviderPrefix + "/") && r.model[|ProviderPrefix| + 1..] == req.model
    ensures r.messages == FlatMessages(req.messages, req.system, lib, mint)
    ensures r.includeUsage <==> req.stream
    ensures r.tools.Some? <==> req.tools.Some?
    ensures r.tools == Some(None) <==> req.tools == Some([])
    ensures req.tools.Some? ==> r.tools == Some(ConvertTools(req.tools.value))
    ensures r.toolChoice.Some? <==> req.toolChoice.Some?
    ensures req.toolChoice.Some? ==> r.toolChoice == Some(ConvertToolChoice(req.toolChoice.value))
    ensures r.maxTokens == req.maxTokens.GetOr(JNull)
    ensures r.stream == req.stream && r.temperature == req.temperature && r.topP == req.topP
    ensures r.stop == req.stopSequences
    ensures r.user.Some? <==> req.userId.Some? && req.userId.value != ""
    ensures r.user.Some? ==> r.user == req.userId
  {
    ConvertedRequest(
      ProviderPrefix + "/" + req.model,
      FlatMessages(req.messages, req.system, lib, mint),
      req.maxTokens.GetOr(JNull),
      req.stream,
      req.stream,
      req.temperature,
      req.topP,
      req.stopSequences,
      if req.tools.Some? then Some(ConvertTools(req.tools.value)) else None,
      if req.toolChoice.Some? then Some(ConvertToolChoice(req.toolChoice.value)) else None,
      if req.userId.Some? && req.userId.value != "" then req.userId else None)
  }
}
