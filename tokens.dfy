/** Token accounting: the input-token estimate of a translated request (proxy.py lines
    136-152) and the arithmetic of the count-tokens endpoint (lines 293-328). The tokenizer is
    the library's `countTokens`, left uninterpreted. */
module TokenAccounting {
  import opened Wrappers
  import opened JsonValues
  import opened Anthropic
  import opened OpenAI
  import opened RequestTranslation
  import opened RequestProperties

  /** The allowance for the role and structure of each message (and of a system prompt). */
  const MessageOverhead: nat := 4

  // ---------------------------------------------------------------------------------------
  // The estimate of a translated request

  /** What one part of a list content counts: a text part with non-empty text. */
  function PartTokens(p: Part, lib: Library): nat {
    match p
    case TextPart(t) => if t != "" then lib.countTokens(t) else 0
    case ImageUrlPart(_) => 0
  }

  function PartsTokens(parts: seq<Part>, lib: Library): nat {
    if |parts| == 0 then 0
    else PartsTokens(parts[..|parts| - 1], lib) + PartTokens(parts[|parts| - 1], lib)
  }

  /** What the content of one flat message counts: a string content (the text of an assistant
      message with calls, the result of a tool reply) is counted whole, a parts list part by
      part, a null content not at all. */
  function ContentTokens(m: FlatMessage, lib: Library): nat {
    match m
    case Plain(_, FText(s)) => lib.countTokens(s)
    case Plain(_, FParts(parts)) => PartsTokens(parts, lib)
    case AssistantCalls(text, _) => if text.Some? then lib.countTokens(text.value) else 0
    case ToolReply(result, _) => lib.countTokens(result)
  }

  /** The messages' share of the estimate: content plus the overhead, for each message. */
  function MessagesTokens(msgs: seq<FlatMessage>, lib: Library): (r: nat)
    ensures r >= MessageOverhead * |msgs|
  {
    if |msgs| == 0 then 0
    else MessagesTokens(msgs[..|msgs| - 1], lib) + ContentTokens(msgs[|msgs| - 1], lib) + MessageOverhead
  }

  /** A translated tool as its JSON object. */
  function FnToolJson(t: FnTool): Json {
    JObj([("type", JStr("function")),
          ("function", JObj([("name", StrOrNull(t.name)),
                             ("description", StrOrNull(t.description)),
                             ("parameters", t.parameters)]))])
  }

  function ToolsJson(ts: seq<FnTool>): Json {
    JArr(seq(|ts|, k requires 0 <= k < |ts| => FnToolJson(ts[k])))
  }

  /** The tools' share: the count of the serialised tool list, when the request holds a
      non-empty one. */
  function ToolTokens(tools: Option<Option<seq<FnTool>>>, lib: Library): nat {
    match tools
    case Some(Some(ts)) => if |ts| > 0 then lib.countTokens(lib.dumps(ToolsJson(ts))) else 0
    case _ => 0
  }

  /** `estimate_request_tokens`, as the sum it computes. It is at least the overhead of the
      messages, and it is zero exactly when there is nothing to count. */
  function RequestTokens(req: ConvertedRequest, lib: Library): (r: nat)
    ensures r >= MessageOverhead * |req.messages|
    ensures r == 0 <==> |req.messages| == 0 && ToolTokens(req.tools, lib) == 0
  {
    MessagesTokens(req.messages, lib) + ToolTokens(req.tools, lib)
  }

  /** `estimate_request_tokens`, as the source writes it: a running total over the messages
      and, for a parts list, over its parts. */
  method EstimateRequestTokens(req: ConvertedRequest, lib: Library) returns (total: nat)
    ensures total == RequestTokens(req, lib)
  {
    var msgs := req.messages;
    total := 0;
    for i := 0 to |msgs|
      invariant total == MessagesTokens(msgs[..i], lib)
    {
      assert msgs[..i + 1][..i] == msgs[..i];
      var before := total;
      match msgs[i] {
        case Plain(_, FText(s)) =>
          total := total + lib.countTokens(s);
        case Plain(_, FParts(parts)) =>
          for j := 0 to |parts|
            invariant total == before + PartsTokens(parts[..j], lib)
          {
            assert parts[..j + 1][..j] == parts[..j];
            match parts[j] {
              case TextPart(t) =>
                if t != "" { total := total + lib.countTokens(t); }
              case ImageUrlPart(_) =>
            }
          }
          assert parts[..|parts|] == parts;
        case AssistantCalls(text, _) =>
          if text.Some? { total := total + lib.countTokens(text.value); }
        case ToolReply(result, _) =>
          total := total + lib.countTokens(result);
      }
      total := total + MessageOverhead;
    }
    assert msgs[..|msgs|] == msgs;
    match req.tools {
      case Some(Some(ts)) =>
        if |ts| > 0 { total := total + lib.countTokens(lib.dumps(ToolsJson(ts))); }
      case _ =>
    }
  }

  /** The estimate is additive over the message list. */
  lemma {:induction false} MessagesTokensAppend(a: seq<FlatMessage>, b: seq<FlatMessage>, lib: Library)
    ensures MessagesTokens(a + b, lib) == MessagesTokens(a, lib) + MessagesTokens(b, lib)
  {
    if |b| > 0 {
      var init := b[..|b| - 1];
      assert (a + b)[..|a + b| - 1] == a + init;
      MessagesTokensAppend(a, init, lib);
    } else {
      assert a + b == a;
    }
  }

  /** Each message counts its content and the overhead, whatever else is in the list. */
  lemma MessagesTokensSingle(m: FlatMessage, lib: Library)
    ensures MessagesTokens([m], lib) == ContentTokens(m, lib) + MessageOverhead
  {
    assert [m][..0] == [];
  }

  // ---------------------------------------------------------------------------------------
  // The count-tokens endpoint

  /** What a text block counts on the endpoint: non-empty text only. */
  function BlockTokens(b: Block, lib: Library): nat {
    match b
    case TextBlock(Some(t)) => if t != "" then lib.countTokens(t) else 0
    case _ => 0
  }

  function BlocksTokens(bs: seq<Block>, lib: Library): nat {
    if |bs| == 0 then 0
    else BlocksTokens(bs[..|bs| - 1], lib) + BlockTokens(bs[|bs| - 1], lib)
  }

  /** What a system prompt or a message content counts on the endpoint: a string whole, a list
      by its non-empty text blocks, anything else nothing. */
  function BodyContentTokens(c: Content, lib: Library): nat {
    match c
    case Str(s) => lib.countTokens(s)
    case Blocks(bs) => BlocksTokens(bs, lib)
    case Absent => 0
  }

  function BodyMessagesTokens(msgs: seq<Message>, lib: Library): nat {
    if |msgs| == 0 then 0
    else BodyMessagesTokens(msgs[..|msgs| - 1], lib) + BodyContentTokens(msgs[|msgs| - 1].content, lib)
  }

  /** A client tool definition as a JSON object with the keys it has. */
  function ToolDefJson(t: ToolDef): Json {
    JObj((if t.name.Some? then [("name", JStr(t.name.value))] else [])
       + (if t.description.Some? then [("description", JStr(t.description.value))] else [])
       + (if t.inputSchema.Some? then [("input_schema", t.inputSchema.value)] else []))
  }

  function ToolDefsJson(ts: seq<ToolDef>): Json {
    JArr(seq(|ts|, k requires 0 <= k < |ts| => ToolDefJson(ts[k])))
  }

  /** The endpoint's tool share: the serialised client tool list, when it is non-empty. */
  function BodyToolTokens(tools: Option<seq<ToolDef>>, lib: Library): nat {
    if tools.Some? && |tools.value| > 0 then lib.countTokens(lib.dumps(ToolDefsJson(tools.value))) else 0
  }

  /** The overhead the endpoint adds: per message, and once more for a system prompt. */
  function EndpointOverhead(body: Request): nat {
    MessageOverhead * |body.messages| + (if body.system.Truthy() then MessageOverhead else 0)
  }

  /** The endpoint's total: system, messages and tools counted from the request body itself,
      plus the overhead. */
  function EndpointTokens(body: Request, lib: Library): (r: nat)
    ensures r >= EndpointOverhead(body)
    ensures body.system.Truthy() ==> r >= MessageOverhead * (|body.messages| + 1)
  {
    (if body.system.Truthy() then BodyContentTokens(body.system, lib) else 0)
    + BodyMessagesTokens(body.messages, lib)
    + BodyToolTokens(body.tools, lib)
    + EndpointOverhead(body)
  }

  /** The count-tokens endpoint's arithmetic, as the source writes it. */
  method CountTokensEndpoint(body: Request, lib: Library) returns (total: nat)
    ensures total == EndpointTokens(body, lib)
  {
    total := 0;
    var systemTokens := 0;
    if body.system.Truthy() {
      match body.system {
        case Str(s) =>
          systemTokens := lib.countTokens(s);
        case Blocks(bs) =>
          for j := 0 to |bs|
            invariant systemTokens == BlocksTokens(bs[..j], lib)
          {
            assert bs[..j + 1][..j] == bs[..j];
            match bs[j] {
              case TextBlock(Some(t)) =>
                if t != "" { systemTokens := systemTokens + lib.countTokens(t); }
              case _ =>
            }
          }
          assert bs[..|bs|] == bs;
      }
      total := total + systemTokens;
    }

    var msgs := body.messages;
    var messageTokens := 0;
    for i := 0 to |msgs|
      invariant messageTokens == BodyMessagesTokens(msgs[..i], lib)
    {
      assert msgs[..i + 1][..i] == msgs[..i];
      var before := messageTokens;
      match msgs[i].content {
        case Str(s) =>
          messageTokens := messageTokens + lib.countTokens(s);
        case Blocks(bs) =>
          for j := 0 to |bs|
            invariant messageTokens == before + BlocksTokens(bs[..j], lib)
          {
            assert bs[..j + 1][..j] == bs[..j];
            match bs[j] {
              case TextBlock(Some(t)) =>
                if t != "" { messageTokens := messageTokens + lib.countTokens(t); }
              case _ =>
            }
          }
          assert bs[..|bs|] == bs;
        case Absent =>
      }
    }
    assert msgs[..|msgs|] == msgs;
    total := total + messageTokens;

    if body.tools.Some? && |body.tools.value| > 0 {
      var toolTokens := lib.countTokens(lib.dumps(ToolDefsJson(body.tools.value)));
      total := total + toolTokens;
    }

    var overhead := |msgs| * MessageOverhead;
    if body.system.Truthy() {
      overhead := overhead + MessageOverhead;
    }
    total := total + overhead;
  }

  // ---------------------------------------------------------------------------------------
  // The endpoint against the estimate

  /** A content both counts treat alike: a string, or a non-empty list of text and image
      blocks only. */
  predicate PlainContent(c: Content) {
    match c
    case Str(_) => true
    case Blocks(bs) => |bs| > 0 && forall k :: 0 <= k < |bs| ==> IsText(bs[k]) || IsImage(bs[k])
    case Absent => false
  }

  /** The parts built from a block list count what the endpoint counts for those blocks. */
  lemma {:induction false} PartsTokensOfBlocks(bs: seq<Block>, lib: Library)
    ensures PartsTokens(Parts(bs), lib) == BlocksTokens(bs, lib)
  {
    if |bs| > 0 {
      var init := bs[..|bs| - 1];
      PartsTokensOfBlocks(init, lib);
      var ps := Parts(init);
      match PartOf(bs[|bs| - 1])
      case Some(p) =>
        assert (ps + [p])[..|ps|] == ps;
      case None =>
    }
  }

  /** A text-and-image message counts its blocks' non-empty texts, collapsed or not. */
  lemma CollapsedTokens(role: string, bs: seq<Block>, lib: Library)
    ensures ContentTokens(Plain(role, Collapse(Parts(bs))), lib) == BlocksTokens(bs, lib)
  {
    var ps := Parts(bs);
    PartsTokensOfBlocks(bs, lib);
    PartsKeepText(bs);
    if |ps| == 1 && ps[0].TextPart? {
      assert ps[..0] == [];
      assert PartsTokens(ps, lib) == PartTokens(ps[0], lib);
    }
  }

  /** For plain contents, the translated messages count each message's text plus the
      overhead, just as the endpoint does. */
  lemma {:induction false} FlattenAllTokens(msgs: seq<Message>, lib: Library, mint: IdSource)
    requires forall k :: 0 <= k < |msgs| ==> PlainContent(msgs[k].content)
    ensures MessagesTokens(FlattenAll(msgs, lib, mint), lib)
         == BodyMessagesTokens(msgs, lib) + MessageOverhead * |msgs|
  {
    if |msgs| > 0 {
      var init, m := msgs[..|msgs| - 1], msgs[|msgs| - 1];
      FlattenAllTokens(init, lib, mint);
      var flat := FlattenMessage(|msgs| - 1, m, lib, mint);
      MessagesTokensAppend(FlattenAll(init, lib, mint), flat, lib);
      match m.content
      case Str(s) =>
        MessagesTokensSingle(Plain(m.role, FText(s)), lib);
      case Blocks(bs) =>
        assert Filter(bs, IsToolUse) == [] && Filter(bs, IsToolResult) == [];
        assert IsText(bs[0]) || IsImage(bs[0]);
        assert |Filter(bs, IsText)| > 0 || |Filter(bs, IsImage)| > 0;
        assert flat == [Plain(m.role, Collapse(Parts(bs)))];
        MessagesTokensSingle(Plain(m.role, Collapse(Parts(bs))), lib);
        CollapsedTokens(m.role, bs, lib);
    }
  }

  /** When the system prompt is absent or a string, there are no tools, and every message is
      a string or a non-empty list of text and image blocks, the endpoint and the estimate of the
      translated request agree. */
  lemma EndpointMatchesEstimate(body: Request, lib: Library, mint: IdSource)
    requires body.system.Absent? || body.system.Str?
    requires body.tools.None? || body.tools == Some([])
    requires forall k :: 0 <= k < |body.messages| ==> PlainContent(body.messages[k].content)
    ensures EndpointTokens(body, lib) == RequestTokens(ConvertRequest(body, lib, mint), lib)
  {
    var r := ConvertRequest(body, lib, mint);
    var sys, rest := SystemPart(body.system), FlattenAll(body.messages, lib, mint);
    MessagesTokensAppend(sys, rest, lib);
    FlattenAllTokens(body.messages, lib, mint);
    if body.system.Truthy() {
      MessagesTokensSingle(Plain("system", FText(SystemText(body.system))), lib);
    }
  }

  /** The two counts differ elsewhere: a message whose content is an empty list adds nothing
      to the estimate but the overhead to the endpoint. */
  lemma EmptyListMessageCountsDiffer(lib: Library, mint: IdSource)
    ensures var body := Request("claude-x", [Message("user", Blocks([]))], Absent, None, false,
                                None, None, None, None, None, None);
      EndpointTokens(body, lib) == 4 && RequestTokens(ConvertRequest(body, lib, mint), lib) == 0
  {
    var body := Request("claude-x", [Message("user", Blocks([]))], Absent, None, false,
                        None, None, None, None, None, None);
    var m := body.messages[0];
    assert FlattenMessage(0, m, lib, mint) == [];
    assert body.messages[..0] == [];
    assert FlattenAll(body.messages, lib, mint) == [];
    assert BodyMessagesTokens(body.messages, lib) == BodyContentTokens(m.content, lib) == 0;
    assert EndpointOverhead(body) == 4;
  }

  /** A tool result is counted by the estimate (as the reply's text) and not by the endpoint. */
  lemma ToolResultCountsDiffer(lib: Library, mint: IdSource)
    ensures var body := Request("claude-x", [Message("user", Blocks([ToolResultBlock(Some("t1"), Str("42"))]))],
                                Absent, None, false, None, None, None, None, None, None);
      EndpointTokens(body, lib) == 4
      && RequestTokens(ConvertRequest(body, lib, mint), lib) == lib.countTokens("42") + 4
  {
    var b := ToolResultBlock(Some("t1"), Str("42"));
    var msgs := [Message("user", Blocks([b]))];
    var body := Request("claude-x", msgs, Absent, None, false, None, None, None, None, None, None);
    ToolResultFlattens(lib, mint);
    var r := ConvertRequest(body, lib, mint);
    assert r.messages == [] + FlattenAll(msgs, lib, mint);
    MessagesTokensSingle(ToolReply("42", "t1"), lib);
    assert [b][..0] == [];
    assert BlocksTokens([b], lib) == 0;
    assert msgs[..0] == [];
    assert BodyMessagesTokens(msgs, lib) == 0;
  }

  lemma ToolResultFlattens(lib: Library, mint: IdSource)
    ensures FlattenAll([Message("user", Blocks([ToolResultBlock(Some("t1"), Str("42"))]))], lib, mint)
         == [ToolReply("42", "t1")]
  {
    var b := ToolResultBlock(Some("t1"), Str("42"));
    var msgs := [Message("user", Blocks([b]))];
    assert [b][..0] == [];
    assert Filter([b], IsToolUse) == [];
    assert Filter([b], IsToolResult) == [b];
    assert Replies([b]) == [ToolReply("42", "t1")];
    assert FlattenMessage(0, msgs[0], lib, mint) == [ToolReply("42", "t1")];
    assert msgs[..0] == [];
  }
}
