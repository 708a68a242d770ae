/** Response translation: one complete chat-completions response into a block-structured
    response (proxy.py lines 120-134), and the finish-reason table it shares with the stream. */
module ResponseTranslation {
  import opened Wrappers
  import opened JsonValues
  import opened Anthropic
  import opened OpenAI

  /** The finish reasons the table recognises. */
  predicate KnownFinish(fr: string) {
    fr == "stop" || fr == "length" || fr == "tool_calls"
  }

  /** The finish-reason table: `stop` ends the turn, `length` hits the token limit,
      `tool_calls` is a tool use, and anything else gives `otherwise`. */
  function StopReasonFor(fr: string, otherwise: StopReason): (r: StopReason)
    ensures !KnownFinish(fr) ==> r == otherwise
    ensures r == EndTurn <==> fr == "stop" || (!KnownFinish(fr) && otherwise == EndTurn)
    ensures r == MaxTokens <==> fr == "length" || (!KnownFinish(fr) && otherwise == MaxTokens)
    ensures r == ToolUse <==> fr == "tool_calls" || (!KnownFinish(fr) && otherwise == ToolUse)
  {
    if fr == "stop" then EndTurn
    else if fr == "length" then MaxTokens
    else if fr == "tool_calls" then ToolUse
    else otherwise
  }

  /** `res.get("choices", [{}])[0]`; None when the list is empty, where the source raises. */
  function FirstChoice(res: UpstreamResponse): Option<Choice> {
    match res.choices
    case None => Some(Choice(ChoiceMessage(None, []), None))
    case Some(cs) => if |cs| == 0 then None else Some(cs[0])
  }

  /** A tool call's input: its arguments (the text "{}" when absent) decoded, and `{}`
      whenever decoding fails. */
  function InputOf(tc: UpstreamCall, lib: Library): Json {
    match lib.loads(tc.arguments.GetOr("{}"))
    case Some(j) => j
    case None => EmptyObject
  }

  function ToolUseOf(tc: UpstreamCall, lib: Library): ResponseBlock {
    RToolUse(tc.id, tc.name, InputOf(tc, lib))
  }

  /** The text block, present only when the message content is a non-empty string. */
  function TextBlocks(msg: ChoiceMessage): seq<ResponseBlock> {
    if msg.content.Some? && msg.content.value != "" then [RText(msg.content.value)] else []
  }

  /** What `convert_response` returns, or None when it raises (an empty `choices` list). */
  function ResponseOf(res: UpstreamResponse, model: string, id: string, lib: Library): Option<Response> {
    match FirstChoice(res)
    case None => None
    case Some(choice) =>
      var msg := choice.message;
      var calls := msg.toolCalls;
      Some(Response(
        id,
        TextBlocks(msg) + seq(|calls|, k requires 0 <= k < |calls| => ToolUseOf(calls[k], lib)),
        model,
        StopReasonFor(choice.finishReason.GetOr(""), EndTurn),
        res.usage.promptTokens.GetOr(0),
        res.usage.completionTokens.GetOr(0)))
  }

  /** `convert_response`, with the loop over the tool calls that appends to `content`. */
  method ConvertResponse(res: UpstreamResponse, model: string, id: string, lib: Library)
    returns (r: Option<Response>)
    ensures r == ResponseOf(res, model, id, lib)
  {
    var choice;
    match res.choices {
      case None => choice := Choice(ChoiceMessage(None, []), None);
      case Some(cs) =>
        if |cs| == 0 { return None; }
        choice := cs[0];
    }
    assert FirstChoice(res) == Some(choice);
    var msg := choice.message;
    var content: seq<ResponseBlock> := [];
    if msg.content.Some? && msg.content.value != "" {
      content := content + [RText(msg.content.value)];
    }
    ghost var head := content;
    assert head == TextBlocks(msg);
    var calls := msg.toolCalls;
    for k := 0 to |calls|
      invariant |content| == |head| + k
      invariant content[..|head|] == head
      invariant forall j :: 0 <= j < k ==> content[|head| + j] == ToolUseOf(calls[j], lib)
    {
      var tc := calls[k];
      var inp;
      match lib.loads(tc.arguments.GetOr("{}")) {
        case Some(j) => inp := j;
        case None => inp := EmptyObject;
      }
      content := content + [RToolUse(tc.id, tc.name, inp)];
    }
    assert content == head + seq(|calls|, k requires 0 <= k < |calls| => ToolUseOf(calls[k], lib));
    var fr := choice.finishReason.GetOr("");
    var sr := if fr == "stop" then EndTurn else if fr == "length" then MaxTokens
              else if fr == "tool_calls" then ToolUse else EndTurn;
    r := Some(Response(id, content, model, sr,
                       res.usage.promptTokens.GetOr(0), res.usage.completionTokens.GetOr(0)));
  }

  /** The shape of a translated response: it fails only on an empty `choices` list; otherwise
      the text block comes first exactly when the content is a non-empty string, then one
      tool-use block per call in order, whose input is the decoded arguments or `{}` when they
      do not decode; usage is copied, defaulting to 0. */
  lemma ResponseShape(res: UpstreamResponse, model: string, id: string, lib: Library)
    ensures ResponseOf(res, model, id, lib).None? <==> res.choices == Some([])
    ensures ResponseOf(res, model, id, lib).Some? ==>
      var r, choice := ResponseOf(res, model, id, lib).value, FirstChoice(res).value;
      var msg, calls := choice.message, choice.message.toolCalls;
      var t := if msg.content.Some? && msg.content.value != "" then 1 else 0;
      && r.id == id && r.model == model
      && r.stopReason == StopReasonFor(choice.finishReason.GetOr(""), EndTurn)
      && |r.content| == t + |calls|
      && (t == 1 ==> r.content[0] == RText(msg.content.value))
      && (forall k :: 0 <= k < |calls| ==>
            && r.content[t + k].RToolUse?
            && r.content[t + k].id == calls[k].id
            && r.content[t + k].name == calls[k].name
            && r.content[t + k].input == match lib.loads(calls[k].arguments.GetOr("{}"))
                                         case Some(j) => j
                                         case None => EmptyObject)
      && r.inputTokens == res.usage.promptTokens.GetOr(0)
      && r.outputTokens == res.usage.completionTokens.GetOr(0)
  {
  }

  /** The plain-text example: content "Hi!" with finish reason "stop". */
  lemma TextResponseExample(model: string, id: string, lib: Library)
    ensures ResponseOf(UpstreamResponse(Some([Choice(ChoiceMessage(Some("Hi!"), []), Some("stop"))]), Usage(None, None)),
                       model, id, lib)
         == Some(Response(id, [RText("Hi!")], model, EndTurn, 0, 0))
  {
    var msg := ChoiceMessage(Some("Hi!"), []);
    var calls: seq<UpstreamCall> := [];
    assert seq(|calls|, k requires 0 <= k < |calls| => ToolUseOf(calls[k], lib)) == [];
    assert TextBlocks(msg) == [RText("Hi!")];
    assert TextBlocks(msg) + [] == [RText("Hi!")];
    assert StopReasonFor("stop", EndTurn) == EndTurn;
  }

  /** Malformed arguments: a call whose arguments do not decode gets input `{}`, and the
      translation still succeeds, with stop reason `tool_use`. */
  lemma MalformedArgumentsExample(model: string, id: string, lib: Library)
    requires lib.loads("{bad json") == None
    ensures var call := UpstreamCall(Some("c1"), Some("f"), Some("{bad json"));
      ResponseOf(UpstreamResponse(Some([Choice(ChoiceMessage(None, [call]), Some("tool_calls"))]), Usage(Some(5), Some(7))),
                 model, id, lib)
      == Some(Response(id, [RToolUse(Some("c1"), Some("f"), EmptyObject)], model, ToolUse, 5, 7))
  {
    var call := UpstreamCall(Some("c1"), Some("f"), Some("{bad json"));
    var calls := [call];
    assert seq(|calls|, k requires 0 <= k < |calls| => ToolUseOf(calls[k], lib)) == [ToolUseOf(call, lib)];
    assert ToolUseOf(call, lib) == RToolUse(Some("c1"), Some("f"), EmptyObject);
    assert TextBlocks(ChoiceMessage(None, calls)) == [];
    assert [] + [ToolUseOf(call, lib)] == [ToolUseOf(call, lib)];
    assert StopReasonFor("tool_calls", EndTurn) == ToolUse;
  }
}
