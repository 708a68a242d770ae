/** Stream reconstruction: the loop of `stream_and_convert` (proxy.py lines 156-239), which turns
    the upstream's chunked `data:` frames into block-structured stream events. Transport is
    abstracted: the upstream is either a failed status with its body or the sequence of text
    chunks it sends, and decoding one payload is the parameter `decode`. */
module StreamReconstruction {
  import opened Wrappers
  import opened Strings
  import opened JsonValues
  import opened Anthropic
  import opened OpenAI
  import opened ResponseTranslation
  import opened LineBuffer
  import opened TokenAccounting

  /** The loop's variables `idx`, `txt_started`, `tool_started`, `stop` and `out_tok`. */
  datatype StreamState = StreamState(idx: nat, txtStarted: bool, toolStarted: bool, stop: StopReason, outTok: int)

  /** Their initial values. */
  const Initial: StreamState := StreamState(0, false, false, EndTurn, 0)

  /** The state, the events yielded so far, and the message of the exception that ended the
      loop, if one did. */
  datatype Progress = Progress(st: StreamState, events: seq<Event>, failure: Option<string>)

  /** The upstream answer: a non-success status with its body, or the text chunks of a stream. */
  datatype Upstream = Failed(body: string) | Chunks(chunks: seq<string>)

  /** The `message_start` event and nothing else. */
  function Start(msgId: string, model: string, inputTokens: int): Progress {
    Progress(Initial, [MessageStart(msgId, model, inputTokens, 1)], None)
  }

  function Emit(p: Progress, e: Event): (r: Progress)
    ensures r.st == p.st && r.failure == p.failure && r.events == p.events + [e]
  {
    p.(events := p.events + [e])
  }

  /** `content_block_stop` at the current index, then `idx += 1`. */
  function StopAndAdvance(p: Progress): (r: Progress)
    ensures r.failure == p.failure && r.events == p.events + [BlockStop(p.st.idx)]
    ensures r.st == p.st.(idx := p.st.idx + 1)
  {
    Progress(p.st.(idx := p.st.idx + 1), p.events + [BlockStop(p.st.idx)], p.failure)
  }

  // ---------------------------------------------------------------------------------------
  // One frame

  /** A tool-call delta with a non-empty id: an open text block is closed, then an open tool
      block, and the new tool block starts at the resulting index. */
  function OpenToolBlock(p: Progress, id: string, name: string): Progress {
    var p1 := if p.st.txtStarted then var q := StopAndAdvance(p); q.(st := q.st.(txtStarted := false)) else p;
    var p2 := if p1.st.toolStarted then StopAndAdvance(p1) else p1;
    var p3 := p2.(st := p2.st.(toolStarted := true));
    Emit(p3, ToolUseBlockStart(p3.st.idx, id, name))
  }

  /** One entry of a delta's `tool_calls`: its start (when it has an id), then its argument
      fragment (when it has a non-empty one) at the current index. */
  function ToolCallStep(p: Progress, tc: ToolCallDelta): Progress {
    var p1 := if tc.id.Some? && tc.id.value != "" then OpenToolBlock(p, tc.id.value, tc.name.GetOr("")) else p;
    if tc.arguments.Some? && tc.arguments.value != "" then Emit(p1, InputJsonDelta(p1.st.idx, tc.arguments.value))
    else p1
  }

  function ToolCallsStep(p: Progress, tcs: seq<ToolCallDelta>): Progress {
    if |tcs| == 0 then p else ToolCallStep(ToolCallsStep(p, tcs[..|tcs| - 1]), tcs[|tcs| - 1])
  }

  /** A non-empty text delta: a text block is started if none is, then the text is emitted at
      the current index. An open tool block is left open. */
  function TextStep(p: Progress, text: string): Progress {
    var p1 := if !p.st.txtStarted then Emit(p.(st := p.st.(txtStarted := true)), TextBlockStart(p.st.idx)) else p;
    Emit(p1, TextDelta(p1.st.idx, text))
  }

  /** A frame up to its tool calls: the usage's completion tokens replace `out_tok`, a
      non-empty finish reason goes through the finish-reason table (an unknown one keeps the
      current stop), and a non-empty content is a text delta. */
  function FramePrelude(p: Progress, f: Frame): Progress {
    var p1 := if f.completionTokens.Some? then p.(st := p.st.(outTok := f.completionTokens.value)) else p;
    var p2 := if f.finishReason.Some? && f.finishReason.value != ""
              then p1.(st := p1.st.(stop := StopReasonFor(f.finishReason.value, p1.st.stop))) else p1;
    if f.content.Some? && f.content.value != "" then TextStep(p2, f.content.value) else p2
  }

  /** One decoded frame. */
  function FrameStep(p: Progress, f: Frame): Progress {
    ToolCallsStep(FramePrelude(p, f), f.toolCalls)
  }

  // ---------------------------------------------------------------------------------------
  // Lines and the whole stream

  /** One complete line: only a `data:` line whose payload decodes is processed; a payload
      that is not JSON is skipped, and one whose reading raises ends the loop. */
  function LineStep(p: Progress, line: string, decode: string -> Decoded): Progress {
    if p.failure.Some? then p
    else match Payload(line)
      case None => p
      case Some(data) =>
        match decode(data)
        case NotJson => p
        case Raises(m) => p.(failure := Some(m))
        case Parsed(f) => FrameStep(p, f)
  }

  function RunLines(p: Progress, lines: seq<string>, decode: string -> Decoded): Progress {
    if |lines| == 0 then p else LineStep(RunLines(p, lines[..|lines| - 1], decode), lines[|lines| - 1], decode)
  }

  /** The end of the stream: after an exception its error event; otherwise one
      `content_block_stop` when a block is open, then `message_delta` with the stop reason and
      the output tokens, then `message_stop`. */
  function Close(p: Progress): seq<Event> {
    match p.failure
    case Some(m) => p.events + [Error(m)]
    case None =>
      p.events + (if p.st.txtStarted || p.st.toolStarted then [BlockStop(p.st.idx)] else [])
               + [MessageDelta(p.st.stop, p.st.outTok), MessageStop]
  }

  /** Every event the stream yields, for a request whose estimate is `inputTokens`. The
      remainder still buffered when the chunks end is never processed. */
  function StreamEvents(msgId: string, model: string, inputTokens: int, upstream: Upstream,
                        decode: string -> Decoded): seq<Event>
  {
    match upstream
    case Failed(body) => Start(msgId, model, inputTokens).events + [Error(body)]
    case Chunks(cs) => Close(RunLines(Start(msgId, model, inputTokens), Buffered(cs).lines, decode))
  }

  // ---------------------------------------------------------------------------------------
  // The loop as the source writes it

  /** `stream_and_convert`: the estimate, `message_start`, then the chunk loop, then the
      closing events. */
  method Reconstruct(msgId: string, model: string, req: ConvertedRequest, lib: Library,
                     upstream: Upstream, decode: string -> Decoded)
    returns (events: seq<Event>)
    ensures events == StreamEvents(msgId, model, RequestTokens(req, lib), upstream, decode)
  {
    var estimated := EstimateRequestTokens(req, lib);
    events := [MessageStart(msgId, model, estimated, 1)];
    match upstream {
      case Failed(body) =>
        events := events + [Error(body)];
      case Chunks(chunks) =>
        var st, failure;
        st, events, failure := ReadChunks(Initial, events, chunks, decode);
        if failure.Some? {
          events := events + [Error(failure.value)];
        } else {
          if st.txtStarted || st.toolStarted {
            events := events + [BlockStop(st.idx)];
          }
          events := events + [MessageDelta(st.stop, st.outTok), MessageStop];
        }
    }
  }

  /** The chunk loop with its line buffer: each chunk is appended to `buf`, the complete lines
      are handled and the unfinished last piece is kept; an exception ends the loop. */
  method ReadChunks(st: StreamState, events: seq<Event>, chunks: seq<string>, decode: string -> Decoded)
    returns (st': StreamState, events': seq<Event>, failure: Option<string>)
    ensures Progress(st', events', failure) == RunLines(Progress(st, events, None), Buffered(chunks).lines, decode)
  {
    ghost var start := Progress(st, events, None);
    st', events', failure := st, events, None;
    var buf := "";
    var c := 0;
    while c < |chunks| && failure.None?
      invariant 0 <= c <= |chunks|
      invariant failure.None? ==> buf == Buffered(chunks[..c]).rest
      invariant Progress(st', events', failure) == RunLines(start, Buffered(chunks[..c]).lines, decode)
    {
      ghost var before := Buffered(chunks[..c]);
      var fed := Feed(buf, chunks[c]);
      buf := fed.rest;
      BufferedStep(chunks, c);
      RunLinesAppend(start, before.lines, fed.lines, decode);
      st', events', failure := HandleLines(st', events', fed.lines, decode);
      c := c + 1;
    }
    if failure.Some? {
      BufferedPrefix(chunks, c);
      assert chunks[..|chunks|] == chunks;
      HaltedPrefix(start, Buffered(chunks[..c]).lines, Buffered(chunks).lines, decode);
    } else {
      assert chunks[..c] == chunks;
    }
  }

  /** The line loop over the complete lines of one chunk; an exception ends it. */
  method HandleLines(st: StreamState, events: seq<Event>, lines: seq<string>, decode: string -> Decoded)
    returns (st': StreamState, events': seq<Event>, failure: Option<string>)
    ensures Progress(st', events', failure) == RunLines(Progress(st, events, None), lines, decode)
  {
    ghost var p := Progress(st, events, None);
    st', events', failure := st, events, None;
    var k := 0;
    while k < |lines| && failure.None?
      invariant 0 <= k <= |lines|
      invariant Progress(st', events', failure) == RunLines(p, lines[..k], decode)
    {
      assert lines[..k + 1][..k] == lines[..k];
      st', events', failure := HandleLine(st', events', lines[k], decode);
      k := k + 1;
    }
    if k < |lines| {
      HaltedPrefix(p, lines[..k], lines, decode);
    } else {
      assert lines[..k] == lines;
    }
  }

  /** The body of the line loop for one line, with no exception raised so far. */
  method HandleLine(st: StreamState, events: seq<Event>, line: string, decode: string -> Decoded)
    returns (st': StreamState, events': seq<Event>, failure: Option<string>)
    ensures Progress(st', events', failure) == LineStep(Progress(st, events, None), line, decode)
  {
    st', events', failure := st, events, None;
    if !StartsWith(line, "data: ") {
      return;
    }
    var data := line[6..];
    if data == "[DONE]" {
      return;
    }
    match decode(data) {
      case NotJson =>
      case Raises(m) =>
        failure := Some(m);
      case Parsed(f) =>
        st', events' := HandleFrame(st, events, f);
    }
  }

  /** The handling of one decoded frame. */
  method HandleFrame(st: StreamState, events: seq<Event>, f: Frame) returns (st': StreamState, events': seq<Event>)
    ensures Progress(st', events', None) == FrameStep(Progress(st, events, None), f)
  {
    var s, evs := st, events;
    if f.completionTokens.Some? {
      s := s.(outTok := f.completionTokens.value);
    }
    if f.finishReason.Some? && f.finishReason.value != "" {
      var fr := f.finishReason.value;
      s := s.(stop := if fr == "stop" then EndTurn else if fr == "length" then MaxTokens
                      else if fr == "tool_calls" then ToolUse else s.stop);
    }
    if f.content.Some? && f.content.value != "" {
      if !s.txtStarted {
        s := s.(txtStarted := true);
        evs := evs + [TextBlockStart(s.idx)];
      }
      evs := evs + [TextDelta(s.idx, f.content.value)];
    }
    ghost var prelude := Progress(s, evs, None);
    assert prelude == FramePrelude(Progress(st, events, None), f);
    var tcs := f.toolCalls;
    for t := 0 to |tcs|
      invariant Progress(s, evs, None) == ToolCallsStep(prelude, tcs[..t])
    {
      assert tcs[..t + 1][..t] == tcs[..t];
      s, evs := HandleToolCall(s, evs, tcs[t]);
    }
    assert tcs[..|tcs|] == tcs;
    st', events' := s, evs;
  }

  /** The handling of one entry of a delta's `tool_calls`. */
  method HandleToolCall(st: StreamState, events: seq<Event>, tc: ToolCallDelta) returns (st': StreamState, events': seq<Event>)
    ensures Progress(st', events', None) == ToolCallStep(Progress(st, events, None), tc)
  {
    var s, evs := st, events;
    if tc.id.Some? && tc.id.value != "" {
      if s.txtStarted {
        evs := evs + [BlockStop(s.idx)];
        s := s.(idx := s.idx + 1, txtStarted := false);
      }
      if s.toolStarted {
        evs := evs + [BlockStop(s.idx)];
        s := s.(idx := s.idx + 1);
      }
      s := s.(toolStarted := true);
      evs := evs + [ToolUseBlockStart(s.idx, tc.id.value, tc.name.GetOr(""))];
    }
    if tc.arguments.Some? && tc.arguments.value != "" {
      evs := evs + [InputJsonDelta(s.idx, tc.arguments.value)];
    }
    st', events' := s, evs;
  }

  // ---------------------------------------------------------------------------------------
  // Facts the loop proof uses

  /** Running two stretches of lines one after the other is running them together. */
  lemma {:induction false} RunLinesAppend(p: Progress, a: seq<string>, b: seq<string>, decode: string -> Decoded)
    ensures RunLines(p, a + b, decode) == RunLines(RunLines(p, a, decode), b, decode)
    decreases |b|
  {
    if |b| == 0 {
      assert a + b == a;
    } else {
      assert (a + b)[..|a + b| - 1] == a + b[..|b| - 1];
      RunLinesAppend(p, a, b[..|b| - 1], decode);
    }
  }

  /** One more chunk: the buffer's lines grow by the complete lines of the buffer and the chunk. */
  lemma BufferedStep(chunks: seq<string>, c: nat)
    requires c < |chunks|
    ensures var before := Buffered(chunks[..c]);
      var fed := Feed(before.rest, chunks[c]);
      Buffered(chunks[..c + 1]) == Fed(before.lines + fed.lines, fed.rest)
  {
    assert chunks[..c + 1][..c] == chunks[..c];
  }

  /** The lines released by a prefix of the chunks are a prefix of all released lines. */
  lemma {:induction false} BufferedPrefix(chunks: seq<string>, c: nat)
    requires c <= |chunks|
    ensures Buffered(chunks[..c]).lines <= Buffered(chunks).lines
    decreases |chunks| - c
  {
    if c < |chunks| {
      BufferedPrefix(chunks, c + 1);
      assert chunks[..c + 1][..c] == chunks[..c];
      var a := Buffered(chunks[..c]).lines;
      var b := Buffered(chunks[..c + 1]).lines;
      assert a <= b;
    } else {
      assert chunks[..c] == chunks;
    }
  }

  /** Once an exception has ended the loop, later lines change nothing. */
  lemma {:induction false} HaltedPrefix(p: Progress, a: seq<string>, b: seq<string>, decode: string -> Decoded)
    requires a <= b
    requires RunLines(p, a, decode).failure.Some?
    ensures RunLines(p, b, decode) == RunLines(p, a, decode)
    decreases |b|
  {
    if |b| > |a| {
      assert a <= b[..|b| - 1];
      HaltedPrefix(p, a, b[..|b| - 1], decode);
    } else {
      assert a == b;
    }
  }
}
