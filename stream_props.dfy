/** What the stream reconstruction guarantees, proved about the functions that define it. */
module StreamProperties {
  import opened Wrappers
  import opened Strings
  import opened JsonValues
  import opened Anthropic
  import opened OpenAI
  import opened ResponseTranslation
  import opened LineBuffer
  import opened StreamReconstruction

  // ---------------------------------------------------------------------------------------
  // From lines to frames

  /** The frames the loop hands to the state machine, in order, and the message of the
      exception that ended the loop, if one did. */
  datatype Received = Received(frames: seq<Frame>, failure: Option<string>)

  function ReceivedOf(lines: seq<string>, decode: string -> Decoded): Received {
    if |lines| == 0 then Received([], None)
    else
      var o := ReceivedOf(lines[..|lines| - 1], decode);
      if o.failure.Some? then o
      else match Payload(lines[|lines| - 1])
        case None => o
        case Some(data) =>
          match decode(data)
          case NotJson => o
          case Raises(m) => Received(o.frames, Some(m))
          case Parsed(f) => Received(o.frames + [f], None)
  }

  /** The state machine over a sequence of frames. */
  function RunFrames(p: Progress, fs: seq<Frame>): Progress {
    if |fs| == 0 then p else FrameStep(RunFrames(p, fs[..|fs| - 1]), fs[|fs| - 1])
  }

  lemma ToolCallsKeepFailure(p: Progress, tcs: seq<ToolCallDelta>)
    ensures ToolCallsStep(p, tcs).failure == p.failure
  {
    if |tcs| > 0 { ToolCallsKeepFailure(p, tcs[..|tcs| - 1]); }
  }

  lemma {:induction false} FramesKeepFailure(p: Progress, fs: seq<Frame>)
    ensures RunFrames(p, fs).failure == p.failure
  {
    if |fs| > 0 {
      var q := RunFrames(p, fs[..|fs| - 1]);
      FramesKeepFailure(p, fs[..|fs| - 1]);
      ToolCallsKeepFailure(FramePrelude(q, fs[|fs| - 1]), fs[|fs| - 1].toolCalls);
    }
  }

  /** The line layer and the state machine separate: running the lines is running the frames
      they carry, then recording the exception that ended the loop. Lines that are not `data:`
      lines, the `[DONE]` line and payloads that are not JSON never reach the state machine. */
  lemma {:induction false} LinesAsFrames(p: Progress, lines: seq<string>, decode: string -> Decoded)
    requires p.failure.None?
    ensures var o := ReceivedOf(lines, decode);
      RunLines(p, lines, decode) == RunFrames(p, o.frames).(failure := o.failure)
  {
    if |lines| > 0 {
      var init := lines[..|lines| - 1];
      LinesAsFrames(p, init, decode);
      var o := ReceivedOf(init, decode);
      FramesKeepFailure(p, o.frames);
      var q := RunFrames(p, o.frames);
      assert RunLines(p, init, decode) == q.(failure := o.failure);
      if o.failure.None? {
        assert q.(failure := o.failure) == q;
        match Payload(lines[|lines| - 1])
        case None =>
        case Some(data) =>
          match decode(data)
          case NotJson =>
          case Raises(m) =>
          case Parsed(f) =>
            assert (o.frames + [f])[..|o.frames|] == o.frames;
            FramesKeepFailure(p, o.frames + [f]);
      }
    }
  }

  /** A line that carries no frame: not a `data:` line, the `[DONE]` line, or a payload that
      is not JSON. */
  predicate Ignored(line: string, decode: string -> Decoded) {
    Payload(line).None? || decode(Payload(line).value).NotJson?
  }

  lemma {:induction false} IgnoredLinesNoOp(p: Progress, skip: seq<string>, decode: string -> Decoded)
    requires forall k :: 0 <= k < |skip| ==> Ignored(skip[k], decode)
    ensures RunLines(p, skip, decode) == p
  {
    if |skip| > 0 {
      IgnoredLinesNoOp(p, skip[..|skip| - 1], decode);
    }
  }

  /** Inserting ignored lines anywhere in the stream changes nothing: they leave the state and
      the events as they were. */
  lemma IgnoredLinesChangeNothing(p: Progress, before: seq<string>, skip: seq<string>, after: seq<string>,
                                  decode: string -> Decoded)
    requires forall k :: 0 <= k < |skip| ==> Ignored(skip[k], decode)
    ensures RunLines(p, before + skip + after, decode) == RunLines(p, before + after, decode)
  {
    RunLinesAppend(p, before + skip, after, decode);
    RunLinesAppend(p, before, skip, decode);
    IgnoredLinesNoOp(RunLines(p, before, decode), skip, decode);
    RunLinesAppend(p, before, after, decode);
  }

  // ---------------------------------------------------------------------------------------
  // What the events show

  /** `[x for e in evs for x in g(e)]`. */
  function Collect<T>(evs: seq<Event>, g: Event -> seq<T>): seq<T> {
    if |evs| == 0 then [] else Collect(evs[..|evs| - 1], g) + g(evs[|evs| - 1])
  }

  lemma CollectSnoc<T>(evs: seq<Event>, e: Event, g: Event -> seq<T>)
    ensures Collect(evs + [e], g) == Collect(evs, g) + g(e)
  {
    assert (evs + [e])[..|evs|] == evs;
  }

  /** A content event's index and whether it is a `content_block_stop`. */
  function MarkOf(e: Event): seq<(nat, bool)> {
    if e.IsContent() then [(e.index, e.BlockStop?)] else []
  }

  function TextOf(e: Event): seq<string> {
    if e.TextDelta? then [e.text] else []
  }

  function JsonOf(e: Event): seq<string> {
    if e.InputJsonDelta? then [e.partialJson] else []
  }

  function Marks(evs: seq<Event>): seq<(nat, bool)> { Collect(evs, MarkOf) }
  function Texts(evs: seq<Event>): seq<string> { Collect(evs, TextOf) }
  function Fragments(evs: seq<Event>): seq<string> { Collect(evs, JsonOf) }

  /** Going from content event `m` to content event `n`, the index stays, or it goes up by one
      right after a `content_block_stop`. */
  predicate Follows(m: (nat, bool), n: (nat, bool)) {
    n.0 == m.0 || (m.1 && n.0 == m.0 + 1)
  }

  /** The content events start at index 0, and the index only ever increases by one, each
      time right after a `content_block_stop` at the old index. */
  predicate WellIndexed(ms: seq<(nat, bool)>) {
    (|ms| > 0 ==> ms[0].0 == 0) && forall k :: 0 < k < |ms| ==> Follows(ms[k - 1], ms[k])
  }

  /** `idx` is where the next content event may go. */
  predicate Tracks(ms: seq<(nat, bool)>, idx: nat) {
    if |ms| == 0 then idx == 0 else Follows(ms[|ms| - 1], (idx, false))
  }

  /** `message_start` and then only content events. */
  predicate Shape(evs: seq<Event>) {
    |evs| > 0 && evs[0].MessageStart? && forall k :: 0 < k < |evs| ==> evs[k].IsContent()
  }

  /** What holds of the loop's progress between frames. */
  predicate Inv(p: Progress) {
    p.failure.None? && Shape(p.events) && WellIndexed(Marks(p.events)) && Tracks(Marks(p.events), p.st.idx)
  }

  /** From `p` to `r`, the invariant is kept, the first event stays, and the text and
      argument fragments grow by `texts` and `args`. */
  predicate Grows(p: Progress, r: Progress, texts: seq<string>, args: seq<string>) {
    Inv(r) && |p.events| > 0 && r.events[0] == p.events[0]
    && Texts(r.events) == Texts(p.events) + texts
    && Fragments(r.events) == Fragments(p.events) + args
  }

  lemma StartInv(msgId: string, model: string, inputTokens: int)
    ensures Inv(Start(msgId, model, inputTokens))
  {
    var evs := [MessageStart(msgId, model, inputTokens, 1)];
    CollectSnoc([], evs[0], MarkOf);
    assert [] + [evs[0]] == evs;
  }

  lemma WellIndexedSnoc(ms: seq<(nat, bool)>, idx: nat, stop: bool)
    requires WellIndexed(ms) && Tracks(ms, idx)
    ensures WellIndexed(ms + [(idx, stop)])
  {
    var ns := ms + [(idx, stop)];
    forall k | 0 < k < |ns| ensures Follows(ns[k - 1], ns[k]) {
      if k < |ms| { assert ns[k - 1] == ms[k - 1] && ns[k] == ms[k]; }
    }
  }

  /** A content event at the current index keeps the invariant. */
  lemma EmitContent(p: Progress, e: Event)
    requires Inv(p) && e.IsContent() && e.index == p.st.idx
    ensures Grows(p, Emit(p, e), TextOf(e), JsonOf(e))
  {
    var r := Emit(p, e);
    CollectSnoc(p.events, e, MarkOf);
    CollectSnoc(p.events, e, TextOf);
    CollectSnoc(p.events, e, JsonOf);
    WellIndexedSnoc(Marks(p.events), p.st.idx, e.BlockStop?);
    forall k | 0 < k < |r.events| ensures r.events[k].IsContent() {
      if k < |p.events| { assert r.events[k] == p.events[k]; }
    }
  }

  lemma StopAndAdvanceGrows(p: Progress)
    requires Inv(p)
    ensures Grows(p, StopAndAdvance(p), [], [])
  {
    EmitContent(p, BlockStop(p.st.idx));
    CollectSnoc(p.events, BlockStop(p.st.idx), MarkOf);
  }

  lemma StateOnly(p: Progress, r: Progress)
    requires Inv(p) && r.events == p.events && r.failure == p.failure && r.st.idx == p.st.idx
    ensures Grows(p, r, [], [])
  {
    assert Texts(p.events) + [] == Texts(p.events);
    assert Fragments(p.events) + [] == Fragments(p.events);
  }

  lemma GrowsTrans(p: Progress, q: Progress, r: Progress, t1: seq<string>, a1: seq<string>,
                   t2: seq<string>, a2: seq<string>)
    requires Grows(p, q, t1, a1) && Grows(q, r, t2, a2)
    ensures Grows(p, r, t1 + t2, a1 + a2)
  {
    assert Texts(p.events) + t1 + t2 == Texts(p.events) + (t1 + t2);
    assert Fragments(p.events) + a1 + a2 == Fragments(p.events) + (a1 + a2);
  }

  lemma OpenToolBlockGrows(p: Progress, id: string, name: string)
    requires Inv(p)
    ensures var r := OpenToolBlock(p, id, name);
      Grows(p, r, [], []) && r.st.stop == p.st.stop && r.st.outTok == p.st.outTok
  {
    var p1 := if p.st.txtStarted then var q := StopAndAdvance(p); q.(st := q.st.(txtStarted := false)) else p;
    if p.st.txtStarted {
      StopAndAdvanceGrows(p);
      StateOnly(StopAndAdvance(p), p1);
      GrowsTrans(p, StopAndAdvance(p), p1, [], [], [], []);
    } else {
      StateOnly(p, p1);
    }
    var p2 := if p1.st.toolStarted then StopAndAdvance(p1) else p1;
    if p1.st.toolStarted {
      StopAndAdvanceGrows(p1);
    } else {
      StateOnly(p1, p2);
    }
    GrowsTrans(p, p1, p2, [], [], [], []);
    var p3 := p2.(st := p2.st.(toolStarted := true));
    StateOnly(p2, p3);
    GrowsTrans(p, p2, p3, [], [], [], []);
    EmitContent(p3, ToolUseBlockStart(p3.st.idx, id, name));
    GrowsTrans(p, p3, OpenToolBlock(p, id, name), [], [], [], []);
  }

  /** The argument fragment of one tool-call delta, when it has a non-empty one. */
  function ArgOf(tc: ToolCallDelta): seq<string> {
    if tc.arguments.Some? && tc.arguments.value != "" then [tc.arguments.value] else []
  }

  function CallArgs(tcs: seq<ToolCallDelta>): seq<string> {
    if |tcs| == 0 then [] else CallArgs(tcs[..|tcs| - 1]) + ArgOf(tcs[|tcs| - 1])
  }

  lemma ToolCallGrows(p: Progress, tc: ToolCallDelta)
    requires Inv(p)
    ensures var r := ToolCallStep(p, tc);
      Grows(p, r, [], ArgOf(tc)) && r.st.stop == p.st.stop && r.st.outTok == p.st.outTok
  {
    var p1 := if tc.id.Some? && tc.id.value != "" then OpenToolBlock(p, tc.id.value, tc.name.GetOr("")) else p;
    if tc.id.Some? && tc.id.value != "" {
      OpenToolBlockGrows(p, tc.id.value, tc.name.GetOr(""));
    } else {
      StateOnly(p, p1);
    }
    if tc.arguments.Some? && tc.arguments.value != "" {
      var e := InputJsonDelta(p1.st.idx, tc.arguments.value);
      EmitContent(p1, e);
      GrowsTrans(p, p1, Emit(p1, e), [], [], [], [tc.arguments.value]);
      assert [] + [tc.arguments.value] == ArgOf(tc);
    }
  }

  lemma {:induction false} ToolCallsGrows(p: Progress, tcs: seq<ToolCallDelta>)
    requires Inv(p)
    ensures var r := ToolCallsStep(p, tcs);
      Grows(p, r, [], CallArgs(tcs)) && r.st.stop == p.st.stop && r.st.outTok == p.st.outTok
  {
    if |tcs| == 0 {
      StateOnly(p, p);
    } else {
      var init := tcs[..|tcs| - 1];
      ToolCallsGrows(p, init);
      var q := ToolCallsStep(p, init);
      ToolCallGrows(q, tcs[|tcs| - 1]);
      GrowsTrans(p, q, ToolCallsStep(p, tcs), [], CallArgs(init), [], ArgOf(tcs[|tcs| - 1]));
    }
  }

  lemma TextStepGrows(p: Progress, text: string)
    requires Inv(p)
    ensures var r := TextStep(p, text);
      Grows(p, r, [text], []) && r.st.stop == p.st.stop && r.st.outTok == p.st.outTok
  {
    var p1 := if !p.st.txtStarted then Emit(p.(st := p.st.(txtStarted := true)), TextBlockStart(p.st.idx)) else p;
    if !p.st.txtStarted {
      var q := p.(st := p.st.(txtStarted := true));
      StateOnly(p, q);
      EmitContent(q, TextBlockStart(p.st.idx));
      GrowsTrans(p, q, p1, [], [], [], []);
    } else {
      StateOnly(p, p1);
    }
    EmitContent(p1, TextDelta(p1.st.idx, text));
    GrowsTrans(p, p1, TextStep(p, text), [], [], [text], []);
  }

  /** The text a frame carries, when it is non-empty. */
  function FrameText(f: Frame): seq<string> {
    if f.content.Some? && f.content.value != "" then [f.content.value] else []
  }

  lemma FrameGrows(p: Progress, f: Frame)
    requires Inv(p)
    ensures var r := FrameStep(p, f);
      Grows(p, r, FrameText(f), CallArgs(f.toolCalls))
      && r.st.stop == (if f.finishReason.Some? && f.finishReason.value != ""
                       then StopReasonFor(f.finishReason.value, p.st.stop) else p.st.stop)
      && r.st.outTok == f.completionTokens.GetOr(p.st.outTok)
  {
    var p3 := FramePrelude(p, f);
    PreludeGrows(p, f);
    ToolCallsGrows(p3, f.toolCalls);
    GrowsTrans(p, p3, FrameStep(p, f), FrameText(f), [], [], CallArgs(f.toolCalls));
  }

  /** The usage, finish and content fields of a frame: at most one text delta. */
  lemma PreludeGrows(p: Progress, f: Frame)
    requires Inv(p)
    ensures var r := FramePrelude(p, f);
      Grows(p, r, FrameText(f), [])
      && r.st.stop == (if f.finishReason.Some? && f.finishReason.value != ""
                       then StopReasonFor(f.finishReason.value, p.st.stop) else p.st.stop)
      && r.st.outTok == f.completionTokens.GetOr(p.st.outTok)
  {
    var p1 := if f.completionTokens.Some? then p.(st := p.st.(outTok := f.completionTokens.value)) else p;
    var p2 := if f.finishReason.Some? && f.finishReason.value != ""
              then p1.(st := p1.st.(stop := StopReasonFor(f.finishReason.value, p1.st.stop))) else p1;
    StateOnly(p, p2);
    if f.content.Some? && f.content.value != "" {
      TextStepGrows(p2, f.content.value);
      GrowsTrans(p, p2, FramePrelude(p, f), [], [], FrameText(f), []);
    }
  }


  function FramesTexts(fs: seq<Frame>): seq<string> {
    if |fs| == 0 then [] else FramesTexts(fs[..|fs| - 1]) + FrameText(fs[|fs| - 1])
  }

  function FramesArgs(fs: seq<Frame>): seq<string> {
    if |fs| == 0 then [] else FramesArgs(fs[..|fs| - 1]) + CallArgs(fs[|fs| - 1].toolCalls)
  }

  /** The last finish reason the table recognises, if any frame carries one. */
  function LastKnownFinish(fs: seq<Frame>): Option<string> {
    if |fs| == 0 then None
    else
      var f := fs[|fs| - 1];
      if f.finishReason.Some? && KnownFinish(f.finishReason.value) then f.finishReason
      else LastKnownFinish(fs[..|fs| - 1])
  }

  /** The last completion-token count any frame carries. */
  function LastTokens(fs: seq<Frame>): Option<int> {
    if |fs| == 0 then None
    else if fs[|fs| - 1].completionTokens.Some? then fs[|fs| - 1].completionTokens
    else LastTokens(fs[..|fs| - 1])
  }

  /** The stop reason after the frames: the table's reason for the last recognised finish
      reason, or `otherwise` when none is recognised. */
  function StopAfter(fs: seq<Frame>, otherwise: StopReason): StopReason {
    match LastKnownFinish(fs)
    case Some(fr) => StopReasonFor(fr, EndTurn)
    case None => otherwise
  }

  /** Over a run of frames the invariant is kept, the texts and argument fragments are the
      frames' own, in order and verbatim, and the stop reason and token count are the last
      ones the frames carry. */
  lemma {:induction false} FramesGrow(p: Progress, fs: seq<Frame>)
    requires Inv(p)
    ensures var r := RunFrames(p, fs);
      Grows(p, r, FramesTexts(fs), FramesArgs(fs))
      && r.st.stop == StopAfter(fs, p.st.stop)
      && r.st.outTok == LastTokens(fs).GetOr(p.st.outTok)
  {
    if |fs| == 0 {
      StateOnly(p, p);
    } else {
      var init, f := fs[..|fs| - 1], fs[|fs| - 1];
      FramesGrow(p, init);
      var q := RunFrames(p, init);
      FrameGrows(q, f);
      GrowsTrans(p, q, RunFrames(p, fs), FramesTexts(init), FramesArgs(init), FrameText(f), CallArgs(f.toolCalls));
    }
  }

  // ---------------------------------------------------------------------------------------
  // Which frames open a block

  /** A tool-call delta with a non-empty id starts a tool block. */
  predicate CallOpens(tc: ToolCallDelta) { tc.id.Some? && tc.id.value != "" }

  predicate CallsOpen(tcs: seq<ToolCallDelta>) {
    |tcs| > 0 && (CallsOpen(tcs[..|tcs| - 1]) || CallOpens(tcs[|tcs| - 1]))
  }

  /** A frame starts a block: it has a non-empty text, or a tool call with a non-empty id. */
  predicate FrameOpens(f: Frame) { (f.content.Some? && f.content.value != "") || CallsOpen(f.toolCalls) }

  predicate FramesOpen(fs: seq<Frame>) {
    |fs| > 0 && (FramesOpen(fs[..|fs| - 1]) || FrameOpens(fs[|fs| - 1]))
  }

  /** Content events that are all argument fragments. */
  predicate OnlyFragments(evs: seq<Event>) {
    forall k :: 0 < k < |evs| ==> evs[k].InputJsonDelta?
  }

  lemma {:induction false} CallsOpenBlock(p: Progress, tcs: seq<ToolCallDelta>)
    ensures IsOpen(ToolCallsStep(p, tcs).st) <==> IsOpen(p.st) || CallsOpen(tcs)
  {
    if |tcs| > 0 {
      CallsOpenBlock(p, tcs[..|tcs| - 1]);
    }
  }

  /** Once a block is open one stays open, and one is open after the frames exactly when it was
      before or some frame starts one. */
  lemma {:induction false} FramesOpenBlock(p: Progress, fs: seq<Frame>)
    ensures IsOpen(RunFrames(p, fs).st) <==> IsOpen(p.st) || FramesOpen(fs)
  {
    if |fs| > 0 {
      var init, f := fs[..|fs| - 1], fs[|fs| - 1];
      FramesOpenBlock(p, init);
      var q := RunFrames(p, init);
      assert IsOpen(FramePrelude(q, f).st) <==> IsOpen(q.st) || (f.content.Some? && f.content.value != "");
      CallsOpenBlock(FramePrelude(q, f), f.toolCalls);
    }
  }

  lemma QuietCall(p: Progress, tc: ToolCallDelta)
    requires !IsOpen(p.st) && OnlyFragments(p.events) && !CallOpens(tc)
    ensures var r := ToolCallStep(p, tc); !IsOpen(r.st) && OnlyFragments(r.events)
  {
  }

  lemma {:induction false} QuietCalls(p: Progress, tcs: seq<ToolCallDelta>)
    requires !IsOpen(p.st) && OnlyFragments(p.events) && !CallsOpen(tcs)
    ensures var r := ToolCallsStep(p, tcs); !IsOpen(r.st) && OnlyFragments(r.events)
  {
    if |tcs| > 0 {
      QuietCalls(p, tcs[..|tcs| - 1]);
      QuietCall(ToolCallsStep(p, tcs[..|tcs| - 1]), tcs[|tcs| - 1]);
    }
  }

  /** Frames that start no block emit nothing but argument fragments. */
  lemma {:induction false} QuietFrames(p: Progress, fs: seq<Frame>)
    requires !IsOpen(p.st) && OnlyFragments(p.events) && !FramesOpen(fs)
    ensures var r := RunFrames(p, fs); !IsOpen(r.st) && OnlyFragments(r.events)
  {
    if |fs| > 0 {
      var init, f := fs[..|fs| - 1], fs[|fs| - 1];
      QuietFrames(p, init);
      var q := RunFrames(p, init);
      assert FramePrelude(q, f).events == q.events && !IsOpen(FramePrelude(q, f).st);
      QuietCalls(FramePrelude(q, f), f.toolCalls);
    }
  }

  /** Along well-indexed content events the index never decreases. */
  lemma {:induction false} WellIndexedMax(ms: seq<(nat, bool)>)
    requires WellIndexed(ms) && |ms| > 0
    ensures forall j :: 0 <= j < |ms| ==> ms[j].0 <= ms[|ms| - 1].0
  {
    if |ms| > 1 {
      var init := ms[..|ms| - 1];
      assert forall k :: 0 <= k < |init| ==> init[k] == ms[k];
      WellIndexedMax(init);
      assert Follows(ms[|ms| - 2], ms[|ms| - 1]);
      forall j | 0 <= j < |ms| ensures ms[j].0 <= ms[|ms| - 1].0 {
        if j < |ms| - 1 { assert ms[j] == init[j]; }
      }
    }
  }

  // ---------------------------------------------------------------------------------------
  // The whole stream

  /** The stop reason the stream reports for the frames it handled. */
  function StreamStop(fs: seq<Frame>): StopReason { StopAfter(fs, EndTurn) }

  /** A text block or a tool block is open. */
  predicate IsOpen(st: StreamState) { st.txtStarted || st.toolStarted }

  /** Closing a stream without an exception: a `content_block_stop` at the current index when
      a block is open, and only then, followed by `message_delta(stop, out_tok)` and
      `message_stop`; the indexing stays intact. */
  lemma CloseTail(p: Progress)
    requires Inv(p)
    ensures var evs := Close(p);
      |evs| >= 3 && evs[0] == p.events[0]
      && evs[|evs| - 1] == MessageStop && evs[|evs| - 2] == MessageDelta(p.st.stop, p.st.outTok)
      && (forall k :: 0 < k < |evs| - 2 ==> evs[k].IsContent())
      && WellIndexed(Marks(evs)) && Texts(evs) == Texts(p.events) && Fragments(evs) == Fragments(p.events)
    ensures var evs := Close(p);
      && (IsOpen(p.st) <==> |evs| == |p.events| + 3)
      && (IsOpen(p.st) ==> evs[|evs| - 3] == BlockStop(p.st.idx) && Marks(evs) == Marks(p.events) + [(p.st.idx, true)])
      && (!IsOpen(p.st) ==> evs[..|evs| - 2] == p.events)
  {
    var e1, e2 := MessageDelta(p.st.stop, p.st.outTok), MessageStop;
    if IsOpen(p.st) {
      var q := Emit(p, BlockStop(p.st.idx));
      EmitContent(p, BlockStop(p.st.idx));
      CollectSnoc(p.events, BlockStop(p.st.idx), MarkOf);
      assert Close(p) == q.events + [e1] + [e2];
      EndEvents(q.events, e1, e2);
    } else {
      assert Close(p) == p.events + [e1] + [e2];
      EndEvents(p.events, e1, e2);
    }
  }

  /** Two events outside the content blocks appended to a well-indexed stream. */
  lemma EndEvents(evs: seq<Event>, e1: Event, e2: Event)
    requires Shape(evs) && WellIndexed(Marks(evs)) && !e1.IsContent() && !e2.IsContent()
    ensures var all := evs + [e1] + [e2];
      && |all| == |evs| + 2 && all[0] == evs[0] && all[..|all| - 2] == evs
      && all[|all| - 2] == e1 && all[|all| - 1] == e2
      && (forall k :: 0 < k < |all| - 2 ==> all[k].IsContent())
      && Marks(all) == Marks(evs) && Texts(all) == Texts(evs) && Fragments(all) == Fragments(evs)
  {
    var all := evs + [e1] + [e2];
    QuietSnoc(evs, e1);
    QuietSnoc(evs + [e1], e2);
    assert all[..|all| - 2] == evs;
    forall k | 0 < k < |all| - 2 ensures all[k].IsContent() {
      assert all[k] == evs[k];
    }
  }

  /** An event outside the content blocks leaves the observations unchanged. */
  lemma QuietSnoc(evs: seq<Event>, e: Event)
    requires !e.IsContent()
    ensures Marks(evs + [e]) == Marks(evs)
    ensures Texts(evs + [e]) == Texts(evs) && Fragments(evs + [e]) == Fragments(evs)
  {
    CollectSnoc(evs, e, MarkOf);
    CollectSnoc(evs, e, TextOf);
    CollectSnoc(evs, e, JsonOf);
  }

  lemma CloseFailed(p: Progress, m: string)
    requires Inv(p)
    ensures var evs := Close(p.(failure := Some(m)));
      |evs| >= 2 && evs[0] == p.events[0] && evs[|evs| - 1] == Error(m)
      && (forall k :: 0 < k < |evs| - 1 ==> evs[k].IsContent())
      && WellIndexed(Marks(evs)) && Texts(evs) == Texts(p.events) && Fragments(evs) == Fragments(p.events)
  {
    CollectSnoc(p.events, Error(m), MarkOf);
    CollectSnoc(p.events, Error(m), TextOf);
    CollectSnoc(p.events, Error(m), JsonOf);
  }

  /** How a stream of frames `fs` that ended without an exception closes: the event before
      `message_delta` is a `content_block_stop`, at the highest index used, exactly when some
      frame started a block; when none did, every content event is an argument fragment. */
  predicate ClosedAsOpened(fs: seq<Frame>, evs: seq<Event>) {
    && (FramesOpen(fs) <==> |evs| >= 4 && evs[|evs| - 3].BlockStop?)
    && (FramesOpen(fs) ==> |evs| >= 4 && forall j :: 0 <= j < |Marks(evs)| ==> Marks(evs)[j].0 <= evs[|evs| - 3].index)
    && (!FramesOpen(fs) ==> forall k :: 0 < k < |evs| - 2 ==> evs[k].InputJsonDelta?)
  }

  /** The stream of a successful upstream: it starts with `message_start` carrying the
      estimate and one output token; then come only content events, correctly indexed, whose
      text and argument fragments are exactly those of the handled frames; it ends with the
      error event of the exception that ended the loop, or with `message_delta` (the stop
      reason of the last recognised finish reason, `end_turn` when there is none, and the
      last reported completion tokens, 0 when none is) and `message_stop`. Before
      `message_delta` comes a `content_block_stop` at the highest index used exactly when some
      frame started a block; when none did, every content event is an argument fragment. */
  lemma StreamSummary(msgId: string, model: string, inputTokens: int, chunks: seq<string>,
                      decode: string -> Decoded)
    ensures var evs := StreamEvents(msgId, model, inputTokens, Chunks(chunks), decode);
      var o := ReceivedOf(Buffered(chunks).lines, decode);
      |evs| >= 2 && evs[0] == MessageStart(msgId, model, inputTokens, 1)
      && WellIndexed(Marks(evs))
      && Texts(evs) == FramesTexts(o.frames) && Fragments(evs) == FramesArgs(o.frames)
      && (o.failure.Some? ==>
            evs[|evs| - 1] == Error(o.failure.value) && forall k :: 0 < k < |evs| - 1 ==> evs[k].IsContent())
      && (o.failure.None? ==>
            evs[|evs| - 1] == MessageStop
            && evs[|evs| - 2] == MessageDelta(StreamStop(o.frames), LastTokens(o.frames).GetOr(0))
            && forall k :: 0 < k < |evs| - 2 ==> evs[k].IsContent())
    ensures var evs := StreamEvents(msgId, model, inputTokens, Chunks(chunks), decode);
      var o := ReceivedOf(Buffered(chunks).lines, decode);
      o.failure.None? ==> ClosedAsOpened(o.frames, evs)
  {
    StreamContent(msgId, model, inputTokens, chunks, decode);
    StreamClosing(msgId, model, inputTokens, chunks, decode);
  }

  /** The content and the ending of that stream. */
  lemma StreamContent(msgId: string, model: string, inputTokens: int, chunks: seq<string>,
                      decode: string -> Decoded)
    ensures var evs := StreamEvents(msgId, model, inputTokens, Chunks(chunks), decode);
      var o := ReceivedOf(Buffered(chunks).lines, decode);
      |evs| >= 2 && evs[0] == MessageStart(msgId, model, inputTokens, 1)
      && WellIndexed(Marks(evs))
      && Texts(evs) == FramesTexts(o.frames) && Fragments(evs) == FramesArgs(o.frames)
      && (o.failure.Some? ==>
            evs[|evs| - 1] == Error(o.failure.value) && forall k :: 0 < k < |evs| - 1 ==> evs[k].IsContent())
      && (o.failure.None? ==>
            evs[|evs| - 1] == MessageStop
            && evs[|evs| - 2] == MessageDelta(StreamStop(o.frames), LastTokens(o.frames).GetOr(0))
            && forall k :: 0 < k < |evs| - 2 ==> evs[k].IsContent())
  {
    var start := Start(msgId, model, inputTokens);
    var lines := Buffered(chunks).lines;
    var o := ReceivedOf(lines, decode);
    StartInv(msgId, model, inputTokens);
    LinesAsFrames(start, lines, decode);
    FramesGrow(start, o.frames);
    var q := RunFrames(start, o.frames);
    assert Texts(start.events) == [] by { CollectSnoc([], start.events[0], TextOf); assert [] + [start.events[0]] == start.events; }
    assert Fragments(start.events) == [] by { CollectSnoc([], start.events[0], JsonOf); assert [] + [start.events[0]] == start.events; }
    if o.failure.Some? {
      CloseFailed(q, o.failure.value);
    } else {
      assert q.(failure := o.failure) == q;
      CloseTail(q);
    }
  }

  /** The closing part of that stream. */
  lemma StreamClosing(msgId: string, model: string, inputTokens: int, chunks: seq<string>,
                      decode: string -> Decoded)
    ensures var evs := StreamEvents(msgId, model, inputTokens, Chunks(chunks), decode);
      var o := ReceivedOf(Buffered(chunks).lines, decode);
      o.failure.None? ==> ClosedAsOpened(o.frames, evs)
  {
    var start := Start(msgId, model, inputTokens);
    var lines := Buffered(chunks).lines;
    var o := ReceivedOf(lines, decode);
    if o.failure.None? {
      assert StreamEvents(msgId, model, inputTokens, Chunks(chunks), decode) == Close(RunFrames(start, o.frames)) by {
        LinesAsFrames(start, lines, decode);
        FramesKeepFailure(start, o.frames);
        assert RunFrames(start, o.frames).(failure := o.failure) == RunFrames(start, o.frames);
      }
      StartInv(msgId, model, inputTokens);
      ClosingStop(start, o.frames);
    }
  }

  /** The event before `message_delta` is a `content_block_stop` at the highest index used
      exactly when some frame started a block; otherwise every content event is an argument
      fragment. */
  lemma ClosingStop(start: Progress, fs: seq<Frame>)
    requires Inv(start) && |start.events| == 1 && !IsOpen(start.st)
    ensures ClosedAsOpened(fs, Close(RunFrames(start, fs)))
  {
    var q := RunFrames(start, fs);
    FramesGrow(start, fs);
    FramesKeepFailure(start, fs);
    FramesOpenBlock(start, fs);
    CloseTail(q);
    var evs := Close(q);
    if FramesOpen(fs) {
      WellIndexedMax(Marks(evs));
    } else {
      QuietFrames(start, fs);
      forall k | 0 < k < |evs| - 2 ensures evs[k].InputJsonDelta? {
        assert evs[k] == q.events[k];
      }
    }
  }

  /** A failed upstream status gives `message_start` and the error event with its body. */
  lemma FailedUpstream(msgId: string, model: string, inputTokens: int, body: string, decode: string -> Decoded)
    ensures StreamEvents(msgId, model, inputTokens, Failed(body), decode)
         == [MessageStart(msgId, model, inputTokens, 1), Error(body)]
  {
  }

  /** A tool-call delta with a non-empty id closes an open text block and then an open tool
      block, each with a `content_block_stop` at the index it had, and starts the new tool
      block at the index after them, with no text block open. */
  lemma ToolStartClosesOpenBlocks(p: Progress, id: string, name: string)
    ensures var r := OpenToolBlock(p, id, name);
      var i := p.st.idx;
      var closed := (if p.st.txtStarted then [BlockStop(i)] else [])
                  + (if p.st.toolStarted then [BlockStop(i + (if p.st.txtStarted then 1 else 0))] else []);
      r.events == p.events + closed + [ToolUseBlockStart(i + |closed|, id, name)]
      && r.st == p.st.(idx := i + |closed|, txtStarted := false, toolStarted := true)
  {
  }

  // ---------------------------------------------------------------------------------------
  // Worked examples

  /** A frame with nothing but one tool-call delta is that delta's step. */
  lemma OneCallFrame(p: Progress, tc: ToolCallDelta)
    ensures FrameStep(p, Frame(None, None, None, [tc])) == ToolCallStep(p, tc)
  {
    var f := Frame(None, None, None, [tc]);
    assert FramePrelude(p, f) == p;
    assert [tc][..0] == [];
    assert ToolCallsStep(p, [tc]) == ToolCallStep(ToolCallsStep(p, []), tc);
  }

  /** A call `c1` streamed in fragments, then the finish reason `tool_calls`: one tool block
      at index 0, the two fragments verbatim, one stop at 0, and stop reason `tool_use`. */
  lemma ToolCallStreamExample(msgId: string, model: string, inputTokens: int)
    ensures var fs := [Frame(None, None, None, [ToolCallDelta(Some("c1"), Some("lookup"), None)]),
                       Frame(None, None, None, [ToolCallDelta(None, None, Some("{\"a\":"))]),
                       Frame(None, None, None, [ToolCallDelta(None, None, Some("1}"))]),
                       Frame(Some(9), Some("tool_calls"), None, [])];
      Close(RunFrames(Start(msgId, model, inputTokens), fs))
      == [MessageStart(msgId, model, inputTokens, 1), ToolUseBlockStart(0, "c1", "lookup"),
          InputJsonDelta(0, "{\"a\":"), InputJsonDelta(0, "1}"), BlockStop(0),
          MessageDelta(ToolUse, 9), MessageStop]
  {
    var t1 := ToolCallDelta(Some("c1"), Some("lookup"), None);
    var t2 := ToolCallDelta(None, None, Some("{\"a\":"));
    var t3 := ToolCallDelta(None, None, Some("1}"));
    var f1, f2, f3 := Frame(None, None, None, [t1]), Frame(None, None, None, [t2]), Frame(None, None, None, [t3]);
    var f4 := Frame(Some(9), Some("tool_calls"), None, []);
    var fs := [f1, f2, f3, f4];
    var p0 := Start(msgId, model, inputTokens);
    assert fs[..3] == [f1, f2, f3] && fs[..3][..2] == [f1, f2] && fs[..3][..2][..1] == [f1];
    assert [f1][..0] == [];
    OneCallFrame(p0, t1);
    var p1 := Progress(StreamState(0, false, true, EndTurn, 0), p0.events + [ToolUseBlockStart(0, "c1", "lookup")], None);
    assert FrameStep(p0, f1) == p1;
    OneCallFrame(p1, t2);
    var p2 := Emit(p1, InputJsonDelta(0, "{\"a\":"));
    assert FrameStep(p1, f2) == p2;
    OneCallFrame(p2, t3);
    var p3 := Emit(p2, InputJsonDelta(0, "1}"));
    assert FrameStep(p2, f3) == p3;
    var p4 := p3.(st := p3.st.(outTok := 9, stop := ToolUse));
    assert FrameStep(p3, f4) == p4;
    assert RunFrames(p0, fs[..3][..2][..1]) == p1;
    assert RunFrames(p0, fs[..3][..2]) == p2;
    assert RunFrames(p0, fs[..3]) == p3;
    assert RunFrames(p0, fs) == p4;
  }

  /** Three frames run one after the other. */
  lemma RunThree(p: Progress, f1: Frame, f2: Frame, f3: Frame)
    ensures RunFrames(p, [f1, f2, f3]) == FrameStep(FrameStep(FrameStep(p, f1), f2), f3)
  {
    var fs := [f1, f2, f3];
    assert fs[..2] == [f1, f2] && fs[..2][..1] == [f1] && [f1][..0] == [];
    assert RunFrames(p, [f1]) == FrameStep(RunFrames(p, []), f1);
    assert RunFrames(p, [f1, f2]) == FrameStep(RunFrames(p, [f1]), f2);
  }

  /** A text delta while a tool block is open does not close it: the text block starts at
      the tool block's index, and the next call then closes both, one index apart. */
  lemma TextDuringToolExample(msgId: string, model: string, inputTokens: int)
    ensures var fs := [Frame(None, None, None, [ToolCallDelta(Some("c1"), Some("f"), None)]),
                       Frame(None, None, Some("x"), []),
                       Frame(None, None, None, [ToolCallDelta(Some("c2"), Some("g"), None)])];
      Close(RunFrames(Start(msgId, model, inputTokens), fs))
      == [MessageStart(msgId, model, inputTokens, 1), ToolUseBlockStart(0, "c1", "f"),
          TextBlockStart(0), TextDelta(0, "x"), BlockStop(0), BlockStop(1),
          ToolUseBlockStart(2, "c2", "g"), BlockStop(2), MessageDelta(EndTurn, 0), MessageStop]
  {
    var t1, t2 := ToolCallDelta(Some("c1"), Some("f"), None), ToolCallDelta(Some("c2"), Some("g"), None);
    var f1, f2, f3 := Frame(None, None, None, [t1]), Frame(None, None, Some("x"), []), Frame(None, None, None, [t2]);
    var fs := [f1, f2, f3];
    var p0 := Start(msgId, model, inputTokens);
    var p1 := Progress(StreamState(0, false, true, EndTurn, 0), p0.events + [ToolUseBlockStart(0, "c1", "f")], None);
    assert FrameStep(p0, f1) == p1 by {
      OneCallFrame(p0, t1);
    }
    var p2 := Progress(StreamState(0, true, true, EndTurn, 0), p1.events + [TextBlockStart(0), TextDelta(0, "x")], None);
    assert FrameStep(p1, f2) == p2;
    var p3 := Progress(StreamState(2, false, true, EndTurn, 0),
                       p2.events + [BlockStop(0), BlockStop(1), ToolUseBlockStart(2, "c2", "g")], None);
    assert FrameStep(p2, f3) == p3 by {
      OneCallFrame(p2, t2);
    }
    RunThree(p0, f1, f2, f3);
  }

  /** The stream keeps the previous stop reason when a later finish reason is not in the
      table, where the complete-response path maps the same reason to `end_turn`. */
  lemma UnknownFinishKeepsStop(msgId: string, model: string, inputTokens: int)
    ensures var fs := [Frame(None, Some("length"), None, []), Frame(None, Some("content_filter"), None, [])];
      RunFrames(Start(msgId, model, inputTokens), fs).st.stop == MaxTokens
      && StopReasonFor("content_filter", EndTurn) == EndTurn
  {
    var f1, f2 := Frame(None, Some("length"), None, []), Frame(None, Some("content_filter"), None, []);
    var fs := [f1, f2];
    assert fs[..1] == [f1] && [f1][..0] == [];
    var p0 := Start(msgId, model, inputTokens);
    assert FrameStep(p0, f1).st.stop == MaxTokens;
  }

  /** With `include_usage` on, the upstream's last frame carries the usage and an empty
      `choices` list; reading its first choice raises an error that is not a JSON error
      (`decode` answers `Raises` for it), so a stream that had started a text block ends with
      the error event, however its text is cut into chunks: that block is never stopped and
      no `message_delta` is sent. */
  lemma UsageOnlyFrameEndsStream(msgId: string, model: string, inputTokens: int,
                                 chunks: seq<string>, decode: string -> Decoded, m: string)
    requires Concat(chunks) == UsageText
    requires decode("A") == Parsed(Frame(None, None, Some("hi"), []))
    requires decode("U") == Raises(m)
    ensures StreamEvents(msgId, model, inputTokens, Chunks(chunks), decode)
         == [MessageStart(msgId, model, inputTokens, 1), TextBlockStart(0), TextDelta(0, "hi"), Error(m)]
  {
    UsageTerminated();
    UsageNoNewline();
    BufferedOfTerminated(chunks, UsageLines);
    UsageRun(msgId, model, inputTokens, decode, m);
    var q := RunLines(Start(msgId, model, inputTokens), UsageLines, decode);
    assert Close(q) == q.events + [Error(m)];
  }

  /** The text of that stream: a text frame and the usage-only frame, each followed by a blank
      line. */
  const UsageText: string := "data: A\n\ndata: U\n\n"

  const UsageLines: seq<string> := ["data: A", "", "data: U", ""]

  lemma UsageTerminated()
    ensures Terminated(UsageLines, Newline) == UsageText
  {
    var lines := UsageLines;
    assert lines[..3] == ["data: A", "", "data: U"];
    assert lines[..3][..2] == ["data: A", ""];
    assert lines[..3][..2][..1] == ["data: A"];
    assert ["data: A"][..0] == [];
    assert Terminated(["data: A"], Newline) == "data: A\n";
    assert Terminated(["data: A", ""], Newline) == "data: A\n\n";
    assert Terminated(["data: A", "", "data: U"], Newline) == "data: A\n\ndata: U\n";
  }

  lemma UsageNoNewline()
    ensures forall k :: 0 <= k < |UsageLines| ==> Newline !in UsageLines[k]
  {
    forall k | 0 <= k < |UsageLines| ensures Newline !in UsageLines[k] {
      if k == 0 { assert UsageLines[k] == "data: A"; }
      else if k == 2 { assert UsageLines[k] == "data: U"; }
    }
  }

  lemma UsageRun(msgId: string, model: string, inputTokens: int, decode: string -> Decoded, m: string)
    requires decode("A") == Parsed(Frame(None, None, Some("hi"), []))
    requires decode("U") == Raises(m)
    ensures RunLines(Start(msgId, model, inputTokens), UsageLines, decode)
         == Progress(StreamState(0, true, false, EndTurn, 0),
                     [MessageStart(msgId, model, inputTokens, 1), TextBlockStart(0), TextDelta(0, "hi")], Some(m))
  {
    var lines := UsageLines;
    assert lines[..3] == ["data: A", "", "data: U"];
    assert lines[..3][..2] == ["data: A", ""];
    assert lines[..3][..2][..1] == ["data: A"];
    assert ["data: A"][..0] == [];
    PayloadOf("A");
    PayloadOf("U");
    assert DataPrefix + "A" == "data: A" && DataPrefix + "U" == "data: U";
    assert Payload("") == None;
    var p0 := Start(msgId, model, inputTokens);
    var p1 := Progress(StreamState(0, true, false, EndTurn, 0), p0.events + [TextBlockStart(0), TextDelta(0, "hi")], None);
    assert RunLines(p0, lines[..3][..2][..1], decode) == p1;
    assert RunLines(p0, lines[..3][..2], decode) == p1;
    assert RunLines(p0, lines[..3], decode) == p1.(failure := Some(m));
  }

  /** When the last finish reason is one the table knows, the stream and the complete-response
      path report the same stop reason for it. */
  lemma StopReasonsAgree(fs: seq<Frame>, res: UpstreamResponse, model: string, id: string, lib: Library)
    requires |fs| > 0 && fs[|fs| - 1].finishReason.Some? && KnownFinish(fs[|fs| - 1].finishReason.value)
    requires FirstChoice(res).Some? && FirstChoice(res).value.finishReason == fs[|fs| - 1].finishReason
    ensures ResponseOf(res, model, id, lib).Some?
    ensures StreamStop(fs) == ResponseOf(res, model, id, lib).value.stopReason
  {
  }

  /** The text of a small stream: two frames, each followed by a blank line, then `[DONE]`. */
  const SampleText: string := "data: A\n\ndata: B\n\ndata: [DONE]\n"

  const SampleLines: seq<string> := ["data: A", "", "data: B", "", "data: [DONE]"]

  /** However that text is cut into chunks, even inside a line, the loop handles exactly the
      two frames: lines are released only once their newline has arrived, and the blank
      separator lines and the `[DONE]` line are skipped. */
  lemma ChunkedExample(chunks: seq<string>, decode: string -> Decoded, f1: Frame, f2: Frame)
    requires Concat(chunks) == SampleText
    requires decode("A") == Parsed(f1) && decode("B") == Parsed(f2)
    ensures ReceivedOf(Buffered(chunks).lines, decode) == Received([f1, f2], None)
  {
    SampleTerminated();
    SampleNoNewline();
    BufferedOfTerminated(chunks, SampleLines);
    SampleReceived(decode, f1, f2);
  }

  /** When the text received so far is whole lines, the buffer releases exactly those lines and
      keeps nothing. */
  lemma BufferedOfTerminated(chunks: seq<string>, lines: seq<string>)
    requires Concat(chunks) == Terminated(lines, Newline)
    requires forall k :: 0 <= k < |lines| ==> Newline !in lines[k]
    ensures Buffered(chunks) == Fed(lines, "")
  {
    ChunkBoundariesIrrelevant(chunks);
    assert Terminated(lines, Newline) + "" == Terminated(lines, Newline);
    SplitUnique(lines, "", Newline);
    var b := Buffered(chunks);
    assert b.lines + [b.rest] == lines + [""];
    assert b.lines == (b.lines + [b.rest])[..|b.lines|];
    assert b.rest == (b.lines + [b.rest])[|b.lines|];
  }

  lemma SampleNoNewline()
    ensures forall k :: 0 <= k < |SampleLines| ==> Newline !in SampleLines[k]
  {
    forall k | 0 <= k < |SampleLines| ensures Newline !in SampleLines[k] {
      if k == 0 { assert SampleLines[k] == "data: A"; }
      else if k == 2 { assert SampleLines[k] == "data: B"; }
      else if k == 4 { assert SampleLines[k] == "data: [DONE]"; }
    }
  }

  lemma SampleReceived(decode: string -> Decoded, f1: Frame, f2: Frame)
    requires decode("A") == Parsed(f1) && decode("B") == Parsed(f2)
    ensures ReceivedOf(SampleLines, decode) == Received([f1, f2], None)
  {
    var lines := SampleLines;
    assert lines[..4] == ["data: A", "", "data: B", ""];
    assert lines[..4][..3] == ["data: A", "", "data: B"];
    assert lines[..4][..3][..2] == ["data: A", ""];
    assert lines[..4][..3][..2][..1] == ["data: A"];
    assert ["data: A"][..0] == [];
    PayloadOf("A");
    PayloadOf("B");
    assert DataPrefix + "A" == "data: A" && DataPrefix + "B" == "data: B";
    assert Payload("") == None;
    assert Payload("data: [DONE]") == None;
    assert ReceivedOf(lines[..4][..3][..2][..1], decode) == Received([f1], None);
    assert ReceivedOf(lines[..4][..3][..2], decode) == Received([f1], None);
    assert ReceivedOf(lines[..4][..3], decode) == Received([f1, f2], None);
    assert ReceivedOf(lines[..4], decode) == Received([f1, f2], None);
  }

  lemma PayloadOf(data: string)
    requires data != Done
    ensures Payload(DataPrefix + data) == Some(data)
  {
    assert (DataPrefix + data)[|DataPrefix|..] == data;
  }

  lemma ConcatFour(a: string, b: string, c: string, d: string)
    ensures Concat([a, b, c, d]) == a + b + c + d
  {
    var ss := [a, b, c, d];
    assert ss[..3] == [a, b, c] && ss[..3][..2] == [a, b] && ss[..3][..2][..1] == [a] && [a][..0] == [];
    assert Concat([a]) == a;
    assert Concat([a, b]) == a + b;
    assert Concat([a, b, c]) == a + b + c;
  }

  /** The chunking of `ChunkedText`, which cuts the second frame's line in two, delivers the
      same two frames. */
  lemma SplitLineExample(decode: string -> Decoded, f1: Frame, f2: Frame)
    requires decode("A") == Parsed(f1) && decode("B") == Parsed(f2)
    ensures ReceivedOf(Buffered(["data: A\n", "\nda", "ta: B\n", "\ndata: [DONE]\n"]).lines, decode) == Received([f1, f2], None)
  {
    ChunkedText();
    ChunkedExample(["data: A\n", "\nda", "ta: B\n", "\ndata: [DONE]\n"], decode, f1, f2);
  }

  /** A chunking that cuts a line: the third chunk starts in the middle of "data: B". */
  lemma ChunkedText()
    ensures Concat(["data: A\n", "\nda", "ta: B\n", "\ndata: [DONE]\n"]) == SampleText
  {
    ConcatFour("data: A\n", "\nda", "ta: B\n", "\ndata: [DONE]\n");
  }

  lemma SampleTerminated()
    ensures Terminated(SampleLines, Newline) == SampleText
  {
    var lines := SampleLines;
    assert lines[..4] == ["data: A", "", "data: B", ""];
    assert lines[..4][..3] == ["data: A", "", "data: B"];
    assert lines[..4][..3][..2] == ["data: A", ""];
    assert lines[..4][..3][..2][..1] == ["data: A"];
    assert ["data: A"][..0] == [];
    assert Terminated(["data: A"], Newline) == "data: A\n";
    assert Terminated(["data: A", ""], Newline) == "data: A\n\n";
    assert Terminated(["data: A", "", "data: B"], Newline) == "data: A\n\ndata: B\n";
    assert Terminated(["data: A", "", "data: B", ""], Newline) == "data: A\n\ndata: B\n\n";
  }
}
