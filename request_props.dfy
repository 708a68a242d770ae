/** What the request translation guarantees, proved about the functions that define it. */
module RequestProperties {
  import opened Wrappers
  import opened Strings
  import opened JsonValues
  import opened Anthropic
  import opened OpenAI
  import opened RequestTranslation

  /** The k-th tool call of an assistant message is made from its k-th tool-use block: its
      name (default ""), its id or a generated `call_` id, and its serialised input (default {}). */
  lemma {:induction false} CallsFollowToolUses(i: nat, bs: seq<Block>, lib: Library, mint: IdSource)
    ensures var calls, uses := CallsOf(i, bs, lib, mint), Filter(bs, IsToolUse);
      && |calls| == |uses|
      && forall k :: 0 <= k < |uses| ==>
           && calls[k].name == uses[k].name.GetOr("")
           && calls[k].arguments == lib.dumps(uses[k].input.GetOr(EmptyObject))
           && (uses[k].id.Some? ==> calls[k].id == uses[k].id.value)
           && (uses[k].id.None? ==> StartsWith(calls[k].id, "call_"))
  {
    if |bs| > 0 {
      CallsFollowToolUses(i, bs[..|bs| - 1], lib, mint);
    }
  }

  /** An assistant message with at least one tool-use block becomes exactly one assistant
      message: content null when it has no text block, otherwise the text blocks concatenated,
      and the calls of its tool-use blocks. Its tool results, if any, are dropped. */
  lemma AssistantToolUseMessage(i: nat, bs: seq<Block>, lib: Library, mint: IdSource)
    requires exists k :: 0 <= k < |bs| && bs[k].ToolUseBlock?
    ensures FlattenMessage(i, Message("assistant", Blocks(bs)), lib, mint) ==
      [AssistantCalls(
        if exists k :: 0 <= k < |bs| && bs[k].TextBlock? then Some(ContentToString(Blocks(bs))) else None,
        CallsOf(i, bs, lib, mint))]
  {
    var k :| 0 <= k < |bs| && bs[k].ToolUseBlock?;
    assert IsToolUse(bs[k]);
    var texts := Filter(bs, IsText);
    if exists j :: 0 <= j < |bs| && bs[j].TextBlock? {
      var j :| 0 <= j < |bs| && bs[j].TextBlock?;
      assert IsText(bs[j]);
    }
  }

  /** A truthy system prompt adds exactly one message, in front of the translated messages:
      a `system` message holding the string, or the list's text blocks joined by newlines. A
      falsy one adds nothing. */
  lemma SystemLeads(msgs: seq<Message>, system: Content, lib: Library, mint: IdSource)
    ensures var flat, rest := FlatMessages(msgs, system, lib, mint), FlattenAll(msgs, lib, mint);
      && |flat| == |rest| + (if system.Truthy() then 1 else 0)
      && (system.Truthy() ==> flat[0] == Plain("system", FText(SystemText(system))) && flat[1..] == rest)
      && (!system.Truthy() ==> flat == rest)
      && (system.Blocks? ==> SystemText(system) == Join(TextsOf(system.blocks), "\n"))
  {
    var flat, rest := FlatMessages(msgs, system, lib, mint), FlattenAll(msgs, lib, mint);
    if system.Truthy() {
      assert flat == [Plain("system", FText(SystemText(system)))] + rest;
    } else {
      assert flat == [] + rest;
    }
  }

  /** One `role=tool` message per tool-result block, in order, carrying its id and its text. */
  lemma {:induction false} RepliesFollowResults(rs: seq<Block>)
    requires forall k :: 0 <= k < |rs| ==> rs[k].ToolResultBlock?
    ensures |Replies(rs)| == |rs|
    ensures forall k :: 0 <= k < |rs| ==>
      Replies(rs)[k] == ToolReply(ResultText(rs[k].content), rs[k].toolUseId.GetOr(""))
  {
    if |rs| > 0 {
      RepliesFollowResults(rs[..|rs| - 1]);
    }
  }

  /** A message with tool results (and no assistant tool use) becomes exactly its
      `role=tool` messages; every other block of it is dropped. */
  lemma ToolResultMessage(i: nat, m: Message, lib: Library, mint: IdSource)
    requires m.content.Blocks?
    requires !(m.role == "assistant" && exists k :: 0 <= k < |m.content.blocks| && m.content.blocks[k].ToolUseBlock?)
    requires exists k :: 0 <= k < |m.content.blocks| && m.content.blocks[k].ToolResultBlock?
    ensures var rs := Filter(m.content.blocks, IsToolResult);
      && |rs| > 0
      && FlattenMessage(i, m, lib, mint) == Replies(rs)
      && |Replies(rs)| == |rs|
      && forall k :: 0 <= k < |rs| ==>
           && Replies(rs)[k].ToolReply?
           && Replies(rs)[k].toolCallId == rs[k].toolUseId.GetOr("")
           && Replies(rs)[k].result == ResultText(rs[k].content)
  {
    var bs := m.content.blocks;
    var rs := Filter(bs, IsToolResult);
    assert |rs| > 0 by {
      var k :| 0 <= k < |bs| && bs[k].ToolResultBlock?;
      assert IsToolResult(bs[k]);
    }
    assert FlattenMessage(i, m, lib, mint) == Replies(rs) by {
      if m.role == "assistant" {
        assert forall j :: 0 <= j < |bs| ==> !IsToolUse(bs[j]);
        assert |Filter(bs, IsToolUse)| == 0;
      }
    }
    RepliesFollowResults(rs);
  }

  /** The texts of a part list. */
  function PartTexts(ps: seq<Part>): seq<string> {
    if |ps| == 0 then []
    else PartTexts(ps[..|ps| - 1]) + (if ps[|ps| - 1].TextPart? then [ps[|ps| - 1].text] else [])
  }

  /** Building parts loses no text: the text parts concatenate to the blocks' text, every text
      part is non-empty and every image part is a base64 data URL. */
  lemma PartsKeepText(bs: seq<Block>)
    ensures Concat(PartTexts(Parts(bs))) == ContentToString(Blocks(bs))
    ensures forall k :: 0 <= k < |Parts(bs)| ==>
      match Parts(bs)[k]
      case TextPart(t) => t != ""
      case ImageUrlPart(u) => StartsWith(u, "data:")
  {
    PartsConcat(bs);
    PartsShape(bs);
  }

  /** The text half of `PartsKeepText`. */
  lemma {:induction false} PartsConcat(bs: seq<Block>)
    ensures Concat(PartTexts(Parts(bs))) == ContentToString(Blocks(bs))
  {
    if |bs| > 0 {
      PartsConcat(bs[..|bs| - 1]);
      TextsStep(bs);
      PartTextsStep(bs);
    }
  }

  /** The per-part half of `PartsKeepText`. */
  lemma {:induction false} PartsShape(bs: seq<Block>)
    ensures forall k :: 0 <= k < |Parts(bs)| ==>
      match Parts(bs)[k]
      case TextPart(t) => t != ""
      case ImageUrlPart(u) => StartsWith(u, "data:")
  {
    if |bs| > 0 {
      var init := bs[..|bs| - 1];
      PartsShape(init);
      var ps, b := Parts(init), bs[|bs| - 1];
      if PartOf(b).Some? {
        assert Parts(bs) == ps + [PartOf(b).value];
        assert forall k :: 0 <= k < |ps| ==> Parts(bs)[k] == ps[k];
      }
    }
  }

  /** One block gives at most one part: its own, when it has one. */
  lemma PartsSingle(b: Block)
    ensures Parts([b]) == (if PartOf(b).Some? then [PartOf(b).value] else [])
  {
    assert [b][..0] == [];
  }

  /** The parts of a concatenation are the parts of each piece in turn; with `PartsSingle` this
      fixes the parts of every block list: one per non-empty text block and per image block
      with a truthy source, in block order. */
  lemma {:induction false} PartsAppend(a: seq<Block>, b: seq<Block>)
    ensures Parts(a + b) == Parts(a) + Parts(b)
  {
    if |b| == 0 {
      assert a + b == a;
    } else {
      var init, last := b[..|b| - 1], b[|b| - 1];
      PartsAppend(a, init);
      assert (a + b)[..|a + b| - 1] == a + init;
      assert (a + b)[|a + b| - 1] == last;
      if PartOf(last).Some? {
        Reassociate(Parts(a), Parts(init), [PartOf(last).value]);
      }
    }
  }

  /** The text a block contributes to `content_to_string`. */
  function BlockText(b: Block): string {
    if b.TextBlock? then b.text.GetOr("") else ""
  }

  lemma TextsStep(bs: seq<Block>)
    requires |bs| > 0
    ensures Concat(TextsOf(bs)) == Concat(TextsOf(bs[..|bs| - 1])) + BlockText(bs[|bs| - 1])
  {
    var b := bs[|bs| - 1];
    var extra := if b.TextBlock? then [b.text.GetOr("")] else [];
    assert TextsOf(bs) == TextsOf(bs[..|bs| - 1]) + extra;
    ConcatAppend(TextsOf(bs[..|bs| - 1]), extra);
    if b.TextBlock? { ConcatSingle(b.text.GetOr("")); }
  }

  lemma PartTextsStep(bs: seq<Block>)
    requires |bs| > 0
    ensures Concat(PartTexts(Parts(bs))) == Concat(PartTexts(Parts(bs[..|bs| - 1]))) + BlockText(bs[|bs| - 1])
  {
    var ps, b := Parts(bs[..|bs| - 1]), bs[|bs| - 1];
    match PartOf(b)
    case Some(p) =>
      assert Parts(bs) == ps + [p];
      assert (ps + [p])[..|ps|] == ps;
      var extra := if p.TextPart? then [p.text] else [];
      assert PartTexts(ps + [p]) == PartTexts(ps) + extra;
      ConcatAppend(PartTexts(ps), extra);
      if p.TextPart? { ConcatSingle(p.text); }
    case None =>
      assert Parts(bs) == ps;
  }


  /** A message with a text or image block, no tool result, and no tool call if it is the
      assistant's, becomes one message with the same role whose content is the bare string
      when its only part is a text, and the list of parts otherwise. */
  lemma TextImageMessage(i: nat, m: Message, lib: Library, mint: IdSource)
    requires m.content.Blocks?
    requires !(m.role == "assistant" && exists k :: 0 <= k < |m.content.blocks| && m.content.blocks[k].ToolUseBlock?)
    requires forall k :: 0 <= k < |m.content.blocks| ==> !m.content.blocks[k].ToolResultBlock?
    requires exists k :: 0 <= k < |m.content.blocks| && (m.content.blocks[k].TextBlock? || m.content.blocks[k].ImageBlock?)
    ensures var ps := Parts(m.content.blocks);
      FlattenMessage(i, m, lib, mint) == [Plain(m.role, Collapse(ps))] &&
      (Collapse(ps).FText? <==> |ps| == 1 && ps[0].TextPart?) &&
      (Collapse(ps).FText? ==> Collapse(ps).text == ContentToString(m.content))
  {
    var bs := m.content.blocks;
    assert FlattenMessage(i, m, lib, mint) == [Plain(m.role, Collapse(Parts(bs)))] by {
      if m.role == "assistant" {
        assert forall j :: 0 <= j < |bs| ==> !IsToolUse(bs[j]);
      }
      assert forall j :: 0 <= j < |bs| ==> !IsToolResult(bs[j]);
      var k :| 0 <= k < |bs| && (bs[k].TextBlock? || bs[k].ImageBlock?);
      assert IsText(bs[k]) || IsImage(bs[k]);
    }
    PartsKeepText(bs);
    var ps := Parts(bs);
    if |ps| == 1 && ps[0].TextPart? {
      assert ps[..0] == [];
      assert PartTexts(ps) == [ps[0].text];
      ConcatSingle(ps[0].text);
    }
  }

  /** The URLs of a part list's image parts. */
  function PartImages(ps: seq<Part>): seq<string> {
    if |ps| == 0 then []
    else PartImages(ps[..|ps| - 1]) + (if ps[|ps| - 1].ImageUrlPart? then [ps[|ps| - 1].url] else [])
  }

  /** The data URLs of the image blocks whose source is present and truthy, in block order. */
  function ImageUrls(bs: seq<Block>): seq<string> {
    if |bs| == 0 then []
    else
      var b := bs[|bs| - 1];
      ImageUrls(bs[..|bs| - 1])
      + (if b.ImageBlock? && b.source.Some? && b.source.value.Truthy() then [DataUrl(b.source.value)] else [])
  }

  /** Building parts keeps every image: the image parts are, in order, the data URLs of the
      image blocks with a truthy source, and the other image blocks leave no part. */
  lemma {:induction false} PartsKeepImages(bs: seq<Block>)
    ensures PartImages(Parts(bs)) == ImageUrls(bs)
  {
    if |bs| > 0 {
      var init, b := bs[..|bs| - 1], bs[|bs| - 1];
      PartsKeepImages(init);
      var ps := Parts(init);
      match PartOf(b)
      case Some(p) =>
        assert Parts(bs) == ps + [p];
        assert (ps + [p])[..|ps|] == ps;
      case None =>
        assert Parts(bs) == ps;
    }
  }

  /** A message disappears from the translation exactly when its content is neither a string nor
      a list, or is a list with no text, image or tool-result block that is not an assistant's
      tool call. */
  lemma MessageDropped(i: nat, m: Message, lib: Library, mint: IdSource)
    ensures FlattenMessage(i, m, lib, mint) == [] <==>
      || m.content.Absent?
      || (&& m.content.Blocks?
          && !(m.role == "assistant" && exists k :: 0 <= k < |m.content.blocks| && m.content.blocks[k].ToolUseBlock?)
          && forall k :: 0 <= k < |m.content.blocks| ==> m.content.blocks[k].OtherBlock? || m.content.blocks[k].ToolUseBlock?)
  {
    if m.content.Blocks? {
      var bs := m.content.blocks;
      RepliesFollowResults(Filter(bs, IsToolResult));
      if exists k :: 0 <= k < |bs| && bs[k].ToolUseBlock? {
        var k :| 0 <= k < |bs| && bs[k].ToolUseBlock?;
        assert IsToolUse(bs[k]);
      }
      if exists k :: 0 <= k < |bs| && !(bs[k].OtherBlock? || bs[k].ToolUseBlock?) {
        var k :| 0 <= k < |bs| && !(bs[k].OtherBlock? || bs[k].ToolUseBlock?);
        assert IsText(bs[k]) || IsImage(bs[k]) || IsToolResult(bs[k]);
      }
    }
  }

  lemma {:induction false} TextsOfAppend(a: seq<Block>, b: seq<Block>)
    ensures TextsOf(a + b) == TextsOf(a) + TextsOf(b)
    decreases |b|
  {
    if |b| == 0 {
      assert a + b == a;
    } else {
      var n := |b| - 1;
      assert (a + b)[..|a + b| - 1] == a + b[..n];
      TextsOfAppend(a, b[..n]);
    }
  }

  lemma {:induction false} TextsOfFilter(a: seq<Block>)
    ensures TextsOf(a) == TextsOf(Filter(a, IsText))
  {
    if |a| > 0 {
      var m := |a| - 1;
      TextsOfFilter(a[..m]);
      var f := Filter(a[..m], IsText);
      if IsText(a[m]) {
        assert Filter(a, IsText) == f + [a[m]];
        assert (f + [a[m]])[..|f|] == f;
        assert TextsOf(f + [a[m]]) == TextsOf(f) + [a[m].text.GetOr("")];
        assert TextsOf(a) == TextsOf(a[..m]) + [a[m].text.GetOr("")];
      } else {
        assert Filter(a, IsText) == f;
        assert TextsOf(a) == TextsOf(a[..m]);
      }
    }
  }

  /** content_to_string looks only at text blocks, and distributes over concatenation. */
  lemma ContentToStringOnlyText(a: seq<Block>, b: seq<Block>)
    ensures ContentToString(Blocks(a + b)) == ContentToString(Blocks(a)) + ContentToString(Blocks(b))
    ensures ContentToString(Blocks(a)) == ContentToString(Blocks(Filter(a, IsText)))
  {
    TextsOfAppend(a, b);
    ConcatAppend(TextsOf(a), TextsOf(b));
    TextsOfFilter(a);
  }

  /** The plain-text example: one user string message is passed through unchanged, with no
      system message and no tools. */
  lemma SimpleTextRequest(lib: Library, mint: IdSource)
    ensures var r := ConvertRequest(
      Request("claude-x", [Message("user", Str("Hello!"))], Absent, Some(JNum(100.0)), false,
              None, None, None, None, None, None), lib, mint);
      && r.messages == [Plain("user", FText("Hello!"))]
      && r.tools.None? && r.maxTokens == JNum(100.0) && !r.includeUsage
  {
    var msgs := [Message("user", Str("Hello!"))];
    assert msgs[..0] == [];
    assert FlattenAll(msgs, lib, mint) == FlattenMessage(0, msgs[0], lib, mint);
    assert FlatMessages(msgs, Absent, lib, mint) == [Plain("user", FText("Hello!"))];
  }

  /** The tool-use example: one tool-use block with an id becomes one call with null content. */
  lemma ToolUseExample(lib: Library, mint: IdSource)
    ensures var input := JObj([("q", JStr("x"))]);
      FlattenMessage(0, Message("assistant", Blocks([ToolUseBlock(Some("t1"), Some("lookup"), Some(input))])), lib, mint)
        == [AssistantCalls(None, [ToolCall("t1", "lookup", lib.dumps(input))])]
  {
    var input := JObj([("q", JStr("x"))]);
    var bs := [ToolUseBlock(Some("t1"), Some("lookup"), Some(input))];
    assert bs[..0] == [];
    assert IsToolUse(bs[0]);
    assert Filter(bs, IsText) == [];
    assert CallsOf(0, bs, lib, mint) == [CallOf(0, 0, Some("t1"), Some("lookup"), Some(input), lib, mint)];
  }
}
