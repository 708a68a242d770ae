/** The line buffer of the stream loop (proxy.py lines 182-193): each chunk is appended to the
    buffer, the buffer is split at newlines, the complete lines are handed on and the last,
    unfinished piece stays in the buffer. */
module LineBuffer {
  import opened Wrappers
  import opened Strings

  const Newline: char := '\n'

  /** The complete lines one chunk releases and the remainder that stays buffered. */
  datatype Fed = Fed(lines: seq<string>, rest: string)

  /** No piece holds a newline. */
  predicate NoNewline(lines: seq<string>, rest: string) {
    Newline !in rest && forall k :: 0 <= k < |lines| ==> Newline !in lines[k]
  }

  /** `buf += chunk; lines = buf.split("\n"); buf = lines.pop()`. The released lines, each
      followed by its newline, and then the remainder are exactly the old buffer and the chunk. */
  function Feed(buf: string, chunk: string): (r: Fed)
    ensures Terminated(r.lines, Newline) + r.rest == buf + chunk
    ensures NoNewline(r.lines, r.rest)
  {
    var pieces := Split(buf + chunk, Newline);
    JoinIsTerminated(pieces, Newline);
    Fed(pieces[..|pieces| - 1], pieces[|pieces| - 1])
  }

  /** Those two properties determine the split: any lines and remainder with them are the
      ones `Feed` gives. */
  lemma FeedUnique(buf: string, chunk: string, lines: seq<string>, rest: string)
    requires Terminated(lines, Newline) + rest == buf + chunk
    requires NoNewline(lines, rest)
    ensures Feed(buf, chunk) == Fed(lines, rest)
  {
    SplitUnique(lines, rest, Newline);
    var pieces := lines + [rest];
    assert pieces[..|pieces| - 1] == lines;
  }

  /** One more chunk extends the released lines and keeps the buffer's two properties. */
  lemma FeedExtends(lines: seq<string>, rest: string, text: string, chunk: string)
    requires Terminated(lines, Newline) + rest == text
    requires NoNewline(lines, rest)
    ensures var f := Feed(rest, chunk);
      Terminated(lines + f.lines, Newline) + f.rest == text + chunk
      && NoNewline(lines + f.lines, f.rest)
  {
    var f := Feed(rest, chunk);
    NoNewlineAppend(lines, f.lines, f.rest);
    TerminatedAppend(lines, f.lines, Newline);
    var t1, t2 := Terminated(lines, Newline), Terminated(f.lines, Newline);
    Regroup(t1, t2, f.rest, rest, chunk);
  }

  lemma Regroup(t1: string, t2: string, r: string, rest: string, chunk: string)
    requires t2 + r == rest + chunk
    ensures (t1 + t2) + r == (t1 + rest) + chunk
  {
    assert (t1 + t2) + r == t1 + (t2 + r);
    assert (t1 + rest) + chunk == t1 + (rest + chunk);
  }

  lemma NoNewlineAppend(a: seq<string>, b: seq<string>, rest: string)
    requires forall k :: 0 <= k < |a| ==> Newline !in a[k]
    requires NoNewline(b, rest)
    ensures NoNewline(a + b, rest)
  {
    var all := a + b;
    forall k | 0 <= k < |all| ensures Newline !in all[k] {
      if k < |a| { assert all[k] == a[k]; }
      else { assert all[k] == b[k - |a|]; }
    }
  }

  /** Every line released over a sequence of chunks, and what is buffered at the end. */
  function Buffered(chunks: seq<string>): (r: Fed)
    ensures Terminated(r.lines, Newline) + r.rest == Concat(chunks)
    ensures NoNewline(r.lines, r.rest)
  {
    if |chunks| == 0 then Fed([], "")
    else
      var prev := Buffered(chunks[..|chunks| - 1]);
      var f := Feed(prev.rest, chunks[|chunks| - 1]);
      FeedExtends(prev.lines, prev.rest, Concat(chunks[..|chunks| - 1]), chunks[|chunks| - 1]);
      var all := prev.lines + f.lines;
      Fed(all, f.rest)
  }

  /** The lines do not depend on where the chunk boundaries fall: they and the remainder are
      the text received so far split at its newlines. */
  lemma ChunkBoundariesIrrelevant(chunks: seq<string>)
    ensures Buffered(chunks).lines + [Buffered(chunks).rest] == Split(Concat(chunks), Newline)
  {
    var b := Buffered(chunks);
    SplitUnique(b.lines, b.rest, Newline);
  }

  /** Hence two chunkings of the same text release the same lines and keep the same remainder. */
  lemma SameTextSameLines(a: seq<string>, b: seq<string>)
    requires Concat(a) == Concat(b)
    ensures Buffered(a) == Buffered(b)
  {
    ChunkBoundariesIrrelevant(a);
    ChunkBoundariesIrrelevant(b);
    var la, lb := Buffered(a).lines + [Buffered(a).rest], Buffered(b).lines + [Buffered(b).rest];
    assert la[..|la| - 1] == Buffered(a).lines;
    assert lb[..|lb| - 1] == Buffered(b).lines;
  }

  /** The prefix a processed line starts with. */
  const DataPrefix: string := "data: "

  /** The end-of-stream payload. */
  const Done: string := "[DONE]"

  /** The payload of a line that is processed: only a line starting with "data: " whose rest is
      not "[DONE]" has one. */
  function Payload(line: string): (r: Option<string>)
    ensures r.Some? <==> StartsWith(line, DataPrefix) && line[|DataPrefix|..] != Done
    ensures r.Some? ==> line == DataPrefix + r.value
  {
    if !StartsWith(line, DataPrefix) then None
    else
      var data := line[6..];
      assert line == line[..6] + data;
      if data == Done then None else Some(data)
  }
}
