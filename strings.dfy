/** String helpers with the meaning of the Python built-ins the proxy uses:
    `"".join`, `sep.join`, `str.startswith`, the `in` substring test and `str.split`. */
module Strings {

  /** `"".join(ss)`. */
  function Concat(ss: seq<string>): string {
    if |ss| == 0 then "" else Concat(ss[..|ss| - 1]) + ss[|ss| - 1]
  }

  lemma {:induction false} ConcatAppend(a: seq<string>, b: seq<string>)
    ensures Concat(a + b) == Concat(a) + Concat(b)
    decreases |b|
  {
    if |b| == 0 {
      assert a + b == a;
    } else {
      var n := |b| - 1;
      assert (a + b)[..|a + b| - 1] == a + b[..n];
      ConcatAppend(a, b[..n]);
    }
  }

  lemma ConcatSingle(s: string)
    ensures Concat([s]) == s
  {
    assert [s][..0] == [];
  }

  /** `sep.join(ss)`. */
  function Join(ss: seq<string>, sep: string): string {
    if |ss| == 0 then ""
    else if |ss| == 1 then ss[0]
    else ss[0] + sep + Join(ss[1..], sep)
  }

  /** `s.startswith(p)`. */
  predicate StartsWith(s: string, p: string) {
    |p| <= |s| && s[..|p|] == p
  }

  /** `pat` occurs at position `i` of `s`. */
  ghost predicate OccursAt(pat: string, s: string, i: int) {
    0 <= i && i + |pat| <= |s| && s[i..i + |pat|] == pat
  }

  /** Python's `pat in s` for strings: a left-to-right search. */
  function Contains(s: string, pat: string): (r: bool)
    ensures r <==> exists i :: OccursAt(pat, s, i)
    decreases |s|
  {
    if |s| < |pat| then false
    else if s[..|pat|] == pat then assert OccursAt(pat, s, 0); true
    else
      var rest := Contains(s[1..], pat);
      assert forall i :: OccursAt(pat, s[1..], i) <==> OccursAt(pat, s, i + 1) by {
        forall i ensures OccursAt(pat, s[1..], i) <==> OccursAt(pat, s, i + 1) {
          if 0 <= i && i + |pat| <= |s| - 1 {
            assert s[1..][i..i + |pat|] == s[i + 1..i + 1 + |pat|];
          }
        }
      }
      assert !OccursAt(pat, s, 0);
      assert (exists i :: OccursAt(pat, s, i)) ==> exists i :: OccursAt(pat, s[1..], i) by {
        if exists i :: OccursAt(pat, s, i) {
          var i :| OccursAt(pat, s, i);
          assert i != 0;
          assert OccursAt(pat, s[1..], i - 1);
        }
      }
      rest
  }

  /** The first position of `c` in `s`. */
  function IndexOf(s: string, c: char): (i: nat)
    requires c in s
    ensures i < |s| && s[i] == c && c !in s[..i]
  {
    if s[0] == c then 0 else
      var j := IndexOf(s[1..], c);
      assert s[1..][..j] == s[1..j + 1];
      j + 1
  }

  /** Python's `s.split(sep)` for a one-character separator: always at least one piece,
      no piece contains the separator, and joining the pieces gives `s` back. */
  function Split(s: string, sep: char): (r: seq<string>)
    ensures |r| >= 1
    ensures forall k :: 0 <= k < |r| ==> sep !in r[k]
    ensures Join(r, [sep]) == s
    decreases |s|
  {
    if sep !in s then [s]
    else
      var i := IndexOf(s, sep);
      var rest := Split(s[i + 1..], sep);
      assert s == s[..i] + [sep] + s[i + 1..];
      [s[..i]] + rest
  }

  /** Every line followed by its terminator: what `lines` stood for in the buffer. */
  function Terminated(lines: seq<string>, sep: char): string {
    if |lines| == 0 then "" else Terminated(lines[..|lines| - 1], sep) + lines[|lines| - 1] + [sep]
  }

  lemma {:induction false} TerminatedAppend(a: seq<string>, b: seq<string>, sep: char)
    ensures Terminated(a + b, sep) == Terminated(a, sep) + Terminated(b, sep)
    decreases |b|
  {
    if |b| == 0 {
      assert a + b == a;
    } else {
      var n := |b| - 1;
      assert (a + b)[..|a + b| - 1] == a + b[..n];
      TerminatedAppend(a, b[..n], sep);
    }
  }

  lemma TerminatedCons(l: string, rest: seq<string>, sep: char)
    ensures Terminated([l] + rest, sep) == l + [sep] + Terminated(rest, sep)
  {
    TerminatedAppend([l], rest, sep);
    assert [l][..0] == [];
  }

  /** Joining the pieces of a split is the same as terminating all but the last piece. */
  lemma {:induction false} JoinIsTerminated(r: seq<string>, sep: char)
    requires |r| >= 1
    ensures Join(r, [sep]) == Terminated(r[..|r| - 1], sep) + r[|r| - 1]
  {
    if |r| == 1 {
      assert r[..0] == [];
    } else {
      JoinIsTerminated(r[1..], sep);
      assert r[..|r| - 1] == [r[0]] + r[1..][..|r[1..]| - 1];
      TerminatedCons(r[0], r[1..][..|r[1..]| - 1], sep);
    }
  }

  /** The first separator of `l + [sep] + t` is the one after `l` when `l` has none. */
  lemma IndexOfAfterLine(l: string, t: string, sep: char)
    requires sep !in l
    ensures sep in l + [sep] + t && IndexOf(l + [sep] + t, sep) == |l|
  {
    var s := l + [sep] + t;
    assert s[|l|] == sep;
    assert s[..|l|] == l;
  }

  lemma SplitCons(l: string, t: string, sep: char)
    requires sep !in l
    ensures Split(l + [sep] + t, sep) == [l] + Split(t, sep)
  {
    var s := l + [sep] + t;
    IndexOfAfterLine(l, t, sep);
    assert s[..|l|] == l;
    assert s[|l| + 1..] == t;
  }

  /** The split is the only way to cut a string into separator-free terminated lines and a
      separator-free rest. */
  lemma {:induction false} SplitUnique(lines: seq<string>, rest: string, sep: char)
    requires forall k :: 0 <= k < |lines| ==> sep !in lines[k]
    requires sep !in rest
    ensures Split(Terminated(lines, sep) + rest, sep) == lines + [rest]
    decreases |lines|
  {
    if |lines| == 0 {
      assert Terminated(lines, sep) + rest == rest;
    } else {
      var l, tail := lines[0], lines[1..];
      assert lines == [l] + tail;
      SplitUnique(tail, rest, sep);
      SplitUniqueStep(l, tail, rest, sep);
    }
  }

  /** One more line in front keeps the split exact. */
  lemma SplitUniqueStep(l: string, tail: seq<string>, rest: string, sep: char)
    requires sep !in l
    requires Split(Terminated(tail, sep) + rest, sep) == tail + [rest]
    ensures Split(Terminated([l] + tail, sep) + rest, sep) == [l] + tail + [rest]
  {
    var t := Terminated(tail, sep) + rest;
    assert Terminated([l] + tail, sep) + rest == l + [sep] + t by {
      TerminatedCons(l, tail, sep);
      Reassociate(l + [sep], Terminated(tail, sep), rest);
    }
    SplitCons(l, t, sep);
    Reassociate([l], tail, [rest]);
  }

  lemma Reassociate<T>(a: seq<T>, b: seq<T>, c: seq<T>)
    ensures (a + b) + c == a + (b + c)
  {
  }
}
