/** Line counting. The lexer keeps a running line number and the offset at which
    the current line starts; `\n`, a lone `\r` and the pair `\r\n` each end one
    line. This module defines those counters declaratively over a string and
    proves how they compose, so that the scanners' running counters can be
    compared with them. */
module Lines {

  /** The lexer's running counters: `line` (1-based) and `lineStart`, the
      offset of the first character of the current line. */
  datatype LineState = LineState(line: int, lineStart: int)

  /** The counters of a freshly constructed lexer. */
  const Initial: LineState := LineState(1, 0)

  /** Length of the line terminator that starts `s`: 2 for `\r\n`, 1 for `\n`
      or a lone `\r`, 0 when `s` does not start with a terminator. */
  function TerminatorLength(s: string): (k: nat)
    ensures k <= |s|
    ensures k == 0 <==> (|s| == 0 || (s[0] != '\n' && s[0] != '\r'))
    ensures k == 2 <==> (|s| >= 2 && s[0] == '\r' && s[1] == '\n')
  {
    if |s| == 0 then 0
    else if s[0] == '\n' then 1
    else if s[0] == '\r' then (if |s| >= 2 && s[1] == '\n' then 2 else 1)
    else 0
  }

  /** Number of line terminators in `s`, reading `\r\n` as one. */
  function LineBreaks(s: string): nat
    decreases |s|
  {
    if |s| == 0 then 0
    else
      var k := TerminatorLength(s);
      if k == 0 then LineBreaks(s[1..]) else 1 + LineBreaks(s[k..])
  }

  /** Offset just past the last line terminator of `s`; 0 when there is none. */
  function LastBreakEnd(s: string): nat
    decreases |s|
  {
    if |s| == 0 then 0
    else
      var k := TerminatorLength(s);
      if k == 0 then
        (if LineBreaks(s[1..]) == 0 then 0 else 1 + LastBreakEnd(s[1..]))
      else
        (if LineBreaks(s[k..]) == 0 then k else k + LastBreakEnd(s[k..]))
  }

  /** The counters after reading `s`, which starts at offset `base` of the body,
      starting from the counters `st`. */
  function Track(st: LineState, s: string, base: int): LineState {
    if LineBreaks(s) == 0 then st
    else LineState(st.line + LineBreaks(s), base + LastBreakEnd(s))
  }

  /** The counters a lexer holds once it has consumed `body[..n]`. */
  function StateAt(body: string, n: nat): LineState
    requires n <= |body|
  {
    Track(Initial, body[..n], 0)
  }

  /** Offset `n` does not fall between the two characters of a `\r\n` pair. */
  predicate NoSplit(body: string, n: nat) {
    !(0 < n < |body| && body[n - 1] == '\r' && body[n] == '\n')
  }

  /** Reading a non-empty string moves the counters as reading its first
      character (or its leading terminator) and then the rest does. */
  lemma TrackStep(st: LineState, s: string, base: int)
    requires |s| > 0
    ensures var k := TerminatorLength(s);
      var j := if k == 0 then 1 else k;
      var st' := if k == 0 then st else LineState(st.line + 1, base + k);
      Track(st, s, base) == Track(st', s[j..], base + j)
  {
  }

  /** A string without line terminators does not move the counters. */
  lemma {:induction false} NoTerminatorNoBreak(s: string, base: int, st: LineState)
    requires forall i :: 0 <= i < |s| ==> s[i] != '\n' && s[i] != '\r'
    ensures LineBreaks(s) == 0
    ensures Track(st, s, base) == st
    decreases |s|
  {
    if |s| > 0 {
      NoTerminatorNoBreak(s[1..], base, st);
    }
  }

  /** Appending text after `s` does not change the terminator that starts
      `s`, provided the split point is not inside a `\r\n` pair. */
  lemma TerminatorPrefix(s: string, t: string)
    requires |s| > 0
    requires |t| == 0 || s[|s| - 1] != '\r' || t[0] != '\n'
    ensures TerminatorLength(s + t) == TerminatorLength(s)
  {
    var st := s + t;
    assert st[0] == s[0];
    if |s| >= 2 {
      assert st[1] == s[1];
    } else if s[0] == '\r' && |t| > 0 {
      assert st[1] == t[0];
    }
  }

  /** Line breaks over a concatenation add up, provided the split point is
      not inside a `\r\n` pair. */
  lemma {:induction false} BreaksAppendCount(s: string, t: string)
    requires |s| == 0 || |t| == 0 || s[|s| - 1] != '\r' || t[0] != '\n'
    ensures LineBreaks(s + t) == LineBreaks(s) + LineBreaks(t)
    decreases |s|
  {
    if |s| == 0 {
      assert s + t == t;
    } else {
      var k := TerminatorLength(s);
      TerminatorPrefix(s, t);
      var j := if k == 0 then 1 else k;
      assert (s + t)[j..] == s[j..] + t;
      BreaksAppendCount(s[j..], t);
    }
  }

  /** `LastBreakEnd` after the first character, or the leading terminator,
      of `s`. */
  lemma LastBreakEndStep(s: string)
    requires |s| > 0
    ensures var k := TerminatorLength(s);
      var j := if k == 0 then 1 else k;
      LastBreakEnd(s) == if LineBreaks(s[j..]) == 0 then k else j + LastBreakEnd(s[j..])
  {
  }

  /** The last line break over a concatenation is the last one of `t` when
      `t` has one, and otherwise the last one of `s`. */
  lemma {:induction false} BreaksAppendLast(s: string, t: string)
    requires |s| == 0 || |t| == 0 || s[|s| - 1] != '\r' || t[0] != '\n'
    ensures LineBreaks(t) > 0 ==> LastBreakEnd(s + t) == |s| + LastBreakEnd(t)
    ensures LineBreaks(t) == 0 ==> LastBreakEnd(s + t) == LastBreakEnd(s)
    decreases |s|
  {
    if |s| == 0 {
      assert s + t == t;
    } else {
      var k := TerminatorLength(s);
      var st := s + t;
      TerminatorPrefix(s, t);
      var j := if k == 0 then 1 else k;
      var a, u := s[j..], st[j..];
      assert u == a + t;
      assert |a| > 0 ==> a[|a| - 1] == s[|s| - 1];
      BreaksAppendCount(a, t);
      BreaksAppendLast(a, t);
      LastBreakEndStep(s);
      LastBreakEndStep(st);
      if LineBreaks(t) > 0 {
        assert LineBreaks(u) > 0 && LastBreakEnd(u) == |a| + LastBreakEnd(t);
        assert LastBreakEnd(st) == j + LastBreakEnd(u);
        assert |s| == j + |a|;
      } else {
        assert LineBreaks(u) == LineBreaks(a) && LastBreakEnd(u) == LastBreakEnd(a);
      }
    }
  }

  /** Counting over a concatenation adds up, provided the split point is not
      inside a `\r\n` pair. */
  lemma BreaksAppend(s: string, t: string)
    requires |s| == 0 || |t| == 0 || s[|s| - 1] != '\r' || t[0] != '\n'
    ensures LineBreaks(s + t) == LineBreaks(s) + LineBreaks(t)
    ensures LineBreaks(t) > 0 ==> LastBreakEnd(s + t) == |s| + LastBreakEnd(t)
    ensures LineBreaks(t) == 0 ==> LastBreakEnd(s + t) == LastBreakEnd(s)
  {
    BreaksAppendCount(s, t);
    BreaksAppendLast(s, t);
  }

  /** Reading `s` and then `t` moves the counters as reading `s + t` does. */
  lemma TrackAppend(st: LineState, s: string, t: string, base: int)
    requires |s| == 0 || |t| == 0 || s[|s| - 1] != '\r' || t[0] != '\n'
    ensures Track(Track(st, s, base), t, base + |s|) == Track(st, s + t, base)
  {
    BreaksAppend(s, t);
  }

  /** The counters at offset `m` follow from those at `n <= m` by reading the
      characters in between. */
  lemma StateAtExtend(body: string, n: nat, m: nat)
    requires n <= m <= |body|
    requires NoSplit(body, n)
    ensures StateAt(body, m) == Track(StateAt(body, n), body[n..m], n)
  {
    assert body[..m] == body[..n] + body[n..m];
    TrackAppend(Initial, body[..n], body[n..m], 0);
  }

  /** Reading a body from `p` moves the counters as reading its first
      character, or its leading line terminator of length `j`, and then the
      rest from `p + j` does. */
  lemma TrackStepAt(body: string, p: nat, j: nat, e: nat, st: LineState, st': LineState)
    requires p < |body| && p + j <= e <= |body|
    requires var k := TerminatorLength(body[p..]);
      if k == 0 then j == 1 && st' == st else j == k && st' == LineState(st.line + 1, p + k)
    ensures Track(st', body[p + j..e], p + j) == Track(st, body[p..e], p)
  {
    var s := body[p..e];
    assert TerminatorLength(s) == TerminatorLength(body[p..]) by {
      assert s[0] == body[p..][0];
      if |s| >= 2 {
        assert s[1] == body[p..][1];
      }
    }
    TrackStep(st, s, p);
    assert s[j..] == body[p + j..e];
  }

  /** Characters without line terminators, the last of them not `\r`, do not
      move the counters: reading from `p` is reading from `p + j`. */
  lemma TrackSkipPlain(body: string, p: nat, j: nat, e: nat, st: LineState)
    requires p + j <= e <= |body|
    requires forall i :: p <= i < p + j ==> !(body[i] == '\n' || body[i] == '\r')
    ensures Track(st, body[p + j..e], p + j) == Track(st, body[p..e], p)
  {
    var s := body[p..p + j];
    var t := body[p + j..e];
    assert body[p..e] == s + t;
    NoTerminatorNoBreak(s, p, st);
    TrackAppend(st, s, t, p);
  }

  /** A character other than a line terminator does not move the counters. */
  lemma TrackPlainStep(body: string, p: nat, e: nat, st: LineState)
    requires p < e <= |body| && body[p] != '\n' && body[p] != '\r'
    ensures Track(st, body[p + 1..e], p + 1) == Track(st, body[p..e], p)
  {
    TrackSkipPlain(body, p, 1, e, st);
  }

  /** Reading characters that are not line terminators leaves the counters
      as they were. */
  lemma SameLineState(body: string, n: nat, m: nat)
    requires n <= m <= |body|
    requires NoSplit(body, n)
    requires forall i :: n <= i < m ==> !(body[i] == '\n' || body[i] == '\r')
    ensures StateAt(body, m) == StateAt(body, n)
  {
    StateAtExtend(body, n, m);
    TrackSkipPlain(body, n, m - n, m, StateAt(body, n));
    assert body[m..m] == [];
  }

  /** The last line terminator of `s` ends inside `s`. */
  lemma {:induction false} LastBreakEndBound(s: string)
    ensures LastBreakEnd(s) <= |s|
    decreases |s|
  {
    if |s| > 0 {
      var k := TerminatorLength(s);
      if k == 0 {
        LastBreakEndBound(s[1..]);
      } else {
        LastBreakEndBound(s[k..]);
      }
    }
  }

  /** Lines are numbered from 1 and the current line starts at or before
      the offset reached, so columns computed from it are 1-based. */
  lemma StateAtBounds(body: string, n: nat)
    requires n <= |body|
    ensures StateAt(body, n).line >= 1
    ensures 0 <= StateAt(body, n).lineStart <= n
  {
    LastBreakEndBound(body[..n]);
  }
}
