/** Ignored input between tokens: white space, commas and line terminators.
    Skipping it keeps the lexer's line counters up to date. */
module Ignored {
  import opened Chars
  import opened Lines

  /** Characters the lexer skips between tokens (comments are separate tokens). */
  predicate IsIgnored(c: char) {
    c == ' ' || c == '\t' || c == ',' || c == '\n' || c == '\r'
  }

  /** Every character from `p` up to `e` is ignored input. */
  predicate IgnoredBetween(body: string, p: nat, e: nat)
    decreases e - p
  {
    p >= e || p >= |body| || (IsIgnored(body[p]) && IgnoredBetween(body, p + 1, e))
  }

  /** `IgnoredBetween` read character by character. */
  lemma {:induction false} IgnoredBetweenAt(body: string, p: nat, e: nat, i: nat)
    requires IgnoredBetween(body, p, e) && p <= i < e && i < |body|
    ensures IsIgnored(body[i])
    decreases i - p
  {
    if p < i {
      IgnoredBetweenAt(body, p + 1, e, i);
    }
  }

  /** `position_after_whitespace`: the first position at or after `p` that does
      not hold ignored input, with the counters advanced by every line
      terminator passed on the way (`\r\n` counting once). */
  function SkipIgnored(body: string, p: nat, st: LineState): (r: (nat, LineState))
    ensures p <= r.0
    ensures p <= |body| ==> r.0 <= |body|
    ensures p >= |body| ==> r == (p, st)
    ensures IgnoredBetween(body, p, r.0)
    ensures r.0 < |body| ==> !IsIgnored(body[r.0])
    ensures NoSplit(body, r.0)
    decreases |body| - p
  {
    if p >= |body| then (p, st)
    else
      var c := body[p];
      if c == ' ' || c == '\t' || c == ',' then
        SkipIgnored(body, p + 1, st)
      else if c == '\n' || c == '\r' then
        var k := TerminatorLength(body[p..]);
        SkipIgnored(body, p + k, LineState(st.line + 1, p + k))
      else (p, st)
  }

  /** The counters `SkipIgnored` returns are those of reading the skipped
      input from `st`. */
  lemma {:induction false} SkipIgnoredTracks(body: string, p: nat, st: LineState)
    requires p <= |body|
    ensures var r := SkipIgnored(body, p, st);
      r.1 == Track(st, body[p..r.0], p)
    decreases |body| - p
  {
    var r := SkipIgnored(body, p, st);
    if p < |body| {
      var c := body[p];
      if c == ' ' || c == '\t' || c == ',' {
        assert r == SkipIgnored(body, p + 1, st);
        SkipIgnoredTracks(body, p + 1, st);
        TrackPlainStep(body, p, r.0, st);
      } else if c == '\n' || c == '\r' {
        var k := TerminatorLength(body[p..]);
        var st' := LineState(st.line + 1, p + k);
        assert r == SkipIgnored(body, p + k, st');
        SkipIgnoredTracks(body, p + k, st');
        TrackStepAt(body, p, k, r.0, st, st');
      } else {
        assert body[p..p] == [];
      }
    } else {
      assert body[p..p] == [];
    }
  }

}
