/** Block strings: `"""` ... `"""` (section 2.9.4 of the GraphQL specification,
    October 2021). The raw text between the quotes is kept verbatim except for
    the escaped triple quote `\"""`; line terminators inside move the line
    counters; the token's value is the raw text with its common indentation
    and blank first and last lines removed. */
module BlockStrings {
  import opened Chars
  import opened Results
  import opened Errors
  import opened Lines
  import opened Dedent
  import Strings

  const TripleQuote: string := "\"\"\""

  /** Three quotes start at `p`. Read with `CharAt`, so past the end of the
      body nothing matches. */
  predicate TripleQuoteAt(body: string, p: int) {
    CharAt(body, p) == '"' && CharAt(body, p + 1) == '"' && CharAt(body, p + 2) == '"'
  }

  /** Scans block-string contents from `p`, appending the raw text to `raw`
      and moving the counters `st` over line terminators. On success, the
      position just past the closing `"""`, the raw text and the counters. */
  function ScanBlock(body: string, p: nat, raw: string, st: LineState)
    : (r: Result<(nat, string, LineState), SyntaxError>)
    requires p <= |body|
    ensures r.Success? ==> p + 3 <= r.value.0 <= |body| && TripleQuoteAt(body, r.value.0 - 3)
    ensures r.Failure? ==> p <= r.error.position <= |body|
    decreases |body| - p
  {
    if p == |body| then Failure(SyntaxError(p, UnterminatedString))
    else if TripleQuoteAt(body, p) then Success((p + 3, raw, st))
    else if IsInvalidControl(body[p]) then Failure(SyntaxError(p, Strings.InvalidCharacter(body[p])))
    else
      var (j, w, st') := BlockStep(body, p, st);
      ScanBlock(body, p + j, raw + w, st')
  }

  /** `read_block_string`: the block string whose opening `"""` is at `start`,
      with the counters `st` at `start`. On success, the end of the token, its
      value and the counters at the end. */
  function ReadBlockString(body: string, start: nat, st: LineState)
    : (r: Result<(nat, string, LineState), SyntaxError>)
    requires TripleQuoteAt(body, start)
    ensures r.Success? ==> start + 6 <= r.value.0 <= |body| && TripleQuoteAt(body, r.value.0 - 3)
    ensures r.Failure? ==> start + 3 <= r.error.position <= |body|
  {
    var (e, raw, st') :- ScanBlock(body, start + 3, "", st);
    Success((e, BlockStringValue(raw), st'))
  }

  // ---- The raw text, declaratively ----

  /** The raw value of block-string source text `s`: every `\"""` stands for
      `"""`, everything else for itself. */
  function BlockRaw(s: string): string
    decreases |s|
  {
    if |s| == 0 then ""
    else if |s| >= 4 && s[0] == '\\' && s[1..4] == TripleQuote then TripleQuote + BlockRaw(s[4..])
    else [s[0]] + BlockRaw(s[1..])
  }

  /** A character that does not start an escaped triple quote stands for itself. */
  lemma {:induction false} BlockRawPlain(body: string, p: nat, e: nat)
    requires p < e <= |body|
    requires !(body[p] == '\\' && TripleQuoteAt(body, p + 1))
    ensures BlockRaw(body[p..e]) == [body[p]] + BlockRaw(body[p + 1..e])
  {
    var s := body[p..e];
    if |s| >= 4 && s[0] == '\\' {
      assert s[1..4][0] == body[p + 1] && s[1..4][1] == body[p + 2] && s[1..4][2] == body[p + 3];
    }
    assert s[1..] == body[p + 1..e];
  }

  /** An escaped triple quote stands for three quotes. */
  lemma {:induction false} BlockRawEscape(body: string, p: nat, e: nat)
    requires p + 4 <= e <= |body|
    requires body[p] == '\\' && TripleQuoteAt(body, p + 1)
    ensures BlockRaw(body[p..e]) == TripleQuote + BlockRaw(body[p + 4..e])
  {
    var s := body[p..e];
    assert s[1] == body[p + 1] && s[2] == body[p + 2] && s[3] == body[p + 3];
    assert s[1..4] == TripleQuote;
    assert s[4..] == body[p + 4..e];
  }

  /** One step of `ScanBlock` past a character that neither closes the
      string nor is rejected: `j` characters standing for the raw text `w`,
      with the counters `st'` after them. */
  function BlockStep(body: string, p: nat, st: LineState): (r: (nat, string, LineState))
    requires p < |body|
    ensures 1 <= r.0 && p + r.0 <= |body|
  {
    var c := body[p];
    if c == '\n' || c == '\r' then
      var k := TerminatorLength(body[p..]);
      (k, body[p..p + k], LineState(st.line + 1, p + k))
    else if c == '\\' && TripleQuoteAt(body, p + 1) then (4, TripleQuote, st)
    else (1, [c], st)
  }

  /** The raw text `ScanBlock` returns is the `BlockRaw` reading of the
      source text it scanned, up to the closing quotes. */
  lemma {:induction false} ScanBlockRaw(body: string, p: nat, raw: string, st: LineState,
                                        e: nat, v: string, st2: LineState)
    requires p <= |body|
    requires ScanBlock(body, p, raw, st) == Success((e, v, st2))
    ensures p + 3 <= e <= |body|
    ensures v == raw + BlockRaw(body[p..e - 3])
    decreases |body| - p
  {
    if TripleQuoteAt(body, p) {
      assert body[p..p] == [];
    } else {
      var (j, w, st') := BlockStep(body, p, st);
      ScanBlockRaw(body, p + j, raw + w, st', e, v, st2);
      RawGlue(body, p, e - 3, raw, st, v);
    }
  }

  /** The `BlockRaw` reading agrees with one scanner step. */
  lemma {:induction false} BlockRawSteps(body: string, p: nat, e: nat, st: LineState)
    requires p < |body| && !TripleQuoteAt(body, p)
    requires p + BlockStep(body, p, st).0 <= e <= |body|
    ensures var (j, w, _) := BlockStep(body, p, st);
      BlockRaw(body[p..e]) == w + BlockRaw(body[p + j..e])
  {
    var c := body[p];
    if c == '\n' || c == '\r' {
      var k := TerminatorLength(body[p..]);
      BlockRawPlain(body, p, e);
      if k == 2 {
        BlockRawPlain(body, p + 1, e);
        assert body[p..p + 2] == [body[p]] + [body[p + 1]];
      } else {
        assert body[p..p + 1] == [body[p]];
      }
    } else if c == '\\' && TripleQuoteAt(body, p + 1) {
      BlockRawEscape(body, p, e);
    } else {
      BlockRawPlain(body, p, e);
    }
  }

  /** An escaped triple quote does not move the counters. */
  lemma TrackEscapeStep(body: string, p: nat, e: nat, st: LineState)
    requires p + 4 <= e <= |body| && body[p] == '\\' && TripleQuoteAt(body, p + 1)
    ensures Track(st, body[p + 4..e], p + 4) == Track(st, body[p..e], p)
  {
    assert body[p + 1] == '"' && body[p + 2] == '"' && body[p + 3] == '"';
    TrackSkipPlain(body, p, 4, e, st);
  }

  /** The counters agree with one scanner step. */
  lemma {:induction false} TrackSteps(body: string, p: nat, e: nat, st: LineState)
    requires p < |body| && !TripleQuoteAt(body, p)
    requires p + BlockStep(body, p, st).0 <= e <= |body|
    ensures var (j, _, st') := BlockStep(body, p, st);
      Track(st', body[p + j..e], p + j) == Track(st, body[p..e], p)
  {
    var c := body[p];
    if c == '\n' || c == '\r' {
      var k := TerminatorLength(body[p..]);
      TrackStepAt(body, p, k, e, st, LineState(st.line + 1, p + k));
    } else if c == '\\' && TripleQuoteAt(body, p + 1) {
      TrackEscapeStep(body, p, e, st);
    } else {
      TrackPlainStep(body, p, e, st);
    }
  }

  /** The counters `ScanBlock` returns are those of reading the scanned text,
      closing quotes included, from `st`. */
  lemma {:induction false} ScanBlockTracks(body: string, p: nat, raw: string, st: LineState,
                                           e: nat, v: string, st2: LineState)
    requires p <= |body|
    requires ScanBlock(body, p, raw, st) == Success((e, v, st2))
    ensures p + 3 <= e <= |body|
    ensures st2 == Track(st, body[p..e], p)
    decreases |body| - p
  {
    if TripleQuoteAt(body, p) {
      TrackOpeningQuotes(body, p, p + 3, st);
      assert body[p + 3..p + 3] == [];
    } else {
      var (j, w, st') := BlockStep(body, p, st);
      ScanBlockTracks(body, p + j, raw + w, st', e, v, st2);
      TrackSteps(body, p, e, st);
    }
  }

  /** One scanner step composed with the raw reading of the rest. */
  lemma {:induction false} RawGlue(body: string, p: nat, e: nat, raw: string, st: LineState, v: string)
    requires p < |body| && !TripleQuoteAt(body, p)
    requires p + BlockStep(body, p, st).0 <= e <= |body|
    requires var (j, w, _) := BlockStep(body, p, st);
      v == (raw + w) + BlockRaw(body[p + j..e])
    ensures v == raw + BlockRaw(body[p..e])
  {
    var (j, w, _) := BlockStep(body, p, st);
    var x := BlockRaw(body[p + j..e]);
    BlockRawSteps(body, p, e, st);
    assert (raw + w) + x == raw + (w + x);
  }

  /** What `read_block_string` returns, declaratively: the value is the
      dedented `BlockRaw` reading of the text between the quotes, and the
      counters are those of reading the whole token from `st`. */
  lemma {:induction false} ReadBlockStringSound(body: string, start: nat, st: LineState,
                                                e: nat, v: string, st2: LineState)
    requires TripleQuoteAt(body, start)
    requires ReadBlockString(body, start, st) == Success((e, v, st2))
    ensures start + 6 <= e <= |body|
    ensures v == BlockStringValue(BlockRaw(body[start + 3..e - 3]))
    ensures st2 == Track(st, body[start..e], start)
  {
    var raw := ReadBlockStringScan(body, start, st, e, v, st2);
    ReadBlockStringValueOf(body, start, st, e, v, st2, raw);
    ScanBlockSound(body, start, st, e, raw, st2);
  }

  /** The counters a scan from just inside the opening quotes returns are
      those of reading the whole token from `st`, and the token ends with
      three quotes. */
  lemma {:induction false} ScanBlockFromOpening(body: string, start: nat, st: LineState,
                                                e: nat, raw: string, st2: LineState)
    requires TripleQuoteAt(body, start)
    requires ScanBlock(body, start + 3, "", st) == Success((e, raw, st2))
    ensures start + 6 <= e <= |body| && TripleQuoteAt(body, e - 3)
    ensures st2 == Track(st, body[start..e], start)
  {
    ScanBlockTracks(body, start + 3, "", st, e, raw, st2);
    TrackOpeningQuotes(body, start, e, st);
  }

  /** The opening quotes do not move the counters. */
  lemma TrackOpeningQuotes(body: string, start: nat, e: nat, st: LineState)
    requires start + 3 <= e <= |body| && TripleQuoteAt(body, start)
    ensures Track(st, body[start + 3..e], start + 3) == Track(st, body[start..e], start)
  {
    assert body[start] == '"' && body[start + 1] == '"' && body[start + 2] == '"';
    TrackSkipPlain(body, start, 3, e, st);
  }

  /** `ReadBlockString` succeeds exactly where its scan does. */
  lemma ReadBlockStringScan(body: string, start: nat, st: LineState, e: nat, v: string, st2: LineState)
    returns (raw: string)
    requires TripleQuoteAt(body, start)
    requires ReadBlockString(body, start, st) == Success((e, v, st2))
    ensures ScanBlock(body, start + 3, "", st) == Success((e, raw, st2))
  {
    raw := ScanBlock(body, start + 3, "", st).value.1;
  }

  /** The value `ReadBlockString` returns is the dedented raw text of its scan. */
  lemma ReadBlockStringValueOf(body: string, start: nat, st: LineState, e: nat, v: string, st2: LineState,
                               raw: string)
    requires TripleQuoteAt(body, start)
    requires ScanBlock(body, start + 3, "", st) == Success((e, raw, st2))
    requires ReadBlockString(body, start, st) == Success((e, v, st2))
    ensures v == BlockStringValue(raw)
  {
  }

  lemma {:induction false} ScanBlockSound(body: string, start: nat, st: LineState,
                                          e: nat, raw: string, st2: LineState)
    requires start + 3 <= |body|
    requires ScanBlock(body, start + 3, "", st) == Success((e, raw, st2))
    requires forall i :: start <= i < start + 3 ==> body[i] == '"'
    ensures start + 6 <= e <= |body|
    ensures raw == BlockRaw(body[start + 3..e - 3])
    ensures st2 == Track(st, body[start..e], start)
  {
    ScanBlockRaw(body, start + 3, "", st, e, raw, st2);
    ScanBlockTracks(body, start + 3, "", st, e, raw, st2);
    TrackSkipPlain(body, start, 3, e, st);
    assert "" + BlockRaw(body[start + 3..e - 3]) == BlockRaw(body[start + 3..e - 3]);
  }

  // ---- Reading block strings back ----

  /** `v` starts with three quotes. */
  predicate TripleStart(v: string) {
    |v| >= 3 && v[0] == '"' && v[1] == '"' && v[2] == '"'
  }

  /** The source text of the raw block-string value `v`: every `"""` is
      written `\"""`, left to right. */
  function EscapeBlock(v: string): string
    decreases |v|
  {
    if |v| == 0 then ""
    else if TripleStart(v) then "\\" + TripleQuote + EscapeBlock(v[3..])
    else [v[0]] + EscapeBlock(v[1..])
  }

  /** Raw values a block string can carry between its quotes: no control
      characters but tab and line terminators, and no final `"` or `\\`,
      which would run into the closing quotes. */
  predicate BlockEncodable(v: string) {
    (forall i :: 0 <= i < |v| ==> !IsInvalidControl(v[i]))
    && (|v| == 0 || (v[|v| - 1] != '"' && v[|v| - 1] != '\\'))
  }

  /** The first character of an encoding. */
  lemma {:induction false} EscapeBlockFirst(w: string, post: string)
    requires |w| > 0
    ensures |EscapeBlock(w)| > 0
    ensures (EscapeBlock(w) + post)[0] == (if TripleStart(w) then '\\' else w[0])
    ensures !TripleStart(w) ==> EscapeBlock(w) + post == [w[0]] + (EscapeBlock(w[1..]) + post)
  {
    var e := EscapeBlock(w);
    if TripleStart(w) {
      assert e == "\\" + TripleQuote + EscapeBlock(w[3..]);
      assert (e + post)[0] == e[0];
    } else {
      assert e == [w[0]] + EscapeBlock(w[1..]);
      assert e + post == [w[0]] + (EscapeBlock(w[1..]) + post);
    }
  }

  /** An encoding is never followed by a triple quote at its start, unless
      it is too short to hold one and the next text supplies it. */
  lemma {:induction false} NoTripleAtStart(pre: string, w: string, post: string)
    requires |w| > 0
    requires w[|w| - 1] != '"' || |EscapeBlock(w)| >= 3
    ensures !TripleQuoteAt(pre + EscapeBlock(w) + post, |pre|)
  {
    var body := pre + EscapeBlock(w) + post;
    var p := |pre|;
    assert body == pre + (EscapeBlock(w) + post);
    EscapeBlockFirst(w, post);
    if !TripleStart(w) && w[0] == '"' {
      var w1 := w[1..];
      assert |w1| > 0;
      EscapeBlockFirst(w1, post);
      assert body[p + 1] == (EscapeBlock(w1) + post)[0];
      if !TripleStart(w1) && w1[0] == '"' {
        var w2 := w1[1..];
        assert |w2| > 0;
        EscapeBlockFirst(w2, post);
        assert body[p + 2] == (EscapeBlock(w2) + post)[0];
      }
    }
  }

  /** The raw reading undoes the encoding, for every raw value. */
  lemma {:induction false} BlockRawEscapeBlock(v: string)
    ensures BlockRaw(EscapeBlock(v)) == v
    decreases |v|
  {
    if |v| == 0 {
    } else if TripleStart(v) {
      var s := EscapeBlock(v);
      var t := EscapeBlock(v[3..]);
      assert s == "\\" + TripleQuote + t;
      assert s[1..4] == TripleQuote && s[4..] == t;
      BlockRawEscapeBlock(v[3..]);
      assert v == v[..3] + v[3..];
    } else {
      var s := EscapeBlock(v);
      var t := EscapeBlock(v[1..]);
      assert s == [v[0]] + t;
      if s[0] == '\\' && |s| >= 4 {
        NoTripleAtStart(['\\'], v[1..], "");
        assert s[1..4] != TripleQuote by {
          assert s == ['\\'] + t + "";
        }
      }
      assert s[1..] == t;
      BlockRawEscapeBlock(v[1..]);
      assert v == [v[0]] + v[1..];
    }
  }

  /** From `p`, the scanner meets neither a closing triple quote nor a
      rejected character before `q`, and its escaped triple quotes end at or
      before `q`. */
  predicate Scannable(body: string, p: nat, q: nat)
    decreases q - p
  {
    if p >= q then p == q
    else
      p < |body| && !TripleQuoteAt(body, p) && !IsInvalidControl(body[p]) &&
      if body[p] == '\\' && TripleQuoteAt(body, p + 1) then p + 4 <= q && Scannable(body, p + 4, q)
      else Scannable(body, p + 1, q)
  }

  /** The scanner runs through scannable text to the triple quote after it. */
  lemma {:induction false} ScanBlockReaches(body: string, p: nat, q: nat, raw: string, st: LineState)
    requires p <= q && Scannable(body, p, q) && TripleQuoteAt(body, q)
    ensures ScanBlock(body, p, raw, st).Success?
    ensures ScanBlock(body, p, raw, st).value.0 == q + 3
    decreases q - p
  {
    if p < q {
      var (j, w, st') := BlockStep(body, p, st);
      if body[p] == '\r' && j == 2 {
        assert Scannable(body, p + 1, q);
        assert CharAt(body, p + 1) == '\n';
        assert p + 1 < q;
      }
      ScanBlockReaches(body, p + j, q, raw + w, st');
    }
  }

  /** The scanner runs through scannable text to the end of the body and
      reports the string unterminated there. */
  lemma {:induction false} ScanBlockUnterminated(body: string, p: nat, raw: string, st: LineState)
    requires p <= |body| && Scannable(body, p, |body|)
    ensures ScanBlock(body, p, raw, st) == Failure(SyntaxError(|body|, UnterminatedString))
    decreases |body| - p
  {
    if p < |body| {
      var (j, w, st') := BlockStep(body, p, st);
      if body[p] == '\r' && j == 2 {
        assert Scannable(body, p + 1, |body|);
      }
      ScanBlockUnterminated(body, p + j, raw + w, st');
    }
  }

  /** The encoding of an encodable raw value is scannable to its end. */
  lemma {:induction false} EncodedScannable(pre: string, v: string, post: string)
    requires BlockEncodable(v)
    ensures Scannable(pre + EscapeBlock(v) + post, |pre|, |pre| + |EscapeBlock(v)|)
    decreases |v|
  {
    var body := pre + EscapeBlock(v) + post;
    var p := |pre|;
    if |v| > 0 {
      assert BlockEncodable(v[1..]) by {
        assert forall i :: 0 <= i < |v[1..]| ==> v[1..][i] == v[i + 1];
      }
      NoTripleAtStart(pre, v, post);
      EscapeBlockFirst(v, post);
      assert body[p] == (EscapeBlock(v) + post)[0];
      if TripleStart(v) {
        var pre' := pre + "\\" + TripleQuote;
        assert BlockEncodable(v[3..]) by {
          assert forall i :: 0 <= i < |v[3..]| ==> v[3..][i] == v[i + 3];
        }
        assert body == pre' + EscapeBlock(v[3..]) + post;
        assert TripleQuoteAt(body, p + 1) by {
          assert body[p + 1] == pre'[p + 1] && body[p + 2] == pre'[p + 2] && body[p + 3] == pre'[p + 3];
        }
        EncodedScannable(pre', v[3..], post);
      } else {
        var pre' := pre + [v[0]];
        assert body == pre' + EscapeBlock(v[1..]) + post;
        if v[0] == '\\' {
          NoTripleAtStart(pre', v[1..], post);
        }
        EncodedScannable(pre', v[1..], post);
      }
    }
  }

  /** A block string round trip: the block string written from an encodable
      raw value reads back as the value the raw text denotes, ending just past
      its closing quotes, whatever follows it. */
  lemma {:induction false} BlockStringRoundTrip(v: string, rest: string, st: LineState)
    requires BlockEncodable(v)
    ensures var text := TripleQuote + EscapeBlock(v) + TripleQuote;
      var r := ReadBlockString(text + rest, 0, st);
      r.Success? && r.value.0 == |text| && r.value.1 == BlockStringValue(v)
  {
    var e := EscapeBlock(v);
    var text := TripleQuote + e + TripleQuote;
    var body := text + rest;
    var q := 3 + |e|;
    EncodedScannable(TripleQuote, v, TripleQuote + rest);
    assert body == TripleQuote + e + (TripleQuote + rest);
    assert TripleQuoteAt(body, 0) by {
      assert body[0] == '"' && body[1] == '"' && body[2] == '"';
    }
    assert TripleQuoteAt(body, q) by {
      assert body[q] == '"' && body[q + 1] == '"' && body[q + 2] == '"';
    }
    ScanBlockReaches(body, 3, q, "", st);
    var r := ScanBlock(body, 3, "", st);
    ScanBlockRaw(body, 3, "", st, r.value.0, r.value.1, r.value.2);
    assert body[3..q] == e;
    BlockRawEscapeBlock(v);
    assert r.value.1 == v;
    assert ReadBlockString(body, 0, st) == Success((r.value.0, BlockStringValue(v), r.value.2));
  }

  /** A block string whose text runs to the end of the body is unterminated
      there. */
  lemma {:induction false} BlockStringUnterminated(v: string, st: LineState)
    requires BlockEncodable(v)
    ensures var body := TripleQuote + EscapeBlock(v);
      ReadBlockString(body, 0, st) == Failure(SyntaxError(|body|, UnterminatedString))
  {
    var body := TripleQuote + EscapeBlock(v);
    EncodedScannable(TripleQuote, v, "");
    assert body == TripleQuote + EscapeBlock(v) + "";
    ScanBlockUnterminated(body, 3, "", st);
  }

  /** A run of characters that neither closes the string, nor escapes a
      triple quote, nor ends a line, nor is rejected, is copied into the raw
      text as it stands and leaves the counters alone. */
  lemma {:induction false} ScanBlockPlainRun(body: string, p: nat, q: nat, raw: string, st: LineState)
    requires p <= q <= |body|
    requires forall i :: p <= i < q ==> !TripleQuoteAt(body, i) && !IsInvalidControl(body[i])
    requires forall i :: p <= i < q ==> !IsLineTerminator(body[i]) && !(body[i] == '\\' && TripleQuoteAt(body, i + 1))
    ensures ScanBlock(body, p, raw, st) == ScanBlock(body, q, raw + body[p..q], st)
    decreases q - p
  {
    if p < q {
      assert !TripleQuoteAt(body, p) && !IsInvalidControl(body[p]);
      assert !IsLineTerminator(body[p]) && !(body[p] == '\\' && TripleQuoteAt(body, p + 1));
      assert BlockStep(body, p, st) == (1, [body[p]], st);
      ScanBlockPlainRun(body, p + 1, q, raw + [body[p]], st);
      assert raw + [body[p]] + body[p + 1..q] == raw + body[p..q];
    } else {
      assert raw + body[p..q] == raw;
    }
  }
}
