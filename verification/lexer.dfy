/** The lexer's token reader: after the ignored input that follows the
    previous token, one token is read by looking at its first character —
    a punctuator from the table, a comment, the spread `...`, a name, a
    number, a block string or a string — or the character is reported as
    unexpected. */
module Lexing {
  import opened Results
  import opened Chars
  import opened Lines
  import opened Errors
  import opened Tokens
  import opened Ignored
  import Names
  import Comments
  import Numbers
  import Strings
  import BlockStrings

  /** A string token at `pos`: a block string when three quotes open it,
      otherwise a plain string. The kind, the end, the value and the counters
      after it. */
  function QuotedAt(body: string, pos: nat, st: LineState)
    : (r: Result<(TokenKind, nat, string, LineState), SyntaxError>)
    requires pos < |body| && body[pos] == '"'
    ensures r.Success? ==> pos < r.value.1 <= |body|
    ensures r.Success? ==> r.value.0 == String || r.value.0 == BlockString
    ensures r.Success? ==> (r.value.0 == BlockString <==> BlockStrings.TripleQuoteAt(body, pos))
    ensures r.Success? && r.value.0 == String ==> r.value.3 == st
    ensures r.Failure? ==> pos <= r.error.position <= |body|
  {
    if BlockStrings.TripleQuoteAt(body, pos) then
      var (e, v, st') :- BlockStrings.ReadBlockString(body, pos, st);
      Success((BlockString, e, v, st'))
    else
      var (e, v) :- Strings.ReadString(body, pos);
      Success((String, e, v, st))
  }

  /** The token that starts with the character at `pos`, dispatched on that
      character in the order the lexer tests it: the kind, the end, the value
      and the counters after it. Only a block string moves the counters. */
  function LexemeAt(body: string, pos: nat, st: LineState)
    : (r: Result<(TokenKind, nat, Option<string>, LineState), SyntaxError>)
    requires pos < |body|
    ensures r.Success? ==> pos < r.value.1 <= |body|
    ensures r.Success? ==> r.value.0 != SOF && r.value.0 != EOF
    ensures r.Success? ==> (HasValue(r.value.0) <==> r.value.2.Some?)
    ensures r.Success? && r.value.0 != BlockString ==> r.value.3 == st
    ensures r.Failure? ==> pos <= r.error.position <= |body|
  {
    var c := body[pos];
    match PunctuatorKind(c)
    case Some(k) => Success((k, pos + 1, None, st))
    case None =>
      if c == '#' then
        var (e, text) := Comments.ReadComment(body, pos);
        Success((Comment, e, Some(text), st))
      else if c == '.' then
        if CharAt(body, pos + 1) == '.' && CharAt(body, pos + 2) == '.' then
          Success((Spread, pos + 3, None, st))
        else Failure(SyntaxError(pos, UnexpectedCharacterMessage(c)))
      else if IsNameStart(c) then
        var e := Names.ReadName(body, pos);
        Success((Name, e, Some(body[pos..e]), st))
      else if IsDigit(c) || c == '-' then
        var (k, e) :- Numbers.ReadNumber(body, pos);
        Success((k, e, Some(body[pos..e]), st))
      else if c == '"' then
        var (k, e, v, st') :- QuotedAt(body, pos, st);
        Success((k, e, Some(v), st'))
      else Failure(SyntaxError(pos, UnexpectedCharacterMessage(c)))
  }

  /** The token that starts at `pos`, with the counters `st` at `pos`: EOF
      at the end of the body, otherwise the lexeme there. The token's line is
      the counters' line and its column counts from the start of that line,
      1-based. */
  function TokenAt(body: string, pos: nat, st: LineState): (r: Result<(Token, LineState), SyntaxError>)
    requires pos <= |body|
    ensures r.Success? ==> r.value.0.start == pos && pos <= r.value.0.end <= |body|
    ensures r.Success? ==> r.value.0.line == st.line && r.value.0.column == 1 + pos - st.lineStart
    ensures r.Success? ==> (r.value.0.kind == EOF <==> pos == |body|)
    ensures r.Success? && pos < |body| ==> pos < r.value.0.end
    ensures r.Success? ==> r.value.0.kind != SOF
    ensures r.Success? ==> (HasValue(r.value.0.kind) <==> r.value.0.value.Some?)
    ensures r.Success? && r.value.0.kind != BlockString ==> r.value.1 == st
    ensures r.Failure? ==> pos <= r.error.position <= |body|
  {
    var line := st.line;
    var col := 1 + pos - st.lineStart;
    if pos == |body| then Success((Token(EOF, |body|, |body|, line, col, None), st))
    else
      var (k, e, v, st') :- LexemeAt(body, pos, st);
      Success((Token(k, pos, e, line, col, v), st'))
  }

  /** `read_token`: skips the ignored input after the previous token, which
      ends at `prevEnd`, then reads the token there. `st` are the lexer's
      counters at `prevEnd`. */
  function ReadToken(body: string, prevEnd: nat, st: LineState): (r: Result<(Token, LineState), SyntaxError>)
    requires prevEnd <= |body|
    ensures r.Success? ==> prevEnd <= r.value.0.start && IgnoredBetween(body, prevEnd, r.value.0.start)
    ensures r.Success? && r.value.0.start < |body| ==> !IsIgnored(body[r.value.0.start])
    ensures r.Success? ==> r.value.0.start <= r.value.0.end <= |body|
    ensures r.Success? ==> (r.value.0.kind == EOF <==> r.value.0.start == |body|)
    ensures r.Success? && r.value.0.kind != EOF ==> r.value.0.start < r.value.0.end
    ensures r.Success? ==> r.value.0.kind != SOF
    ensures r.Success? ==> (HasValue(r.value.0.kind) <==> r.value.0.value.Some?)
    ensures r.Failure? ==> prevEnd <= r.error.position <= |body|
  {
    var (pos, st1) := SkipIgnored(body, prevEnd, st);
    TokenAt(body, pos, st1)
  }

  // ---- Where tokens lie ----

  /** Every token but a block string lies on one line. */
  lemma {:induction false} LexemeOnOneLine(body: string, pos: nat, st: LineState)
    requires pos < |body|
    requires LexemeAt(body, pos, st).Success? && LexemeAt(body, pos, st).value.0 != BlockString
    ensures forall i :: pos <= i < LexemeAt(body, pos, st).value.1 ==> !IsLineTerminator(body[i])
  {
    var c := body[pos];
    var e := LexemeAt(body, pos, st).value.1;
    if PunctuatorKind(c).None? {
      if c == '#' {
        Comments.CommentOnOneLine(body, pos);
      } else if c == '.' {
        assert body[pos + 1] == '.' && body[pos + 2] == '.';
      } else if IsNameStart(c) {
      } else if IsDigit(c) || c == '-' {
        Numbers.ReadNumberOnOneLine(body, pos);
      } else {
        assert !BlockStrings.TripleQuoteAt(body, pos);
      }
    }
  }

  /** A block string leaves the counters that hold at its end. */
  lemma {:induction false} QuotedTracks(body: string, pos: nat, st: LineState, e: nat, v: string, st': LineState)
    requires pos < |body| && body[pos] == '"' && NoSplit(body, pos) && st == StateAt(body, pos)
    requires QuotedAt(body, pos, st) == Success((BlockString, e, v, st'))
    ensures e <= |body| && st' == StateAt(body, e)
    ensures NoSplit(body, e)
  {
    QuotedBlockIsRead(body, pos, st, e, v, st');
    var raw := BlockStrings.ReadBlockStringScan(body, pos, st, e, v, st');
    BlockStrings.ScanBlockFromOpening(body, pos, st, e, raw, st');
    StateAtExtend(body, pos, e);
  }

  /** A block string read at a `"` is what `ReadBlockString` reads there. */
  lemma QuotedBlockIsRead(body: string, pos: nat, st: LineState, e: nat, v: string, st': LineState)
    requires pos < |body| && body[pos] == '"'
    requires QuotedAt(body, pos, st) == Success((BlockString, e, v, st'))
    ensures BlockStrings.TripleQuoteAt(body, pos)
    ensures BlockStrings.ReadBlockString(body, pos, st) == Success((e, v, st'))
  {
  }

  /** A lexeme leaves the counters that hold at its end, which never splits
      a `\r\n` pair. */
  lemma {:induction false} LexemeTracks(body: string, pos: nat, st: LineState,
                                        k: TokenKind, e: nat, v: Option<string>, st': LineState)
    requires pos < |body| && NoSplit(body, pos) && st == StateAt(body, pos)
    requires LexemeAt(body, pos, st) == Success((k, e, v, st'))
    ensures e <= |body| && st' == StateAt(body, e)
    ensures NoSplit(body, e)
  {
    if k == BlockString {
      assert body[pos] == '"';
      var q := QuotedAt(body, pos, st);
      assert q.Success? && q.value.0 == BlockString && q.value.1 == e && q.value.3 == st';
      QuotedTracks(body, pos, st, e, q.value.2, st');
    } else {
      LexemeOnOneLine(body, pos, st);
      SameLineState(body, pos, e);
      assert !IsLineTerminator(body[e - 1]);
    }
  }

  /** Read from the counters that hold at `pos`, the token leaves the counters
      that hold at its end, which never splits a `\r\n` pair. */
  lemma {:induction false} TokenAtTracks(body: string, pos: nat, st: LineState, t: Token, st': LineState)
    requires pos <= |body| && NoSplit(body, pos) && st == StateAt(body, pos)
    requires TokenAt(body, pos, st) == Success((t, st'))
    ensures st' == StateAt(body, t.end)
    ensures NoSplit(body, t.end)
  {
    if pos < |body| {
      var r := LexemeAt(body, pos, st);
      assert r.Success? && r.value.1 == t.end && r.value.3 == st';
      LexemeTracks(body, pos, st, r.value.0, r.value.1, r.value.2, r.value.3);
    }
  }

  /** Read from the counters that hold where the previous token ends, a
      token carries the line of its first character and the 1-based column
      of that character within its line, and leaves the counters that hold
      at its end. */
  lemma {:induction false} ReadTokenTracks(body: string, prevEnd: nat, st: LineState, t: Token, st': LineState)
    requires prevEnd <= |body| && NoSplit(body, prevEnd) && st == StateAt(body, prevEnd)
    requires ReadToken(body, prevEnd, st) == Success((t, st'))
    ensures t.start <= t.end <= |body|
    ensures t.line == StateAt(body, t.start).line
    ensures t.column == 1 + t.start - StateAt(body, t.start).lineStart
    ensures st' == StateAt(body, t.end)
    ensures NoSplit(body, t.end)
  {
    var (pos, st1) := SkipIgnored(body, prevEnd, st);
    SkipIgnoredTracks(body, prevEnd, st);
    StateAtExtend(body, prevEnd, pos);
    TokenAtTracks(body, pos, st1, t, st');
  }

  // ---- Punctuators ----

  /** A character of the punctuator table is a token of its own, one
      character long, without a value. */
  lemma PunctuatorLexeme(body: string, pos: nat, st: LineState, k: TokenKind)
    requires pos < |body| && PunctuatorKind(body[pos]) == Some(k)
    ensures LexemeAt(body, pos, st) == Success((k, pos + 1, None, st))
  {
  }

  /** The kinds the other branches of the dispatch produce. */
  lemma KindsOutsideTable()
    ensures Comment !in PunctuatorKinds && Name !in PunctuatorKinds
    ensures Int !in PunctuatorKinds && Float !in PunctuatorKinds
    ensures String !in PunctuatorKinds && BlockString !in PunctuatorKinds
  {
  }

  /** A character outside the punctuator table never gives a
      single-character punctuator: those are read only from the table. */
  lemma NoPunctuatorOutsideTable(body: string, pos: nat, st: LineState)
    requires pos < |body| && PunctuatorKind(body[pos]).None?
    ensures var r := LexemeAt(body, pos, st);
      r.Success? ==> r.value.0 == Spread || r.value.0 !in PunctuatorKinds
  {
    KindsOutsideTable();
    var c := body[pos];
    if IsDigit(c) || c == '-' {
      var n := Numbers.ReadNumber(body, pos);
    } else if c == '"' {
      var q := QuotedAt(body, pos, st);
    }
  }

  /** Three dots are the spread, three characters long, and the spread is
      read exactly where three dots stand. */
  lemma SpreadLexeme(body: string, pos: nat, st: LineState)
    requires pos < |body|
    ensures pos + 3 <= |body| && body[pos..pos + 3] == "..." ==> LexemeAt(body, pos, st) == Success((Spread, pos + 3, None, st))
    ensures var r := LexemeAt(body, pos, st);
      r.Success? && r.value.0 == Spread ==> pos + 3 <= |body| && body[pos..pos + 3] == "..."
  {
    var c := body[pos];
    if c == '.' && CharAt(body, pos + 1) == '.' && CharAt(body, pos + 2) == '.' {
      assert body[pos..pos + 3] == [body[pos], body[pos + 1], body[pos + 2]];
    }
  }

  /** A dot that does not start three dots starts no token. */
  lemma LoneDotLexeme(body: string, pos: nat, st: LineState)
    requires pos < |body| && body[pos] == '.'
    requires !(CharAt(body, pos + 1) == '.' && CharAt(body, pos + 2) == '.')
    ensures LexemeAt(body, pos, st) == Failure(SyntaxError(pos, UnexpectedCharacterMessage('.')))
  {
    assert PunctuatorKind('.') == None;
  }

  /** A character that is no punctuator of the table and starts no comment,
      spread, name, number or string is reported as unexpected, at its own
      position. */
  lemma UnexpectedLexeme(body: string, pos: nat, st: LineState)
    requires pos < |body| && PunctuatorKind(body[pos]) == None
    requires var c := body[pos];
      c != '#' && c != '.' && !IsNameStart(c) && !IsDigit(c) && c != '-' && c != '"'
    ensures LexemeAt(body, pos, st) == Failure(SyntaxError(pos, UnexpectedCharacterMessage(body[pos])))
  {
  }

  /** `read_token` at a punctuator of the table: the one-character token
      after the ignored input, on the line the counters give. */
  lemma PunctuatorToken(body: string, prevEnd: nat, st: LineState, pos: nat, st1: LineState, k: TokenKind)
    requires prevEnd <= |body| && SkipIgnored(body, prevEnd, st) == (pos, st1) && pos < |body|
    requires PunctuatorKind(body[pos]) == Some(k)
    ensures ReadToken(body, prevEnd, st) == Success((Token(k, pos, pos + 1, st1.line, 1 + pos - st1.lineStart, None), st1))
  {
    PunctuatorLexeme(body, pos, st1, k);
  }

  /** `read_token` at three dots: the spread token after the ignored input. */
  lemma SpreadToken(body: string, prevEnd: nat, st: LineState, pos: nat, st1: LineState)
    requires prevEnd <= |body| && SkipIgnored(body, prevEnd, st) == (pos, st1)
    requires pos + 3 <= |body| && body[pos..pos + 3] == "..."
    ensures ReadToken(body, prevEnd, st) == Success((Token(Spread, pos, pos + 3, st1.line, 1 + pos - st1.lineStart, None), st1))
  {
    SpreadLexeme(body, pos, st1);
  }
}
