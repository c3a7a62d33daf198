/** The lexer's expected behaviour on concrete inputs, as its test suite
    states it. `LexOne` is the token a fresh lexer's first `advance` returns;
    `LexSecond` advances twice, as the error cases do. An error on line 1 is
    reported at the 1-based column `position + 1`. */
module Vectors {
  import opened Results
  import opened Chars
  import opened Lines
  import opened Tokens
  import opened Errors
  import opened Sources
  import opened Ignored
  import opened Lexing
  import opened Lexers
  import Names
  import Comments
  import Numbers
  import Strings
  import BlockStrings
  import Dedent

  /** The token the first `advance` of a lexer over `body` returns. */
  function LexOne(body: string): Result<Token, SyntaxError> {
    var lx := NewLexer(NewDefaultSource(body).value);
    var l :- Advance(lx);
    Success(l.chain[l.token])
  }

  /** The token the second `advance` of a lexer over `body` returns. */
  function LexSecond(body: string): Result<Token, SyntaxError> {
    var lx := NewLexer(NewDefaultSource(body).value);
    var l1 :- Advance(lx);
    var l2 :- Advance(l1);
    Success(l2.chain[l2.token])
  }

  // ---- From read tokens to `advance` ----

  /** A fresh lexer's first `advance` returns the first token read at offset
      0, unless that is a comment. */
  lemma FirstIsRead(body: string, t: Token, st: LineState)
    requires ReadToken(body, 0, Initial) == Success((t, st)) && t.kind != Comment
    ensures LexOne(body) == Success(t)
  {
  }

  /** A comment read first is skipped: `advance` returns the token after it. */
  lemma FirstAfterComment(body: string, c: Token, st: LineState, t: Token, st': LineState)
    requires ReadToken(body, 0, Initial) == Success((c, st)) && c.kind == Comment
    requires ReadToken(body, c.end, st) == Success((t, st')) && t.kind != Comment
    ensures LexOne(body) == Success(t)
  {
    var lx := NewLexer(NewDefaultSource(body).value);
    var lx1 := lx.(chain := [StartOfFile, c], counters := st);
    var lx2 := lx1.(chain := [StartOfFile, c, t], counters := st');
    assert lx.chain + [c] == lx1.chain;
    assert lx1.chain + [t] == lx2.chain;
    assert Walk(lx1, 1) == Success((lx2, 2));
    assert Walk(lx, 0) == Success((lx2, 2));
  }

  /** An error in the first token ends the first `advance`, so the second is
      never reached. */
  lemma FirstFails(body: string, err: SyntaxError)
    requires ReadToken(body, 0, Initial) == Failure(err)
    ensures LexOne(body) == Failure(err) && LexSecond(body) == Failure(err)
  {
  }

  lemma TokenAtLexeme(body: string, pos: nat, st: LineState, k: TokenKind, e: nat, v: Option<string>, st': LineState)
    requires pos < |body| && LexemeAt(body, pos, st) == Success((k, e, v, st'))
    ensures TokenAt(body, pos, st) == Success((Token(k, pos, e, st.line, 1 + pos - st.lineStart, v), st'))
  {
  }

  /** The token read after `prevEnd` is the lexeme at `pos`, past the
      ignored input. */
  lemma TokenFromLexeme(body: string, prevEnd: nat, st0: LineState, pos: nat, st: LineState,
                        k: TokenKind, e: nat, v: Option<string>, st': LineState)
    requires prevEnd <= |body| && SkipIgnored(body, prevEnd, st0) == (pos, st) && pos < |body|
    requires LexemeAt(body, pos, st) == Success((k, e, v, st'))
    ensures ReadToken(body, prevEnd, st0) == Success((Token(k, pos, e, st.line, 1 + pos - st.lineStart, v), st'))
  {
    TokenAtLexeme(body, pos, st, k, e, v, st');
  }

  /** An error in the lexeme at `pos`, past the ignored prefix. */
  lemma ErrorFromLexeme(body: string, pos: nat, st: LineState, err: SyntaxError)
    requires SkipIgnored(body, 0, Initial) == (pos, st) && pos < |body|
    requires LexemeAt(body, pos, st) == Failure(err)
    ensures LexOne(body) == Failure(err) && LexSecond(body) == Failure(err)
  {
    FirstFails(body, err);
  }

  // ---- The lexeme dispatch, one kind at a time ----

  /** At a name start the lexer reads a name and nothing else. */
  lemma NameDispatch(body: string, pos: nat, st: LineState)
    requires pos < |body| && IsNameStart(body[pos])
    ensures LexemeAt(body, pos, st) == (var e := Names.ReadName(body, pos); Success((Name, e, Some(body[pos..e]), st)))
  {
    assert PunctuatorKind(body[pos]) == None;
    assert body[pos] != '#' && body[pos] != '.';
  }

  lemma NameLexeme(body: string, pos: nat, st: LineState, e: nat)
    requires pos < |body| && IsNameStart(body[pos]) && Names.ReadName(body, pos) == e
    ensures LexemeAt(body, pos, st) == Success((Name, e, Some(body[pos..e]), st))
  {
    NameDispatch(body, pos, st);
  }

  lemma CommentLexeme(body: string, pos: nat, st: LineState, e: nat)
    requires pos < |body| && body[pos] == '#' && Comments.ReadComment(body, pos).0 == e
    ensures LexemeAt(body, pos, st) == Success((Comment, e, Some(body[pos + 1..e]), st))
  {
    assert PunctuatorKind(body[pos]) == None;
  }

  /** At a digit or `-` the lexer reads a number and nothing else. */
  lemma NumberDispatch(body: string, pos: nat, st: LineState)
    requires pos < |body| && (IsDigit(body[pos]) || body[pos] == '-')
    ensures LexemeAt(body, pos, st) == (match Numbers.ReadNumber(body, pos)
      case Success((k, e)) => Success((k, e, Some(body[pos..e]), st))
      case Failure(err) => Failure(err))
  {
    assert PunctuatorKind(body[pos]) == None;
    assert body[pos] != '#' && body[pos] != '.' && !IsNameStart(body[pos]);
  }

  lemma NumberLexeme(body: string, pos: nat, st: LineState, k: TokenKind, e: nat)
    requires pos < |body| && (IsDigit(body[pos]) || body[pos] == '-')
    requires Numbers.ReadNumber(body, pos) == Success((k, e))
    ensures LexemeAt(body, pos, st) == Success((k, e, Some(body[pos..e]), st))
  {
    NumberDispatch(body, pos, st);
  }

  /** At a `"` the lexer reads a string or a block string and nothing else. */
  lemma QuotedDispatch(body: string, pos: nat, st: LineState)
    requires pos < |body| && body[pos] == '"'
    ensures LexemeAt(body, pos, st) == (match QuotedAt(body, pos, st)
      case Success((k, e, v, st')) => Success((k, e, Some(v), st'))
      case Failure(err) => Failure(err))
  {
    assert PunctuatorKind(body[pos]) == None;
    assert body[pos] != '#' && body[pos] != '.' && !IsNameStart(body[pos]) && !IsDigit(body[pos]) && body[pos] != '-';
  }

  /** A quoted lexeme is whatever `QuotedAt` reads there. */
  lemma QuotedLexeme(body: string, pos: nat, st: LineState, k: TokenKind, e: nat, v: string, st': LineState)
    requires pos < |body| && body[pos] == '"'
    requires QuotedAt(body, pos, st) == Success((k, e, v, st'))
    ensures LexemeAt(body, pos, st) == Success((k, e, Some(v), st'))
  {
    QuotedDispatch(body, pos, st);
  }

  lemma QuotedErrorLexeme(body: string, pos: nat, st: LineState, err: SyntaxError)
    requires pos < |body| && body[pos] == '"'
    requires QuotedAt(body, pos, st) == Failure(err)
    ensures LexemeAt(body, pos, st) == Failure(err)
  {
    QuotedDispatch(body, pos, st);
  }

  lemma BlockStringQuoted(body: string, pos: nat, st: LineState, r: Result<(nat, string, LineState), SyntaxError>)
    requires pos < |body| && body[pos] == '"' && BlockStrings.TripleQuoteAt(body, pos)
    requires BlockStrings.ReadBlockString(body, pos, st) == r
    ensures r.Success? ==> QuotedAt(body, pos, st) == Success((BlockString, r.value.0, r.value.1, r.value.2))
    ensures r.Failure? ==> QuotedAt(body, pos, st) == Failure(r.error)
  {
  }

  lemma StringQuoted(body: string, pos: nat, st: LineState, r: Result<(nat, string), SyntaxError>)
    requires pos < |body| && body[pos] == '"' && !BlockStrings.TripleQuoteAt(body, pos)
    requires Strings.ReadString(body, pos) == r
    ensures r.Success? ==> QuotedAt(body, pos, st) == Success((String, r.value.0, r.value.1, st))
    ensures r.Failure? ==> QuotedAt(body, pos, st) == Failure(r.error)
  {
  }

  lemma BlockStringLexeme(body: string, pos: nat, st: LineState, e: nat, v: string, st': LineState)
    requires pos < |body| && body[pos] == '"' && BlockStrings.TripleQuoteAt(body, pos)
    requires BlockStrings.ReadBlockString(body, pos, st) == Success((e, v, st'))
    ensures LexemeAt(body, pos, st) == Success((BlockString, e, Some(v), st'))
  {
    BlockStringQuoted(body, pos, st, Success((e, v, st')));
    QuotedLexeme(body, pos, st, BlockString, e, v, st');
  }

  lemma StringLexeme(body: string, pos: nat, st: LineState, e: nat, v: string)
    requires pos < |body| && body[pos] == '"' && !BlockStrings.TripleQuoteAt(body, pos)
    requires Strings.ReadString(body, pos) == Success((e, v))
    ensures LexemeAt(body, pos, st) == Success((String, e, Some(v), st))
  {
    StringQuoted(body, pos, st, Success((e, v)));
    QuotedLexeme(body, pos, st, String, e, v, st);
  }

  lemma BlockStringErrorLexeme(body: string, pos: nat, st: LineState, err: SyntaxError)
    requires pos < |body| && body[pos] == '"' && BlockStrings.TripleQuoteAt(body, pos)
    requires BlockStrings.ReadBlockString(body, pos, st) == Failure(err)
    ensures LexemeAt(body, pos, st) == Failure(err)
  {
    BlockStringQuoted(body, pos, st, Failure(err));
    QuotedErrorLexeme(body, pos, st, err);
  }

  lemma StringErrorLexeme(body: string, pos: nat, st: LineState, err: SyntaxError)
    requires pos < |body| && body[pos] == '"' && !BlockStrings.TripleQuoteAt(body, pos)
    requires Strings.ReadString(body, pos) == Failure(err)
    ensures LexemeAt(body, pos, st) == Failure(err)
  {
    StringQuoted(body, pos, st, Failure(err));
    QuotedErrorLexeme(body, pos, st, err);
  }

  // ---- First tokens of each kind ----

  /** Reading from the start gives the name at `pos`. */
  lemma FirstName(body: string, pos: nat, st: LineState, e: nat, t: Token)
    requires SkipIgnored(body, 0, Initial) == (pos, st)
    requires pos < |body| && IsNameStart(body[pos]) && Names.ReadName(body, pos) == e
    requires t == Token(Name, pos, e, st.line, 1 + pos - st.lineStart, Some(body[pos..e]))
    ensures ReadToken(body, 0, Initial) == Success((t, st))
  {
    NameLexeme(body, pos, st, e);
    TokenFromLexeme(body, 0, Initial, pos, st, Name, e, Some(body[pos..e]), st);
  }

  /** A body that starts with a token has nothing to skip. */
  lemma NothingSkipped(body: string)
    requires 0 < |body| && !IsIgnored(body[0])
    ensures SkipIgnored(body, 0, Initial) == (0, Initial)
  {
  }

  /** Reading from the start gives the number at offset 0. */
  lemma FirstNumber(body: string, k: TokenKind, e: nat)
    requires 0 < |body| && (IsDigit(body[0]) || body[0] == '-')
    requires Numbers.ReadNumber(body, 0) == Success((k, e))
    ensures ReadToken(body, 0, Initial) == Success((Token(k, 0, e, 1, 1, Some(body[0..e])), Initial))
  {
    NothingSkipped(body);
    NumberLexeme(body, 0, Initial, k, e);
    TokenFromLexeme(body, 0, Initial, 0, Initial, k, e, Some(body[0..e]), Initial);
  }

  /** The first token is the whole body, read as a FLOAT. */
  lemma FirstFloat(body: string, i: nat, j: nat)
    requires 0 < |body| && (IsDigit(body[0]) || body[0] == '-')
    requires Numbers.FloatSplit(body, i, j)
    ensures LexOne(body) == Success(Token(Float, 0, |body|, 1, 1, Some(body)))
  {
    assert body[0..|body|] == body;
    Numbers.FloatComplete(body, 0, |body|);
    FirstNumber(body, Float, |body|);
    FirstIsRead(body, Token(Float, 0, |body|, 1, 1, Some(body)), Initial);
  }

  /** The first token is the whole body, read as an INT. */
  lemma FirstInt(body: string)
    requires 0 < |body| && (IsDigit(body[0]) || body[0] == '-')
    requires Numbers.IsIntValue(body)
    ensures LexOne(body) == Success(Token(Int, 0, |body|, 1, 1, Some(body)))
  {
    assert body[0..|body|] == body;
    Numbers.IntComplete(body, 0, |body|);
    FirstNumber(body, Int, |body|);
    FirstIsRead(body, Token(Int, 0, |body|, 1, 1, Some(body)), Initial);
  }

  /** Reading from the start gives the string at offset 0. */
  lemma FirstString(body: string, e: nat, v: string)
    requires 0 < |body| && body[0] == '"' && !BlockStrings.TripleQuoteAt(body, 0)
    requires Strings.ReadString(body, 0) == Success((e, v))
    ensures ReadToken(body, 0, Initial) == Success((Token(String, 0, e, 1, 1, Some(v)), Initial))
  {
    NothingSkipped(body);
    StringLexeme(body, 0, Initial, e, v);
    TokenFromLexeme(body, 0, Initial, 0, Initial, String, e, Some(v), Initial);
  }

  /** Reading from the start gives the block string at `pos`. */
  lemma FirstBlockString(body: string, pos: nat, st: LineState, e: nat, v: string, st': LineState, t: Token)
    requires SkipIgnored(body, 0, Initial) == (pos, st) && pos < |body| && BlockStrings.TripleQuoteAt(body, pos)
    requires BlockStrings.ReadBlockString(body, pos, st) == Success((e, v, st'))
    requires t == Token(BlockString, pos, e, st.line, 1 + pos - st.lineStart, Some(v))
    ensures ReadToken(body, 0, Initial) == Success((t, st'))
  {
    BlockStringLexeme(body, pos, st, e, v, st');
    TokenFromLexeme(body, 0, Initial, pos, st, BlockString, e, Some(v), st');
  }

  /** The string at offset 0 is malformed. */
  lemma FirstStringFails(body: string, err: SyntaxError)
    requires 0 < |body| && body[0] == '"' && !BlockStrings.TripleQuoteAt(body, 0)
    requires Strings.ReadString(body, 0) == Failure(err)
    ensures LexSecond(body) == Failure(err)
  {
    NothingSkipped(body);
    StringErrorLexeme(body, 0, Initial, err);
    ErrorFromLexeme(body, 0, Initial, err);
  }

  /** The block string at `pos`, the start of the body, is malformed. */
  lemma FirstBlockStringFails(body: string, pos: nat, st: LineState, err: SyntaxError)
    requires SkipIgnored(body, 0, Initial) == (pos, st) && pos < |body| && BlockStrings.TripleQuoteAt(body, pos)
    requires BlockStrings.ReadBlockString(body, pos, st) == Failure(err)
    ensures LexSecond(body) == Failure(err)
  {
    BlockStringErrorLexeme(body, pos, st, err);
    ErrorFromLexeme(body, pos, st, err);
  }

  // ---- Scanner steps ----

  lemma EscapeStep(body: string, p: nat, value: string, d: char)
    requires p + 1 < |body| && body[p] == '\\' && Strings.Unescape(body[p + 1]) == Some(d)
    ensures Strings.ScanString(body, p, value) == Strings.ScanString(body, p + 2, value + [d])
  {
  }

  lemma ClosingQuote(body: string, p: nat, value: string)
    requires p < |body| && body[p] == '"'
    ensures Strings.ScanString(body, p, value) == Success((p + 1, value))
  {
  }

  /** Block-string text free of line terminators, quotes that close and
      escaped triple quotes is copied as it stands. */
  lemma BlockRun(body: string, s: nat, p: nat, q: nat, st: LineState)
    requires s <= p <= q <= |body|
    requires forall i :: p <= i < q ==> !BlockStrings.TripleQuoteAt(body, i) && !IsInvalidControl(body[i])
    requires forall i :: p <= i < q ==> !IsLineTerminator(body[i]) && !(body[i] == '\\' && BlockStrings.TripleQuoteAt(body, i + 1))
    ensures BlockStrings.ScanBlock(body, p, body[s..p], st) == BlockStrings.ScanBlock(body, q, body[s..q], st)
    ensures forall i :: p <= i < q ==> body[i] != '\n'
  {
    BlockStrings.ScanBlockPlainRun(body, p, q, body[s..p], st);
    assert body[s..p] + body[p..q] == body[s..q];
  }

  /** A line feed in a block string is kept and starts a new line. */
  lemma BlockLineFeed(body: string, s: nat, p: nat, st: LineState)
    requires s <= p < |body| && body[p] == '\n'
    ensures BlockStrings.ScanBlock(body, p, body[s..p], st)
         == BlockStrings.ScanBlock(body, p + 1, body[s..p + 1], LineState(st.line + 1, p + 1))
  {
    assert body[p..p + 1] == "\n";
    assert body[s..p] + body[p..p + 1] == body[s..p + 1];
  }

  lemma BlockClose(body: string, s: nat, p: nat, st: LineState)
    requires s <= p && BlockStrings.TripleQuoteAt(body, p) && p <= |body|
    ensures BlockStrings.ScanBlock(body, p, body[s..p], st) == Success((p + 3, body[s..p], st))
  {
  }

  /** A line whose first `n` characters are spaces and whose next one is
      not white space is indented by `n`. */
  lemma IndentIs(line: string, n: nat)
    requires n < |line| && !IsWhiteSpace(line[n])
    requires forall c :: c in line[..n] ==> c == ' '
    ensures Dedent.Indent(line) == n && !Dedent.IsBlank(line)
  {
    forall i | 0 <= i < n
      ensures IsWhiteSpace(line[i])
    {
      assert line[i] == line[..n][i] && line[..n][i] in line[..n];
    }
  }

  /** Two blank lines, three lines that are not blank, then two blank lines:
      trimming keeps the three in the middle. */
  lemma FramedTrim(lines: seq<string>)
    requires |lines| == 7 && lines[0] == "" && lines[1] == "" && lines[5] == "" && Dedent.IsBlank(lines[6])
    requires !Dedent.IsBlank(lines[2]) && !Dedent.IsBlank(lines[3]) && !Dedent.IsBlank(lines[4])
    ensures Dedent.LeadingBlankCount(lines) == 2
    ensures Dedent.TrimBlankLines(lines) == lines[2..5]
  {
    assert Dedent.IsBlank(lines[0]) && Dedent.IsBlank(lines[1]) && Dedent.IsBlank(lines[5]);
    var kept := lines[2..];
    assert kept[3] == lines[5] && kept[4] == lines[6] && kept[2] == lines[4];
    assert Dedent.TrailingBlankCount(kept) == 2;
    assert kept[..3] == lines[2..5];
  }

  /** The common indentation of three lines that are not blank is the least
      of their indentations. */
  lemma CommonIndentOfThree(a: string, b: string, c: string)
    requires !Dedent.IsBlank(a) && !Dedent.IsBlank(b) && !Dedent.IsBlank(c)
    ensures Dedent.CommonIndent([a, b, c])
         == Some(Dedent.Min(Dedent.Indent(a), Dedent.Min(Dedent.Indent(b), Dedent.Indent(c))))
  {
    assert [c][1..] == [];
    assert Dedent.CommonIndent([c]) == Some(Dedent.Indent(c));
    assert [b, c][1..] == [c];
    assert Dedent.CommonIndent([b, c]) == Some(Dedent.Min(Dedent.Indent(b), Dedent.Indent(c)));
    assert [a, b, c][1..] == [b, c];
  }

  /** Three lines joined with line feeds. */
  lemma JoinThree(x: string, y: string, z: string)
    ensures Dedent.JoinLines([x, y, z]) == x + "\n" + y + "\n" + z
  {
    assert [x, y, z][1..] == [y, z] && [y, z][1..] == [z];
    assert Dedent.JoinLines([y, z]) == y + "\n" + z;
    assert x + "\n" + (y + "\n" + z) == x + "\n" + y + "\n" + z;
  }

  /** The lines of a block string framed by blank lines: two blank lines,
      three lines that are not blank, a blank line and a blank last line. The
      blank lines go, and the three others lose the first one's indentation,
      which none of them falls short of. */
  lemma FramedDedent(lines: seq<string>, m: nat)
    requires |lines| == 7 && lines[0] == "" && lines[1] == "" && lines[5] == "" && Dedent.IsBlank(lines[6])
    requires !Dedent.IsBlank(lines[2]) && !Dedent.IsBlank(lines[3]) && !Dedent.IsBlank(lines[4])
    requires 0 < m == Dedent.Indent(lines[2]) && m <= Dedent.Indent(lines[3]) && m <= Dedent.Indent(lines[4])
    ensures m < |lines[2]| && m < |lines[3]| && m < |lines[4]|
    ensures Dedent.JoinLines(Dedent.DedentKept(lines)) == lines[2][m..] + "\n" + lines[3][m..] + "\n" + lines[4][m..]
  {
    var a, b, c := lines[2], lines[3], lines[4];
    FramedTrim(lines);
    var body := Dedent.TrimBlankLines(lines);
    assert body == [a, b, c];
    CommonIndentOfThree(a, b, c);
    assert body[0..] == body;
    var r := Dedent.DedentLines(body, m);
    assert r == [a[m..], b[m..], c[m..]];
    assert Dedent.DedentKept(lines) == body[..0] + r;
    assert body[..0] + r == r;
    JoinThree(a[m..], b[m..], c[m..]);
  }

  /** The body between offsets `a` and `c` is its line up to the line feed at
      `b`, then the lines after it. */
  lemma SplitAtLineFeed(body: string, a: nat, b: nat, c: nat)
    requires a <= b < c <= |body| && body[b] == '\n'
    requires forall i :: a <= i < b ==> body[i] != '\n'
    ensures Dedent.SplitLines(body[a..c]) == [body[a..b]] + Dedent.SplitLines(body[b + 1..c])
  {
    var rest := body[b + 1..c];
    assert body[a..c] == body[a..b] + ("\n" + rest);
    Dedent.SplitLinesPrefix(body[a..b], "\n" + rest);
    assert ("\n" + rest)[1..] == rest;
    assert Dedent.SplitLines("\n" + rest) == [""] + Dedent.SplitLines(rest);
    assert body[a..b] + "" == body[a..b];
    assert [body[a..b] + ""] + Dedent.SplitLines(rest) == [body[a..b]] + Dedent.SplitLines(rest);
  }

  /** Text without a line feed is a single line. */
  lemma SingleLine(s: string)
    requires forall i :: 0 <= i < |s| ==> s[i] != '\n'
    ensures Dedent.SplitLines(s) == [s]
  {
    Dedent.SplitLinesPrefix(s, "");
    assert s + "" == s;
  }

  /** A raw text on one line that is not blank is its own value. */
  lemma OneLineValue(raw: string, k: nat)
    requires forall j :: 0 <= j < |raw| ==> raw[j] != '\n'
    requires k < |raw| && !IsWhiteSpace(raw[k])
    ensures Dedent.BlockStringValue(raw) == raw
  {
    assert !Dedent.IsBlank(raw);
    Dedent.SplitJoinLines([raw]);
    assert Dedent.SplitLines(raw) == [raw];
    assert Dedent.LeadingBlankCount([raw]) == 0;
    assert Dedent.TrailingBlankCount([raw]) == 0;
    assert Dedent.TrimBlankLines([raw]) == [raw];
    assert Dedent.CommonIndent([raw][1..]) == None;
  }

  /** A raw text of two lines, neither of them indented, is its own value. */
  lemma TwoLineValue(raw: string, a: nat)
    requires 0 < a && a + 1 < |raw| && raw[a] == '\n'
    requires forall j :: 0 <= j < |raw| && j != a ==> raw[j] != '\n'
    requires !IsWhiteSpace(raw[0]) && !IsWhiteSpace(raw[a + 1])
    ensures Dedent.BlockStringValue(raw) == raw
  {
    var lines := [raw[..a], raw[a + 1..]];
    assert raw == raw[..a] + "\n" + raw[a + 1..];
    assert Dedent.JoinLines(lines[1..]) == lines[1];
    assert Dedent.JoinLines(lines) == raw;
    Dedent.SplitJoinLines(lines);
    assert !Dedent.IsBlank(lines[0]) && lines[0][0] == raw[0];
    assert !Dedent.IsBlank(lines[1]) && lines[1][0] == raw[a + 1];
    assert Dedent.LeadingBlankCount(lines) == 0;
    assert Dedent.TrailingBlankCount(lines) == 0;
    assert Dedent.TrimBlankLines(lines) == lines;
    assert Dedent.Indent(lines[1]) == 0;
    assert Dedent.CommonIndent(lines[1..]) == Some(0);
  }

  // ---- Skipping ignored input, one character at a time ----

  lemma SkipBlank(body: string, p: nat, st: LineState)
    requires p < |body| && (body[p] == ' ' || body[p] == '\t' || body[p] == ',')
    ensures SkipIgnored(body, p, st) == SkipIgnored(body, p + 1, st)
  {
  }

  lemma SkipLineFeed(body: string, p: nat, st: LineState)
    requires p < |body| && body[p] == '\n'
    ensures SkipIgnored(body, p, st) == SkipIgnored(body, p + 1, LineState(st.line + 1, p + 1))
  {
    assert TerminatorLength(body[p..]) == 1;
  }

  lemma SkipCarriageReturn(body: string, p: nat, st: LineState)
    requires p < |body| && body[p] == '\r' && (p + 1 == |body| || body[p + 1] != '\n')
    ensures SkipIgnored(body, p, st) == SkipIgnored(body, p + 1, LineState(st.line + 1, p + 1))
  {
    assert TerminatorLength(body[p..]) == 1;
  }

  lemma SkipCarriageReturnLineFeed(body: string, p: nat, st: LineState)
    requires p + 1 < |body| && body[p] == '\r' && body[p + 1] == '\n'
    ensures SkipIgnored(body, p, st) == SkipIgnored(body, p + 2, LineState(st.line + 1, p + 2))
  {
    assert TerminatorLength(body[p..]) == 2;
  }

  lemma SkipStops(body: string, p: nat, st: LineState)
    requires p < |body| && !IsIgnored(body[p])
    ensures SkipIgnored(body, p, st) == (p, st)
  {
  }

  // ---- Runs of plain text, spelled out ----

  /** A run of plain string characters `w` is copied into the value. */
  lemma StringText(body: string, p: nat, w: string, value: string)
    requires p + |w| <= |body| && body[p..p + |w|] == w
    requires forall c :: c in w ==> Strings.IsPlain(c)
    ensures Strings.ScanString(body, p, value) == Strings.ScanString(body, p + |w|, value + w)
  {
    forall i | p <= i < p + |w|
      ensures Strings.IsPlain(body[i])
    {
      assert body[i] == w[i - p] && w[i - p] in w;
    }
    Strings.ScanPlainRun(body, p, p + |w|, value);
  }

  /** A run `w` of block-string text without quotes, line terminators or a
      final backslash is copied into the raw text. */
  lemma BlockText(body: string, s: nat, p: nat, w: string, st: LineState)
    requires s <= p && p + |w| <= |body| && body[p..p + |w|] == w
    requires forall c :: c in w ==> c != '"' && !IsInvalidControl(c) && !IsLineTerminator(c)
    requires |w| > 0 ==> w[|w| - 1] != '\\'
    ensures BlockStrings.ScanBlock(body, p, body[s..p], st) == BlockStrings.ScanBlock(body, p + |w|, body[s..p + |w|], st)
    ensures forall i :: p <= i < p + |w| ==> !IsLineTerminator(body[i])
  {
    forall i | p <= i < p + |w|
      ensures body[i] != '"' && !IsInvalidControl(body[i]) && !IsLineTerminator(body[i])
      ensures body[i] == '\\' ==> body[i + 1] != '"'
    {
      assert body[i] == w[i - p] && w[i - p] in w;
      if i + 1 < p + |w| {
        assert body[i + 1] == w[i + 1 - p] && w[i + 1 - p] in w;
      }
    }
    BlockRun(body, s, p, p + |w|, st);
  }

  /** A run `w` of name characters is part of the name. */
  lemma {:induction false} NameText(body: string, p: nat, w: string)
    requires p + |w| <= |body| && body[p..p + |w|] == w
    requires forall c :: c in w ==> IsNameContinue(c)
    ensures Names.ScanName(body, p) == Names.ScanName(body, p + |w|)
    decreases |w|
  {
    if |w| > 0 {
      assert body[p] == w[0] && w[0] in w;
      assert body[p + 1..p + |w|] == w[1..];
      NameText(body, p + 1, w[1..]);
    }
  }

  /** A run `w` of comment characters is part of the comment. */
  lemma {:induction false} CommentText(body: string, p: nat, w: string)
    requires p + |w| <= |body| && body[p..p + |w|] == w
    requires forall c :: c in w ==> Comments.IsCommentChar(c)
    ensures Comments.ScanComment(body, p) == Comments.ScanComment(body, p + |w|)
    decreases |w|
  {
    if |w| > 0 {
      assert body[p] == w[0] && w[0] in w;
      assert body[p + 1..p + |w|] == w[1..];
      CommentText(body, p + 1, w[1..]);
    }
  }

  /** One block-string character that is copied as it stands. */
  lemma BlockChar(body: string, s: nat, p: nat, st: LineState)
    requires s <= p < |body| && !BlockStrings.TripleQuoteAt(body, p)
    requires !IsInvalidControl(body[p]) && !IsLineTerminator(body[p])
    requires !(body[p] == '\\' && BlockStrings.TripleQuoteAt(body, p + 1))
    ensures BlockStrings.ScanBlock(body, p, body[s..p], st) == BlockStrings.ScanBlock(body, p + 1, body[s..p + 1], st)
  {
    assert BlockStrings.BlockStep(body, p, st) == (1, [body[p]], st);
    assert body[s..p] + [body[p]] == body[s..p + 1];
  }

  /** A block string that is not closed before the end of the body. */
  lemma BlockEnds(body: string, raw: string, st: LineState)
    ensures BlockStrings.ScanBlock(body, |body|, raw, st) == Failure(SyntaxError(|body|, UnterminatedString))
  {
  }

  /** One comment character. */
  lemma CommentChar(body: string, p: nat)
    requires p < |body| && Comments.IsCommentChar(body[p])
    ensures Comments.ScanComment(body, p) == Comments.ScanComment(body, p + 1)
  {
  }

  lemma CommentStops(body: string, p: nat)
    requires p <= |body| && (p == |body| || !Comments.IsCommentChar(body[p]))
    ensures Comments.ScanComment(body, p) == p
  {
  }

  /** The 1-based line and column of offset `n`, as an error reports it. */
  function Location(body: string, n: nat): (nat, int)
    requires n <= |body|
  {
    (StateAt(body, n).line, 1 + n - StateAt(body, n).lineStart)
  }

  lemma FirstLine(body: string, n: nat)
    requires n <= |body| && forall i :: 0 <= i < n ==> !IsLineTerminator(body[i])
    ensures Location(body, n) == (1, n + 1)
  {
    NoTerminatorNoBreak(body[..n], 0, Initial);
  }

  // ---- Names after ignored input ----

  /** `body` holds the characters of "foo", one fact per character. */
  predicate NameAloneInput(body: string) {
    |body| == 3 && body[0] == 'f' && body[1] == 'o' && body[2] == 'o'
  }

  lemma NameAlone(body: string)
    requires NameAloneInput(body)
    ensures LexOne(body) == Success(Token(Name, 0, 3, 1, 1, Some("foo")))
  {
    NameAloneToken(body);
    FirstIsRead(body, Token(Name, 0, 3, 1, 1, Some("foo")), Initial);
  }

  lemma NameAloneToken(body: string)
    requires NameAloneInput(body)
    ensures ReadToken(body, 0, Initial) == Success((Token(Name, 0, 3, 1, 1, Some("foo")), Initial))
  {
    SkipStops(body, 0, Initial);
    Names.ScanNameMaximal(body, 1, 3);
    assert body[0..3] == "foo";
    FirstName(body, 0, Initial, 3, Token(Name, 0, 3, 1, 1, Some("foo")));
  }

  /** `body` holds the characters of "\nfoo", one fact per character. */
  predicate NameAfterLineFeedInput(body: string) {
    |body| == 4 && body[0] == '\n' && body[1] == 'f' && body[2] == 'o' && body[3] == 'o'
  }

  lemma NameAfterLineFeed(body: string)
    requires NameAfterLineFeedInput(body)
    ensures LexOne(body) == Success(Token(Name, 1, 4, 2, 1, Some("foo")))
  {
    NameAfterLineFeedToken(body);
    FirstIsRead(body, Token(Name, 1, 4, 2, 1, Some("foo")), LineState(2, 1));
  }

  lemma NameAfterLineFeedToken(body: string)
    requires NameAfterLineFeedInput(body)
    ensures ReadToken(body, 0, Initial) == Success((Token(Name, 1, 4, 2, 1, Some("foo")), LineState(2, 1)))
  {
    NameAfterLineFeedSkip(body);
    Names.ScanNameMaximal(body, 2, 4);
    assert body[1..4] == "foo";
    FirstName(body, 1, LineState(2, 1), 4, Token(Name, 1, 4, 2, 1, Some("foo")));
  }

  lemma NameAfterLineFeedSkip(body: string)
    requires NameAfterLineFeedInput(body)
    ensures SkipIgnored(body, 0, Initial) == (1, LineState(2, 1))
  {
    SkipLineFeed(body, 0, Initial);
    SkipStops(body, 1, LineState(2, 1));
  }

  /** `body` holds the characters of "\rfoo", one fact per character. */
  predicate NameAfterCarriageReturnInput(body: string) {
    |body| == 4 && body[0] == '\r' && body[1] == 'f' && body[2] == 'o' && body[3] == 'o'
  }

  lemma NameAfterCarriageReturn(body: string)
    requires NameAfterCarriageReturnInput(body)
    ensures LexOne(body) == Success(Token(Name, 1, 4, 2, 1, Some("foo")))
  {
    NameAfterCarriageReturnToken(body);
    FirstIsRead(body, Token(Name, 1, 4, 2, 1, Some("foo")), LineState(2, 1));
  }

  lemma NameAfterCarriageReturnToken(body: string)
    requires NameAfterCarriageReturnInput(body)
    ensures ReadToken(body, 0, Initial) == Success((Token(Name, 1, 4, 2, 1, Some("foo")), LineState(2, 1)))
  {
    NameAfterCarriageReturnSkip(body);
    Names.ScanNameMaximal(body, 2, 4);
    assert body[1..4] == "foo";
    FirstName(body, 1, LineState(2, 1), 4, Token(Name, 1, 4, 2, 1, Some("foo")));
  }

  lemma NameAfterCarriageReturnSkip(body: string)
    requires NameAfterCarriageReturnInput(body)
    ensures SkipIgnored(body, 0, Initial) == (1, LineState(2, 1))
  {
    SkipCarriageReturn(body, 0, Initial);
    SkipStops(body, 1, LineState(2, 1));
  }

  /** `body` holds the characters of "\r\nfoo", one fact per character. */
  predicate NameAfterCarriageReturnLineFeedInput(body: string) {
    |body| == 5 && body[0] == '\r' && body[1] == '\n' && body[2] == 'f' && body[3] == 'o' && body[4] == 'o'
  }

  lemma NameAfterCarriageReturnLineFeed(body: string)
    requires NameAfterCarriageReturnLineFeedInput(body)
    ensures LexOne(body) == Success(Token(Name, 2, 5, 2, 1, Some("foo")))
  {
    NameAfterCarriageReturnLineFeedToken(body);
    FirstIsRead(body, Token(Name, 2, 5, 2, 1, Some("foo")), LineState(2, 2));
  }

  lemma NameAfterCarriageReturnLineFeedToken(body: string)
    requires NameAfterCarriageReturnLineFeedInput(body)
    ensures ReadToken(body, 0, Initial) == Success((Token(Name, 2, 5, 2, 1, Some("foo")), LineState(2, 2)))
  {
    NameAfterCarriageReturnLineFeedSkip(body);
    Names.ScanNameMaximal(body, 3, 5);
    assert body[2..5] == "foo";
    FirstName(body, 2, LineState(2, 2), 5, Token(Name, 2, 5, 2, 1, Some("foo")));
  }

  lemma NameAfterCarriageReturnLineFeedSkip(body: string)
    requires NameAfterCarriageReturnLineFeedInput(body)
    ensures SkipIgnored(body, 0, Initial) == (2, LineState(2, 2))
  {
    SkipCarriageReturnLineFeed(body, 0, Initial);
    SkipStops(body, 2, LineState(2, 2));
  }

  /** `body` holds the characters of "\n\rfoo", one fact per character. */
  predicate NameAfterLineFeedCarriageReturnInput(body: string) {
    |body| == 5 && body[0] == '\n' && body[1] == '\r' && body[2] == 'f' && body[3] == 'o' && body[4] == 'o'
  }

  lemma NameAfterLineFeedCarriageReturn(body: string)
    requires NameAfterLineFeedCarriageReturnInput(body)
    ensures LexOne(body) == Success(Token(Name, 2, 5, 3, 1, Some("foo")))
  {
    NameAfterLineFeedCarriageReturnToken(body);
    FirstIsRead(body, Token(Name, 2, 5, 3, 1, Some("foo")), LineState(3, 2));
  }

  lemma NameAfterLineFeedCarriageReturnToken(body: string)
    requires NameAfterLineFeedCarriageReturnInput(body)
    ensures ReadToken(body, 0, Initial) == Success((Token(Name, 2, 5, 3, 1, Some("foo")), LineState(3, 2)))
  {
    NameAfterLineFeedCarriageReturnSkip(body);
    Names.ScanNameMaximal(body, 3, 5);
    assert body[2..5] == "foo";
    FirstName(body, 2, LineState(3, 2), 5, Token(Name, 2, 5, 3, 1, Some("foo")));
  }

  lemma NameAfterLineFeedCarriageReturnSkip(body: string)
    requires NameAfterLineFeedCarriageReturnInput(body)
    ensures SkipIgnored(body, 0, Initial) == (2, LineState(3, 2))
  {
    SkipLineFeed(body, 0, Initial);
    SkipCarriageReturn(body, 1, LineState(2, 1));
    SkipStops(body, 2, LineState(3, 2));
  }

  /** `body` holds the characters of "\r\r\n\nfoo", one fact per character. */
  predicate NameAfterMixedBreaksInput(body: string) {
    |body| == 7 && body[0] == '\r' && body[1] == '\r' && body[2] == '\n' && body[3] == '\n' && body[4] == 'f' && body[5] == 'o' && body[6] == 'o'
  }

  lemma NameAfterMixedBreaks(body: string)
    requires NameAfterMixedBreaksInput(body)
    ensures LexOne(body) == Success(Token(Name, 4, 7, 4, 1, Some("foo")))
  {
    NameAfterMixedBreaksToken(body);
    FirstIsRead(body, Token(Name, 4, 7, 4, 1, Some("foo")), LineState(4, 4));
  }

  lemma NameAfterMixedBreaksToken(body: string)
    requires NameAfterMixedBreaksInput(body)
    ensures ReadToken(body, 0, Initial) == Success((Token(Name, 4, 7, 4, 1, Some("foo")), LineState(4, 4)))
  {
    NameAfterMixedBreaksSkip(body);
    Names.ScanNameMaximal(body, 5, 7);
    assert body[4..7] == "foo";
    FirstName(body, 4, LineState(4, 4), 7, Token(Name, 4, 7, 4, 1, Some("foo")));
  }

  lemma NameAfterMixedBreaksSkip(body: string)
    requires NameAfterMixedBreaksInput(body)
    ensures SkipIgnored(body, 0, Initial) == (4, LineState(4, 4))
  {
    SkipCarriageReturn(body, 0, Initial);
    SkipCarriageReturnLineFeed(body, 1, LineState(2, 1));
    SkipLineFeed(body, 3, LineState(3, 3));
    SkipStops(body, 4, LineState(4, 4));
  }

  /** `body` holds the characters of "\n\n\r\rfoo", one fact per character. */
  predicate NameAfterFourBreaksInput(body: string) {
    |body| == 7 && body[0] == '\n' && body[1] == '\n' && body[2] == '\r' && body[3] == '\r' && body[4] == 'f' && body[5] == 'o' && body[6] == 'o'
  }

  lemma NameAfterFourBreaks(body: string)
    requires NameAfterFourBreaksInput(body)
    ensures LexOne(body) == Success(Token(Name, 4, 7, 5, 1, Some("foo")))
  {
    NameAfterFourBreaksToken(body);
    FirstIsRead(body, Token(Name, 4, 7, 5, 1, Some("foo")), LineState(5, 4));
  }

  lemma NameAfterFourBreaksToken(body: string)
    requires NameAfterFourBreaksInput(body)
    ensures ReadToken(body, 0, Initial) == Success((Token(Name, 4, 7, 5, 1, Some("foo")), LineState(5, 4)))
  {
    NameAfterFourBreaksSkip(body);
    Names.ScanNameMaximal(body, 5, 7);
    assert body[4..7] == "foo";
    FirstName(body, 4, LineState(5, 4), 7, Token(Name, 4, 7, 5, 1, Some("foo")));
  }

  lemma NameAfterFourBreaksSkip(body: string)
    requires NameAfterFourBreaksInput(body)
    ensures SkipIgnored(body, 0, Initial) == (4, LineState(5, 4))
  {
    SkipLineFeed(body, 0, Initial);
    SkipLineFeed(body, 1, LineState(2, 1));
    SkipCarriageReturn(body, 2, LineState(3, 2));
    SkipCarriageReturn(body, 3, LineState(4, 3));
    SkipStops(body, 4, LineState(5, 4));
  }

  /** `body` holds the characters of "\n \r\n \r  foo\n", one fact per character. */
  predicate NameAfterBreaksAndSpacesInput(body: string) {
    |body| == 12 && body[0] == '\n' && body[1] == ' ' && body[2] == '\r' && body[3] == '\n' && body[4] == ' ' && body[5] == '\r' && body[6] == ' ' && body[7] == ' ' && body[8] == 'f' && body[9] == 'o' && body[10] == 'o' && body[11] == '\n'
  }

  lemma NameAfterBreaksAndSpaces(body: string)
    requires NameAfterBreaksAndSpacesInput(body)
    ensures LexOne(body) == Success(Token(Name, 8, 11, 4, 3, Some("foo")))
  {
    NameAfterBreaksAndSpacesToken(body);
    FirstIsRead(body, Token(Name, 8, 11, 4, 3, Some("foo")), LineState(4, 6));
  }

  lemma NameAfterBreaksAndSpacesToken(body: string)
    requires NameAfterBreaksAndSpacesInput(body)
    ensures ReadToken(body, 0, Initial) == Success((Token(Name, 8, 11, 4, 3, Some("foo")), LineState(4, 6)))
  {
    NameAfterBreaksAndSpacesSkip(body);
    Names.ScanNameMaximal(body, 9, 11);
    assert body[8..11] == "foo";
    FirstName(body, 8, LineState(4, 6), 11, Token(Name, 8, 11, 4, 3, Some("foo")));
  }

  lemma NameAfterBreaksAndSpacesSkip(body: string)
    requires NameAfterBreaksAndSpacesInput(body)
    ensures SkipIgnored(body, 0, Initial) == (8, LineState(4, 6))
  {
    SkipLineFeed(body, 0, Initial);
    SkipBlank(body, 1, LineState(2, 1));
    SkipCarriageReturnLineFeed(body, 2, LineState(2, 1));
    SkipBlank(body, 4, LineState(3, 4));
    SkipCarriageReturn(body, 5, LineState(3, 4));
    SkipBlank(body, 6, LineState(4, 6));
    SkipBlank(body, 7, LineState(4, 6));
    SkipStops(body, 8, LineState(4, 6));
  }

  /** `body` holds the characters of "\n\n    foo\n\n\n", one fact per character. */
  predicate NameIndentedAfterLineFeedsInput(body: string) {
    |body| == 12 && body[0] == '\n' && body[1] == '\n' && body[2] == ' ' && body[3] == ' ' && body[4] == ' ' && body[5] == ' ' && body[6] == 'f' && body[7] == 'o' && body[8] == 'o' && body[9] == '\n' && body[10] == '\n' && body[11] == '\n'
  }

  lemma NameIndentedAfterLineFeeds(body: string)
    requires NameIndentedAfterLineFeedsInput(body)
    ensures LexOne(body) == Success(Token(Name, 6, 9, 3, 5, Some("foo")))
  {
    NameIndentedAfterLineFeedsToken(body);
    FirstIsRead(body, Token(Name, 6, 9, 3, 5, Some("foo")), LineState(3, 2));
  }

  lemma NameIndentedAfterLineFeedsToken(body: string)
    requires NameIndentedAfterLineFeedsInput(body)
    ensures ReadToken(body, 0, Initial) == Success((Token(Name, 6, 9, 3, 5, Some("foo")), LineState(3, 2)))
  {
    NameIndentedAfterLineFeedsSkip(body);
    Names.ScanNameMaximal(body, 7, 9);
    assert body[6..9] == "foo";
    FirstName(body, 6, LineState(3, 2), 9, Token(Name, 6, 9, 3, 5, Some("foo")));
  }

  lemma NameIndentedAfterLineFeedsSkip(body: string)
    requires NameIndentedAfterLineFeedsInput(body)
    ensures SkipIgnored(body, 0, Initial) == (6, LineState(3, 2))
  {
    SkipLineFeed(body, 0, Initial);
    SkipLineFeed(body, 1, LineState(2, 1));
    SkipBlank(body, 2, LineState(3, 2));
    SkipBlank(body, 3, LineState(3, 2));
    SkipBlank(body, 4, LineState(3, 2));
    SkipBlank(body, 5, LineState(3, 2));
    SkipStops(body, 6, LineState(3, 2));
  }

  /** `body` holds the characters of "\r\n\r\n  foo\r\n\r\n", one fact per character. */
  predicate NameIndentedAfterCrLfsInput(body: string) {
    |body| == 13 && body[0] == '\r' && body[1] == '\n' && body[2] == '\r' && body[3] == '\n' && body[4] == ' ' && body[5] == ' ' && body[6] == 'f' && body[7] == 'o' && body[8] == 'o' && body[9] == '\r' && body[10] == '\n' && body[11] == '\r' && body[12] == '\n'
  }

  lemma NameIndentedAfterCrLfs(body: string)
    requires NameIndentedAfterCrLfsInput(body)
    ensures LexOne(body) == Success(Token(Name, 6, 9, 3, 3, Some("foo")))
  {
    NameIndentedAfterCrLfsToken(body);
    FirstIsRead(body, Token(Name, 6, 9, 3, 3, Some("foo")), LineState(3, 4));
  }

  lemma NameIndentedAfterCrLfsToken(body: string)
    requires NameIndentedAfterCrLfsInput(body)
    ensures ReadToken(body, 0, Initial) == Success((Token(Name, 6, 9, 3, 3, Some("foo")), LineState(3, 4)))
  {
    NameIndentedAfterCrLfsSkip(body);
    Names.ScanNameMaximal(body, 7, 9);
    assert body[6..9] == "foo";
    FirstName(body, 6, LineState(3, 4), 9, Token(Name, 6, 9, 3, 3, Some("foo")));
  }

  lemma NameIndentedAfterCrLfsSkip(body: string)
    requires NameIndentedAfterCrLfsInput(body)
    ensures SkipIgnored(body, 0, Initial) == (6, LineState(3, 4))
  {
    SkipCarriageReturnLineFeed(body, 0, Initial);
    SkipCarriageReturnLineFeed(body, 2, LineState(2, 2));
    SkipBlank(body, 4, LineState(3, 4));
    SkipBlank(body, 5, LineState(3, 4));
    SkipStops(body, 6, LineState(3, 4));
  }

  /** `body` holds the characters of "\r\r  foo\r\r", one fact per character. */
  predicate NameIndentedAfterCarriageReturnsInput(body: string) {
    |body| == 9 && body[0] == '\r' && body[1] == '\r' && body[2] == ' ' && body[3] == ' ' && body[4] == 'f' && body[5] == 'o' && body[6] == 'o' && body[7] == '\r' && body[8] == '\r'
  }

  lemma NameIndentedAfterCarriageReturns(body: string)
    requires NameIndentedAfterCarriageReturnsInput(body)
    ensures LexOne(body) == Success(Token(Name, 4, 7, 3, 3, Some("foo")))
  {
    NameIndentedAfterCarriageReturnsToken(body);
    FirstIsRead(body, Token(Name, 4, 7, 3, 3, Some("foo")), LineState(3, 2));
  }

  lemma NameIndentedAfterCarriageReturnsToken(body: string)
    requires NameIndentedAfterCarriageReturnsInput(body)
    ensures ReadToken(body, 0, Initial) == Success((Token(Name, 4, 7, 3, 3, Some("foo")), LineState(3, 2)))
  {
    NameIndentedAfterCarriageReturnsSkip(body);
    Names.ScanNameMaximal(body, 5, 7);
    assert body[4..7] == "foo";
    FirstName(body, 4, LineState(3, 2), 7, Token(Name, 4, 7, 3, 3, Some("foo")));
  }

  lemma NameIndentedAfterCarriageReturnsSkip(body: string)
    requires NameIndentedAfterCarriageReturnsInput(body)
    ensures SkipIgnored(body, 0, Initial) == (4, LineState(3, 2))
  {
    SkipCarriageReturn(body, 0, Initial);
    SkipCarriageReturn(body, 1, LineState(2, 1));
    SkipBlank(body, 2, LineState(3, 2));
    SkipBlank(body, 3, LineState(3, 2));
    SkipStops(body, 4, LineState(3, 2));
  }

  /** `body` holds the characters of "\t\t  foo\t\t", one fact per character. */
  predicate NameAfterTabsInput(body: string) {
    |body| == 9 && body[0] == '\t' && body[1] == '\t' && body[2] == ' ' && body[3] == ' ' && body[4] == 'f' && body[5] == 'o' && body[6] == 'o' && body[7] == '\t' && body[8] == '\t'
  }

  lemma NameAfterTabs(body: string)
    requires NameAfterTabsInput(body)
    ensures LexOne(body) == Success(Token(Name, 4, 7, 1, 5, Some("foo")))
  {
    NameAfterTabsToken(body);
    FirstIsRead(body, Token(Name, 4, 7, 1, 5, Some("foo")), Initial);
  }

  lemma NameAfterTabsToken(body: string)
    requires NameAfterTabsInput(body)
    ensures ReadToken(body, 0, Initial) == Success((Token(Name, 4, 7, 1, 5, Some("foo")), Initial))
  {
    NameAfterTabsSkip(body);
    Names.ScanNameMaximal(body, 5, 7);
    assert body[4..7] == "foo";
    FirstName(body, 4, Initial, 7, Token(Name, 4, 7, 1, 5, Some("foo")));
  }

  lemma NameAfterTabsSkip(body: string)
    requires NameAfterTabsInput(body)
    ensures SkipIgnored(body, 0, Initial) == (4, Initial)
  {
    SkipBlank(body, 0, Initial);
    SkipBlank(body, 1, Initial);
    SkipBlank(body, 2, Initial);
    SkipBlank(body, 3, Initial);
    SkipStops(body, 4, Initial);
  }

  /** `body` holds the characters of ",,,foo,,,", one fact per character. */
  predicate NameAfterCommasInput(body: string) {
    |body| == 9 && body[0] == ',' && body[1] == ',' && body[2] == ',' && body[3] == 'f' && body[4] == 'o' && body[5] == 'o' && body[6] == ',' && body[7] == ',' && body[8] == ','
  }

  lemma NameAfterCommas(body: string)
    requires NameAfterCommasInput(body)
    ensures LexOne(body) == Success(Token(Name, 3, 6, 1, 4, Some("foo")))
  {
    NameAfterCommasToken(body);
    FirstIsRead(body, Token(Name, 3, 6, 1, 4, Some("foo")), Initial);
  }

  lemma NameAfterCommasToken(body: string)
    requires NameAfterCommasInput(body)
    ensures ReadToken(body, 0, Initial) == Success((Token(Name, 3, 6, 1, 4, Some("foo")), Initial))
  {
    NameAfterCommasSkip(body);
    Names.ScanNameMaximal(body, 4, 6);
    assert body[3..6] == "foo";
    FirstName(body, 3, Initial, 6, Token(Name, 3, 6, 1, 4, Some("foo")));
  }

  lemma NameAfterCommasSkip(body: string)
    requires NameAfterCommasInput(body)
    ensures SkipIgnored(body, 0, Initial) == (3, Initial)
  {
    SkipBlank(body, 0, Initial);
    SkipBlank(body, 1, Initial);
    SkipBlank(body, 2, Initial);
    SkipStops(body, 3, Initial);
  }

  /** `body` holds the characters of "\n    #comment\n    foo#comment\n", one fact per character. */
  predicate NameAfterCommentInput(body: string) {
    |body| == 30 && body[0] == '\n' && body[1] == ' ' && body[2] == ' ' && body[3] == ' ' && body[4] == ' ' && body[5] == '#' && body[6] == 'c' && body[7] == 'o' && body[8] == 'm' && body[9] == 'm' && body[10] == 'e' && body[11] == 'n' && body[12] == 't' && body[13] == '\n' && body[14] == ' ' && body[15] == ' ' && body[16] == ' ' && body[17] == ' ' && body[18] == 'f' && body[19] == 'o' && body[20] == 'o' && body[21] == '#' && body[22] == 'c' && body[23] == 'o' && body[24] == 'm' && body[25] == 'm' && body[26] == 'e' && body[27] == 'n' && body[28] == 't' && body[29] == '\n'
  }

  /** A comment between the ignored input and the name is skipped. */
  lemma NameAfterComment(body: string)
    requires NameAfterCommentInput(body)
    ensures LexOne(body) == Success(Token(Name, 18, 21, 3, 5, Some("foo")))
  {
    NameAfterCommentFirst(body);
    NameAfterCommentSecond(body);
    FirstAfterComment(body, Token(Comment, 5, 13, 2, 5, Some("comment")), LineState(2, 1),
                      Token(Name, 18, 21, 3, 5, Some("foo")), LineState(3, 14));
  }

  lemma NameAfterCommentFirst(body: string)
    requires NameAfterCommentInput(body)
    ensures ReadToken(body, 0, Initial) == Success((Token(Comment, 5, 13, 2, 5, Some("comment")), LineState(2, 1)))
  {
    NameAfterCommentSkip(body);
    NameAfterCommentText(body);
    CommentLexeme(body, 5, LineState(2, 1), 13);
    TokenFromLexeme(body, 0, Initial, 5, LineState(2, 1), Comment, 13, Some("comment"), LineState(2, 1));
  }

  lemma NameAfterCommentSkip(body: string)
    requires NameAfterCommentInput(body)
    ensures SkipIgnored(body, 0, Initial) == (5, LineState(2, 1))
  {
    SkipLineFeed(body, 0, Initial);
    SkipBlank(body, 1, LineState(2, 1));
    SkipBlank(body, 2, LineState(2, 1));
    SkipBlank(body, 3, LineState(2, 1));
    SkipBlank(body, 4, LineState(2, 1));
    SkipStops(body, 5, LineState(2, 1));
  }

  lemma NameAfterCommentText(body: string)
    requires NameAfterCommentInput(body)
    ensures Comments.ReadComment(body, 5).0 == 13 && body[6..13] == "comment"
  {
    assert body[6..13] == "comment";
    CommentText(body, 6, "comment");
    CommentStops(body, 13);
  }

  lemma NameAfterCommentSecond(body: string)
    requires NameAfterCommentInput(body)
    ensures ReadToken(body, 13, LineState(2, 1)) == Success((Token(Name, 18, 21, 3, 5, Some("foo")), LineState(3, 14)))
  {
    NameAfterCommentSkipAgain(body);
    Names.ScanNameMaximal(body, 19, 21);
    assert body[18..21] == "foo";
    NameLexeme(body, 18, LineState(3, 14), 21);
    TokenFromLexeme(body, 13, LineState(2, 1), 18, LineState(3, 14), Name, 21, Some("foo"), LineState(3, 14));
  }

  lemma NameAfterCommentSkipAgain(body: string)
    requires NameAfterCommentInput(body)
    ensures SkipIgnored(body, 13, LineState(2, 1)) == (18, LineState(3, 14))
  {
    SkipLineFeed(body, 13, LineState(2, 1));
    SkipBlank(body, 14, LineState(3, 14));
    SkipBlank(body, 15, LineState(3, 14));
    SkipBlank(body, 16, LineState(3, 14));
    SkipBlank(body, 17, LineState(3, 14));
    SkipStops(body, 18, LineState(3, 14));
  }

  /** `body` holds the characters of "\n\n    ?\n", one fact per character. */
  predicate UnexpectedQuestionMarkInput(body: string) {
    |body| == 8 && body[0] == '\n' && body[1] == '\n' && body[2] == ' ' && body[3] == ' ' && body[4] == ' ' && body[5] == ' ' && body[6] == '?' && body[7] == '\n'
  }

  /** A character that starts no token is reported where it stands. */
  lemma UnexpectedQuestionMark(body: string)
    requires UnexpectedQuestionMarkInput(body)
    ensures LexOne(body) == Failure(SyntaxError(6, "Cannot parse the unexpected character ?."))
    ensures Message(LexOne(body).error) == MessagePrefix + "Cannot parse the unexpected character ?."
  {
    UnexpectedQuestionMarkSkip(body);
    assert body[6] == '?';
    UnexpectedLexeme(body, 6, LineState(3, 2));
    ErrorFromLexeme(body, 6, LineState(3, 2), SyntaxError(6, UnexpectedCharacterMessage('?')));
    assert UnexpectedCharacterMessage('?') == "Cannot parse the unexpected character ?.";
  }

  lemma UnexpectedQuestionMarkSkip(body: string)
    requires UnexpectedQuestionMarkInput(body)
    ensures SkipIgnored(body, 0, Initial) == (6, LineState(3, 2))
  {
    SkipLineFeed(body, 0, Initial);
    SkipLineFeed(body, 1, LineState(2, 1));
    SkipBlank(body, 2, LineState(3, 2));
    SkipBlank(body, 3, LineState(3, 2));
    SkipBlank(body, 4, LineState(3, 2));
    SkipBlank(body, 5, LineState(3, 2));
    SkipStops(body, 6, LineState(3, 2));
  }

  // ---- Strings ----

  /** `body` holds the characters of "\"\"", one fact per character. */
  predicate StringEmptyInput(body: string) {
    |body| == 2 && body[0] == '"' && body[1] == '"'
  }

  lemma StringEmpty(body: string)
    requires StringEmptyInput(body)
    ensures LexOne(body) == Success(Token(String, 0, 2, 1, 1, Some("")))
  {
    StringEmptyToken(body);
    FirstIsRead(body, Token(String, 0, 2, 1, 1, Some("")), Initial);
  }

  lemma StringEmptyToken(body: string)
    requires StringEmptyInput(body)
    ensures ReadToken(body, 0, Initial) == Success((Token(String, 0, 2, 1, 1, Some("")), Initial))
  {
    StringEmptyScan(body);
    FirstString(body, 2, "");
  }

  lemma StringEmptyScan(body: string)
    requires StringEmptyInput(body)
    ensures Strings.ReadString(body, 0) == Success((2, ""))
  {
    ClosingQuote(body, 1, "");
  }

  /** `body` holds the characters of "\"simple\"", one fact per character. */
  predicate StringSimpleInput(body: string) {
    |body| == 8 && body[0] == '"' && body[1] == 's' && body[2] == 'i' && body[3] == 'm' && body[4] == 'p' && body[5] == 'l' && body[6] == 'e' && body[7] == '"'
  }

  lemma StringSimple(body: string)
    requires StringSimpleInput(body)
    ensures LexOne(body) == Success(Token(String, 0, 8, 1, 1, Some("simple")))
  {
    StringSimpleToken(body);
    FirstIsRead(body, Token(String, 0, 8, 1, 1, Some("simple")), Initial);
  }

  lemma StringSimpleToken(body: string)
    requires StringSimpleInput(body)
    ensures ReadToken(body, 0, Initial) == Success((Token(String, 0, 8, 1, 1, Some("simple")), Initial))
  {
    StringSimpleScan(body);
    FirstString(body, 8, "simple");
  }

  lemma StringSimpleScan(body: string)
    requires StringSimpleInput(body)
    ensures Strings.ReadString(body, 0) == Success((8, "simple"))
  {
    assert body[1..7] == "simple";
    StringText(body, 1, "simple", "");
    assert "" + "simple" == "simple";
    ClosingQuote(body, 7, "simple");
  }

  /** `body` holds the characters of "\" white space \"", one fact per character. */
  predicate StringWhiteSpaceInput(body: string) {
    |body| == 15 && body[0] == '"' && body[1] == ' ' && body[2] == 'w' && body[3] == 'h' && body[4] == 'i' && body[5] == 't' && body[6] == 'e' && body[7] == ' ' && body[8] == 's' && body[9] == 'p' && body[10] == 'a' && body[11] == 'c' && body[12] == 'e' && body[13] == ' ' && body[14] == '"'
  }

  lemma StringWhiteSpace(body: string)
    requires StringWhiteSpaceInput(body)
    ensures LexOne(body) == Success(Token(String, 0, 15, 1, 1, Some(" white space ")))
  {
    StringWhiteSpaceToken(body);
    FirstIsRead(body, Token(String, 0, 15, 1, 1, Some(" white space ")), Initial);
  }

  lemma StringWhiteSpaceToken(body: string)
    requires StringWhiteSpaceInput(body)
    ensures ReadToken(body, 0, Initial) == Success((Token(String, 0, 15, 1, 1, Some(" white space ")), Initial))
  {
    StringWhiteSpaceScan(body);
    FirstString(body, 15, " white space ");
  }

  lemma StringWhiteSpaceScan(body: string)
    requires StringWhiteSpaceInput(body)
    ensures Strings.ReadString(body, 0) == Success((15, " white space "))
  {
    assert body[1..14] == " white space ";
    StringText(body, 1, " white space ", "");
    assert "" + " white space " == " white space ";
    ClosingQuote(body, 14, " white space ");
  }

  /** `body` holds the characters of "\"quote \\\"\"", one fact per character. */
  predicate StringEscapedQuoteInput(body: string) {
    |body| == 10 && body[0] == '"' && body[1] == 'q' && body[2] == 'u' && body[3] == 'o' && body[4] == 't' && body[5] == 'e' && body[6] == ' ' && body[7] == '\\' && body[8] == '"' && body[9] == '"'
  }

  lemma StringEscapedQuote(body: string)
    requires StringEscapedQuoteInput(body)
    ensures LexOne(body) == Success(Token(String, 0, 10, 1, 1, Some("quote \"")))
  {
    StringEscapedQuoteToken(body);
    FirstIsRead(body, Token(String, 0, 10, 1, 1, Some("quote \"")), Initial);
  }

  lemma StringEscapedQuoteToken(body: string)
    requires StringEscapedQuoteInput(body)
    ensures ReadToken(body, 0, Initial) == Success((Token(String, 0, 10, 1, 1, Some("quote \"")), Initial))
  {
    StringEscapedQuoteScan(body);
    FirstString(body, 10, "quote \"");
  }

  lemma StringEscapedQuoteScan(body: string)
    requires StringEscapedQuoteInput(body)
    ensures Strings.ReadString(body, 0) == Success((10, "quote \""))
  {
    assert body[1..7] == "quote ";
    StringText(body, 1, "quote ", "");
    assert "" + "quote " == "quote ";
    EscapeStep(body, 7, "quote ", '"');
    assert "quote " + ['"'] == "quote \"";
    ClosingQuote(body, 9, "quote \"");
  }

  /** `body` holds the characters of "\"slashes \\\\ \\/\"", one fact per character. */
  predicate StringSlashesInput(body: string) {
    |body| == 15 && body[0] == '"' && body[1] == 's' && body[2] == 'l' && body[3] == 'a' && body[4] == 's' && body[5] == 'h' && body[6] == 'e' && body[7] == 's' && body[8] == ' ' && body[9] == '\\' && body[10] == '\\' && body[11] == ' ' && body[12] == '\\' && body[13] == '/' && body[14] == '"'
  }

  lemma StringSlashes(body: string)
    requires StringSlashesInput(body)
    ensures LexOne(body) == Success(Token(String, 0, 15, 1, 1, Some("slashes \\ /")))
  {
    StringSlashesToken(body);
    FirstIsRead(body, Token(String, 0, 15, 1, 1, Some("slashes \\ /")), Initial);
  }

  lemma StringSlashesToken(body: string)
    requires StringSlashesInput(body)
    ensures ReadToken(body, 0, Initial) == Success((Token(String, 0, 15, 1, 1, Some("slashes \\ /")), Initial))
  {
    StringSlashesScan(body);
    FirstString(body, 15, "slashes \\ /");
  }

  lemma StringSlashesScan(body: string)
    requires StringSlashesInput(body)
    ensures Strings.ReadString(body, 0) == Success((15, "slashes \\ /"))
  {
    assert body[1..9] == "slashes ";
    StringText(body, 1, "slashes ", "");
    assert "" + "slashes " == "slashes ";
    EscapeStep(body, 9, "slashes ", '\\');
    assert "slashes " + ['\\'] == "slashes \\";
    assert body[11..12] == " ";
    StringText(body, 11, " ", "slashes \\");
    assert "slashes \\" + " " == "slashes \\ ";
    EscapeStep(body, 12, "slashes \\ ", '/');
    assert "slashes \\ " + ['/'] == "slashes \\ /";
    ClosingQuote(body, 14, "slashes \\ /");
  }

  /** `body` holds the characters of "\"escaped \\n\\r\\b\\t\\f\"", one fact per character. */
  predicate StringEscapesInput(body: string) {
    |body| == 20 && body[0] == '"' && body[1] == 'e' && body[2] == 's' && body[3] == 'c' && body[4] == 'a' && body[5] == 'p' && body[6] == 'e' && body[7] == 'd' && body[8] == ' ' && body[9] == '\\' && body[10] == 'n' && body[11] == '\\' && body[12] == 'r' && body[13] == '\\' && body[14] == 'b' && body[15] == '\\' && body[16] == 't' && body[17] == '\\' && body[18] == 'f' && body[19] == '"'
  }

  lemma StringEscapes(body: string)
    requires StringEscapesInput(body)
    ensures LexOne(body) == Success(Token(String, 0, 20, 1, 1, Some("escaped \n\r" + [Strings.Backspace, '\t', Strings.FormFeed])))
  {
    StringEscapesToken(body);
    FirstIsRead(body, Token(String, 0, 20, 1, 1, Some("escaped \n\r" + [Strings.Backspace, '\t', Strings.FormFeed])), Initial);
  }

  lemma StringEscapesToken(body: string)
    requires StringEscapesInput(body)
    ensures ReadToken(body, 0, Initial) == Success((Token(String, 0, 20, 1, 1, Some("escaped \n\r" + [Strings.Backspace, '\t', Strings.FormFeed])), Initial))
  {
    StringEscapesScan(body);
    FirstString(body, 20, "escaped \n\r" + [Strings.Backspace, '\t', Strings.FormFeed]);
  }

  lemma StringEscapesScan(body: string)
    requires StringEscapesInput(body)
    ensures Strings.ReadString(body, 0) == Success((20, "escaped \n\r" + [Strings.Backspace, '\t', Strings.FormFeed]))
  {
    assert body[1..9] == "escaped ";
    StringText(body, 1, "escaped ", "");
    assert "" + "escaped " == "escaped ";
    StringEscapesTail(body);
  }

  lemma StringEscapesTail(body: string)
    requires StringEscapesInput(body)
    ensures Strings.ScanString(body, 9, "escaped ") == Success((20, "escaped \n\r" + [Strings.Backspace, '\t', Strings.FormFeed]))
  {
    EscapeStep(body, 9, "escaped ", '\n');
    assert "escaped " + ['\n'] == "escaped \n";
    EscapeStep(body, 11, "escaped \n", '\r');
    assert "escaped \n" + ['\r'] == "escaped \n\r";
    StringEscapesEnd(body);
  }

  lemma StringEscapesEnd(body: string)
    requires StringEscapesInput(body)
    ensures Strings.ScanString(body, 13, "escaped \n\r") == Success((20, "escaped \n\r" + [Strings.Backspace, '\t', Strings.FormFeed]))
  {
    EscapeStep(body, 13, "escaped \n\r", Strings.Backspace);
    EscapeStep(body, 15, "escaped \n\r" + [Strings.Backspace], '\t');
    assert "escaped \n\r" + [Strings.Backspace] + ['\t'] == "escaped \n\r" + [Strings.Backspace, '\t'];
    EscapeStep(body, 17, "escaped \n\r" + [Strings.Backspace, '\t'], Strings.FormFeed);
    assert "escaped \n\r" + [Strings.Backspace, '\t'] + [Strings.FormFeed] == "escaped \n\r" + [Strings.Backspace, '\t', Strings.FormFeed];
    ClosingQuote(body, 19, "escaped \n\r" + [Strings.Backspace, '\t', Strings.FormFeed]);
  }

  // ---- String errors ----

  /** `body` holds the characters of "\"", one fact per character. */
  predicate UnterminatedQuoteInput(body: string) {
    |body| == 1 && body[0] == '"'
  }

  lemma UnterminatedQuote(body: string)
    requires UnterminatedQuoteInput(body)
    ensures LexSecond(body) == Failure(SyntaxError(1, UnterminatedString))
    ensures Location(body, 1) == (1, 2)
  {
    UnterminatedQuoteScan(body);
    FirstStringFails(body, SyntaxError(1, UnterminatedString));
    FirstLine(body, 1);
  }

  lemma UnterminatedQuoteScan(body: string)
    requires UnterminatedQuoteInput(body)
    ensures Strings.ReadString(body, 0) == Failure(SyntaxError(1, UnterminatedString))
  {
    Strings.UnterminatedAt(body, 1, 1, "");
  }

  /** `body` holds the characters of "\"no end quote", one fact per character. */
  predicate UnterminatedNoEndQuoteInput(body: string) {
    |body| == 13 && body[0] == '"' && body[1] == 'n' && body[2] == 'o' && body[3] == ' ' && body[4] == 'e' && body[5] == 'n' && body[6] == 'd' && body[7] == ' ' && body[8] == 'q' && body[9] == 'u' && body[10] == 'o' && body[11] == 't' && body[12] == 'e'
  }

  lemma UnterminatedNoEndQuote(body: string)
    requires UnterminatedNoEndQuoteInput(body)
    ensures LexSecond(body) == Failure(SyntaxError(13, UnterminatedString))
    ensures Location(body, 13) == (1, 14)
  {
    UnterminatedNoEndQuoteScan(body);
    FirstStringFails(body, SyntaxError(13, UnterminatedString));
    FirstLine(body, 13);
  }

  lemma UnterminatedNoEndQuoteScan(body: string)
    requires UnterminatedNoEndQuoteInput(body)
    ensures Strings.ReadString(body, 0) == Failure(SyntaxError(13, UnterminatedString))
  {
    Strings.UnterminatedAt(body, 1, 13, "");
  }

  /** `body` holds the characters of "\"multi\nline\"", one fact per character. */
  predicate UnterminatedAtLineFeedInput(body: string) {
    |body| == 12 && body[0] == '"' && body[1] == 'm' && body[2] == 'u' && body[3] == 'l' && body[4] == 't' && body[5] == 'i' && body[6] == '\n' && body[7] == 'l' && body[8] == 'i' && body[9] == 'n' && body[10] == 'e' && body[11] == '"'
  }

  lemma UnterminatedAtLineFeed(body: string)
    requires UnterminatedAtLineFeedInput(body)
    ensures LexSecond(body) == Failure(SyntaxError(6, UnterminatedString))
    ensures Location(body, 6) == (1, 7)
  {
    UnterminatedAtLineFeedScan(body);
    FirstStringFails(body, SyntaxError(6, UnterminatedString));
    FirstLine(body, 6);
  }

  lemma UnterminatedAtLineFeedScan(body: string)
    requires UnterminatedAtLineFeedInput(body)
    ensures Strings.ReadString(body, 0) == Failure(SyntaxError(6, UnterminatedString))
  {
    Strings.UnterminatedAt(body, 1, 6, "");
  }

  /** `body` holds the characters of "\"multi\rline\"", one fact per character. */
  predicate UnterminatedAtCarriageReturnInput(body: string) {
    |body| == 12 && body[0] == '"' && body[1] == 'm' && body[2] == 'u' && body[3] == 'l' && body[4] == 't' && body[5] == 'i' && body[6] == '\r' && body[7] == 'l' && body[8] == 'i' && body[9] == 'n' && body[10] == 'e' && body[11] == '"'
  }

  lemma UnterminatedAtCarriageReturn(body: string)
    requires UnterminatedAtCarriageReturnInput(body)
    ensures LexSecond(body) == Failure(SyntaxError(6, UnterminatedString))
    ensures Location(body, 6) == (1, 7)
  {
    UnterminatedAtCarriageReturnScan(body);
    FirstStringFails(body, SyntaxError(6, UnterminatedString));
    FirstLine(body, 6);
  }

  lemma UnterminatedAtCarriageReturnScan(body: string)
    requires UnterminatedAtCarriageReturnInput(body)
    ensures Strings.ReadString(body, 0) == Failure(SyntaxError(6, UnterminatedString))
  {
    Strings.UnterminatedAt(body, 1, 6, "");
  }

  /** `body` holds the characters of "'single quotes'", one fact per character. */
  predicate SingleQuoteRejectedInput(body: string) {
    |body| == 15 && body[0] == '\'' && body[1] == 's' && body[2] == 'i' && body[3] == 'n' && body[4] == 'g' && body[5] == 'l' && body[6] == 'e' && body[7] == ' ' && body[8] == 'q' && body[9] == 'u' && body[10] == 'o' && body[11] == 't' && body[12] == 'e' && body[13] == 's' && body[14] == '\''
  }

  lemma SingleQuoteRejected(body: string)
    requires SingleQuoteRejectedInput(body)
    ensures LexSecond(body) == Failure(SyntaxError(0, SingleQuoteHint))
    ensures Location(body, 0) == (1, 1)
  {
    SkipStops(body, 0, Initial);
    UnexpectedLexeme(body, 0, Initial);
    ErrorFromLexeme(body, 0, Initial, SyntaxError(0, SingleQuoteHint));
    FirstLine(body, 0);
  }

  // ---- Block strings ----

  /** `body` holds the characters of "\"\"\"\"\"\"", one fact per character. */
  predicate BlockStringEmptyInput(body: string) {
    |body| == 6 && body[0] == '"' && body[1] == '"' && body[2] == '"' && body[3] == '"' && body[4] == '"' && body[5] == '"'
  }

  lemma BlockStringEmpty(body: string)
    requires BlockStringEmptyInput(body)
    ensures LexOne(body) == Success(Token(BlockString, 0, 6, 1, 1, Some("")))
  {
    BlockStringEmptyToken(body);
    FirstIsRead(body, Token(BlockString, 0, 6, 1, 1, Some("")), Initial);
  }

  lemma BlockStringEmptyToken(body: string)
    requires BlockStringEmptyInput(body)
    ensures ReadToken(body, 0, Initial) == Success((Token(BlockString, 0, 6, 1, 1, Some("")), Initial))
  {
    BlockStringEmptyScan(body);
    assert Dedent.SplitLines("") == [""];
    assert Dedent.LeadingBlankCount([""]) == 1;
    assert Dedent.BlockStringValue("") == "";
    SkipStops(body, 0, Initial);
    FirstBlockString(body, 0, Initial, 6, "", Initial, Token(BlockString, 0, 6, 1, 1, Some("")));
  }

  lemma BlockStringEmptyScan(body: string)
    requires BlockStringEmptyInput(body)
    ensures BlockStrings.ScanBlock(body, 3, "", Initial) == Success((6, "", Initial))
  {
    assert body[3..3] == "";
    BlockClose(body, 3, 3, Initial);
  }

  /** `body` holds the characters of "\"\"\"simple\"\"\"", one fact per character. */
  predicate BlockStringSimpleInput(body: string) {
    |body| == 12 && body[0] == '"' && body[1] == '"' && body[2] == '"' && body[3] == 's' && body[4] == 'i' && body[5] == 'm' && body[6] == 'p' && body[7] == 'l' && body[8] == 'e' && body[9] == '"' && body[10] == '"' && body[11] == '"'
  }

  lemma BlockStringSimple(body: string)
    requires BlockStringSimpleInput(body)
    ensures LexOne(body) == Success(Token(BlockString, 0, 12, 1, 1, Some("simple")))
  {
    BlockStringSimpleToken(body);
    FirstIsRead(body, Token(BlockString, 0, 12, 1, 1, Some("simple")), Initial);
  }

  lemma BlockStringSimpleToken(body: string)
    requires BlockStringSimpleInput(body)
    ensures ReadToken(body, 0, Initial) == Success((Token(BlockString, 0, 12, 1, 1, Some("simple")), Initial))
  {
    BlockStringSimpleRead(body);
    FirstBlockString(body, 0, Initial, 12, "simple", Initial, Token(BlockString, 0, 12, 1, 1, Some("simple")));
  }

  lemma BlockStringSimpleScan(body: string)
    requires BlockStringSimpleInput(body)
    ensures BlockStrings.ScanBlock(body, 3, "", Initial) == Success((12, body[3..9], Initial))
    ensures forall i :: 3 <= i < 9 ==> body[i] != '\n'
  {
    assert body[3..3] == "";
    BlockStringSimpleRun3(body);
    BlockClose(body, 3, 9, Initial);
  }

  lemma BlockStringSimpleRead(body: string)
    requires BlockStringSimpleInput(body)
    ensures BlockStrings.ReadBlockString(body, 0, Initial) == Success((12, "simple", Initial))
    ensures SkipIgnored(body, 0, Initial) == (0, Initial) && BlockStrings.TripleQuoteAt(body, 0)
  {
    SkipStops(body, 0, Initial);
    BlockStringSimpleScan(body);
    OneLineValue(body[3..9], 0);
    BlockStringSimpleRaw(body);
  }

  lemma BlockStringSimpleRaw(body: string)
    requires BlockStringSimpleInput(body)
    ensures body[3..9] == "simple"
  {
    assert body[3..9] == "simple";
  }

  lemma BlockStringSimpleRun3(body: string)
    requires BlockStringSimpleInput(body)
    ensures BlockStrings.ScanBlock(body, 3, body[3..3], Initial) == BlockStrings.ScanBlock(body, 9, body[3..9], Initial)
    ensures forall i :: 3 <= i < 9 ==> body[i] != '\n'
  {
    assert body[3..9] == "simple";
    BlockText(body, 3, 3, "simple", Initial);
  }

  /** `body` holds the characters of "\"\"\" white space \"\"\"", one fact per character. */
  predicate BlockStringWhiteSpaceInput(body: string) {
    |body| == 19 && body[0] == '"' && body[1] == '"' && body[2] == '"' && body[3] == ' ' && body[4] == 'w' && body[5] == 'h' && body[6] == 'i' && body[7] == 't' && body[8] == 'e' && body[9] == ' ' && body[10] == 's' && body[11] == 'p' && body[12] == 'a' && body[13] == 'c' && body[14] == 'e' && body[15] == ' ' && body[16] == '"' && body[17] == '"' && body[18] == '"'
  }

  lemma BlockStringWhiteSpace(body: string)
    requires BlockStringWhiteSpaceInput(body)
    ensures LexOne(body) == Success(Token(BlockString, 0, 19, 1, 1, Some(" white space ")))
  {
    BlockStringWhiteSpaceToken(body);
    FirstIsRead(body, Token(BlockString, 0, 19, 1, 1, Some(" white space ")), Initial);
  }

  lemma BlockStringWhiteSpaceToken(body: string)
    requires BlockStringWhiteSpaceInput(body)
    ensures ReadToken(body, 0, Initial) == Success((Token(BlockString, 0, 19, 1, 1, Some(" white space ")), Initial))
  {
    BlockStringWhiteSpaceRead(body);
    FirstBlockString(body, 0, Initial, 19, " white space ", Initial, Token(BlockString, 0, 19, 1, 1, Some(" white space ")));
  }

  lemma BlockStringWhiteSpaceScan(body: string)
    requires BlockStringWhiteSpaceInput(body)
    ensures BlockStrings.ScanBlock(body, 3, "", Initial) == Success((19, body[3..16], Initial))
    ensures forall i :: 3 <= i < 16 ==> body[i] != '\n'
  {
    assert body[3..3] == "";
    BlockStringWhiteSpaceRun3(body);
    BlockClose(body, 3, 16, Initial);
  }

  lemma BlockStringWhiteSpaceRead(body: string)
    requires BlockStringWhiteSpaceInput(body)
    ensures BlockStrings.ReadBlockString(body, 0, Initial) == Success((19, " white space ", Initial))
    ensures SkipIgnored(body, 0, Initial) == (0, Initial) && BlockStrings.TripleQuoteAt(body, 0)
  {
    SkipStops(body, 0, Initial);
    BlockStringWhiteSpaceScan(body);
    OneLineValue(body[3..16], 1);
    BlockStringWhiteSpaceRaw(body);
  }

  lemma BlockStringWhiteSpaceRaw(body: string)
    requires BlockStringWhiteSpaceInput(body)
    ensures body[3..16] == " white space "
  {
    assert body[3..11] == " white s";
    assert body[11..16] == "pace ";
    assert body[3..11] + body[11..16] == body[3..16];
  }

  lemma BlockStringWhiteSpaceRun3(body: string)
    requires BlockStringWhiteSpaceInput(body)
    ensures BlockStrings.ScanBlock(body, 3, body[3..3], Initial) == BlockStrings.ScanBlock(body, 16, body[3..16], Initial)
    ensures forall i :: 3 <= i < 16 ==> body[i] != '\n'
  {
    assert body[3..16] == " white space ";
    BlockText(body, 3, 3, " white space ", Initial);
  }

  /** `body` holds the characters of "\"\"\"contains \" quote\"\"\"", one fact per character. */
  predicate BlockStringContainsQuoteInput(body: string) {
    |body| == 22 && body[0] == '"' && body[1] == '"' && body[2] == '"' && body[3] == 'c' && body[4] == 'o' && body[5] == 'n' && body[6] == 't' && body[7] == 'a' && body[8] == 'i' && body[9] == 'n' && body[10] == 's' && body[11] == ' ' && body[12] == '"' && body[13] == ' ' && body[14] == 'q' && body[15] == 'u' && body[16] == 'o' && body[17] == 't' && body[18] == 'e' && body[19] == '"' && body[20] == '"' && body[21] == '"'
  }

  lemma BlockStringContainsQuote(body: string)
    requires BlockStringContainsQuoteInput(body)
    ensures LexOne(body) == Success(Token(BlockString, 0, 22, 1, 1, Some("contains \" quote")))
  {
    BlockStringContainsQuoteToken(body);
    FirstIsRead(body, Token(BlockString, 0, 22, 1, 1, Some("contains \" quote")), Initial);
  }

  lemma BlockStringContainsQuoteToken(body: string)
    requires BlockStringContainsQuoteInput(body)
    ensures ReadToken(body, 0, Initial) == Success((Token(BlockString, 0, 22, 1, 1, Some("contains \" quote")), Initial))
  {
    BlockStringContainsQuoteRead(body);
    FirstBlockString(body, 0, Initial, 22, "contains \" quote", Initial, Token(BlockString, 0, 22, 1, 1, Some("contains \" quote")));
  }

  lemma BlockStringContainsQuoteScan(body: string)
    requires BlockStringContainsQuoteInput(body)
    ensures BlockStrings.ScanBlock(body, 3, "", Initial) == Success((22, body[3..19], Initial))
    ensures forall i :: 3 <= i < 19 ==> body[i] != '\n'
  {
    assert body[3..3] == "";
    BlockStringContainsQuoteRun3(body);
    BlockChar(body, 3, 12, Initial);
    BlockStringContainsQuoteRun13(body);
    BlockClose(body, 3, 19, Initial);
  }

  lemma BlockStringContainsQuoteRead(body: string)
    requires BlockStringContainsQuoteInput(body)
    ensures BlockStrings.ReadBlockString(body, 0, Initial) == Success((22, "contains \" quote", Initial))
    ensures SkipIgnored(body, 0, Initial) == (0, Initial) && BlockStrings.TripleQuoteAt(body, 0)
  {
    SkipStops(body, 0, Initial);
    BlockStringContainsQuoteScan(body);
    OneLineValue(body[3..19], 0);
    BlockStringContainsQuoteRaw(body);
  }

  lemma BlockStringContainsQuoteRaw(body: string)
    requires BlockStringContainsQuoteInput(body)
    ensures body[3..19] == "contains \" quote"
  {
    assert body[3..11] == "contains";
    assert body[11..12] == " ";
    assert body[3..11] + body[11..12] == body[3..12];
    assert body[12..13] == "\"";
    assert body[13..19] == " quote";
    assert body[3..19] == body[3..12] + body[12..13] + body[13..19];
    assert "contains " + "\"" + " quote" == "contains \" quote";
  }

  lemma BlockStringContainsQuoteRun3(body: string)
    requires BlockStringContainsQuoteInput(body)
    ensures BlockStrings.ScanBlock(body, 3, body[3..3], Initial) == BlockStrings.ScanBlock(body, 12, body[3..12], Initial)
    ensures forall i :: 3 <= i < 12 ==> body[i] != '\n'
  {
    assert body[3..12] == "contains ";
    BlockText(body, 3, 3, "contains ", Initial);
  }

  lemma BlockStringContainsQuoteRun13(body: string)
    requires BlockStringContainsQuoteInput(body)
    ensures BlockStrings.ScanBlock(body, 13, body[3..13], Initial) == BlockStrings.ScanBlock(body, 19, body[3..19], Initial)
    ensures forall i :: 13 <= i < 19 ==> body[i] != '\n'
  {
    assert body[13..19] == " quote";
    BlockText(body, 3, 13, " quote", Initial);
  }

  /** `body` holds the characters of "\"\"\"unescaped \\n\\r\\b\\t\\f\\u1234\"\"\"", one fact per character. */
  predicate BlockStringUnescapedInput(body: string) {
    |body| == 32 && body[0] == '"' && body[1] == '"' && body[2] == '"' && body[3] == 'u' && body[4] == 'n' && body[5] == 'e' && body[6] == 's' && body[7] == 'c' && body[8] == 'a' && body[9] == 'p' && body[10] == 'e' && body[11] == 'd' && body[12] == ' ' && body[13] == '\\' && body[14] == 'n' && body[15] == '\\' && body[16] == 'r' && body[17] == '\\' && body[18] == 'b' && body[19] == '\\' && body[20] == 't' && body[21] == '\\' && body[22] == 'f' && body[23] == '\\' && body[24] == 'u' && body[25] == '1' && body[26] == '2' && body[27] == '3' && body[28] == '4' && body[29] == '"' && body[30] == '"' && body[31] == '"'
  }

  lemma BlockStringUnescaped(body: string)
    requires BlockStringUnescapedInput(body)
    ensures LexOne(body) == Success(Token(BlockString, 0, 32, 1, 1, Some("unescaped \\n\\r\\b\\t\\f\\u1234")))
  {
    BlockStringUnescapedToken(body);
    FirstIsRead(body, Token(BlockString, 0, 32, 1, 1, Some("unescaped \\n\\r\\b\\t\\f\\u1234")), Initial);
  }

  lemma BlockStringUnescapedToken(body: string)
    requires BlockStringUnescapedInput(body)
    ensures ReadToken(body, 0, Initial) == Success((Token(BlockString, 0, 32, 1, 1, Some("unescaped \\n\\r\\b\\t\\f\\u1234")), Initial))
  {
    BlockStringUnescapedRead(body);
    FirstBlockString(body, 0, Initial, 32, "unescaped \\n\\r\\b\\t\\f\\u1234", Initial, Token(BlockString, 0, 32, 1, 1, Some("unescaped \\n\\r\\b\\t\\f\\u1234")));
  }

  lemma BlockStringUnescapedScan(body: string)
    requires BlockStringUnescapedInput(body)
    ensures BlockStrings.ScanBlock(body, 3, "", Initial) == Success((32, body[3..29], Initial))
    ensures forall i :: 3 <= i < 29 ==> body[i] != '\n'
  {
    assert body[3..3] == "";
    BlockStringUnescapedRun3(body);
    BlockStringUnescapedRun15(body);
    BlockStringUnescapedRun28(body);
    BlockClose(body, 3, 29, Initial);
  }

  lemma BlockStringUnescapedRead(body: string)
    requires BlockStringUnescapedInput(body)
    ensures BlockStrings.ReadBlockString(body, 0, Initial) == Success((32, "unescaped \\n\\r\\b\\t\\f\\u1234", Initial))
    ensures SkipIgnored(body, 0, Initial) == (0, Initial) && BlockStrings.TripleQuoteAt(body, 0)
  {
    SkipStops(body, 0, Initial);
    BlockStringUnescapedScan(body);
    OneLineValue(body[3..29], 0);
    BlockStringUnescapedRaw(body);
  }

  lemma BlockStringUnescapedRaw(body: string)
    requires BlockStringUnescapedInput(body)
    ensures body[3..29] == "unescaped \\n\\r\\b\\t\\f\\u1234"
  {
    assert body[3..11] == "unescape";
    assert body[11..15] == "d \\n";
    assert body[3..11] + body[11..15] == body[3..15];
    assert body[15..23] == "\\r\\b\\t\\f";
    assert body[23..28] == "\\u123";
    assert body[15..23] + body[23..28] == body[15..28];
    assert body[28..29] == "4";
    assert body[3..29] == body[3..15] + body[15..28] + body[28..29];
    assert "unescaped \\n" + "\\r\\b\\t\\f\\u123" + "4" == "unescaped \\n\\r\\b\\t\\f\\u1234";
  }

  lemma BlockStringUnescapedRun3(body: string)
    requires BlockStringUnescapedInput(body)
    ensures BlockStrings.ScanBlock(body, 3, body[3..3], Initial) == BlockStrings.ScanBlock(body, 15, body[3..15], Initial)
    ensures forall i :: 3 <= i < 15 ==> body[i] != '\n'
  {
    assert body[3..15] == "unescaped \\n";
    BlockText(body, 3, 3, "unescaped \\n", Initial);
  }

  lemma BlockStringUnescapedRun15(body: string)
    requires BlockStringUnescapedInput(body)
    ensures BlockStrings.ScanBlock(body, 15, body[3..15], Initial) == BlockStrings.ScanBlock(body, 28, body[3..28], Initial)
    ensures forall i :: 15 <= i < 28 ==> body[i] != '\n'
  {
    assert body[15..28] == "\\r\\b\\t\\f\\u123";
    BlockText(body, 3, 15, "\\r\\b\\t\\f\\u123", Initial);
  }

  lemma BlockStringUnescapedRun28(body: string)
    requires BlockStringUnescapedInput(body)
    ensures BlockStrings.ScanBlock(body, 28, body[3..28], Initial) == BlockStrings.ScanBlock(body, 29, body[3..29], Initial)
    ensures forall i :: 28 <= i < 29 ==> body[i] != '\n'
  {
    assert body[28..29] == "4";
    BlockText(body, 3, 28, "4", Initial);
  }

  /** `body` holds the characters of "\"\"\"slashes \\\\ \\/\"\"\"", one fact per character. */
  predicate BlockStringSlashesInput(body: string) {
    |body| == 19 && body[0] == '"' && body[1] == '"' && body[2] == '"' && body[3] == 's' && body[4] == 'l' && body[5] == 'a' && body[6] == 's' && body[7] == 'h' && body[8] == 'e' && body[9] == 's' && body[10] == ' ' && body[11] == '\\' && body[12] == '\\' && body[13] == ' ' && body[14] == '\\' && body[15] == '/' && body[16] == '"' && body[17] == '"' && body[18] == '"'
  }

  lemma BlockStringSlashes(body: string)
    requires BlockStringSlashesInput(body)
    ensures LexOne(body) == Success(Token(BlockString, 0, 19, 1, 1, Some("slashes \\\\ \\/")))
  {
    BlockStringSlashesToken(body);
    FirstIsRead(body, Token(BlockString, 0, 19, 1, 1, Some("slashes \\\\ \\/")), Initial);
  }

  lemma BlockStringSlashesToken(body: string)
    requires BlockStringSlashesInput(body)
    ensures ReadToken(body, 0, Initial) == Success((Token(BlockString, 0, 19, 1, 1, Some("slashes \\\\ \\/")), Initial))
  {
    BlockStringSlashesRead(body);
    FirstBlockString(body, 0, Initial, 19, "slashes \\\\ \\/", Initial, Token(BlockString, 0, 19, 1, 1, Some("slashes \\\\ \\/")));
  }

  lemma BlockStringSlashesScan(body: string)
    requires BlockStringSlashesInput(body)
    ensures BlockStrings.ScanBlock(body, 3, "", Initial) == Success((19, body[3..16], Initial))
    ensures forall i :: 3 <= i < 16 ==> body[i] != '\n'
  {
    assert body[3..3] == "";
    BlockStringSlashesRun3(body);
    BlockClose(body, 3, 16, Initial);
  }

  lemma BlockStringSlashesRead(body: string)
    requires BlockStringSlashesInput(body)
    ensures BlockStrings.ReadBlockString(body, 0, Initial) == Success((19, "slashes \\\\ \\/", Initial))
    ensures SkipIgnored(body, 0, Initial) == (0, Initial) && BlockStrings.TripleQuoteAt(body, 0)
  {
    SkipStops(body, 0, Initial);
    BlockStringSlashesScan(body);
    OneLineValue(body[3..16], 0);
    BlockStringSlashesRaw(body);
  }

  lemma BlockStringSlashesRaw(body: string)
    requires BlockStringSlashesInput(body)
    ensures body[3..16] == "slashes \\\\ \\/"
  {
    assert body[3..11] == "slashes ";
    assert body[11..16] == "\\\\ \\/";
    assert body[3..11] + body[11..16] == body[3..16];
  }

  lemma BlockStringSlashesRun3(body: string)
    requires BlockStringSlashesInput(body)
    ensures BlockStrings.ScanBlock(body, 3, body[3..3], Initial) == BlockStrings.ScanBlock(body, 16, body[3..16], Initial)
    ensures forall i :: 3 <= i < 16 ==> body[i] != '\n'
  {
    assert body[3..16] == "slashes \\\\ \\/";
    BlockText(body, 3, 3, "slashes \\\\ \\/", Initial);
  }

  /** `body` holds the characters of "\"\"\"multi\nline\"\"\"", one fact per character. */
  predicate BlockStringMultiLineInput(body: string) {
    |body| == 16 && body[0] == '"' && body[1] == '"' && body[2] == '"' && body[3] == 'm' && body[4] == 'u' && body[5] == 'l' && body[6] == 't' && body[7] == 'i' && body[8] == '\n' && body[9] == 'l' && body[10] == 'i' && body[11] == 'n' && body[12] == 'e' && body[13] == '"' && body[14] == '"' && body[15] == '"'
  }

  lemma BlockStringMultiLine(body: string)
    requires BlockStringMultiLineInput(body)
    ensures LexOne(body) == Success(Token(BlockString, 0, 16, 1, 1, Some("multi\nline")))
  {
    BlockStringMultiLineToken(body);
    FirstIsRead(body, Token(BlockString, 0, 16, 1, 1, Some("multi\nline")), LineState(2, 9));
  }

  lemma BlockStringMultiLineToken(body: string)
    requires BlockStringMultiLineInput(body)
    ensures ReadToken(body, 0, Initial) == Success((Token(BlockString, 0, 16, 1, 1, Some("multi\nline")), LineState(2, 9)))
  {
    BlockStringMultiLineRead(body);
    FirstBlockString(body, 0, Initial, 16, "multi\nline", LineState(2, 9), Token(BlockString, 0, 16, 1, 1, Some("multi\nline")));
  }

  lemma BlockStringMultiLineScan(body: string)
    requires BlockStringMultiLineInput(body)
    ensures BlockStrings.ScanBlock(body, 3, "", Initial) == Success((16, body[3..13], LineState(2, 9)))
    ensures forall i :: 3 <= i < 13 && i != 8 ==> body[i] != '\n'
  {
    assert body[3..3] == "";
    assert body[3..8] == "multi" && body[9..13] == "line";
    BlockText(body, 3, 3, "multi", Initial);
    BlockLineFeed(body, 3, 8, Initial);
    BlockText(body, 3, 9, "line", LineState(2, 9));
    BlockClose(body, 3, 13, LineState(2, 9));
  }

  lemma BlockStringMultiLineRaw(body: string)
    requires BlockStringMultiLineInput(body)
    ensures body[3..13] == "multi\nline"
  {
    assert body[3..8] == "multi" && body[8..13] == "\nline";
  }

  lemma BlockStringMultiLineRead(body: string)
    requires BlockStringMultiLineInput(body)
    ensures BlockStrings.ReadBlockString(body, 0, Initial) == Success((16, "multi\nline", LineState(2, 9)))
    ensures SkipIgnored(body, 0, Initial) == (0, Initial) && BlockStrings.TripleQuoteAt(body, 0)
  {
    SkipStops(body, 0, Initial);
    BlockStringMultiLineScan(body);
    TwoLineValue(body[3..13], 5);
    BlockStringMultiLineRaw(body);
  }

  /** `body` holds the characters of "\"\"\"\n\n        spans\n          multiple\n            lines\n\n        \"\"\"", one fact per character. */
  predicate BlockStringDedentInput(body: string) {
    |body| == 68 && body[0] == '"' && body[1] == '"' && body[2] == '"' && body[3] == '\n' && body[4] == '\n' && body[5] == ' ' && body[6] == ' ' && body[7] == ' ' && body[8] == ' ' && body[9] == ' ' && body[10] == ' ' && body[11] == ' ' && body[12] == ' ' && body[13] == 's' && body[14] == 'p' && body[15] == 'a' && body[16] == 'n' && body[17] == 's' && body[18] == '\n' && body[19] == ' ' && body[20] == ' ' && body[21] == ' ' && body[22] == ' ' && body[23] == ' ' && body[24] == ' ' && body[25] == ' ' && body[26] == ' ' && body[27] == ' ' && body[28] == ' ' && body[29] == 'm' && body[30] == 'u' && body[31] == 'l' && body[32] == 't' && body[33] == 'i' && body[34] == 'p' && body[35] == 'l' && body[36] == 'e' && body[37] == '\n' && body[38] == ' ' && body[39] == ' ' && body[40] == ' ' && body[41] == ' ' && body[42] == ' ' && body[43] == ' ' && body[44] == ' ' && body[45] == ' ' && body[46] == ' ' && body[47] == ' ' && body[48] == ' ' && body[49] == ' ' && body[50] == 'l' && body[51] == 'i' && body[52] == 'n' && body[53] == 'e' && body[54] == 's' && body[55] == '\n' && body[56] == '\n' && body[57] == ' ' && body[58] == ' ' && body[59] == ' ' && body[60] == ' ' && body[61] == ' ' && body[62] == ' ' && body[63] == ' ' && body[64] == ' ' && body[65] == '"' && body[66] == '"' && body[67] == '"'
  }

  /** Blank lines around a block string go, and the common indentation of its lines is removed. */
  lemma BlockStringDedent(body: string)
    requires BlockStringDedentInput(body)
    ensures LexOne(body) == Success(Token(BlockString, 0, 68, 1, 1, Some("spans\n  multiple\n    lines")))
  {
    BlockStringDedentToken(body);
    FirstIsRead(body, Token(BlockString, 0, 68, 1, 1, Some("spans\n  multiple\n    lines")), LineState(7, 57));
  }

  lemma BlockStringDedentToken(body: string)
    requires BlockStringDedentInput(body)
    ensures ReadToken(body, 0, Initial) == Success((Token(BlockString, 0, 68, 1, 1, Some("spans\n  multiple\n    lines")), LineState(7, 57)))
  {
    BlockStringDedentRead(body);
    FirstBlockString(body, 0, Initial, 68, "spans\n  multiple\n    lines", LineState(7, 57), Token(BlockString, 0, 68, 1, 1, Some("spans\n  multiple\n    lines")));
  }

  lemma BlockStringDedentRun5(body: string)
    requires BlockStringDedentInput(body)
    ensures BlockStrings.ScanBlock(body, 5, body[3..5], LineState(3, 5)) == BlockStrings.ScanBlock(body, 18, body[3..18], LineState(3, 5))
    ensures forall i :: 5 <= i < 18 ==> body[i] != '\n'
  {
    assert body[5..18] == "        spans";
    BlockText(body, 3, 5, "        spans", LineState(3, 5));
  }

  lemma BlockStringDedentRun19(body: string)
    requires BlockStringDedentInput(body)
    ensures BlockStrings.ScanBlock(body, 19, body[3..19], LineState(4, 19)) == BlockStrings.ScanBlock(body, 29, body[3..29], LineState(4, 19))
    ensures forall i :: 19 <= i < 29 ==> body[i] != '\n'
  {
    assert body[19..29] == "          ";
    BlockText(body, 3, 19, "          ", LineState(4, 19));
  }

  lemma BlockStringDedentRun29(body: string)
    requires BlockStringDedentInput(body)
    ensures BlockStrings.ScanBlock(body, 29, body[3..29], LineState(4, 19)) == BlockStrings.ScanBlock(body, 37, body[3..37], LineState(4, 19))
    ensures forall i :: 29 <= i < 37 ==> body[i] != '\n'
  {
    assert body[29..37] == "multiple";
    BlockText(body, 3, 29, "multiple", LineState(4, 19));
  }

  lemma BlockStringDedentRun38(body: string)
    requires BlockStringDedentInput(body)
    ensures BlockStrings.ScanBlock(body, 38, body[3..38], LineState(5, 38)) == BlockStrings.ScanBlock(body, 50, body[3..50], LineState(5, 38))
    ensures forall i :: 38 <= i < 50 ==> body[i] != '\n'
  {
    assert body[38..50] == "            ";
    BlockText(body, 3, 38, "            ", LineState(5, 38));
  }

  lemma BlockStringDedentRun50(body: string)
    requires BlockStringDedentInput(body)
    ensures BlockStrings.ScanBlock(body, 50, body[3..50], LineState(5, 38)) == BlockStrings.ScanBlock(body, 55, body[3..55], LineState(5, 38))
    ensures forall i :: 50 <= i < 55 ==> body[i] != '\n'
  {
    assert body[50..55] == "lines";
    BlockText(body, 3, 50, "lines", LineState(5, 38));
  }

  lemma BlockStringDedentRun57(body: string)
    requires BlockStringDedentInput(body)
    ensures BlockStrings.ScanBlock(body, 57, body[3..57], LineState(7, 57)) == BlockStrings.ScanBlock(body, 65, body[3..65], LineState(7, 57))
    ensures forall i :: 57 <= i < 65 ==> body[i] != '\n'
  {
    assert body[57..65] == "        ";
    BlockText(body, 3, 57, "        ", LineState(7, 57));
  }

  lemma BlockStringDedentScanHead(body: string)
    requires BlockStringDedentInput(body)
    ensures BlockStrings.ScanBlock(body, 3, "", Initial) == BlockStrings.ScanBlock(body, 19, body[3..19], LineState(4, 19))
  {
    assert body[3..3] == "";
    BlockLineFeed(body, 3, 3, Initial);
    BlockLineFeed(body, 3, 4, LineState(2, 4));
    BlockStringDedentRun5(body);
    BlockLineFeed(body, 3, 18, LineState(3, 5));
  }

  lemma BlockStringDedentScanMiddle(body: string)
    requires BlockStringDedentInput(body)
    ensures BlockStrings.ScanBlock(body, 19, body[3..19], LineState(4, 19)) == BlockStrings.ScanBlock(body, 56, body[3..56], LineState(6, 56))
  {
    BlockStringDedentRun19(body);
    BlockStringDedentRun29(body);
    BlockLineFeed(body, 3, 37, LineState(4, 19));
    BlockStringDedentRun38(body);
    BlockStringDedentRun50(body);
    BlockLineFeed(body, 3, 55, LineState(5, 38));
  }

  lemma BlockStringDedentScanTail(body: string)
    requires BlockStringDedentInput(body)
    ensures BlockStrings.ScanBlock(body, 56, body[3..56], LineState(6, 56)) == Success((68, body[3..65], LineState(7, 57)))
  {
    BlockLineFeed(body, 3, 56, LineState(6, 56));
    BlockStringDedentRun57(body);
    BlockClose(body, 3, 65, LineState(7, 57));
  }

  lemma BlockStringDedentLinesEnd(body: string)
    requires BlockStringDedentInput(body)
    ensures Dedent.SplitLines(body[38..65]) == [body[38..55], body[56..56], body[57..65]]
  {
    BlockStringDedentRun38(body);
    BlockStringDedentRun50(body);
    BlockStringDedentRun57(body);
    SplitAtLineFeed(body, 38, 55, 65);
    SplitAtLineFeed(body, 56, 56, 65);
    SingleLine(body[57..65]);
  }

  lemma BlockStringDedentLinesTail(body: string)
    requires BlockStringDedentInput(body)
    ensures Dedent.SplitLines(body[19..65]) == [body[19..37], body[38..55], body[56..56], body[57..65]]
  {
    BlockStringDedentRun19(body);
    BlockStringDedentRun29(body);
    BlockStringDedentLinesEnd(body);
    SplitAtLineFeed(body, 19, 37, 65);
  }

  lemma BlockStringDedentLines(body: string)
    requires BlockStringDedentInput(body)
    ensures Dedent.SplitLines(body[3..65]) == [body[3..3], body[4..4], body[5..18], body[19..37], body[38..55], body[56..56], body[57..65]]
  {
    BlockStringDedentRun5(body);
    BlockStringDedentLinesTail(body);
    SplitAtLineFeed(body, 3, 3, 65);
    SplitAtLineFeed(body, 4, 4, 65);
    SplitAtLineFeed(body, 5, 18, 65);
  }

  lemma BlockStringDedentIndents(body: string)
    requires BlockStringDedentInput(body)
    ensures Dedent.Indent(body[5..18]) == 8 && Dedent.Indent(body[19..37]) == 10 && Dedent.Indent(body[38..55]) == 12
    ensures !Dedent.IsBlank(body[5..18]) && !Dedent.IsBlank(body[19..37]) && !Dedent.IsBlank(body[38..55])
    ensures Dedent.IsBlank(body[57..65])
  {
    assert body[5..13] == "        " && body[5..18][..8] == body[5..13];
    IndentIs(body[5..18], 8);
    assert body[19..29] == "          " && body[19..37][..10] == body[19..29];
    IndentIs(body[19..37], 10);
    assert body[38..50] == "            " && body[38..55][..12] == body[38..50];
    IndentIs(body[38..55], 12);
    assert body[57..65] == "        ";
  }

  lemma BlockStringDedentShape(body: string)
    requires BlockStringDedentInput(body)
    ensures Dedent.BlockStringValue(body[3..65]) == body[5..18][8..] + "\n" + body[19..37][8..] + "\n" + body[38..55][8..]
  {
    BlockStringDedentLines(body);
    BlockStringDedentIndents(body);
    FramedDedent([body[3..3], body[4..4], body[5..18], body[19..37], body[38..55], body[56..56], body[57..65]], 8);
  }

  lemma BlockStringDedentWords(body: string)
    requires BlockStringDedentInput(body)
    ensures body[5..18][8..] + "\n" + body[19..37][8..] + "\n" + body[38..55][8..] == "spans\n  multiple\n    lines"
  {
    assert body[5..18][8..] == body[13..18] == "spans";
    assert body[19..37][8..] == body[27..37] == "  multiple";
    assert body[38..55][8..] == body[46..55] == "    lines";
    assert "spans" + "\n" + "  multiple" + "\n" + "    lines" == "spans\n  multiple\n    lines";
  }

  lemma BlockStringDedentValue(body: string)
    requires BlockStringDedentInput(body)
    ensures Dedent.BlockStringValue(body[3..65]) == "spans\n  multiple\n    lines"
  {
    BlockStringDedentShape(body);
    BlockStringDedentWords(body);
  }

  lemma BlockStringDedentRead(body: string)
    requires BlockStringDedentInput(body)
    ensures BlockStrings.ReadBlockString(body, 0, Initial) == Success((68, "spans\n  multiple\n    lines", LineState(7, 57)))
    ensures SkipIgnored(body, 0, Initial) == (0, Initial) && BlockStrings.TripleQuoteAt(body, 0)
  {
    SkipStops(body, 0, Initial);
    BlockStringDedentScanHead(body);
    BlockStringDedentScanMiddle(body);
    BlockStringDedentScanTail(body);
    BlockStringDedentValue(body);
  }

  // ---- Block string errors ----

  /** `body` holds the characters of "\"\"\"", one fact per character. */
  predicate BlockStringUnterminatedEmptyInput(body: string) {
    |body| == 3 && body[0] == '"' && body[1] == '"' && body[2] == '"'
  }

  lemma BlockStringUnterminatedEmpty(body: string)
    requires BlockStringUnterminatedEmptyInput(body)
    ensures LexSecond(body) == Failure(SyntaxError(3, UnterminatedString))
    ensures Location(body, 3) == (1, 4)
  {
    BlockStringUnterminatedEmptyScan(body);
    SkipStops(body, 0, Initial);
    FirstBlockStringFails(body, 0, Initial, SyntaxError(3, UnterminatedString));
    FirstLine(body, 3);
  }

  lemma BlockStringUnterminatedEmptyScan(body: string)
    requires BlockStringUnterminatedEmptyInput(body)
    ensures BlockStrings.ReadBlockString(body, 0, Initial) == Failure(SyntaxError(3, UnterminatedString))
  {
    assert body[3..3] == "";
    BlockEnds(body, body[3..3], Initial);
  }

  /** `body` holds the characters of "\"\"\"\"", one fact per character. */
  predicate BlockStringUnterminatedQuoteInput(body: string) {
    |body| == 4 && body[0] == '"' && body[1] == '"' && body[2] == '"' && body[3] == '"'
  }

  lemma BlockStringUnterminatedQuote(body: string)
    requires BlockStringUnterminatedQuoteInput(body)
    ensures LexSecond(body) == Failure(SyntaxError(4, UnterminatedString))
    ensures Location(body, 4) == (1, 5)
  {
    BlockStringUnterminatedQuoteScan(body);
    SkipStops(body, 0, Initial);
    FirstBlockStringFails(body, 0, Initial, SyntaxError(4, UnterminatedString));
    FirstLine(body, 4);
  }

  lemma BlockStringUnterminatedQuoteScan(body: string)
    requires BlockStringUnterminatedQuoteInput(body)
    ensures BlockStrings.ReadBlockString(body, 0, Initial) == Failure(SyntaxError(4, UnterminatedString))
  {
    assert body[3..3] == "";
    BlockChar(body, 3, 3, Initial);
    BlockEnds(body, body[3..4], Initial);
  }

  /** `body` holds the characters of "\"\"\"no end quite", one fact per character. */
  predicate BlockStringUnterminatedTextInput(body: string) {
    |body| == 15 && body[0] == '"' && body[1] == '"' && body[2] == '"' && body[3] == 'n' && body[4] == 'o' && body[5] == ' ' && body[6] == 'e' && body[7] == 'n' && body[8] == 'd' && body[9] == ' ' && body[10] == 'q' && body[11] == 'u' && body[12] == 'i' && body[13] == 't' && body[14] == 'e'
  }

  lemma BlockStringUnterminatedText(body: string)
    requires BlockStringUnterminatedTextInput(body)
    ensures LexSecond(body) == Failure(SyntaxError(15, UnterminatedString))
    ensures Location(body, 15) == (1, 16)
  {
    BlockStringUnterminatedTextScan(body);
    SkipStops(body, 0, Initial);
    FirstBlockStringFails(body, 0, Initial, SyntaxError(15, UnterminatedString));
    FirstLine(body, 15);
  }

  lemma BlockStringUnterminatedTextScan(body: string)
    requires BlockStringUnterminatedTextInput(body)
    ensures BlockStrings.ReadBlockString(body, 0, Initial) == Failure(SyntaxError(15, UnterminatedString))
  {
    assert body[3..3] == "";
    assert body[3..15] == "no end quite";
    BlockText(body, 3, 3, "no end quite", Initial);
    BlockEnds(body, body[3..15], Initial);
  }

  // ---- Numbers ----

  lemma IntZero()
    ensures LexOne("0") == Success(Token(Int, 0, 1, 1, 1, Some("0")))
  {
    FirstInt("0");
  }

  lemma IntOne()
    ensures LexOne("1") == Success(Token(Int, 0, 1, 1, 1, Some("1")))
  {
    FirstInt("1");
  }

  lemma IntFour()
    ensures LexOne("4") == Success(Token(Int, 0, 1, 1, 1, Some("4")))
  {
    FirstInt("4");
  }

  lemma IntNine()
    ensures LexOne("9") == Success(Token(Int, 0, 1, 1, 1, Some("9")))
  {
    FirstInt("9");
  }

  lemma IntFortyTwo()
    ensures LexOne("42") == Success(Token(Int, 0, 2, 1, 1, Some("42")))
  {
    FirstInt("42");
  }

  lemma IntNegativeFour()
    ensures LexOne("-4") == Success(Token(Int, 0, 2, 1, 1, Some("-4")))
  {
    FirstInt("-4");
  }

  lemma IntNegativeFortyTwo()
    ensures LexOne("-42") == Success(Token(Int, 0, 3, 1, 1, Some("-42")))
  {
    FirstInt("-42");
  }

  lemma FloatFraction()
    ensures LexOne("4.123") == Success(Token(Float, 0, 5, 1, 1, Some("4.123")))
  {
    var body := "4.123";
    assert body[..1] == "4" && body[1..5] == ".123";
    FirstFloat(body, 1, 5);
  }

  lemma FloatNegativeFraction()
    ensures LexOne("-4.123") == Success(Token(Float, 0, 6, 1, 1, Some("-4.123")))
  {
    var body := "-4.123";
    assert body[..2] == "-4" && body[2..6] == ".123";
    FirstFloat(body, 2, 6);
  }

  lemma FloatZeroFraction()
    ensures LexOne("0.123") == Success(Token(Float, 0, 5, 1, 1, Some("0.123")))
  {
    var body := "0.123";
    assert body[..1] == "0" && body[1..5] == ".123";
    FirstFloat(body, 1, 5);
  }

  lemma FloatExponent()
    ensures LexOne("123e4") == Success(Token(Float, 0, 5, 1, 1, Some("123e4")))
  {
    var body := "123e4";
    assert body[..3] == "123" && body[3..] == "e4";
    FirstFloat(body, 3, 3);
  }

  lemma FloatCapitalExponent()
    ensures LexOne("123E4") == Success(Token(Float, 0, 5, 1, 1, Some("123E4")))
  {
    var body := "123E4";
    assert body[..3] == "123" && body[3..] == "E4";
    FirstFloat(body, 3, 3);
  }

  lemma FloatNegativeExponent()
    ensures LexOne("123e-4") == Success(Token(Float, 0, 6, 1, 1, Some("123e-4")))
  {
    var body := "123e-4";
    assert body[..3] == "123" && body[3..] == "e-4";
    FirstFloat(body, 3, 3);
  }

  lemma FloatPositiveExponent()
    ensures LexOne("123e+4") == Success(Token(Float, 0, 6, 1, 1, Some("123e+4")))
  {
    var body := "123e+4";
    assert body[..3] == "123" && body[3..] == "e+4";
    FirstFloat(body, 3, 3);
  }

  lemma FloatFractionExponent()
    ensures LexOne("-1.123e4") == Success(Token(Float, 0, 8, 1, 1, Some("-1.123e4")))
  {
    var body := "-1.123e4";
    assert body[..2] == "-1" && body[2..6] == ".123" && body[6..] == "e4";
    FirstFloat(body, 2, 6);
  }

  lemma FloatFractionCapitalExponent()
    ensures LexOne("-1.123E4") == Success(Token(Float, 0, 8, 1, 1, Some("-1.123E4")))
  {
    var body := "-1.123E4";
    assert body[..2] == "-1" && body[2..6] == ".123" && body[6..] == "E4";
    FirstFloat(body, 2, 6);
  }

  lemma FloatFractionNegativeExponent()
    ensures LexOne("-1.123e-4") == Success(Token(Float, 0, 9, 1, 1, Some("-1.123e-4")))
  {
    var body := "-1.123e-4";
    assert body[..2] == "-1" && body[2..6] == ".123" && body[6..] == "e-4";
    FirstFloat(body, 2, 6);
  }

  lemma FloatFractionPositiveExponent()
    ensures LexOne("-1.123e+4") == Success(Token(Float, 0, 9, 1, 1, Some("-1.123e+4")))
  {
    var body := "-1.123e+4";
    assert body[..2] == "-1" && body[2..6] == ".123" && body[6..] == "e+4";
    FirstFloat(body, 2, 6);
  }

  lemma FloatLongExponent()
    ensures LexOne("-1.123e4567") == Success(Token(Float, 0, 11, 1, 1, Some("-1.123e4567")))
  {
    var body := "-1.123e4567";
    assert body[..2] == "-1" && body[2..6] == ".123" && body[6..] == "e4567";
    FirstFloat(body, 2, 6);
  }
}
