/** The block-string algorithm the lexer applies computes the value the
    GraphQL specification (October 2021, section 2.9.4) defines. */
module DedentAgreement {
  import opened Results
  import opened Dedent

  // ---- The two algorithms agree ----

  /** A line made only of white space is blank, and conversely. */
  lemma {:induction false} IndentOfBlank(line: string)
    ensures IsBlank(line) <==> Indent(line) == |line|
  {
  }

  /** Removing at most the indentation of a line keeps it blank or non-blank. */
  lemma {:induction false} DropKeepsBlankness(line: string, m: nat)
    requires IsBlank(line) || m <= Indent(line)
    ensures IsBlank(Drop(line, m)) <==> IsBlank(line)
  {
    IndentOfBlank(line);
    if !IsBlank(line) {
      var k := Indent(line);
      assert Drop(line, m)[k - m] == line[k];
    }
  }

  /** Blank lines do not take part in the common indentation: dropping the
      first `k` lines, all blank, does not change it. */
  lemma {:induction false} CommonIndentSkipsBlankPrefix(xs: seq<string>, k: nat)
    requires k <= |xs|
    requires forall i :: 0 <= i < k ==> IsBlank(xs[i])
    ensures CommonIndent(xs) == CommonIndent(xs[k..])
    decreases k
  {
    if k > 0 {
      assert IsBlank(xs[0]);
      assert xs[1..][k - 1..] == xs[k..];
      CommonIndentSkipsBlankPrefix(xs[1..], k - 1);
    }
  }

  /** Dropping the last `k` lines, all blank, does not change the common
      indentation. */
  lemma {:induction false} CommonIndentSkipsBlankSuffix(xs: seq<string>, k: nat)
    requires k <= |xs|
    requires forall i :: |xs| - k <= i < |xs| ==> IsBlank(xs[i])
    ensures CommonIndent(xs) == CommonIndent(xs[..|xs| - k])
    decreases |xs|
  {
    var ys := xs[..|xs| - k];
    if |ys| == 0 {
      assert CommonIndent(xs).None?;
    } else {
      assert ys[0] == xs[0];
      assert ys[1..] == xs[1..][..|xs| - 1 - k];
      CommonIndentSkipsBlankSuffix(xs[1..], k);
    }
  }

  /** Line lists that are blank at the same places have the same numbers of
      leading and trailing blank lines. */
  lemma {:induction false} SameBlankCounts(xs: seq<string>, ys: seq<string>)
    requires |xs| == |ys|
    requires forall i :: 0 <= i < |xs| ==> (IsBlank(xs[i]) <==> IsBlank(ys[i]))
    ensures LeadingBlankCount(xs) == LeadingBlankCount(ys)
    ensures TrailingBlankCount(xs) == TrailingBlankCount(ys)
  {
  }

  /** Removing no indentation leaves the lines as they are. */
  lemma {:induction false} DedentByZero(lines: seq<string>)
    ensures DedentLines(lines, 0) == lines
  {
  }

  /** Line `i` with the common indentation of the lines after the first
      removed, unless it is the first line. */
  function DedentedLine(lines: seq<string>, i: nat): string
    requires 1 <= |lines| && i < |lines|
  {
    var common := CommonIndent(lines[1..]);
    if common.Some? && i > 0 then Drop(lines[i], common.value) else lines[i]
  }

  /** Dedenting a line after the first keeps it blank or non-blank. */
  lemma {:induction false} DedentedLineBlankness(lines: seq<string>, i: nat)
    requires 1 <= |lines| && i < |lines|
    ensures IsBlank(DedentedLine(lines, i)) <==> IsBlank(lines[i])
  {
    var common := CommonIndent(lines[1..]);
    if common.Some? && i > 0 {
      assert lines[1..][i - 1] == lines[i];
      DropKeepsBlankness(lines[i], common.value);
    }
  }

  /** The specification's dedented lines, line by line. */
  lemma {:induction false} DedentAfterFirstLines(lines: seq<string>)
    requires |lines| >= 1
    ensures forall i :: 0 <= i < |lines| ==> DedentAfterFirst(lines)[i] == DedentedLine(lines, i)
  {
    var common := CommonIndent(lines[1..]);
    var d := DedentAfterFirst(lines);
    forall i | 0 <= i < |lines|
      ensures d[i] == DedentedLine(lines, i)
    {
      if common.Some? && i > 0 {
        assert d[i] == DedentLines(lines[1..], common.value)[i - 1];
      }
    }
  }

  /** The lines the lexer's algorithm keeps have the common indentation of all
      lines after the first, counting from the first kept line when leading
      blank lines were dropped and from the second otherwise. */
  lemma {:induction false} KeptCommonIndent(lines: seq<string>)
    requires |lines| >= 1
    ensures var body := TrimBlankLines(lines);
      var from := if LeadingBlankCount(lines) > 0 then 0 else 1;
      from <= |body| && CommonIndent(body[from..]) == CommonIndent(lines[1..])
  {
    var a := LeadingBlankCount(lines);
    var kept := lines[a..];
    var b := TrailingBlankCount(kept);
    var body := TrimBlankLines(lines);
    assert body == kept[..|kept| - b];
    if a > 0 {
      CommonIndentSkipsBlankPrefix(lines[1..], a - 1);
      assert lines[1..][a - 1..] == kept;
      CommonIndentSkipsBlankSuffix(kept, b);
    } else {
      assert kept[0] == lines[0];
      assert kept == lines;
      CommonIndentSkipsBlankSuffix(lines[1..], b);
      assert lines[1..][..|lines[1..]| - b] == body[1..];
    }
  }

  /** Trimming blank lines cuts the same ranges from line lists that are
      blank at the same places. */
  lemma {:induction false} TrimSameRange(xs: seq<string>, ys: seq<string>)
    requires |xs| == |ys|
    requires forall i :: 0 <= i < |xs| ==> (IsBlank(xs[i]) <==> IsBlank(ys[i]))
    ensures LeadingBlankCount(xs) == LeadingBlankCount(ys)
    ensures |TrimBlankLines(xs)| == |TrimBlankLines(ys)|
  {
    SameBlankCounts(xs, ys);
    var a := LeadingBlankCount(xs);
    SameBlankCounts(xs[a..], ys[a..]);
  }

  /** The lexer's algorithm keeps as many lines as trimming does. */
  lemma {:induction false} DedentKeptLength(lines: seq<string>)
    requires |lines| >= 1
    ensures |DedentKept(lines)| == |TrimBlankLines(lines)|
  {
    KeptCommonIndent(lines);
  }

  /** Dedenting the lines from `from` on changes exactly those lines. */
  lemma {:induction false} DedentSuffixAt(body: seq<string>, from: nat, c: nat, i: nat)
    requires from <= |body| && i < |body|
    ensures (body[..from] + DedentLines(body[from..], c))[i] == if i >= from then Drop(body[i], c) else body[i]
  {
    if i >= from {
      assert DedentLines(body[from..], c)[i - from] == Drop(body[from..][i - from], c);
    }
  }

  /** With a positive common indentation the lexer's algorithm dedents the
      trimmed lines from the first one after the first line on. */
  lemma {:induction false} DedentKeptIndentedForm(lines: seq<string>)
    requires |lines| >= 1
    requires CommonIndent(lines[1..]).Some? && CommonIndent(lines[1..]).value > 0
    ensures var body := TrimBlankLines(lines);
      var from := if LeadingBlankCount(lines) > 0 then 0 else 1;
      from <= |body| &&
      DedentKept(lines) == body[..from] + DedentLines(body[from..], CommonIndent(lines[1..]).value)
  {
    KeptCommonIndent(lines);
  }

  /** With a positive common indentation, kept line `i` of the lexer's
      algorithm is the trimmed line, dedented unless it is the first line
      and no leading blank line was dropped. */
  lemma {:induction false} IndentedKeptAt(lines: seq<string>, i: nat)
    requires |lines| >= 1 && i < |TrimBlankLines(lines)|
    requires CommonIndent(lines[1..]).Some? && CommonIndent(lines[1..]).value > 0
    ensures i < |DedentKept(lines)|
    ensures var from := if LeadingBlankCount(lines) > 0 then 0 else 1;
      var line := TrimBlankLines(lines)[i];
      DedentKept(lines)[i] == if i >= from then Drop(line, CommonIndent(lines[1..]).value) else line
  {
    var a := LeadingBlankCount(lines);
    var body := TrimBlankLines(lines);
    var from := if a > 0 then 0 else 1;
    DedentKeptIndentedForm(lines);
    DedentSuffixAt(body, from, CommonIndent(lines[1..]).value, i);
  }

  /** The same for `DedentedLine` at the line that trimmed line `i` comes
      from. */
  lemma {:induction false} IndentedLineAt(lines: seq<string>, i: nat)
    requires LeadingBlankCount(lines) + i < |lines|
    requires CommonIndent(lines[1..]).Some? && CommonIndent(lines[1..]).value > 0
    ensures var a := LeadingBlankCount(lines);
      var from := if a > 0 then 0 else 1;
      DedentedLine(lines, a + i) ==
        if i >= from then Drop(lines[a + i], CommonIndent(lines[1..]).value) else lines[a + i]
  {
    DedentedLineIndented(lines, LeadingBlankCount(lines) + i);
  }

  /** With a positive common indentation every line but the first loses it. */
  lemma {:induction false} DedentedLineIndented(lines: seq<string>, k: nat)
    requires k < |lines|
    requires CommonIndent(lines[1..]).Some? && CommonIndent(lines[1..]).value > 0
    ensures DedentedLine(lines, k) == if k > 0 then Drop(lines[k], CommonIndent(lines[1..]).value) else lines[k]
  {
  }

  /** Kept line `i` of the lexer's algorithm when it removes a positive
      common indentation. */
  lemma {:induction false} DedentKeptLineIndented(lines: seq<string>, i: nat)
    requires |lines| >= 1 && i < |TrimBlankLines(lines)|
    requires CommonIndent(lines[1..]).Some? && CommonIndent(lines[1..]).value > 0
    ensures i < |DedentKept(lines)|
    ensures DedentKept(lines)[i] == DedentedLine(lines, LeadingBlankCount(lines) + i)
  {
    var a := LeadingBlankCount(lines);
    var from := if a > 0 then 0 else 1;
    var line := TrimBlankLines(lines)[i];
    var c := CommonIndent(lines[1..]).value;
    IndentedKeptAt(lines, i);
    TrimmedLine(lines, i);
    IndentedLineAt(lines, i);
    assert DedentKept(lines)[i] == (if i >= from then Drop(line, c) else line);
  }


  /** Without a positive common indentation the lexer's algorithm only trims. */
  lemma {:induction false} UnindentedKept(lines: seq<string>)
    requires |lines| >= 1
    requires CommonIndent(lines[1..]).None? || CommonIndent(lines[1..]).value == 0
    ensures DedentKept(lines) == TrimBlankLines(lines)
  {
    KeptCommonIndent(lines);
  }


  /** Kept line `i` is then the line trimmed line `i` comes from. */
  lemma {:induction false} UnindentedKeptAt(lines: seq<string>, i: nat)
    requires |lines| >= 1 && i < |TrimBlankLines(lines)|
    requires CommonIndent(lines[1..]).None? || CommonIndent(lines[1..]).value == 0
    ensures LeadingBlankCount(lines) + i < |lines|
    ensures i < |DedentKept(lines)| && DedentKept(lines)[i] == lines[LeadingBlankCount(lines) + i]
  {
    UnindentedKept(lines);
    TrimmedLine(lines, i);
  }

  /** Without a positive common indentation no line changes. */
  lemma {:induction false} DedentedLineUnchanged(lines: seq<string>, k: nat)
    requires k < |lines|
    requires CommonIndent(lines[1..]).None? || CommonIndent(lines[1..]).value == 0
    ensures DedentedLine(lines, k) == lines[k]
  {
    assert Drop(lines[k], 0) == lines[k];
  }

  /** Kept line `i` of the lexer's algorithm is the line `DedentedLine`
      gives. */
  lemma {:induction false} DedentKeptLine(lines: seq<string>, i: nat)
    requires |lines| >= 1 && i < |TrimBlankLines(lines)|
    ensures i < |DedentKept(lines)|
    ensures DedentKept(lines)[i] == DedentedLine(lines, LeadingBlankCount(lines) + i)
  {
    var common := CommonIndent(lines[1..]);
    if common.Some? && common.value > 0 {
      DedentKeptLineIndented(lines, i);
    } else {
      UnindentedKeptAt(lines, i);
      DedentedLineUnchanged(lines, LeadingBlankCount(lines) + i);
    }
  }

  /** The specification's algorithm trims the same number of lines at the
      front and keeps as many lines as trimming the input does. */
  lemma {:induction false} StandardKeptLength(lines: seq<string>)
    requires |lines| >= 1
    ensures LeadingBlankCount(DedentAfterFirst(lines)) == LeadingBlankCount(lines)
    ensures |TrimBlankLines(DedentAfterFirst(lines))| == |TrimBlankLines(lines)|
  {
    var d := DedentAfterFirst(lines);
    DedentAfterFirstLines(lines);
    forall i | 0 <= i < |lines|
      ensures IsBlank(lines[i]) <==> IsBlank(d[i])
    {
      DedentedLineBlankness(lines, i);
    }
    TrimSameRange(lines, d);
  }

  /** Kept line `i` of the specification's algorithm is the line
      `DedentedLine` gives. */
  lemma {:induction false} StandardKeptLine(lines: seq<string>, i: nat)
    requires |lines| >= 1 && i < |TrimBlankLines(lines)|
    ensures i < |TrimBlankLines(DedentAfterFirst(lines))|
    ensures TrimBlankLines(DedentAfterFirst(lines))[i] == DedentedLine(lines, LeadingBlankCount(lines) + i)
  {
    StandardKeptLength(lines);
    TrimmedLine(DedentAfterFirst(lines), i);
    DedentAfterFirstLines(lines);
  }

  /** On lines, the lexer's algorithm and the specification's algorithm
      keep the same lines and dedent the same ones. */
  lemma {:induction false} DedentKeptIsStandard(lines: seq<string>)
    requires |lines| >= 1
    ensures DedentKept(lines) == TrimBlankLines(DedentAfterFirst(lines))
  {
    var x := DedentKept(lines);
    var y := TrimBlankLines(DedentAfterFirst(lines));
    DedentKeptLength(lines);
    StandardKeptLength(lines);
    forall i | 0 <= i < |x|
      ensures x[i] == y[i]
    {
      DedentKeptLine(lines, i);
      StandardKeptLine(lines, i);
    }
  }

  /** The lexer's block-string algorithm computes BlockStringValue of the
      GraphQL specification for every raw text. */
  lemma {:induction false} BlockStringValueIsStandard(raw: string)
    ensures BlockStringValue(raw) == StandardBlockStringValue(raw)
  {
    DedentKeptIsStandard(SplitLines(raw));
  }
}
