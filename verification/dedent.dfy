/** The value of a block string: the raw text between the triple quotes with
    surrounding blank lines removed and the common indentation of the lines
    after the first taken away. `BlockStringValue` is the algorithm the lexer
    applies; `StandardBlockStringValue` is the algorithm of section 2.9.4 of
    the GraphQL specification (October 2021) with lines split at `\n` only,
    and the two agree on every raw text. The specification also splits at
    `\r\n` and a lone `\r`; neither algorithm here does. */
module Dedent {
  import opened Chars
  import opened Results

  // ---- Lines ----

  /** The raw text cut at every `\n`; there is always at least one line. */
  function SplitLines(s: string): (lines: seq<string>)
    ensures |lines| >= 1
    ensures forall i, j :: 0 <= i < |lines| && 0 <= j < |lines[i]| ==> lines[i][j] != '\n'
    ensures JoinLines(lines) == s
    decreases |s|
  {
    if |s| == 0 then [""]
    else
      var rest := SplitLines(s[1..]);
      if s[0] == '\n' then
        var lines := [""] + rest;
        assert lines[1..] == rest;
        assert JoinLines(lines) == "" + "\n" + JoinLines(rest);
        assert s == "\n" + s[1..];
        lines
      else
        var first := [s[0]] + rest[0];
        var lines := [first] + rest[1..];
        assert lines[1..] == rest[1..];
        assert forall j :: 1 <= j < |first| ==> first[j] == rest[0][j - 1];
        if |rest| == 1 then
          assert JoinLines(lines) == first;
          assert s == [s[0]] + s[1..];
          lines
        else
          var tail := JoinLines(rest[1..]);
          assert JoinLines(lines) == first + "\n" + tail;
          assert s[1..] == rest[0] + "\n" + tail;
          assert s == [s[0]] + s[1..];
          assert first + "\n" + tail == [s[0]] + (rest[0] + "\n" + tail);
          lines
  }

  /** The lines joined back with `\n` between them. */
  function JoinLines(lines: seq<string>): string
    decreases |lines|
  {
    if |lines| == 0 then ""
    else if |lines| == 1 then lines[0]
    else lines[0] + "\n" + JoinLines(lines[1..])
  }

  predicate IsBlank(line: string) {
    forall i :: 0 <= i < |line| ==> IsWhiteSpace(line[i])
  }

  /** Length of the run of white space that starts the line. */
  function Indent(line: string): (n: nat)
    ensures n <= |line|
    ensures forall i :: 0 <= i < n ==> IsWhiteSpace(line[i])
    ensures n < |line| ==> !IsWhiteSpace(line[n])
    decreases |line|
  {
    if |line| > 0 && IsWhiteSpace(line[0]) then 1 + Indent(line[1..]) else 0
  }

  /** The line without its first `n` characters (empty if it is shorter). */
  function Drop(line: string, n: nat): string {
    if n >= |line| then "" else line[n..]
  }

  function DedentLines(lines: seq<string>, n: nat): (r: seq<string>)
    ensures |r| == |lines|
  {
    seq(|lines|, i requires 0 <= i < |lines| => Drop(lines[i], n))
  }

  /** Number of blank lines at the front. */
  function LeadingBlankCount(lines: seq<string>): (k: nat)
    ensures k <= |lines|
    ensures forall i {:trigger IsBlank(lines[i])} :: 0 <= i < k ==> IsBlank(lines[i])
    ensures k < |lines| ==> !IsBlank(lines[k])
    decreases |lines|
  {
    if |lines| > 0 && IsBlank(lines[0]) then 1 + LeadingBlankCount(lines[1..]) else 0
  }

  /** Number of blank lines at the back. */
  function TrailingBlankCount(lines: seq<string>): (k: nat)
    ensures k <= |lines|
    ensures forall i {:trigger IsBlank(lines[i])} :: |lines| - k <= i < |lines| ==> IsBlank(lines[i])
    ensures k < |lines| ==> !IsBlank(lines[|lines| - 1 - k])
    decreases |lines|
  {
    if |lines| > 0 && IsBlank(lines[|lines| - 1]) then 1 + TrailingBlankCount(lines[..|lines| - 1]) else 0
  }

  function Min(a: nat, b: nat): nat {
    if a <= b then a else b
  }

  /** The least indentation of the non-blank lines; None when all are blank. */
  function CommonIndent(lines: seq<string>): (r: Option<nat>)
    ensures r.None? <==> forall i {:trigger IsBlank(lines[i])} :: 0 <= i < |lines| ==> IsBlank(lines[i])
    ensures r.Some? ==> forall i {:trigger Indent(lines[i])} :: 0 <= i < |lines| && !IsBlank(lines[i]) ==> r.value <= Indent(lines[i])
    decreases |lines|
  {
    if |lines| == 0 then None
    else
      var rest := CommonIndent(lines[1..]);
      assert forall i :: 1 <= i < |lines| ==> lines[i] == lines[1..][i - 1];
      if IsBlank(lines[0]) then rest
      else match rest
        case None => Some(Indent(lines[0]))
        case Some(m) => Some(Min(Indent(lines[0]), m))
  }

  /** The common indentation is the least one: some line that is not blank
      has exactly that indentation. */
  lemma {:induction false} CommonIndentAttained(lines: seq<string>)
    requires CommonIndent(lines).Some?
    ensures exists i {:trigger Indent(lines[i])} ::
      0 <= i < |lines| && !IsBlank(lines[i]) && CommonIndent(lines).value == Indent(lines[i])
    decreases |lines|
  {
    var rest := CommonIndent(lines[1..]);
    if rest.Some? {
      CommonIndentAttained(lines[1..]);
      var i :| 0 <= i < |lines[1..]| && !IsBlank(lines[1..][i]) && rest.value == Indent(lines[1..][i]);
      assert lines[i + 1] == lines[1..][i];
    }
  }

  // ---- The two algorithms ----

  /** The lines without the blank lines at the front and then at the back. */
  function TrimBlankLines(lines: seq<string>): (r: seq<string>)
    ensures |r| == |lines| - LeadingBlankCount(lines) - TrailingBlankCount(lines[LeadingBlankCount(lines)..])
  {
    var kept := lines[LeadingBlankCount(lines)..];
    kept[..|kept| - TrailingBlankCount(kept)]
  }

  /** Trimmed line `i` is line `i` after the leading blank lines. */
  lemma {:induction false} TrimmedLine(lines: seq<string>, i: nat)
    requires i < |TrimBlankLines(lines)|
    ensures TrimBlankLines(lines)[i] == lines[LeadingBlankCount(lines) + i]
  {
  }

  /** The lexer's algorithm on lines: drop leading and then trailing blank
      lines, then remove the common indentation of the remaining lines,
      leaving out the first remaining line unless leading blank lines were
      dropped. */
  function DedentKept(lines: seq<string>): seq<string>
    requires |lines| >= 1
  {
    var body := TrimBlankLines(lines);
    var from := if LeadingBlankCount(lines) > 0 then 0 else 1;
    assert from <= |body| by {
      if from == 1 {
        assert lines[LeadingBlankCount(lines)..][0] == lines[0];
      }
    }
    var indent := CommonIndent(body[from..]);
    if indent.Some? && indent.value > 0 then
      body[..from] + DedentLines(body[from..], indent.value)
    else
      body
  }

  /** The value of the block string whose raw text is `raw`. */
  function BlockStringValue(raw: string): string {
    JoinLines(DedentKept(SplitLines(raw)))
  }

  /** Every line but the first without the common indentation of those lines. */
  function DedentAfterFirst(lines: seq<string>): (r: seq<string>)
    requires |lines| >= 1
    ensures |r| == |lines|
  {
    var common := CommonIndent(lines[1..]);
    if common.Some? then [lines[0]] + DedentLines(lines[1..], common.value) else lines
  }

  /** BlockStringValue(rawValue) as the GraphQL specification states it, with
      lines split at `\n` only: remove the common indentation of every line
      but the first, then remove leading and trailing lines that contain only
      white space. */
  function StandardBlockStringValue(raw: string): string {
    JoinLines(TrimBlankLines(DedentAfterFirst(SplitLines(raw))))
  }

  // ---- Splitting undoes joining ----

  /** Text without `\n` joins the first line of what follows it. */
  lemma {:induction false} SplitLinesPrefix(a: string, s: string)
    requires forall j :: 0 <= j < |a| ==> a[j] != '\n'
    ensures SplitLines(a + s) == [a + SplitLines(s)[0]] + SplitLines(s)[1..]
    decreases |a|
  {
    if |a| > 0 {
      var t := a + s;
      assert t[0] == a[0] && t[1..] == a[1..] + s;
      SplitLinesPrefix(a[1..], s);
      var rest := SplitLines(t[1..]);
      assert rest[0] == a[1..] + SplitLines(s)[0];
      assert rest[1..] == SplitLines(s)[1..];
      assert SplitLines(t) == [[t[0]] + rest[0]] + rest[1..];
      assert [a[0]] + (a[1..] + SplitLines(s)[0]) == a + SplitLines(s)[0];
    } else {
      var lines := SplitLines(s);
      assert a + s == s && a + lines[0] == lines[0];
      assert [lines[0]] + lines[1..] == lines;
    }
  }

  /** Lines free of `\n` are what splitting their join gives back, so
      `SplitLines` and `JoinLines` are inverse to each other. */
  lemma {:induction false} SplitJoinLines(lines: seq<string>)
    requires |lines| >= 1
    requires forall i, j :: 0 <= i < |lines| && 0 <= j < |lines[i]| ==> lines[i][j] != '\n'
    ensures SplitLines(JoinLines(lines)) == lines
    decreases |lines|
  {
    if |lines| == 1 {
      SplitLinesPrefix(lines[0], "");
      assert lines[0] + "" == lines[0];
    } else {
      var rest := JoinLines(lines[1..]);
      SplitJoinLines(lines[1..]);
      assert "\n" + rest == ['\n'] + rest;
      assert SplitLines("\n" + rest) == [""] + lines[1..] by {
        assert ("\n" + rest)[1..] == rest;
      }
      assert JoinLines(lines) == lines[0] + ("\n" + rest);
      SplitLinesPrefix(lines[0], "\n" + rest);
      assert lines[0] + "" == lines[0];
      assert [lines[0]] + lines[1..] == lines;
    }
  }
}
