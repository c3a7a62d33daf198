/** Single-line strings: `"` ... `"` with escape sequences (section 2.9.4 of
    the GraphQL specification, October 2021). */
module Strings {
  import opened Chars
  import opened Results
  import opened Errors

  const Backspace: char := 8 as char
  const FormFeed: char := 12 as char

  /** The character an escape `\c` stands for. `\u` escapes are not decoded. */
  function Unescape(c: char): Option<char> {
    match c
    case '"' => Some('"')
    case '\\' => Some('\\')
    case '/' => Some('/')
    case 'b' => Some(Backspace)
    case 'f' => Some(FormFeed)
    case 'n' => Some('\n')
    case 'r' => Some('\r')
    case 't' => Some('\t')
    case _ => None
  }

  function InvalidCharacter(c: char): string {
    "Invalid character within String: " + [c] + "."
  }

  function InvalidEscape(c: char): string {
    "Invalid character escape sequence: \\" + [c] + "."
  }

  /** Characters that stand for themselves inside a string. */
  predicate IsPlain(c: char) {
    c != '"' && c != '\\' && (!IsControl(c) || c == '\t')
  }

  /** Scans the string contents from `p`, appending decoded characters to
      `value`. On success, the position after the closing quote and the
      decoded value. */
  function ScanString(body: string, p: nat, value: string): (r: Result<(nat, string), SyntaxError>)
    requires p <= |body|
    ensures r.Success? ==> p < r.value.0 <= |body| && body[r.value.0 - 1] == '"'
    ensures r.Success? ==> forall i :: p <= i < r.value.0 ==> !IsLineTerminator(body[i])
    ensures r.Success? ==> |value| <= |r.value.1| && r.value.1[..|value|] == value
    ensures r.Failure? ==> p <= r.error.position <= |body|
    decreases |body| - p
  {
    if p == |body| then Failure(SyntaxError(p, UnterminatedString))
    else
      var c := body[p];
      if c == '\n' || c == '\r' then Failure(SyntaxError(p, UnterminatedString))
      else if c == '"' then Success((p + 1, value))
      else if IsControl(c) && c != '\t' then Failure(SyntaxError(p, InvalidCharacter(c)))
      else if c == '\\' then
        if p + 1 == |body| then Failure(SyntaxError(p + 1, UnterminatedString))
        else match Unescape(body[p + 1])
          case Some(d) =>
            var r := ScanString(body, p + 2, value + [d]);
            assert r.Success? ==> r.value.1[..|value|] == (r.value.1[..|value| + 1])[..|value|];
            r
          case None => Failure(SyntaxError(p + 1, InvalidEscape(body[p + 1])))
      else
        var r := ScanString(body, p + 1, value + [c]);
        assert r.Success? ==> r.value.1[..|value|] == (r.value.1[..|value| + 1])[..|value|];
        r
  }

  /** `read_string`: the string whose opening quote is at `start`. On success,
      the end of the token (just past the closing quote) and the decoded
      value; a string never spans a line terminator. */
  function ReadString(body: string, start: nat): (r: Result<(nat, string), SyntaxError>)
    requires start < |body| && body[start] == '"'
    ensures r.Success? ==> start + 2 <= r.value.0 <= |body| && body[r.value.0 - 1] == '"'
    ensures r.Success? ==> forall i :: start <= i < r.value.0 ==> !IsLineTerminator(body[i])
    ensures r.Failure? ==> start < r.error.position <= |body|
  {
    ScanString(body, start + 1, "")
  }

  // ---- The encoding the scanner inverts ----

  /** How a character is written inside a string literal. */
  function Escape(c: char): string {
    if c == '"' then "\\\""
    else if c == '\\' then "\\\\"
    else if c == '\n' then "\\n"
    else if c == '\r' then "\\r"
    else if c == Backspace then "\\b"
    else if c == FormFeed then "\\f"
    else if c == '\t' then "\\t"
    else [c]
  }

  function EscapeString(v: string): string {
    if |v| == 0 then "" else Escape(v[0]) + EscapeString(v[1..])
  }

  /** The string literal for `v`. */
  function Quote(v: string): string {
    "\"" + EscapeString(v) + "\""
  }

  /** Characters a string literal can express without a `\u` escape. */
  predicate Representable(c: char) {
    !IsControl(c) || c == '\n' || c == '\r' || c == '\t' || c == Backspace || c == FormFeed
  }

  /** The scanner reads one escaped character back. */
  lemma ScanOneEscape(body: string, p: nat, c: char, acc: string)
    requires Representable(c)
    requires p + |Escape(c)| <= |body| && body[p..p + |Escape(c)|] == Escape(c)
    ensures ScanString(body, p, acc) == ScanString(body, p + |Escape(c)|, acc + [c])
  {
    var e := Escape(c);
    assert body[p] == e[0];
    if |e| == 2 {
      assert body[p + 1] == e[1];
      assert Unescape(e[1]) == Some(c);
    } else {
      assert IsPlain(c);
    }
  }

  /** The body holds, from `p` to `end`, the escaped text of `v`, whose
      characters are all representable. */
  predicate EscapedAt(body: string, p: nat, v: string, end: nat)
    decreases |v|
  {
    if |v| == 0 then p == end <= |body|
    else
      var e := Escape(v[0]);
      && Representable(v[0])
      && p + |e| <= |body|
      && body[p..p + |e|] == e
      && EscapedAt(body, p + |e|, v[1..], end)
  }

  /** A body that contains the escaped text of `v` after `pre` holds it
      in the sense of `EscapedAt`. */
  lemma {:induction false} EscapedAtConcat(pre: string, v: string, post: string)
    requires forall i :: 0 <= i < |v| ==> Representable(v[i])
    ensures EscapedAt(pre + EscapeString(v) + post, |pre|, v, |pre| + |EscapeString(v)|)
    decreases |v|
  {
    var body := pre + EscapeString(v) + post;
    if |v| > 0 {
      var e := Escape(v[0]);
      var tail := EscapeString(v[1..]);
      assert EscapeString(v) == e + tail;
      assert body == (pre + e) + tail + post;
      assert body[|pre|..|pre| + |e|] == e;
      EscapedAtConcat(pre + e, v[1..], post);
    }
  }

  /** The escape `\/`, which `Escape` never writes, is read as `/`. */
  lemma ScanSlashEscape(body: string, p: nat, acc: string)
    requires p + 2 <= |body| && body[p..p + 2] == "\\/"
    ensures ScanString(body, p, acc) == ScanString(body, p + 2, acc + ['/'])
  {
    assert body[p] == '\\' && body[p + 1] == '/';
  }

  /** The same, stated for a known result of the rest of the scan. */
  lemma ScanOneEscapeThen(body: string, p: nat, c: char, acc: string, r: Result<(nat, string), SyntaxError>)
    requires Representable(c)
    requires p + |Escape(c)| <= |body| && body[p..p + |Escape(c)|] == Escape(c)
    requires ScanString(body, p + |Escape(c)|, acc + [c]) == r
    ensures ScanString(body, p, acc) == r
  {
    ScanOneEscape(body, p, c, acc);
  }

  lemma {:induction false} ScanEscaped(body: string, p: nat, v: string, end: nat, acc: string)
    requires EscapedAt(body, p, v, end)
    requires end < |body| && body[end] == '"'
    ensures ScanString(body, p, acc) == Success((end + 1, acc + v))
    decreases |v|
  {
    if |v| == 0 {
      assert acc + v == acc;
    } else {
      var c := v[0];
      var q := p + |Escape(c)|;
      var acc' := acc + [c];
      assert acc' + v[1..] == acc + v;
      ScanEscaped(body, q, v[1..], end, acc');
      ScanOneEscapeThen(body, p, c, acc, Success((end + 1, acc + v)));
    }
  }

  /** Reading the literal written for any representable `v` gives back `v`,
      and the token ends right after the literal, whatever follows it. */
  lemma StringRoundTrip(v: string, rest: string)
    requires forall i :: 0 <= i < |v| ==> Representable(v[i])
    ensures ReadString(Quote(v) + rest, 0) == Success((|Quote(v)|, v))
  {
    var n := |EscapeString(v)|;
    var body := Quote(v) + rest;
    assert body == "\"" + EscapeString(v) + ("\"" + rest);
    EscapedAtConcat("\"", v, "\"" + rest);
    assert body[1 + n] == '"';
    ScanEscaped(body, 1, v, 1 + n, "");
    assert "" + v == v;
  }

  /** A string that meets a line terminator, or the end of the body, before
      its closing quote is unterminated exactly there. */
  lemma {:induction false} UnterminatedAt(body: string, p: nat, k: nat, value: string)
    requires p <= k <= |body|
    requires forall i :: p <= i < k ==> IsPlain(body[i])
    requires k == |body| || IsLineTerminator(body[k])
    ensures ScanString(body, p, value) == Failure(SyntaxError(k, UnterminatedString))
    decreases k - p
  {
    if p < k {
      UnterminatedAt(body, p + 1, k, value + [body[p]]);
    }
  }

  /** A run of plain characters is copied into the value as it stands. */
  lemma {:induction false} ScanPlainRun(body: string, p: nat, q: nat, value: string)
    requires p <= q <= |body|
    requires forall i :: p <= i < q ==> IsPlain(body[i])
    ensures ScanString(body, p, value) == ScanString(body, q, value + body[p..q])
    decreases q - p
  {
    if p < q {
      ScanPlainRun(body, p + 1, q, value + [body[p]]);
      assert value + [body[p]] + body[p + 1..q] == value + body[p..q];
    } else {
      assert value + body[p..q] == value;
    }
  }
}
