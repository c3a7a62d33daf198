/** Comments: `#` up to the next line terminator (or other control character
    except tab) or the end of the body. They become COMMENT tokens, which the
    lexer's pull interface never hands out. */
module Comments {
  import opened Chars

  /** Characters a comment may hold: anything but control characters other
      than tab. */
  predicate IsCommentChar(c: char) {
    !IsControl(c) || c == '\t'
  }

  /** The end of the comment text that starts at `p`. */
  function ScanComment(body: string, p: nat): (e: nat)
    requires p <= |body|
    ensures p <= e <= |body|
    ensures forall i :: p <= i < e ==> IsCommentChar(body[i])
    ensures e < |body| ==> !IsCommentChar(body[e])
    decreases |body| - p
  {
    if p < |body| && IsCommentChar(body[p]) then ScanComment(body, p + 1) else p
  }

  /** `read_comment`: the comment that starts with the `#` at `start` ends
      right before the first line terminator or other control character; its
      text is everything after the `#`. */
  function ReadComment(body: string, start: nat): (r: (nat, string))
    requires start < |body| && body[start] == '#'
    ensures start < r.0 <= |body|
    ensures r.1 == body[start + 1..r.0]
    ensures forall i :: 0 <= i < |r.1| ==> IsCommentChar(r.1[i])
    ensures r.0 == |body| || !IsCommentChar(body[r.0])
  {
    var e := ScanComment(body, start + 1);
    (e, body[start + 1..e])
  }

  /** A comment never contains a line terminator, so it stays on one line. */
  lemma CommentOnOneLine(body: string, start: nat)
    requires start < |body| && body[start] == '#'
    ensures var e := ReadComment(body, start).0;
      forall i :: start <= i < e ==> !IsLineTerminator(body[i])
  {
  }

  /** The scan stops exactly at the end of any maximal run of comment
      characters. */
  lemma {:induction false} ScanCommentMaximal(body: string, p: nat, e: nat)
    requires p <= e <= |body|
    requires forall i :: p <= i < e ==> IsCommentChar(body[i])
    requires e == |body| || !IsCommentChar(body[e])
    ensures ScanComment(body, p) == e
    decreases e - p
  {
    if p < e {
      ScanCommentMaximal(body, p + 1, e);
    }
  }
}
