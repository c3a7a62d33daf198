/** The lexer object and its pull interface. A lexer holds its source, the
    chain of tokens read so far (the C++ links each token to the next; here
    token `i + 1` follows token `i`), the current and the previous token as
    indices into the chain, and the running line counters. `Lookahead` reads
    tokens lazily, only past the end of the chain, and skips comments;
    `Advance` moves the current token there. */
module Lexers {
  import opened Results
  import opened Lines
  import opened Errors
  import opened Tokens
  import opened Sources
  import opened Ignored
  import opened Lexing

  datatype Lexer = Lexer(source: Source, chain: seq<Token>, token: nat, lastToken: nat, counters: LineState)

  function Last(chain: seq<Token>): Token
    requires |chain| > 0
  {
    chain[|chain| - 1]
  }

  /** What the operations need of a lexer's fields: the two indices lie in
      the chain, the previous token not after the current one, and the last
      token read ends inside the body. */
  predicate Wellformed(lx: Lexer) {
    |lx.chain| > 0 && lx.lastToken <= lx.token < |lx.chain| && Last(lx.chain).end <= |lx.source.body|
  }

  /** `l` is `lx` with more tokens read: same source and positions, and the
      chain of `lx` is a prefix of that of `l`. */
  predicate Grown(lx: Lexer, l: Lexer) {
    l.source == lx.source && l.token == lx.token && l.lastToken == lx.lastToken && lx.chain <= l.chain
  }

  /** The constructor: the chain holds the start-of-file token, which is both
      the current and the previous token, and the counters are at line 1,
      offset 0. */
  function NewLexer(source: Source): (lx: Lexer)
    ensures Wellformed(lx)
    ensures lx.source == source && lx.chain == [StartOfFile]
    ensures lx.token == 0 && lx.lastToken == 0 && lx.counters == Initial
  {
    Lexer(source, [StartOfFile], 0, 0, Initial)
  }

  /** The loop of `lookahead` from token `i`: follow the chain, reading a
      token whenever its end is reached, until a token that is not a comment.
      Its index is returned with the grown lexer. */
  function Walk(lx: Lexer, i: nat): (r: Result<(Lexer, nat), SyntaxError>)
    requires Wellformed(lx) && i < |lx.chain| && lx.chain[i].kind != EOF
    ensures r.Success? ==> Wellformed(r.value.0) && Grown(lx, r.value.0)
    ensures r.Success? ==> i < r.value.1 < |r.value.0.chain|
    ensures r.Success? ==> r.value.0.chain[r.value.1].kind != Comment
    ensures r.Success? ==> forall k :: i < k < r.value.1 ==> r.value.0.chain[k].kind == Comment
    ensures r.Success? ==> |r.value.0.chain| == if r.value.1 < |lx.chain| then |lx.chain| else r.value.1 + 1
    ensures r.Success? && |r.value.0.chain| == |lx.chain| ==> r.value.0 == lx
    decreases |lx.source.body| - Last(lx.chain).end, |lx.chain| - i
  {
    if i + 1 < |lx.chain| then
      if lx.chain[i + 1].kind == Comment then
        var r := Walk(lx, i + 1);
        assert r.Success? ==> r.value.0.chain[i + 1] == lx.chain[i + 1];
        r
      else Success((lx, i + 1))
    else
      var (t, st) :- ReadToken(lx.source.body, lx.chain[i].end, lx.counters);
      ReadExtends(lx, i, t, st);
      var lx' := lx.(chain := lx.chain + [t], counters := st);
      if t.kind == Comment then
        var r := Walk(lx', i + 1);
        assert r.Success? ==> r.value.0.chain[i + 1] == t;
        r
      else Success((lx', i + 1))
  }

  /** Appending the token read after the last one of the chain keeps the
      lexer well formed, and a token other than EOF ends past the previous
      last one. */
  lemma ReadExtends(lx: Lexer, i: nat, t: Token, st: LineState)
    requires Wellformed(lx) && i + 1 == |lx.chain|
    requires ReadToken(lx.source.body, lx.chain[i].end, lx.counters) == Success((t, st))
    ensures var lx' := lx.(chain := lx.chain + [t], counters := st);
      Wellformed(lx') && Grown(lx, lx') && |lx'.chain| == i + 2 && lx'.chain[i + 1] == t
      && (t.kind != EOF ==> Last(lx.chain).end < Last(lx'.chain).end)
  {
  }

  /** `lookahead`: the next token that is not a comment, or the current token
      itself once it is EOF. */
  function Lookahead(lx: Lexer): (r: Result<(Lexer, nat), SyntaxError>)
    requires Wellformed(lx)
    ensures r.Success? ==> Wellformed(r.value.0) && Grown(lx, r.value.0)
    ensures r.Success? ==> lx.token <= r.value.1 < |r.value.0.chain|
    ensures r.Success? && r.value.1 > lx.token ==> r.value.0.chain[r.value.1].kind != Comment
    ensures r.Success? ==> forall k :: lx.token < k < r.value.1 ==> r.value.0.chain[k].kind == Comment
    ensures r.Success? && r.value.1 == lx.token ==> r.value.0 == lx && lx.chain[lx.token].kind == EOF
  {
    if lx.chain[lx.token].kind == EOF then Success((lx, lx.token)) else Walk(lx, lx.token)
  }

  /** `advance`: the previous token becomes the current one, and the current
      one the token `lookahead` finds. */
  function Advance(lx: Lexer): (r: Result<Lexer, SyntaxError>)
    requires Wellformed(lx)
    ensures r.Success? ==> Wellformed(r.value)
    ensures r.Success? ==> r.value.source == lx.source && lx.chain <= r.value.chain
    ensures r.Success? ==> r.value.lastToken == lx.token && lx.token <= r.value.token
    ensures r.Success? && r.value.token > lx.token ==> r.value.chain[r.value.token].kind != Comment
    ensures r.Success? ==> forall k :: lx.token < k < r.value.token ==> r.value.chain[k].kind == Comment
    ensures r.Success? && lx.chain[lx.token].kind != EOF ==> lx.token < r.value.token
    ensures r.Success? ==> Lookahead(lx).Success? && r.value.token == Lookahead(lx).value.1
    ensures r.Success? ==> r.value.chain == Lookahead(lx).value.0.chain && r.value.counters == Lookahead(lx).value.0.counters
    ensures r.Failure? ==> Lookahead(lx).Failure? && r.error == Lookahead(lx).error
  {
    var (l, j) :- Lookahead(lx);
    Success(l.(lastToken := lx.token, token := j))
  }
}
