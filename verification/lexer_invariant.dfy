/** What the lexer's state means: every token of the chain is the token
    `read_token` produces after its predecessor, read from the counters that
    hold where the predecessor ends, and the lexer's counters are those at
    the end of the chain. `Lookahead` and `Advance` keep this invariant, and
    from it the tokens' spans, lines and columns follow. */
module LexerInvariant {
  import opened Results
  import opened Lines
  import opened Errors
  import opened Tokens
  import opened Sources
  import opened Ignored
  import opened Lexing
  import opened Lexers

  /** `t` is the token read after `prev`. */
  ghost predicate Follows(body: string, prev: Token, t: Token) {
    && prev.kind != EOF
    && prev.end <= |body|
    && NoSplit(body, prev.end)
    && ReadToken(body, prev.end, StateAt(body, prev.end)).Success?
    && ReadToken(body, prev.end, StateAt(body, prev.end)).value.0 == t
  }

  ghost predicate Valid(lx: Lexer) {
    var body := lx.source.body;
    && Wellformed(lx)
    && lx.chain[0] == StartOfFile
    && (forall k :: 0 < k < |lx.chain| ==> Follows(body, lx.chain[k - 1], lx.chain[k]))
    && NoSplit(body, Last(lx.chain).end)
    && lx.counters == StateAt(body, Last(lx.chain).end)
    && lx.chain[lx.token].kind != Comment
  }

  /** A new lexer satisfies the invariant. */
  lemma NewLexerValid(source: Source)
    ensures Valid(NewLexer(source))
  {
    assert StateAt(source.body, 0) == Initial by {
      assert source.body[..0] == [];
    }
  }

  /** Reading one more token after the last keeps the invariant. */
  lemma {:induction false} AppendValid(lx: Lexer, t: Token, st: LineState)
    requires Valid(lx)
    requires Last(lx.chain).kind != EOF
    requires ReadToken(lx.source.body, Last(lx.chain).end, lx.counters) == Success((t, st))
    ensures Valid(lx.(chain := lx.chain + [t], counters := st))
  {
    var body := lx.source.body;
    var l := lx.(chain := lx.chain + [t], counters := st);
    ReadTokenTracks(body, Last(lx.chain).end, lx.counters, t, st);
    forall k | 0 < k < |l.chain|
      ensures Follows(body, l.chain[k - 1], l.chain[k])
    {
      if k < |lx.chain| {
        assert l.chain[k - 1] == lx.chain[k - 1] && l.chain[k] == lx.chain[k];
      } else {
        assert l.chain[k - 1] == Last(lx.chain) && l.chain[k] == t;
      }
    }
    assert l.chain[l.token] == lx.chain[lx.token];
  }

  /** The walk of `lookahead` keeps the invariant. */
  lemma {:induction false} WalkValid(lx: Lexer, i: nat, l: Lexer, j: nat)
    requires Valid(lx) && i < |lx.chain| && lx.chain[i].kind != EOF
    requires Walk(lx, i) == Success((l, j))
    ensures Valid(l)
    decreases |lx.source.body| - Last(lx.chain).end, |lx.chain| - i, 1
  {
    if i + 1 < |lx.chain| {
      WalkValidOnChain(lx, i, l, j);
    } else {
      WalkValidReading(lx, i, l, j);
    }
  }

  lemma {:induction false} WalkValidOnChain(lx: Lexer, i: nat, l: Lexer, j: nat)
    requires Valid(lx) && i + 1 < |lx.chain| && lx.chain[i].kind != EOF
    requires Walk(lx, i) == Success((l, j))
    ensures Valid(l)
    decreases |lx.source.body| - Last(lx.chain).end, |lx.chain| - i, 0
  {
    WalkOnChain(lx, i);
    if lx.chain[i + 1].kind == Comment {
      WalkValid(lx, i + 1, l, j);
    }
  }

  lemma {:induction false} WalkValidReading(lx: Lexer, i: nat, l: Lexer, j: nat)
    requires Valid(lx) && i + 1 == |lx.chain| && lx.chain[i].kind != EOF
    requires Walk(lx, i) == Success((l, j))
    ensures Valid(l)
    decreases |lx.source.body| - Last(lx.chain).end, |lx.chain| - i, 0
  {
    var t, st := WalkReads(lx, i);
    var lx' := lx.(chain := lx.chain + [t], counters := st);
    AppendValid(lx, t, st);
    if t.kind == Comment {
      WalkValid(lx', i + 1, l, j);
    }
  }

  /** Inside the chain the walk moves to the next token. */
  lemma WalkOnChain(lx: Lexer, i: nat)
    requires Wellformed(lx) && i + 1 < |lx.chain| && lx.chain[i].kind != EOF
    ensures lx.chain[i + 1].kind == Comment ==> Walk(lx, i) == Walk(lx, i + 1)
    ensures lx.chain[i + 1].kind != Comment ==> Walk(lx, i) == Success((lx, i + 1))
  {
  }

  /** At the end of the chain a successful walk reads one more token. */
  lemma WalkReads(lx: Lexer, i: nat) returns (t: Token, st: LineState)
    requires Wellformed(lx) && i + 1 == |lx.chain| && lx.chain[i].kind != EOF
    requires Walk(lx, i).Success?
    ensures Last(lx.chain) == lx.chain[i] && Last(lx.chain).kind != EOF
    ensures ReadToken(lx.source.body, lx.chain[i].end, lx.counters) == Success((t, st))
    ensures var lx' := lx.(chain := lx.chain + [t], counters := st);
      && Wellformed(lx')
      && (t.kind == Comment ==> Walk(lx, i) == Walk(lx', i + 1))
      && (t.kind != Comment ==> Walk(lx, i) == Success((lx', i + 1)))
  {
    var rt := ReadToken(lx.source.body, lx.chain[i].end, lx.counters);
    t, st := rt.value.0, rt.value.1;
  }

  /** `lookahead` keeps the invariant. */
  lemma LookaheadValid(lx: Lexer)
    requires Valid(lx)
    ensures Lookahead(lx).Success? ==> Valid(Lookahead(lx).value.0)
  {
    var r := Lookahead(lx);
    if r.Success? && lx.chain[lx.token].kind != EOF {
      WalkValid(lx, lx.token, r.value.0, r.value.1);
    }
  }

  /** `advance` keeps the invariant. */
  lemma AdvanceValid(lx: Lexer)
    requires Valid(lx)
    ensures Advance(lx).Success? ==> Valid(Advance(lx).value)
  {
    LookaheadValid(lx);
    var r := Lookahead(lx);
    if r.Success? {
      var (l, j) := r.value;
      assert j == lx.token || l.chain[j].kind != Comment;
    }
  }

  // ---- What the invariant says about the tokens ----

  /** Every token after the first lies after its predecessor, with only
      ignored input in between; it carries the line of its first character
      and that character's 1-based column; EOF sits exactly at the end of the
      body and nothing follows it. */
  lemma ValidToken(lx: Lexer, k: nat)
    requires Valid(lx) && 0 < k < |lx.chain|
    ensures var body := lx.source.body;
      var t := lx.chain[k];
      && lx.chain[k - 1].kind != EOF
      && lx.chain[k - 1].end <= t.start <= t.end <= |body|
      && IgnoredBetween(body, lx.chain[k - 1].end, t.start)
      && t.kind != SOF
      && (t.kind == EOF <==> t.start == |body|)
      && (t.kind != EOF ==> t.start < t.end)
      && t.line == StateAt(body, t.start).line
      && t.column == 1 + t.start - StateAt(body, t.start).lineStart
      && t.line >= 1 && t.column >= 1
  {
    var body := lx.source.body;
    var prev := lx.chain[k - 1];
    assert Follows(body, prev, lx.chain[k]);
    var r := ReadToken(body, prev.end, StateAt(body, prev.end));
    ReadTokenTracks(body, prev.end, StateAt(body, prev.end), r.value.0, r.value.1);
    StateAtBounds(body, lx.chain[k].start);
  }

  /** Two valid lexers over the same source agree on every token both have
      read: the chain is determined by the source text. */
  lemma {:induction false} ChainDetermined(lx1: Lexer, lx2: Lexer, k: nat)
    requires Valid(lx1) && Valid(lx2) && lx1.source.body == lx2.source.body
    requires k < |lx1.chain| && k < |lx2.chain|
    ensures lx1.chain[k] == lx2.chain[k]
  {
    if k > 0 {
      ChainDetermined(lx1, lx2, k - 1);
      assert Follows(lx1.source.body, lx1.chain[k - 1], lx1.chain[k]);
      assert Follows(lx2.source.body, lx2.chain[k - 1], lx2.chain[k]);
    }
  }

  /** Walking a chain whose tokens up to a non-comment are already read
      reads nothing and stops at that token. */
  lemma {:induction false} WalkCached(lx: Lexer, i: nat, j: nat)
    requires Wellformed(lx) && i < j < |lx.chain| && lx.chain[i].kind != EOF
    requires forall k :: i < k < j ==> lx.chain[k].kind == Comment
    requires lx.chain[j].kind != Comment
    ensures Walk(lx, i) == Success((lx, j))
    decreases j - i
  {
    if i + 1 < j {
      WalkCached(lx, i + 1, j);
    }
  }

  /** `lookahead` is idempotent: asked again, it finds the same token and
      reads nothing more. */
  lemma LookaheadIdempotent(lx: Lexer)
    requires Wellformed(lx)
    ensures var r := Lookahead(lx);
      r.Success? ==> Lookahead(r.value.0) == r
  {
    var r := Lookahead(lx);
    if r.Success? {
      var (l, j) := r.value;
      assert l.chain[l.token] == lx.chain[lx.token];
      if lx.chain[lx.token].kind != EOF {
        WalkCached(l, l.token, j);
      }
    }
  }

  /** Once the current token is EOF, `advance` stays there: the current
      token does not change and nothing more is read. */
  lemma AdvanceAtEnd(lx: Lexer)
    requires Wellformed(lx) && lx.chain[lx.token].kind == EOF
    ensures Advance(lx) == Success(lx.(lastToken := lx.token))
  {
  }
}
