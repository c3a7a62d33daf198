/** Tokens: the kinds the lexer produces and the token record. The C++ token
    also links to its neighbours; here the chain of tokens is a sequence and a
    token's neighbours are the entries before and after it. */
module Tokens {
  import opened Results

  datatype TokenKind =
    | SOF | EOF
    | Bang | Dollar | Amp | ParenL | ParenR | Spread | Colon | Equals | At
    | BracketL | BracketR | BraceL | Pipe | BraceR
    | Name | Int | Float | String | BlockString | Comment

  /** A lexical unit: its kind, the half-open byte span [start, end), the line
      and column of `start`, and the text value of names, numbers, strings and
      comments. */
  datatype Token = Token(kind: TokenKind, start: nat, end: nat, line: int, column: int, value: Option<string>)

  /** The start-of-file token a new lexer begins with: an empty span at 0 with
      line and column 0, as the lexer's constructor builds it. */
  const StartOfFile: Token := Token(SOF, 0, 0, 0, 0, None)

  /** The punctuator kinds; SPREAD is the only one spelled with more than one
      character. */
  const PunctuatorKinds: set<TokenKind> :=
    {Bang, Dollar, Amp, ParenL, ParenR, Spread, Colon, Equals, At, BracketL, BracketR, BraceL, Pipe, BraceR}

  /** The single-character punctuator table. */
  function PunctuatorKind(c: char): (k: Option<TokenKind>)
    ensures k.Some? ==> k.value in PunctuatorKinds && k.value != Spread
    ensures k.Some? ==> !HasValue(k.value)
  {
    match c
    case '!' => Some(Bang)
    case '$' => Some(Dollar)
    case '&' => Some(Amp)
    case '(' => Some(ParenL)
    case ')' => Some(ParenR)
    case ':' => Some(Colon)
    case '=' => Some(Equals)
    case '@' => Some(At)
    case '[' => Some(BracketL)
    case ']' => Some(BracketR)
    case '{' => Some(BraceL)
    case '}' => Some(BraceR)
    case '|' => Some(Pipe)
    case _ => None
  }

  /** The spelling of a single-character punctuator, the table read backwards. */
  function PunctuatorChar(k: TokenKind): (c: char)
    requires k in PunctuatorKinds && k != Spread
    ensures PunctuatorKind(c) == Some(k)
  {
    match k
    case Bang => '!'
    case Dollar => '$'
    case Amp => '&'
    case ParenL => '('
    case ParenR => ')'
    case Colon => ':'
    case Equals => '='
    case At => '@'
    case BracketL => '['
    case BracketR => ']'
    case BraceL => '{'
    case BraceR => '}'
    case Pipe => '|'
  }

  /** The table is a bijection between its thirteen characters and the
      punctuator kinds other than SPREAD. */
  lemma PunctuatorTableInverse(c: char)
    ensures PunctuatorKind(c).Some? ==> PunctuatorChar(PunctuatorKind(c).value) == c
    ensures PunctuatorKind(c).Some? <==> c in "!$&():=@[]{}|"
  {
  }

  /** Kinds whose tokens carry a text value. */
  predicate HasValue(k: TokenKind) {
    k.Name? || k.Int? || k.Float? || k.String? || k.BlockString? || k.Comment?
  }
}
