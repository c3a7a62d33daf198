/** Character classes of the GraphQL lexical grammar (section 2.1 of the GraphQL
    specification, October 2021) and the lexer's bounds-tolerant character read. */
module Chars {

  /** The character at `i`, or NUL at and past the end of `body`: the lexer peeks
      one or two characters ahead with `body[pos + 1]`, and `std::string` yields
      NUL at index `size()`. NUL never equals the '.' or '"' the lexer compares with. */
  function CharAt(body: string, i: int): (c: char)
    ensures 0 <= i < |body| ==> c == body[i]
    ensures !(0 <= i < |body|) ==> c == '\0'
  {
    if 0 <= i < |body| then body[i] else '\0'
  }

  predicate IsLetter(c: char) {
    ('A' <= c <= 'Z') || ('a' <= c <= 'z')
  }

  predicate IsDigit(c: char) {
    '0' <= c <= '9'
  }

  /** NameStart :: Letter | `_` */
  predicate IsNameStart(c: char) {
    IsLetter(c) || c == '_'
  }

  /** NameContinue :: Letter | Digit | `_` */
  predicate IsNameContinue(c: char) {
    IsNameStart(c) || IsDigit(c)
  }

  /** WhiteSpace :: Horizontal Tab | Space */
  predicate IsWhiteSpace(c: char) {
    c == ' ' || c == '\t'
  }

  predicate IsLineTerminator(c: char) {
    c == '\n' || c == '\r'
  }

  /** A control character below U+0020. */
  predicate IsControl(c: char) {
    c < ' '
  }

  /** A control character that may not appear in source text outside of
      ignored line terminators and tabs. */
  predicate IsInvalidControl(c: char) {
    IsControl(c) && c != '\t' && c != '\n' && c != '\r'
  }

  /** True when every character of `s` satisfies the class `p`. */
  predicate All(s: string, p: char -> bool) {
    forall i :: 0 <= i < |s| ==> p(s[i])
  }
}
