/** Syntax errors. A lexical error is reported at one byte position with a
    human-readable description; its message is the description behind the
    fixed prefix "Syntax Error: ". */
module Errors {
  import opened Chars

  datatype SyntaxError = SyntaxError(position: nat, description: string)

  const MessagePrefix: string := "Syntax Error: "

  const UnterminatedString: string := "Unterminated string."

  const SingleQuoteHint: string := "Unexpected single quote character ('), did you mean to use a double quote (\")?"

  /** The message the error presents to the caller. */
  function Message(e: SyntaxError): (m: string)
    ensures |m| == |MessagePrefix| + |e.description|
    ensures m[..|MessagePrefix|] == MessagePrefix && m[|MessagePrefix|..] == e.description
  {
    MessagePrefix + e.description
  }

  /** Description of a character that starts no token: control characters
      other than tab, line feed and carriage return are invalid, the single
      quote gets a hint, anything else is unexpected. The character itself is
      written into the text. */
  function UnexpectedCharacterMessage(c: char): (m: string)
    ensures IsInvalidControl(c) ==> m == "Cannot contain the invalid character " + [c] + "."
    ensures c == '\'' ==> m == SingleQuoteHint
    ensures !IsInvalidControl(c) && c != '\'' ==> m == "Cannot parse the unexpected character " + [c] + "."
  {
    if IsInvalidControl(c) then "Cannot contain the invalid character " + [c] + "."
    else if c == '\'' then SingleQuoteHint
    else "Cannot parse the unexpected character " + [c] + "."
  }

  /** The three descriptions are told apart by their text, and the two that
      quote the character end with it followed by a full stop. */
  lemma UnexpectedCharacterMessageNamesCharacter(c: char)
    ensures var m := UnexpectedCharacterMessage(c);
      (m == SingleQuoteHint <==> c == '\'')
      && (c != '\'' ==> |m| >= 2 && m[|m| - 2] == c && m[|m| - 1] == '.')
  {
  }
}
