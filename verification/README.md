# GraphQL lexer of graphql-cpp, modelled in Dafny

This project models the lexer of graphql-cpp (`graphql-cpp.hpp` and
`language/source.cpp`). The lexer is a single-pass scanner over the text of a
GraphQL document. It turns the text into typed tokens, each with a byte span
and a line and column, and fails with a syntax error at a byte position.

The model has these parts:

- **Sources** (`source.dfy`). The `Source` constructor checks that the
  location offset is 1-based. `Source(body)` takes the default name and
  offset.
- **Tokens** (`tokens.dfy`). Token kinds, the token record, the start-of-file
  token, and the table of single-character punctuators.
- **Errors** (`errors.dfy`). A syntax error is a position and a description.
  Its message adds the prefix `Syntax Error: `. `unexpected_character_message`
  chooses the description of a character that starts no token.
- **Sub-scanners.** Ignored input and line counting are in `ignored.dfy` and
  `lines.dfy`. Then come names, comments, numbers, strings and block strings,
  and the block-string dedent algorithm in `dedent.dfy`. Each is a pure
  function over the body that returns a `Result`.
- **Dispatch** (`lexer.dfy`). `read_token` skips ignored input, emits EOF at
  the end of the body, and dispatches on the first character.
- **Pull interface** (`lexer_state.dfy`). Covers the lexer constructor,
  `advance` and `lookahead`. The C++ chain of heap tokens linked by `next`
  pointers becomes a sequence of tokens addressed by index. `lookahead` reads
  a token only at the end of that sequence.
- **Invariant** (`lexer_invariant.dfy`). This is what the lexer state means:
  - every token is the one `read_token` produces after its predecessor;
  - the line counters are those at the end of the last token.

  `advance` and `lookahead` keep the invariant. Every token's line and
  column follow from it.
- **Test vectors** (`vectors.dfy`). The live assertions of the lexer's test
  file, proved about the model. Each input is a predicate on the body, one
  character at a time.

The sub-scanners are declared in `graphql-cpp.hpp` (lines 143-149). Their
bodies are not part of this model's source. The model therefore follows two
things:

- the lexical grammar of the GraphQL specification (October 2021 edition),
  sections 2.1 and 2.9.1-2.9.4;
- the reference lexer whose signatures the C++ mirrors: a comment stops at
  any control character other than tab, and a number may not be followed by
  `.`, a name start or a digit.

The live test vectors are consistent with these two choices but do not
exercise them: every number vector is a whole body, and the only comment
vector ends at `\n`. The commented-out `TODO: Fix`
cases of the test file are not promised and not modelled.

The line counters are a `LineState(line, lineStart)`. `StateAt(body, n)` is
defined once, declaratively: the counters after reading `body[..n]` from
line 1, offset 0. In it, `\n`, a lone `\r` and `\r\n` each count as one line
break.

Block strings are specified twice:

- `BlockStringValue` drops leading and trailing blank lines first, then
  removes the common indentation.
- `StandardBlockStringValue` is the algorithm of section 2.9.4 of the
  specification, which removes the indentation first, with lines split at
  `\n` only (see "Left out").

`DedentAgreement.BlockStringValueIsStandard` proves that the two agree on
every raw text.

The lexer constructor gives the start-of-file token line 0 and column 0, as
the C++ constructor writes it, while the lexer's own counters start at
line 1, offset 0.

## Model

| member | source | states |
|---|---|---|
| Sources.NewSource | graphql-cpp.hpp:48-58 | construction succeeds exactly when the line and column offsets are both positive; a bad line offset is reported first with its own message, then a bad column offset; a built source keeps body, name and offset unchanged |
| Sources.NewDefaultSource | language/source.cpp:5-14 | with the default name "GraphQL request" and offset (1, 1) construction always succeeds and keeps the body |
| Errors.Message | test_lexer.cpp:21-30 | the message of a syntax error is "Syntax Error: " followed by exactly its description |
| Errors.UnexpectedCharacterMessage | graphql-cpp.hpp:127-133 | a control character other than tab, line feed and carriage return is "Cannot contain the invalid character" followed by it and a full stop; the single quote gets the hint to use a double quote; any other character is "Cannot parse the unexpected character" followed by it and a full stop |
| Errors.UnexpectedCharacterMessageNamesCharacter | graphql-cpp.hpp:127-133 | the single-quote hint is given for the single quote and for no other character; every other description ends with the character itself and a full stop |
| Tokens.PunctuatorKind | graphql-cpp.hpp:94-125 | a character in the table maps to a punctuator kind other than SPREAD, and punctuator tokens carry no value |
| Tokens.PunctuatorChar | graphql-cpp.hpp:111-125 | reading the table backwards gives, for every punctuator kind but SPREAD, a character that maps to that kind |
| Tokens.PunctuatorTableInverse | graphql-cpp.hpp:111-125 | exactly the thirteen characters `! $ & ( ) : = @ [ ] { } |` are in the table, and the table is one-to-one |
| Lexers.NewLexer | graphql-cpp.hpp:151-156 | a new lexer keeps its source, its chain holds only the start-of-file token, which is both the current and the previous token, and its counters are those of having read nothing: line 1, line start 0 |
| LexerInvariant.NewLexerValid | graphql-cpp.hpp:151-156 | a new lexer satisfies the invariant |
| Lexers.Walk | graphql-cpp.hpp:167-173 | the loop stops at the first token after `i` that is not a comment, every token it passes is a comment, it only appends to the chain, and it reads a token only at the end of the chain |
| Lexers.Lookahead | graphql-cpp.hpp:164-176 | lookahead moves neither the current nor the previous token, only grows the chain, returns a token that is not a comment with only comments before it, and returns the current token only when that is EOF |
| Lexers.Advance | graphql-cpp.hpp:158-162 | advance makes the old current token the previous token and the current token the one lookahead returns, with lookahead's chain and counters, and fails exactly with lookahead's error; unless the current token is EOF it moves strictly forward, to a token that is not a comment, past comments only |
| LexerInvariant.WalkCached | graphql-cpp.hpp:167-173 | when the tokens up to a non-comment are already in the chain, the walk reads nothing and stops at that token |
| LexerInvariant.LookaheadIdempotent | graphql-cpp.hpp:164-176 | asked again, lookahead returns the same token and lexer: a token already read is not read again |
| LexerInvariant.AdvanceAtEnd | graphql-cpp.hpp:158-166 | once the current token is EOF, advance keeps it and reads nothing |
| LexerInvariant.AppendValid | graphql-cpp.hpp:168-169 | reading one more token after the last one keeps the invariant |
| LexerInvariant.WalkValid | graphql-cpp.hpp:167-173 | the loop of lookahead keeps the invariant |
| LexerInvariant.WalkValidOnChain | graphql-cpp.hpp:168-172 | the loop keeps the invariant while it follows tokens already read |
| LexerInvariant.WalkValidReading | graphql-cpp.hpp:168-172 | the loop keeps the invariant when it reads a new token |
| LexerInvariant.LookaheadValid | graphql-cpp.hpp:164-176 | lookahead keeps the invariant |
| LexerInvariant.AdvanceValid | graphql-cpp.hpp:158-162 | advance keeps the invariant |
| LexerInvariant.ValidToken | graphql-cpp.hpp:183-188 | in a lexer that satisfies the invariant, every token after SOF starts after its predecessor with only ignored input between them; it is EOF exactly when it starts at the end of the body; it is not empty otherwise; and its line and 1-based column are those of its first character |
| LexerInvariant.ChainDetermined | graphql-cpp.hpp:178-217 | two lexers over the same text agree on every token both have read: the tokens depend on the text only |
| Lexing.ReadToken | graphql-cpp.hpp:178-217 | a token starts after the previous end with only ignored input before it and not on an ignored character; it is EOF exactly at the end of the body; any other token is non-empty; SOF is never read; a token has a value exactly when its kind has one; an error lies at or after the previous end |
| Lexing.TokenAt | graphql-cpp.hpp:184-188 | the token starts at the position after ignored input, carries the counters' line and the column 1 + pos - line_start, and is EOF [len, len) exactly at the end of the body; only a block string moves the counters |
| Lexing.LexemeAt | graphql-cpp.hpp:190-216 | the token at a character is never SOF or EOF and has a value exactly when its kind has one; only a block string moves the counters; an error lies at or after the character |
| Lexing.PunctuatorLexeme | graphql-cpp.hpp:190-199 | a character of the punctuator table is a token of the table's kind spanning [pos, pos + 1), with no value and the counters unchanged |
| Lexing.NoPunctuatorOutsideTable | graphql-cpp.hpp:190-216 | a character outside the table never yields a single-character punctuator kind: the other branches give comments, SPREAD, names, numbers and strings |
| Lexing.SpreadLexeme | graphql-cpp.hpp:202-205 | the spread is read exactly where three dots stand, spanning [pos, pos + 3) with no value |
| Lexing.LoneDotLexeme | graphql-cpp.hpp:202-216 | a dot not followed by two more dots falls through to the unexpected-character error at its position |
| Lexing.UnexpectedLexeme | graphql-cpp.hpp:202-216 | a character that is no punctuator of the table and starts no comment, spread, name, number or string gives the unexpected-character error with UnexpectedCharacterMessage at its own position |
| Lexing.PunctuatorToken | graphql-cpp.hpp:178-199 | read_token at a table character after ignored input returns the one-character token with the line and 1-based column of the counters there |
| Lexing.SpreadToken | graphql-cpp.hpp:178-205 | read_token at three dots after ignored input returns the SPREAD token [pos, pos + 3) with the line and column of the counters there |
| Lexing.QuotedAt | graphql-cpp.hpp:210-214 | at a `"` the result is a block string exactly when two more quotes follow, and a string otherwise |
| Lexing.LexemeOnOneLine | graphql-cpp.hpp:190-214 | every token but a block string lies on one line |
| Lexing.QuotedTracks | graphql-cpp.hpp:211-212 | a block string leaves the counters that hold at its end, and its end never splits a `\r\n` pair |
| Lexing.LexemeTracks | graphql-cpp.hpp:190-216 | every token leaves the counters that hold at its end, and its end never splits a `\r\n` pair |
| Lexing.TokenAtTracks | graphql-cpp.hpp:184-216 | read from the counters that hold at its start, a token leaves the counters that hold at its end |
| Lexing.ReadTokenTracks | graphql-cpp.hpp:183-216 | read from the counters at the previous end, a token carries the line of its first character and that character's 1-based column, and leaves the counters that hold at its end |
| Ignored.SkipIgnored | graphql-cpp.hpp:143 | position_after_whitespace stops at the first character that is not a space, tab, comma or line terminator, skips only such characters, and never stops inside a `\r\n` pair |
| Ignored.SkipIgnoredTracks | graphql-cpp.hpp:183-185 | the counters after skipping are those of reading the skipped input: each `\n`, lone `\r` or `\r\n` adds one line and resets the line start |
| Ignored.IgnoredBetweenAt | graphql-cpp.hpp:183 | every character in a skipped stretch is ignored input |
| Lines.StateAtBounds | graphql-cpp.hpp:184-185 | lines count from 1 and the current line starts at or before the offset reached, so columns are 1-based |
| Lines.StateAtExtend | graphql-cpp.hpp:183-185 | the counters at a later offset follow from those at an earlier one by reading the text in between |
| Lines.SameLineState | graphql-cpp.hpp:184-185 | text without line terminators leaves the counters unchanged |
| Lines.TrackAppend | graphql-cpp.hpp:183-185 | reading two pieces of text one after the other moves the counters as reading them together, unless the cut splits a `\r\n` pair |
| Lines.BreaksAppend | graphql-cpp.hpp:183-185 | line breaks add up over a concatenation that does not split a `\r\n` pair |
| Lines.TerminatorLength | graphql-cpp.hpp:183-185 | a line terminator is two characters for `\r\n`, one for `\n` or a lone `\r`, and none otherwise |
| Names.ReadName | graphql-cpp.hpp:206-207 | a name is a letter or `_` followed by the longest run of letters, digits and `_` |
| Names.ScanNameMaximal | graphql-cpp.hpp:206-207 | the scan ends exactly at the end of any maximal run of name characters |
| Comments.ReadComment | graphql-cpp.hpp:200-201 | a comment runs from `#` up to the first control character other than tab, or the end of the body, and its value is the text after the `#` |
| Comments.CommentOnOneLine | graphql-cpp.hpp:200-201 | a comment never contains a line terminator |
| Comments.ScanCommentMaximal | graphql-cpp.hpp:200-201 | the scan ends exactly at the end of any maximal run of comment characters |
| Numbers.ReadNumber | graphql-cpp.hpp:208-209 | a number read successfully is an IntValue when it is an INT and a FloatValue when it is a FLOAT, and is not followed by a digit, `.` or a name start; an error lies within the body |
| Numbers.NumberComplete | graphql-cpp.hpp:208-209 | every IntValue or FloatValue that is properly followed is read whole, with the right kind: together with ReadNumber this makes the scanner accept exactly the grammar's literals |
| Numbers.IntComplete | graphql-cpp.hpp:208-209 | every properly followed IntValue is read whole as an INT |
| Numbers.FloatComplete | graphql-cpp.hpp:208-209 | every properly followed FloatValue is read whole as a FLOAT |
| Numbers.NumberTextSound | graphql-cpp.hpp:208-209 | an integer part alone makes an IntValue, and with a fraction or an exponent a FloatValue |
| Numbers.ReadNumberOnOneLine | graphql-cpp.hpp:208-209 | a number lies on one line |
| Numbers.ReadDigits | graphql-cpp.hpp:146 | read_digits reads one or more digits up to a non-digit, and otherwise fails at the first non-digit |
| Numbers.ReadIntegerDigits | graphql-cpp.hpp:145 | the integer part after the sign is `0` or a non-zero digit followed by digits, up to a non-digit |
| Numbers.ReadFraction | graphql-cpp.hpp:145 | a fraction is read only after a `.`, as `.` and one or more digits |
| Numbers.ReadExponent | graphql-cpp.hpp:145 | an exponent is read only after `e` or `E`, as the indicator, an optional sign and one or more digits |
| Strings.ReadString | graphql-cpp.hpp:213 | a string ends just past a closing quote, lies on one line, and any error lies after the opening quote |
| Strings.StringRoundTrip | graphql-cpp.hpp:213 | the literal written for any value without `\u`-only characters reads back as that value and ends right after the literal, whatever follows |
| Strings.ScanSlashEscape | graphql-cpp.hpp:213 | the escape `\/` decodes to `/`: the scan continues two characters on with `/` appended to the value |
| Strings.UnterminatedAt | graphql-cpp.hpp:213 | a string that meets a line terminator or the end of the body before its closing quote is unterminated exactly there |
| Strings.ScanPlainRun | graphql-cpp.hpp:213 | characters that are neither quote, backslash, line terminator nor control are copied into the value as they stand |
| BlockStrings.ReadBlockString | graphql-cpp.hpp:211-212 | a block string ends with three quotes at least six characters after it starts, and any error lies after the opening quotes |
| BlockStrings.ReadBlockStringSound | graphql-cpp.hpp:211-212 | the value is the dedented raw text between the quotes, where `\"""` stands for `"""`, and the counters are those of reading the whole token |
| BlockStrings.BlockStringRoundTrip | graphql-cpp.hpp:211-212 | the block string written for any encodable raw text reads back as that raw text's value and ends right after its closing quotes, whatever follows |
| BlockStrings.BlockStringUnterminated | graphql-cpp.hpp:211-212 | a block string that runs to the end of the body is unterminated at the end of the body |
| BlockStrings.BlockRawEscapeBlock | graphql-cpp.hpp:211-212 | reading the raw text undoes writing it with `"""` escaped |
| BlockStrings.ScanBlockRaw | graphql-cpp.hpp:211-212 | the raw text the scanner collects is the raw reading of the source text it passed |
| BlockStrings.ScanBlockTracks | graphql-cpp.hpp:211-212 | the counters the scanner returns are those of reading the text it passed, closing quotes included |
| BlockStrings.ScanBlockFromOpening | graphql-cpp.hpp:211-212 | scanned from just inside the opening quotes, the counters are those of reading the whole token |
| BlockStrings.ScanBlockPlainRun | graphql-cpp.hpp:211-212 | a run of ordinary characters on one line is copied into the raw text unchanged |
| Dedent.SplitLines | test_lexer.cpp:188-190 | the text splits into at least one line, no line contains `\n`, and joining the lines gives the text back |
| Dedent.SplitJoinLines | test_lexer.cpp:188-190 | splitting joined lines that contain no `\n` gives the lines back |
| Dedent.CommonIndent | test_lexer.cpp:188-190 | the common indentation is absent exactly when every line is blank, and otherwise at most the indentation of every line that is not blank |
| Dedent.CommonIndentAttained | test_lexer.cpp:188-190 | the common indentation is the least one: it equals the indentation of some line that is not blank |
| Dedent.Indent | test_lexer.cpp:188-190 | the indentation is the length of the run of white space that starts the line |
| Dedent.LeadingBlankCount | test_lexer.cpp:188-190 | the leading lines counted are blank and the next one is not |
| Dedent.TrailingBlankCount | test_lexer.cpp:188-190 | the trailing lines counted are blank and the one before them is not |
| DedentAgreement.BlockStringValueIsStandard | graphql-cpp.hpp:211-212 | trimming blank lines before removing the common indentation gives the same value as the specification's order, for every raw text |
| DedentAgreement.DedentKeptIsStandard | graphql-cpp.hpp:211-212 | the two algorithms agree on every list of lines |
| Vectors.NameAlone | test_lexer.cpp:40-42 | lex_one of "foo" is the NAME foo at offsets 0 to 3, line 1, column 1 |
| Vectors.NameAfterLineFeed | test_lexer.cpp:44-46 | lex_one of "\nfoo" is the NAME foo at offsets 1 to 4, line 2, column 1 |
| Vectors.NameAfterCarriageReturn | test_lexer.cpp:48-50 | lex_one of "\rfoo" is the NAME foo at offsets 1 to 4, line 2, column 1 |
| Vectors.NameAfterCarriageReturnLineFeed | test_lexer.cpp:52-54 | lex_one of "\r\nfoo" is the NAME foo at offsets 2 to 5, line 2, column 1 |
| Vectors.NameAfterLineFeedCarriageReturn | test_lexer.cpp:56-58 | lex_one of "\n\rfoo" is the NAME foo at offsets 2 to 5, line 3, column 1 |
| Vectors.NameAfterMixedBreaks | test_lexer.cpp:60-62 | lex_one of "\r\r\n\nfoo" is the NAME foo at offsets 4 to 7, line 4, column 1 |
| Vectors.NameAfterFourBreaks | test_lexer.cpp:64-66 | lex_one of "\n\n\r\rfoo" is the NAME foo at offsets 4 to 7, line 5, column 1 |
| Vectors.NameAfterBreaksAndSpaces | test_lexer.cpp:68-70 | lex_one of "\n \r\n \r  foo\n" is the NAME foo at offsets 8 to 11, line 4, column 3 |
| Vectors.NameIndentedAfterLineFeeds | test_lexer.cpp:72-74 | lex_one of "\n\n    foo\n\n\n" is the NAME foo at offsets 6 to 9, line 3, column 5 |
| Vectors.NameIndentedAfterCrLfs | test_lexer.cpp:76-78 | lex_one of "\r\n\r\n  foo\r\n\r\n" is the NAME foo at offsets 6 to 9, line 3, column 3 |
| Vectors.NameIndentedAfterCarriageReturns | test_lexer.cpp:80-82 | lex_one of "\r\r  foo\r\r" is the NAME foo at offsets 4 to 7, line 3, column 3 |
| Vectors.NameAfterTabs | test_lexer.cpp:84-86 | lex_one of "\t\t  foo\t\t" is the NAME foo at offsets 4 to 7, line 1, column 5 |
| Vectors.NameAfterCommas | test_lexer.cpp:92-94 | lex_one of ",,,foo,,," is the NAME foo at offsets 3 to 6, line 1, column 4 |
| Vectors.NameAfterComment | test_lexer.cpp:88-90 | a comment before the name is skipped: lex_one gives the NAME foo at offsets 18 to 21, line 3, column 5 |
| Vectors.UnexpectedQuestionMark | test_lexer.cpp:96-101 | lex_one of a lone ? fails with the message Syntax Error: Cannot parse the unexpected character ?. |
| Vectors.StringEmpty | test_lexer.cpp:103-105 | lex_one of "\"\"" is a STRING from 0 to 2 at line 1, column 1, whose value is "" |
| Vectors.StringSimple | test_lexer.cpp:107-109 | lex_one of "\"simple\"" is a STRING from 0 to 8 at line 1, column 1, whose value is "simple" |
| Vectors.StringWhiteSpace | test_lexer.cpp:111-113 | lex_one of "\" white space \"" is a STRING from 0 to 15 at line 1, column 1, whose value is " white space " |
| Vectors.StringEscapedQuote | test_lexer.cpp:115-117 | lex_one of "\"quote \\\"\"" is a STRING from 0 to 10 at line 1, column 1, whose value is "quote \"" |
| Vectors.StringSlashes | test_lexer.cpp:123-125 | lex_one of "\"slashes \\\\ \\/\"" is a STRING from 0 to 15 at line 1, column 1, whose value is "slashes \\ /" |
| Vectors.StringEscapes | test_lexer.cpp:119-121 | the escapes \n \r \b \t \f stand for line feed, carriage return, backspace, tab and form feed: a STRING from 0 to 20 |
| Vectors.UnterminatedQuote | test_lexer.cpp:132 | lex_second of "\"" fails with Unterminated string. at line 1, column 2 |
| Vectors.UnterminatedNoEndQuote | test_lexer.cpp:135 | lex_second of "\"no end quote" fails with Unterminated string. at line 1, column 14 |
| Vectors.UnterminatedAtLineFeed | test_lexer.cpp:140 | lex_second of "\"multi\nline\"" fails with Unterminated string. at line 1, column 7 |
| Vectors.UnterminatedAtCarriageReturn | test_lexer.cpp:141 | lex_second of "\"multi\rline\"" fails with Unterminated string. at line 1, column 7 |
| Vectors.SingleQuoteRejected | test_lexer.cpp:136 | a single quote fails with the hint to use a double quote, at line 1, column 1 |
| Vectors.BlockStringEmpty | test_lexer.cpp:150-152 | six quotes are an empty BLOCK_STRING from 0 to 6 |
| Vectors.BlockStringSimple | test_lexer.cpp:154-156 | lex_one of "\"\"\"simple\"\"\"" is a BLOCK_STRING from 0 to 12 whose value is the raw text "simple", escapes left as written |
| Vectors.BlockStringWhiteSpace | test_lexer.cpp:158-160 | lex_one of "\"\"\" white space \"\"\"" is a BLOCK_STRING from 0 to 19 whose value is the raw text " white space ", escapes left as written |
| Vectors.BlockStringContainsQuote | test_lexer.cpp:162-164 | lex_one of "\"\"\"contains \" quote\"\"\"" is a BLOCK_STRING from 0 to 22 whose value is the raw text "contains \" quote", escapes left as written |
| Vectors.BlockStringUnescaped | test_lexer.cpp:180-182 | lex_one of "\"\"\"unescaped \\n\\r\\b\\t\\f\\u1234\"\"\"" is a BLOCK_STRING from 0 to 32 whose value is the raw text "unescaped \\n\\r\\b\\t\\f\\u1234", escapes left as written |
| Vectors.BlockStringSlashes | test_lexer.cpp:184-186 | lex_one of "\"\"\"slashes \\\\ \\/\"\"\"" is a BLOCK_STRING from 0 to 19 whose value is the raw text "slashes \\\\ \\/", escapes left as written |
| Vectors.BlockStringMultiLine | test_lexer.cpp:171-173 | a line feed inside a block string is kept in its value: a BLOCK_STRING from 0 to 16 with value multi, line feed, line |
| Vectors.BlockStringDedent | test_lexer.cpp:188-190 | the blank first and last lines of a block string go and the common indentation of eight spaces is removed: a BLOCK_STRING from 0 to 68 whose value is spans, then multiple indented by two, then lines indented by four |
| Vectors.BlockStringUnterminatedEmpty | test_lexer.cpp:133 | three quotes alone fail with Unterminated string. at line 1, column 4 (the same input is checked again at line 205) |
| Vectors.BlockStringUnterminatedQuote | test_lexer.cpp:134 | four quotes fail with Unterminated string. at line 1, column 5 |
| Vectors.BlockStringUnterminatedText | test_lexer.cpp:206 | an unclosed block string fails with Unterminated string. at line 1, column 16 |
| Vectors.IntZero | test_lexer.cpp:211-213 | lex_one of 0 is an INT from 0 to 1 whose value is 0 |
| Vectors.IntOne | test_lexer.cpp:215-217 | lex_one of 1 is an INT from 0 to 1 whose value is 1 |
| Vectors.IntFour | test_lexer.cpp:219-221 | lex_one of 4 is an INT from 0 to 1 whose value is 4 |
| Vectors.IntNine | test_lexer.cpp:223-225 | lex_one of 9 is an INT from 0 to 1 whose value is 9 |
| Vectors.IntFortyTwo | test_lexer.cpp:227-229 | lex_one of 42 is an INT from 0 to 2 whose value is 42 |
| Vectors.IntNegativeFour | test_lexer.cpp:235-237 | lex_one of -4 is an INT from 0 to 2 whose value is -4 |
| Vectors.IntNegativeFortyTwo | test_lexer.cpp:239-241 | lex_one of -42 is an INT from 0 to 3 whose value is -42 |
| Vectors.FloatFraction | test_lexer.cpp:231-233 | lex_one of 4.123 is a FLOAT from 0 to 5 whose value is 4.123 |
| Vectors.FloatNegativeFraction | test_lexer.cpp:243-245 | lex_one of -4.123 is a FLOAT from 0 to 6 whose value is -4.123 |
| Vectors.FloatZeroFraction | test_lexer.cpp:247-249 | lex_one of 0.123 is a FLOAT from 0 to 5 whose value is 0.123 |
| Vectors.FloatExponent | test_lexer.cpp:251-253 | lex_one of 123e4 is a FLOAT from 0 to 5 whose value is 123e4 |
| Vectors.FloatCapitalExponent | test_lexer.cpp:255-257 | lex_one of 123E4 is a FLOAT from 0 to 5 whose value is 123E4 |
| Vectors.FloatNegativeExponent | test_lexer.cpp:259-261 | lex_one of 123e-4 is a FLOAT from 0 to 6 whose value is 123e-4 |
| Vectors.FloatPositiveExponent | test_lexer.cpp:263-265 | lex_one of 123e+4 is a FLOAT from 0 to 6 whose value is 123e+4 |
| Vectors.FloatFractionExponent | test_lexer.cpp:267-269 | lex_one of -1.123e4 is a FLOAT from 0 to 8 whose value is -1.123e4 |
| Vectors.FloatFractionCapitalExponent | test_lexer.cpp:271-273 | lex_one of -1.123E4 is a FLOAT from 0 to 8 whose value is -1.123E4 |
| Vectors.FloatFractionNegativeExponent | test_lexer.cpp:275-277 | lex_one of -1.123e-4 is a FLOAT from 0 to 9 whose value is -1.123e-4 |
| Vectors.FloatFractionPositiveExponent | test_lexer.cpp:279-281 | lex_one of -1.123e+4 is a FLOAT from 0 to 9 whose value is -1.123e+4 |
| Vectors.FloatLongExponent | test_lexer.cpp:283-285 | lex_one of -1.123e4567 is a FLOAT from 0 to 11 whose value is -1.123e4567 |

## Left out

- Pointers and heap allocation: tokens are values in a sequence addressed by index, so `prev`/`next` links, `new` and the leaked lexers are not modelled.
- Exceptions: an error is a `Failure` result. The state of a lexer after a failed `advance` or `lookahead` is not modelled, because the C++ leaves it half-updated.
- `GraphQLError` and the position-to-(line, column) mapping of the error's locations are not part of this model's source. An error carries its byte position, and `Vectors.Location` gives the line and column that `StateAt` assigns to it.
- The location offset of a source is stored but not applied to token lines and columns, as in the lexer.
- The byte order mark, `\u` escapes, control characters inside strings, the messages for invalid escapes, carriage-return normalisation inside block strings, and tokens after a block string: their test cases are commented out with `TODO: Fix`. The model rejects a `\u` escape as an invalid escape and keeps `\r` in block strings as written.
- Characters at or above U+0080 are treated as ordinary characters. In the C++, `character < ' '` depends on whether `char` is signed, so the message for such bytes is platform-dependent. Strings are sequences of characters, one per byte.
- `int` widths: positions, lines and columns are unbounded integers, while `graphql-cpp.hpp` stores `body.length()` and positions in an `int`. The model covers bodies shorter than 2^31 bytes; for longer bodies the C++ overflows and the model does not follow it.
- `fmt::format` is modelled only as the string it produces.
- `language/lexer.cpp` and `language/lexer.hpp` are an earlier, unfinished lexer that `graphql-cpp.hpp` supersedes.
- `language/ast.*` and `language/source.hpp` only declare fields, which the datatypes hold.
- Line splitting in block-string values: section 2.9.4 of the GraphQL specification splits the raw value at `\n`, `\r\n` and a lone `\r`, but `SplitLines` splits at `\n` only, so both `BlockStringValue` and `StandardBlockStringValue` keep a `\r` inside a line. For the raw text `"a\r  b\r  c"` the specification gives `"a\nb\nc"`, while the model returns the text unchanged. The C++ normalisation of `\r` in block strings is among the commented-out cases.
