# JavaAnalyzer lexer, modelled in Dafny

JavaAnalyzer reads Java-like source text and splits it into tokens: identifiers,
keywords, literals, operators, separators, lexical errors and a final end-of-file token.
Each token records its text, its start offset and a line-start flag. The flag is set
when the blanks and comments skipped before the token hold a line break, or when the
token is the first one of the input and starts at offset 0. So the first token of a line
after leading spaces on the first line, or after an unterminated string that swallowed
the line break, is not flagged. This project models the tokenizer:

- the `Lexer` class, with its cursor and line-start flag;
- the fixed registry of keywords, literal words, operators and separators;
- the token types with their textual rendering;
- the driver loop that collects tokens until end-of-file.

It proves what the scanner guarantees about its cursor, its tokens and their text.

Modules, in dependency order:

- `Wrappers` — `Option`, the null-or-string result of the literal readers.
- `Tokens` — `TokenKind`, `Token` and `LiteralToken`, with their renderings (Tokens/Token.cs).
- `KeywordRuns`, `Keywords` — the four lexeme sets and their membership tests (Tokens/Keywords.cs).
  `KeywordRuns` splits the keyword list by initial letter so that its size can be counted.
- `LexerSpec` — the scanner as functions of the input text and a state `LexState(position, atLineStart)`.
  Each phase of `NextToken` is a function that returns the position where the phase stops:
  - the skip phase, `SkipFrom`;
  - the identifier run;
  - the digit-run, hexadecimal, binary and decimal readers;
  - the string and char readers;
  - the countdown longest match.

  `Step` combines them into one call of `NextToken`.
- `LexerProperties` — lemmas about those functions: what each phase consumes, where it stops, and what one step produces.
- `Lexer` — class `Lexer` with fields `input`, `position` and `atLineStart`. Its methods follow Lexer.cs loop for loop, and each is proved to compute its `LexerSpec` function. `NextToken` ensures `Step(input, old(State())) == Stepped(token, State())`, so every lemma about `Step` holds for the tokens the object returns.
- `Driver` — the do-while loop of Program.cs as `CollectFrom`, run by `CollectTokens` on a fresh scanner. The loop is proved to return `Tokenize(s)`, to terminate, and to produce a list with one EOF at the end. Concrete inputs show the scanner's quirks.

Behaviour the proofs establish:

- The separator `...` is never produced: `.` is an operator and operators are tried first, so `...` scans as three `.` operators.
- An unterminated string ended by a lone `\n` or `\r` consumes it. The skip phase therefore never sees that line break, and the token on the next line is not flagged as starting a line unless the skip phase meets another line break before it (`Driver.UnterminatedStringThenBlankLine`). Ended by `\r\n`, the string takes only the `\r`; the skip phase reads the `\n`, and the next token is flagged.
- Spaces before the first token clear its line-start flag.
- `1__000` is two tokens and `1_000` is one.
- `1.` and `1e+` give back the `.`, and the `e` with its sign.
- `0x1p` is one literal: the hexadecimal exponent marker is kept without digits.
- `'''` is an accepted char literal.
- In a string, a backslash takes the next character whatever it is: an escaped `"` does not close the string, and a backslash before a line break carries the string onto the next line. A `\u` escape takes its `u` markers and four characters without checking them.

Facts about the code that the model keeps:

- The code reserves 48 keywords (`Keywords.KeywordCount`).
- The lexer builds plain `Token`s for literals and never a `LiteralToken` (Lexer.cs:61-116), so no literal type is attached to any token.
- The hexadecimal `p` exponent needs no digits (Lexer.cs:262-269).
- An empty char literal `''` is an error unless a third `'` follows it. At the end of the input `''` is an error too (`Driver.EmptyCharLiteralAtEnd`).

## Model

| member | source | states |
|---|---|---|
| Tokens.Ordinal | Tokens/Token.cs:7-16 | every kind has one of seven positions, 0 to 6, in the declared order EOF, ERROR, IDENTIFIER, KEYWORD, LITERAL, OPERATOR, SEPARATOR |
| Tokens.OrdinalInjective | Tokens/Token.cs:7-16 | distinct kinds have distinct positions, so the enum has exactly seven members |
| Tokens.Prefix | Tokens/Token.cs:25-30 | the prefix of every kind but EOF has 2 or 3 characters and starts with a capital between `E` and `S` |
| Tokens.Render | Tokens/Token.cs:20-33 | the rendering is `EOF` exactly for the EOF kind; otherwise it is prefix, parentheses and value long and ends with `)` |
| Tokens.RenderShape | Tokens/Token.cs:20-33 | a non-EOF token renders as its kind's prefix, `(`, its value and `)` |
| Tokens.PrefixHasNoParen | Tokens/Token.cs:25-30 | the prefixes ERR, ID, KEY, LIT, OP, SEP have 2 or 3 characters and none is `(` |
| Tokens.RenderRoundTrip | Tokens/Token.cs:25-30 | stripping the prefix and the parentheses from the rendering gives back the value |
| Tokens.RenderInjective | Tokens/Token.cs:20-33 | equal renderings mean equal kinds, and for non-EOF kinds equal values |
| Tokens.TypeName | Tokens/Token.cs:42-59 | each named type prints as a word of 3 to 7 characters, and any other type by its own name |
| Tokens.TypeNameInjectiveOnNamedTypes | Tokens/Token.cs:42-59 | the named type cases (unknown, null, int, long, float, double, char, boolean, String, Object) print pairwise differently |
| Tokens.RenderLiteral | Tokens/Token.cs:61 | the rendering starts with `LIT(`, ends with `)`, and is seven characters longer than the value and the type name together |
| Tokens.RenderLiteralRoundTrip | Tokens/Token.cs:61 | given the type name, the value is recovered from `LIT(value, type)` |
| Tokens.RenderLiteralIgnoresKind | Tokens/Token.cs:38-61 | a literal token's rendering starts with `LIT(` and depends only on its value and type, whatever its kind |
| Tokens.RenderLiteralDiffersFromBase | Tokens/Token.cs:61 | the literal rendering differs from the plain token rendering it overrides |
| Keywords.IsKeyword | Tokens/Keywords.cs:8-25 | membership in the keyword set; every keyword has 2 to 12 characters, all lower-case letters |
| Keywords.IsLiteral | Tokens/Keywords.cs:27-32 | membership in `true`, `false`, `null`; each has 4 or 5 lower-case letters |
| Keywords.IsOperator | Tokens/Keywords.cs:34-52 | membership in the operator set; every operator has 1 to 4 characters, all from `+-*/%=!<>&|^~?:.` |
| Keywords.IsSeparator | Tokens/Keywords.cs:54-62 | membership in the separator set; every separator has 1 to 3 characters, all from `(){}[];,.` |
| Keywords.KeywordRunsCover | Tokens/Keywords.cs:8-25 | the keyword set is the union of the four runs by initial letter |
| Keywords.KeywordCount | Tokens/Keywords.cs:8-25 | the keyword set has exactly 48 entries |
| Keywords.KeywordExclusions | Tokens/Keywords.cs:8-25 | `const` and `goto` are not keywords; membership is case-sensitive (`int` yes, `Int` and `INT` no) |
| Keywords.KeywordsAndLiteralsDisjoint | Tokens/Keywords.cs:8-32 | no keyword is a literal word; the literal words are exactly `true`, `false`, `null`, case-sensitive |
| Keywords.OperatorsAndSeparatorsDisjoint | Tokens/Keywords.cs:34-62 | no lexeme is both an operator and a separator; `.` is an operator only, `...` a separator only, `..` neither |
| Keywords.OperatorLengths | Tokens/Keywords.cs:34-52 | every operator has 1 to 4 characters and `>>>=` has 4, so 4 is the longest operator length |
| Keywords.SeparatorLengths | Tokens/Keywords.cs:54-62 | every separator has 1 to 3 characters and `...` has 3, so 3 is the longest separator length |
| Keywords.OperatorPrefixClosed | Tokens/Keywords.cs:36-51 | the first character of every multi-character operator is itself an operator |
| LexerSpec.SkipFrom | Lexer.cs:135-208 | the skip phase ends between its start and the end of the input (where, and with which flag, is stated by `SkipStops` and `SkipNewline`) |
| LexerSpec.IsHexDigit | Lexer.cs:326-331 | every decimal digit is a hexadecimal digit, and every hexadecimal digit is an ASCII character that can continue a word |
| LexerSpec.IsIdentifierStart | Lexer.cs:210-214 | a word starts only with an ASCII character that is not a digit or a quote, so the word branch never takes a number or a literal |
| LexerSpec.IsIdentifierPart | Lexer.cs:216-220 | a word continues exactly with what may start one, or with a digit |
| LexerSpec.DigitsFrom | Lexer.cs:226-245 | the digit run ends between its start and the end of the input (its shape is stated by `DigitRunShape`) |
| LexerSpec.SuffixEnd | Lexer.cs:316-321 | at most one suffix character is taken, and one is taken exactly when the cursor is on a listed character |
| LexerSpec.NumberEnd | Lexer.cs:222-324 | the numeric literal ends between its start and the end of the input (progress is stated by `NumberProgress`) |
| LexerSpec.StringLiteralEnd | Lexer.cs:333-369 | the string reader stops within the input, and past the opening quote when there is one |
| LexerSpec.CharLiteralEnd | Lexer.cs:371-408 | the char reader stops within the input, and past the opening quote when there is one |
| LexerSpec.MatchFrom | Lexer.cs:91-100 | the countdown returns at most its start length, and a positive result is the length of a lexeme at the cursor |
| LexerSpec.LongestMatch | Lexer.cs:89-100 | the match fits in the maximum length and in the rest of the input, and a positive match is a lexeme |
| LexerSpec.Step | Lexer.cs:38-117 | the token starts at or after the old cursor and at or before the new one, within the input; it is EOF iff it starts at the end, and EOF has empty text and leaves the cursor at the end |
| LexerSpec.TokenAt | Lexer.cs:52-116 | a token read at `start` is not EOF, starts there with the given flag, and moves the cursor past `start` unless it is a number (see `NumberProgress`) |
| LexerSpec.PunctuationAt | Lexer.cs:89-116 | the token is an operator, a separator or an error, of 1 to 4 characters, holds exactly the consumed text and clears the line-start flag |
| LexerProperties.LineCommentStops | Lexer.cs:163-169 | a `//` comment body holds no line terminator and stops at one or at the end of the input |
| LexerProperties.BlockCommentNewline | Lexer.cs:172-202 | a block comment records a line break iff its text holds a `\r` or `\n` |
| LexerProperties.SkipNewline | Lexer.cs:135-208 | the skip phase records a line break iff the text it skipped holds a `\r` or `\n`, inside a block comment included |
| LexerProperties.SkipStops | Lexer.cs:138-205 | the skip phase stops at the end of the input or at a character that is not blank, not a line terminator and opens no comment |
| LexerProperties.IdentifierRunMaximal | Lexer.cs:56-57 | the identifier run takes identifier characters only and stops before the first character that is not one |
| LexerProperties.DigitRunShape | Lexer.cs:226-245 | a digit run holds radix digits and underscores each followed by a radix digit, is maximal, and saw a digit iff it contains one |
| LexerProperties.DigitRunStartsOnDigit | Lexer.cs:231-236 | a digit run that starts on a radix digit consumes it and reports a digit |
| LexerProperties.NumberProgress | Lexer.cs:222-324 | a numeric literal that starts on a digit consumes at least that digit and stays within the input |
| LexerProperties.DecimalPointNeedsDigit | Lexer.cs:289-298 | the decimal mantissa takes a `.` and its fraction iff a digit follows the `.` |
| LexerProperties.DecimalExponentRollback | Lexer.cs:300-321 | an `e`/`E` whose optional sign is not followed by a digit is given back, and the literal ends before it with no suffix |
| LexerProperties.DecimalExponentHasDigit | Lexer.cs:300-314 | an accepted decimal exponent contains a digit after its marker |
| LexerProperties.HexExponentMarkerKept | Lexer.cs:250-269 | a `p` or `P` after the hexadecimal mantissa, fraction included, is always part of the literal |
| LexerProperties.StringBodyStops | Lexer.cs:338-368 | a closed string ends right after a `"`; an unterminated one ends right after a line terminator, or at the end of the input |
| LexerProperties.PlainStringStops | Lexer.cs:338-368 | without a backslash, the string stops at its first `"` (closed) or line terminator (unterminated) |
| LexerProperties.StringEscapeSkipped | Lexer.cs:342-361 | a backslash takes the next character, a quote or line terminator included, and `\u` takes its `u` markers and four characters unchecked, the scan going on after the escape |
| LexerProperties.CharLiteralShape | Lexer.cs:371-408 | an accepted char literal ends with `'` and has 3 characters, or 4 with a plain escape, or its `u` markers plus five with a `\u` escape |
| LexerProperties.CharLiteralAnyFirst | Lexer.cs:378-407 | any character but a backslash, `'` included, followed by `'` makes an accepted char literal of three characters |
| LexerProperties.CharLiteralAccepted | Lexer.cs:378-407 | a char literal is accepted if and only if it is a non-backslash character, a plain escape, or a `\u` escape with its `u` markers and four characters, followed by `'` |
| LexerProperties.MatchFromLongest | Lexer.cs:91-100 | the countdown search returns a lexeme length (or 0) and no longer candidate within the bound is a lexeme |
| LexerProperties.LongestMatchIsLongest | Lexer.cs:89-100 | the match is the longest lexeme prefix of at most the maximum length that fits in the remaining input |
| LexerProperties.StepProgress | Lexer.cs:38-117 | a non-EOF token starts where skipping ended and moves the cursor strictly past its start, within the input; EOF comes exactly at the end of the input and leaves the cursor there |
| LexerProperties.StepLineStart | Lexer.cs:207 | a token is flagged iff the skipped text before it holds a line terminator, or it starts at offset 0 of a fresh scanner |
| LexerProperties.StepWord | Lexer.cs:52-65 | a word is the maximal identifier run at its start, is KEYWORD iff it is in the keyword set, else LITERAL iff a literal word, else IDENTIFIER |
| LexerProperties.StepOperator | Lexer.cs:89-100 | when an operator prefix exists, the token is the longest operator prefix of at most 4 characters, and the flag is cleared |
| LexerProperties.StepSeparator | Lexer.cs:102-112 | a separator token means no operator prefix exists, and it is the longest separator prefix of at most 3 characters |
| LexerProperties.DotIsAlwaysOperator | Lexer.cs:89-100 | a token starting with `.` is an operator, never `...` |
| LexerProperties.EllipsisNeverSeparator | Lexer.cs:102-112 | no step produces the separator `...` |
| LexerProperties.StepSeparatorWhenNoOperator | Lexer.cs:102-112 | when nothing else starts here, no operator prefix exists and a separator prefix does, the token is the longest separator prefix, and the line-start flag is cleared |
| LexerProperties.StepUnrecognized | Lexer.cs:114-116 | a character that starts no token gives an ERROR token of just that character, and the cursor moves by one |
| LexerProperties.StepUnterminatedString | Lexer.cs:73-77 | an unterminated string gives the ERROR message at the opening quote, and the cursor stays after the line terminator or at the end |
| LexerProperties.StepStringLiteral | Lexer.cs:73-78 | a string literal token is the consumed slice, quotes included, at least two characters long |
| LexerProperties.StepValueIsSlice | Lexer.cs:38-117 | every token except EOF and the two unterminated-literal messages holds exactly the consumed slice of the input |
| LexerProperties.StepEofRepeats | Lexer.cs:45-48 | after EOF the next call returns EOF again at the same offset, flagged only for an empty input |
| Lexer.Lexer.constructor | Lexer.cs:31-36 | a new scanner is at offset 0 at the start of a line |
| Lexer.Lexer.IsEof | Lexer.cs:121 | in a valid state, the end is reached exactly at the input length |
| Lexer.Lexer.Peek | Lexer.cs:123-127 | the character `lookahead` places after the cursor, or `\0` at or past the end |
| Lexer.Lexer.Next | Lexer.cs:129-133 | returns the character under the cursor and advances by one, or returns `\0` at the end without moving |
| Lexer.Lexer.SkipLineBreak | Lexer.cs:147-159 | consumes `\r\n` as one line break, otherwise one terminator |
| Lexer.Lexer.SkipLineComment | Lexer.cs:166-167 | consumes a `//` comment body up to its line terminator |
| Lexer.Lexer.SkipBlockComment | Lexer.cs:175-200 | consumes a block comment through its closing star-slash, noting any line break inside it |
| Lexer.Lexer.SkipWhitespaceAndComments | Lexer.cs:135-208 | moves the cursor to the end of the skip phase and sets the line-start flag from the line breaks seen or the fresh scanner at offset 0 |
| Lexer.Lexer.SkipGapPiece | Lexer.cs:140-204 | one round of the skipping loop consumes a blank, a line break, a `//` comment or a block comment, after which the skip phase ends where it would have from the old offset; on any other character nothing moves and the skip phase ends there |
| Lexer.Lexer.ConsumeDigitsAllowUnderscore | Lexer.cs:226-245 | consumes the digit run of the radix with the underscore rule and returns whether it saw a digit |
| Lexer.Lexer.SkipSuffix | Lexer.cs:316-321 | consumes one suffix character if the cursor is on one |
| Lexer.Lexer.ReadNumberLiteral | Lexer.cs:222-324 | consumes the hexadecimal, binary or decimal literal and returns exactly the consumed text |
| Lexer.Lexer.ReadHexNumber | Lexer.cs:249-276 | after the mantissa, consumes a `p` exponent with optional sign, digits and an `fFdD` suffix, or else an `lL` suffix |
| Lexer.Lexer.ReadHexMantissa | Lexer.cs:250-260 | consumes the hex digits and, when `.` is followed by a hex digit or `_`, the `.` and the fraction digits |
| Lexer.Lexer.ReadDecimalNumber | Lexer.cs:287-321 | consumes the mantissa, the exponent if it has a digit, and one `fFdDlL` suffix |
| Lexer.Lexer.ReadDecimalMantissa | Lexer.cs:287-298 | consumes the digits and, when a digit follows the `.`, the `.` and the fraction |
| Lexer.Lexer.ReadDecimalExponent | Lexer.cs:300-314 | consumes `e`/`E`, an optional sign and the digits, or restores the saved position when no digit follows |
| Lexer.Lexer.SkipUnicodeMarkers | Lexer.cs:348 | consumes the run of `u` markers of a `\u` escape |
| Lexer.Lexer.ReadStringLiteral | Lexer.cs:333-369 | consumes the string literal and returns its text with quotes, or None when unterminated |
| Lexer.Lexer.ReadCharLiteral | Lexer.cs:371-408 | consumes the char literal and returns its text with quotes, or None when it is not closed |
| Lexer.Lexer.LongestMatchHere | Lexer.cs:89-100 | without moving the cursor, returns the length of the longest lexeme at the cursor within the bound, or 0 |
| Lexer.Lexer.ReadWord | Lexer.cs:52-65 | consumes the identifier run and returns it classified as keyword, literal word or identifier |
| Lexer.Lexer.ReadPunctuation | Lexer.cs:89-116 | returns the longest operator, else the longest separator, else the one bad character, and clears the line-start flag |
| Lexer.Lexer.NextToken | Lexer.cs:38-117 | returns the token of `Step` from the state before the call and leaves the object in `Step`'s next state |
| Driver.CollectTokens | Program.cs:7-14 | for a fresh scanner over the input, the collected list is the token list of the whole input |
| Driver.CollectFrom | Program.cs:8-14 | the loop terminates and returns the tokens from the scanner's state up to and including the first EOF, in order, leaving the cursor at the end of the input |
| Driver.Pull | Program.cs:12-13 | the scanner's next token is the front of its remaining token list, the new state is `Step`'s next state, a token other than EOF moves the cursor forward, and EOF leaves it at the end |
| Driver.TokensEndWithEof | Program.cs:10-14 | the collected list ends with the one EOF token, at the end of the input, and every earlier token starts inside the input |
| Driver.StartPositionsIncrease | Program.cs:10-14 | the start offsets of the collected tokens strictly increase |
| Driver.TokenCountBound | Program.cs:10-14 | at most one token per remaining character, plus the EOF |
| Driver.TokenTextsAreSlices | Lexer.cs:38-117 | every collected token except the EOF and the two messages is the input text at its offset, and each ends at or before the next token starts, so the texts are in-order and non-overlapping |
| Driver.TokenGapsAreSkipped | Lexer.cs:38-43 | the first token starts where skipping from the scanner's position stops, and every token but the last, messages aside, is followed by a token that starts where skipping from its end stops, so the gaps between tokens are exactly the skipped blanks, line breaks and comments |
| Driver.Peel | Program.cs:12-13 | one step is the front of the token list: its token, its bounds, and a text equal to the consumed slice unless it is EOF or a message |
| Driver.TokensEofValue | Lexer.cs:45-48 | the last token of the list, the EOF, has empty text |
| Driver.TokenizeShape | Program.cs:10-14 | the list for an input of length n has 1 to n+1 tokens, one EOF `Token(Eof, "", n, _)` last, and increasing start offsets |
| Driver.EmptyInput | Lexer.cs:45-48 | an empty input gives just an EOF at 0, flagged as the start of a line |
| Driver.EllipsisScansAsThreeDots | Lexer.cs:89-112 | `...` gives three `.` operators and EOF |
| Driver.UnterminatedStringHidesLineBreak | Lexer.cs:365-366 | after an unterminated string ended by a lone `\n`, the identifier on the next line is not flagged as starting a line |
| Driver.UnterminatedStringKeepsCrLfBreak | Lexer.cs:147-149 | after an unterminated string ended by `\r\n`, the `\n` is skipped and the identifier on the next line is flagged |
| Driver.UnterminatedStringThenBlankLine | Lexer.cs:147-149 | after an unterminated string ended by `\n`, a second `\n` is read by the skip phase and the identifier after it is flagged |
| Driver.DoubleUnderscoreSplitsNumber | Lexer.cs:237 | `1__000` gives `LIT(1)` and `ID(__000)` |
| Driver.UnderscoreBetweenDigits | Lexer.cs:237 | `1_000` gives one literal |
| Driver.TrailingDotIsOperator | Lexer.cs:290-298 | `1.` gives `LIT(1)` and `OP(.)` |
| Driver.ExponentWithoutDigitsRollsBack | Lexer.cs:300-309 | `1e+` gives `LIT(1)`, `ID(e)` and `OP(+)` |
| Driver.QuoteCharLiteral | Lexer.cs:378-407 | `'''` is one accepted char literal |
| Driver.EmptyCharLiteralAtEnd | Lexer.cs:378-403 | `''` at the end of the input is an unterminated char literal error |
| Driver.EscapedQuoteStaysInString | Lexer.cs:342-364 | the escaped `"` in `"\""` does not close the string, which is one literal |
| Driver.EscapedLineBreakContinuesString | Lexer.cs:342-366 | a backslash before a line break keeps the string open, so `"a\` line break `b"` is one literal |
| Driver.UnicodeEscapeSkipsQuote | Lexer.cs:346-353 | the four characters of a `\u` escape are taken unchecked, so a `"` among them does not close the string |
| Driver.HexExponentMarkerStays | Lexer.cs:262-269 | `0x1p` is one literal |
| Driver.LeadingSpacesHideLineStart | Lexer.cs:207 | the first token of `  a` is not flagged as starting a line |

## Left out

- Characters are Unicode scalar values: a Dafny `string` is a sequence of them, where a C# string is indexed by UTF-16 code units (Lexer.cs:121-132). Offsets, `TokenCountBound` and every `startPos` count scalar values. An unrecognized character outside the Basic Multilingual Plane gives one error token here, where the code gives two, one per surrogate half, and every later offset in the code is one higher. A char literal holding such a character, as in `'\U{1F600}'`, is accepted here; the code finds the second surrogate half where it expects the closing `'`, reports an unterminated char literal, and then gives a further error for the lone `'` that remains.
- Character classes are ASCII. `char.IsLetter`, `char.IsDigit` and `char.IsLetterOrDigit` also accept non-ASCII letters and digits, and those are not modelled.
- A null input text (`inputText ?? string.Empty`) cannot be expressed: a Dafny string is never null.
- The static constructor's sorting of the operator and separator lists is left out. It only computes the two maximum lengths; these are the constants 4 and 3, and `Keywords.OperatorLengths` and `Keywords.SeparatorLengths` prove they are the maxima.
- `ConsumeDigitsAllowUnderscore` takes a digit predicate as an argument. The model passes one of the three digit classes the code uses (`Radix`).
- `StringBuilder` accumulation is modelled as slicing the input. Every character the readers consume is appended, so the two agree.
- The countdown `for` loops of `NextToken` move the cursor when they find a match. `LongestMatchHere` only returns the length, and `ReadPunctuation` then moves the cursor by it.
- `_position` is a 32-bit `int`. The model uses unbounded naturals: the cursor never passes the input length, which a .NET string keeps within that width.
- `LiteralToken`'s `System.Type` field is a closed enum, `LiteralType`. The reflection and `FullName` comparisons are not modelled; each case stands for the types the code maps to one name.
- The default arm of the `ToString` switch (Tokens/Token.cs:31) cannot be reached for the seven kinds and is not modelled.
- Literal-type inference is not modelled, because the code does not perform it: the lexer never builds a `LiteralToken`.
- Program.cs:16-78 is left out: printing of tokens by line, coloured errors, and statistics sorted and grouped by kind. This is console I/O and presentation.
- Utils/FileReader.cs (console prompt and file reading) and Utils/LexerResultProcessor.cs (report formatting) are I/O and are not part of this model.
