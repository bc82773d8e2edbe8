/**
 * The scanner as functions of the input and a cursor. Each function describes one phase
 * of `Lexer.NextToken` (the skip phase, the identifier run, the numeric, string and
 * character literal readers, the longest-match lexeme search) by the position the phase
 * stops at; `Step` puts them together into one call of `NextToken`. The class in module
 * Lexer is proved to compute exactly these functions, and the lemmas below state what the
 * scanner guarantees.
 *
 * Character classes are ASCII: `char.IsLetter`, `char.IsDigit` and `char.IsLetterOrDigit`
 * of the C# code accept further Unicode letters and digits.
 */
module LexerSpec {
  import opened Tokens
  import opened Keywords

  /** The lengths of the longest operator (`>>>=`) and the longest separator (`...`). */
  const MaxOperatorLen: nat := 4
  const MaxSeparatorLen: nat := 3

  const UnterminatedString: string := "Unterminated string literal"
  const UnterminatedChar: string := "Unterminated char literal"

  function Min(a: int, b: int): (m: int)
    ensures m <= a && m <= b && (m == a || m == b)
  {
    if a <= b then a else b
  }

  /** `Peek`: the character at `p`, or '\0' at and beyond the end of the input. */
  function CharAt(s: string, p: nat): (c: char)
  {
    if p < |s| then s[p] else '\0'
  }

  // ---------------------------------------------------------------- character classes

  predicate IsLetter(c: char) { 'a' <= c <= 'z' || 'A' <= c <= 'Z' }

  predicate IsDigit(c: char) { '0' <= c <= '9' }

  /** The sixteen hexadecimal digits; every one of them can also continue a word. */
  predicate IsHexDigit(c: char)
    ensures IsDigit(c) ==> IsHexDigit(c)
    ensures IsHexDigit(c) ==> IsIdentifierPart(c) && c as int < 128
  {
    IsDigit(c) || 'a' <= c <= 'f' || 'A' <= c <= 'F'
  }

  /**
   * A word starts with `_`, `$` or an ASCII letter: never with a digit or a quote, so the
   * word branch of `NextToken` never takes a number or a literal.
   */
  predicate IsIdentifierStart(c: char)
    ensures IsIdentifierStart(c) ==> c as int < 128 && !IsDigit(c) && c != '"' && c != '\''
  {
    c == '_' || c == '$' || IsLetter(c)
  }

  /** A word continues with what may start one, or with a digit. */
  predicate IsIdentifierPart(c: char)
    ensures IsIdentifierPart(c) <==> IsIdentifierStart(c) || IsDigit(c)
  {
    c == '_' || c == '$' || IsLetter(c) || IsDigit(c)
  }

  /** Space, tab, form feed and vertical tab. */
  predicate IsBlank(c: char) { c == ' ' || c == '\t' || c == '\U{000C}' || c == '\U{000B}' }

  predicate IsLineTerminator(c: char) { c == '\r' || c == '\n' }

  /** The digit classes `ReadNumberLiteral` passes to its digit-run reader. */
  datatype Radix = Binary | Decimal | Hexadecimal

  predicate IsRadixDigit(r: Radix, c: char)
  {
    match r
    case Binary => c == '0' || c == '1'
    case Decimal => IsDigit(c)
    case Hexadecimal => IsHexDigit(c)
  }

  /** Some line terminator lies in s[i..j]. */
  predicate HasLineTerminator(s: string, i: nat, j: nat)
    requires i <= j <= |s|
  {
    exists k :: i <= k < j && IsLineTerminator(s[k])
  }

  // ---------------------------------------------------------------- the skip phase

  datatype Skipped = Skipped(end: nat, sawNewline: bool)

  /** A line break at `p`: `\r\n` is one unit, a lone `\r` or `\n` another. */
  function LineBreakEnd(s: string, p: nat): (q: nat)
    requires p < |s| && IsLineTerminator(s[p])
    ensures p < q <= |s|
  {
    if s[p] == '\r' && CharAt(s, p + 1) == '\n' then p + 2 else p + 1
  }

  /** The body of a `//` comment runs up to, not including, the next line terminator. */
  function LineCommentEnd(s: string, p: nat): (q: nat)
    requires p <= |s|
    ensures p <= q <= |s|
    decreases |s| - p
  {
    if p < |s| && !IsLineTerminator(s[p]) then LineCommentEnd(s, p + 1) else p
  }

  /** The body of a block comment runs past the next star-slash, or to the end of the input. */
  function BlockCommentEnd(s: string, p: nat, saw: bool): (r: Skipped)
    requires p <= |s|
    ensures p <= r.end <= |s|
    decreases |s| - p
  {
    if p == |s| then Skipped(p, saw)
    else if s[p] == '*' && CharAt(s, p + 1) == '/' then Skipped(p + 2, saw)
    else if IsLineTerminator(s[p]) then BlockCommentEnd(s, LineBreakEnd(s, p), true)
    else BlockCommentEnd(s, p + 1, saw)
  }

  /** `SkipWhitespaceAndComments`: where the loop stops, and whether it met a line break. */
  function SkipFrom(s: string, p: nat, saw: bool): (r: Skipped)
    requires p <= |s|
    ensures p <= r.end <= |s|
    decreases |s| - p
  {
    if p == |s| then Skipped(p, saw)
    else if IsBlank(s[p]) then SkipFrom(s, p + 1, saw)
    else if IsLineTerminator(s[p]) then SkipFrom(s, LineBreakEnd(s, p), true)
    else if s[p] == '/' && CharAt(s, p + 1) == '/' then SkipFrom(s, LineCommentEnd(s, p + 2), saw)
    else if s[p] == '/' && CharAt(s, p + 1) == '*' then
      var b := BlockCommentEnd(s, p + 2, saw);
      SkipFrom(s, b.end, b.sawNewline)
    else Skipped(p, saw)
  }

  // ---------------------------------------------------------------- identifiers

  function IdentifierEnd(s: string, p: nat): (q: nat)
    requires p <= |s|
    ensures p <= q <= |s|
    decreases |s| - p
  {
    if p < |s| && IsIdentifierPart(s[p]) then IdentifierEnd(s, p + 1) else p
  }

  /** A word is a keyword, else a literal word, else an identifier. */
  function WordKind(word: string): (k: TokenKind)
    ensures k == Keyword || k == Literal || k == Identifier
  {
    if IsKeyword(word) then Keyword else if IsLiteral(word) then Literal else Identifier
  }

  // ---------------------------------------------------------------- numeric literals

  datatype DigitRun = DigitRun(end: nat, sawDigit: bool)

  /**
   * `ConsumeDigitsAllowUnderscore`: digits of the radix, and an underscore only when a
   * digit of the radix follows it.
   */
  function DigitsFrom(s: string, p: nat, r: Radix, saw: bool): (d: DigitRun)
    requires p <= |s|
    ensures p <= d.end <= |s|
    decreases |s| - p
  {
    if p == |s| then DigitRun(p, saw)
    else if IsRadixDigit(r, s[p]) then DigitsFrom(s, p + 1, r, true)
    else if s[p] == '_' && IsRadixDigit(r, CharAt(s, p + 1)) then DigitsFrom(s, p + 1, r, saw)
    else DigitRun(p, saw)
  }

  /** An optional single character from `suffixes`. */
  function SuffixEnd(s: string, p: nat, suffixes: string): (q: nat)
    requires p <= |s| && '\0' !in suffixes
    ensures q == p || q == p + 1
    ensures q == p + 1 <==> p < |s| && s[p] in suffixes
  {
    if CharAt(s, p) in suffixes then p + 1 else p
  }

  /** An optional `+` or `-`. */
  function SignEnd(s: string, p: nat): (q: nat)
    requires p <= |s|
    ensures p <= q <= |s|
  {
    SuffixEnd(s, p, "+-")
  }

  /**
   * The end of the mantissa of a hexadecimal literal: its digit run, and a fraction when
   * the `.` is followed by a hexadecimal digit or an underscore.
   */
  function HexMantissaEnd(s: string, p: nat): (q: nat)
    requires p <= |s|
    ensures p <= q <= |s|
  {
    var digits := DigitsFrom(s, p, Hexadecimal, false).end;
    if CharAt(s, digits) == '.' && (IsHexDigit(CharAt(s, digits + 1)) || CharAt(s, digits + 1) == '_')
    then DigitsFrom(s, digits + 1, Hexadecimal, false).end
    else digits
  }

  /** A hexadecimal literal after its `0x`: digits, fraction, `p` exponent, suffixes. */
  function HexNumberEnd(s: string, p: nat): (q: nat)
    requires p <= |s|
    ensures p <= q <= |s|
  {
    var fraction := HexMantissaEnd(s, p);
    if CharAt(s, fraction) == 'p' || CharAt(s, fraction) == 'P' then
      // the binary exponent marker is kept even when no digit follows it
      var exponent := DigitsFrom(s, SignEnd(s, fraction + 1), Decimal, false).end;
      SuffixEnd(s, exponent, "fFdD")
    else
      SuffixEnd(s, fraction, "lL")
  }

  /** A binary literal after its `0b`: binary digits and an optional `l`/`L`. */
  function BinaryNumberEnd(s: string, p: nat): (q: nat)
    requires p <= |s|
    ensures p <= q <= |s|
  {
    SuffixEnd(s, DigitsFrom(s, p, Binary, false).end, "lL")
  }

  /**
   * The end of the mantissa of a decimal literal: its digit run, and a fraction when
   * the `.` is followed by a digit.
   */
  function DecimalMantissaEnd(s: string, p: nat): (q: nat)
    requires p <= |s|
    ensures p <= q <= |s|
  {
    var digits := DigitsFrom(s, p, Decimal, false).end;
    if CharAt(s, digits) == '.' && IsDigit(CharAt(s, digits + 1))
    then DigitsFrom(s, digits + 1, Decimal, false).end
    else digits
  }

  /**
   * A decimal exponent at `p` (`e`/`E`, optional sign, digits), or nothing at all when
   * no digit follows the marker and sign: the cursor is then restored to `p`.
   */
  function DecimalExponentEnd(s: string, p: nat): (q: nat)
    requires p <= |s|
    ensures p <= q <= |s|
  {
    if CharAt(s, p) == 'e' || CharAt(s, p) == 'E' then
      var run := DigitsFrom(s, SignEnd(s, p + 1), Decimal, false);
      if run.sawDigit then run.end else p
    else p
  }

  function DecimalNumberEnd(s: string, p: nat): (q: nat)
    requires p <= |s|
    ensures p <= q <= |s|
  {
    SuffixEnd(s, DecimalExponentEnd(s, DecimalMantissaEnd(s, p)), "fFdDlL")
  }

  /** `ReadNumberLiteral`: the end of the numeric literal starting at `p`. */
  function NumberEnd(s: string, p: nat): (q: nat)
    requires p <= |s|
    ensures p <= q <= |s|
  {
    if CharAt(s, p) == '0' && (CharAt(s, p + 1) == 'x' || CharAt(s, p + 1) == 'X') then
      HexNumberEnd(s, p + 2)
    else if CharAt(s, p) == '0' && (CharAt(s, p + 1) == 'b' || CharAt(s, p + 1) == 'B') then
      BinaryNumberEnd(s, p + 2)
    else
      DecimalNumberEnd(s, p)
  }

  // ---------------------------------------------------------------- string and char literals

  /** Where a literal reader stopped, and whether it found the closing quote. */
  datatype Scanned = Scanned(end: nat, closed: bool)

  /** The run of `u` markers of a `\u` escape. */
  function URunEnd(s: string, p: nat): (q: nat)
    requires p <= |s|
    ensures p <= q <= |s|
    decreases |s| - p
  {
    if CharAt(s, p) == 'u' then URunEnd(s, p + 1) else p
  }

  /**
   * An escape inside a string literal, `p` just after the backslash: the `u` markers and
   * up to four more characters, or one character.
   */
  function StringEscapeEnd(s: string, p: nat): (q: nat)
    requires p <= |s|
    ensures p <= q <= |s|
  {
    if p == |s| then p
    else if s[p] == 'u' then Min(URunEnd(s, p) + 4, |s|)
    else p + 1
  }

  /** The rest of a string literal from `p`, after its opening quote. */
  function StringBodyEnd(s: string, p: nat): (r: Scanned)
    requires p <= |s|
    ensures p <= r.end <= |s|
    decreases |s| - p
  {
    if p == |s| then Scanned(p, false)
    else if s[p] == '\\' then StringBodyEnd(s, StringEscapeEnd(s, p + 1))
    else if s[p] == '"' then Scanned(p + 1, true)
    else if IsLineTerminator(s[p]) then Scanned(p + 1, false)
    else StringBodyEnd(s, p + 1)
  }

  /** `ReadStringLiteral`, the opening quote at `p`; at the end of the input it reads nothing. */
  function StringLiteralEnd(s: string, p: nat): (r: Scanned)
    requires p <= |s|
    ensures p <= r.end <= |s| && (p < |s| ==> p < r.end)
  {
    if p == |s| then Scanned(p, false) else StringBodyEnd(s, p + 1)
  }

  /** The closing quote of a character literal, expected at `p`. */
  function CharCloseEnd(s: string, p: nat): (r: Scanned)
    requires p <= |s|
  {
    if p == |s| then Scanned(p, false) else Scanned(p + 1, s[p] == '\'')
  }

  /**
   * `ReadCharLiteral`, the opening quote at `p`: one character, or an escape, then the
   * closing quote. The character after the opening quote is taken whatever it is.
   */
  function CharLiteralEnd(s: string, p: nat): (r: Scanned)
    requires p <= |s|
    ensures p <= r.end <= |s| && (p < |s| ==> p < r.end)
  {
    var q := p + 1;
    if p == |s| then Scanned(p, false)
    else if q == |s| then Scanned(q, false)
    else if s[q] != '\\' then CharCloseEnd(s, q + 1)
    else if q + 1 == |s| then Scanned(q + 1, false)
    else if s[q + 1] == 'u' then
      var u := URunEnd(s, q + 1);
      if u + 4 > |s| then Scanned(|s|, false) else CharCloseEnd(s, u + 4)
    else CharCloseEnd(s, q + 2)
  }

  // ---------------------------------------------------------------- longest match

  /** The `len` characters at `p` form one of the lexemes. */
  predicate MatchesAt(s: string, p: nat, lexemes: set<string>, len: nat)
    requires p + len <= |s|
  {
    s[p..p + len] in lexemes
  }

  /** The countdown search: the largest `n <= len` with s[p..p+n] a lexeme, or 0. */
  function MatchFrom(s: string, p: nat, lexemes: set<string>, len: nat): (n: nat)
    requires p + len <= |s|
    ensures n <= len
    ensures n > 0 ==> MatchesAt(s, p, lexemes, n)
  {
    if len == 0 then 0
    else if MatchesAt(s, p, lexemes, len) then len
    else MatchFrom(s, p, lexemes, len - 1)
  }

  /** The length of the longest lexeme of at most `maxLen` characters at `p`, or 0. */
  function LongestMatch(s: string, p: nat, lexemes: set<string>, maxLen: nat): (n: nat)
    requires p <= |s|
    ensures n <= maxLen && p + n <= |s|
    ensures n > 0 ==> s[p..p + n] in lexemes
  {
    MatchFrom(s, p, lexemes, Min(maxLen, |s| - p))
  }

  // ---------------------------------------------------------------- one call of NextToken

  /** The scanner's mutable state: the cursor and the line-start flag. */
  datatype LexState = LexState(position: nat, atLineStart: bool)

  datatype Stepped = Stepped(token: Token, next: LexState)

  /** The token started at `start` with the given flag, ending at `e`. */
  function Emit(kind: TokenKind, s: string, start: nat, e: nat, fromNewLine: bool): (t: Token)
    requires start <= e <= |s|
    ensures t.startPos == start && |t.value| == e - start
  {
    Token(kind, s[start..e], start, fromNewLine)
  }

  /** `NextToken`: the token produced from state `st`, and the state after it. */
  function Step(s: string, st: LexState): (r: Stepped)
    requires st.position <= |s|
    ensures st.position <= r.token.startPos <= r.next.position <= |s|
    ensures r.token.kind == Eof <==> r.token.startPos == |s|
    ensures r.token.kind == Eof ==> r.token.value == "" && r.next.position == |s|
  {
    var skipped := SkipFrom(s, st.position, false);
    var start := skipped.end;
    var fromNewLine := skipped.sawNewline || (st.atLineStart && start == 0);
    if start == |s| then
      Stepped(Token(Eof, "", start, fromNewLine), LexState(start, fromNewLine))
    else
      TokenAt(s, start, fromNewLine)
  }

  /** The token starting at `start`, chosen by its first character. */
  function TokenAt(s: string, start: nat, fromNewLine: bool): (r: Stepped)
    requires start < |s|
    ensures r.token.kind != Eof && r.token.startPos == start && r.token.isFromNewLine == fromNewLine
    ensures start <= r.next.position <= |s| && (!IsDigit(s[start]) ==> start < r.next.position)
  {
    var c := s[start];
    if IsIdentifierStart(c) then
      var e := IdentifierEnd(s, start + 1);
      Stepped(Emit(WordKind(s[start..e]), s, start, e, fromNewLine), LexState(e, fromNewLine))
    else if IsDigit(c) then
      var e := NumberEnd(s, start);
      Stepped(Emit(Literal, s, start, e, fromNewLine), LexState(e, fromNewLine))
    else if c == '"' then
      var r := StringLiteralEnd(s, start);
      var token :=
        if r.closed then Emit(Literal, s, start, r.end, fromNewLine)
        else Token(Error, UnterminatedString, start, fromNewLine);
      Stepped(token, LexState(r.end, fromNewLine))
    else if c == '\'' then
      var r := CharLiteralEnd(s, start);
      var token :=
        if r.closed then Emit(Literal, s, start, r.end, fromNewLine)
        else Token(Error, UnterminatedChar, start, fromNewLine);
      Stepped(token, LexState(r.end, fromNewLine))
    else
      PunctuationAt(s, start, fromNewLine)
  }

  /**
   * Operators, tried before separators, each by longest match; a character that starts
   * neither is an error token of its own. All three clear the line-start flag.
   */
  function PunctuationAt(s: string, start: nat, fromNewLine: bool): (r: Stepped)
    requires start < |s|
    ensures r.token.kind == Operator || r.token.kind == Separator || r.token.kind == Error
    ensures r.token.startPos == start && r.token.isFromNewLine == fromNewLine && !r.next.atLineStart
    ensures start < r.next.position <= start + MaxOperatorLen && r.next.position <= |s|
    ensures r.token.value == s[start..r.next.position]
  {
    var op := LongestMatch(s, start, OperatorSet, MaxOperatorLen);
    if op > 0 then
      Stepped(Emit(Operator, s, start, start + op, fromNewLine), LexState(start + op, false))
    else
      var sep := LongestMatch(s, start, SeparatorSet, MaxSeparatorLen);
      if sep > 0 then
        Stepped(Emit(Separator, s, start, start + sep, fromNewLine), LexState(start + sep, false))
      else
        Stepped(Emit(Error, s, start, start + 1, fromNewLine), LexState(start + 1, false))
  }
}
