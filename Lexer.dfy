/**
 * The scanner object: a fixed input text, a cursor and the line-start flag, updated in
 * place by `NextToken` and its helpers. Every method is proved to compute the function of
 * module LexerSpec that describes it, so the lemmas of LexerProperties apply to the
 * tokens it returns.
 */
module Lexer {
  import opened Wrappers
  import opened Tokens
  import opened Keywords
  import opened LexerSpec

  class Lexer {
    const input: string
    var position: nat
    var atLineStart: bool

    /** The cursor never passes the end of the input. */
    ghost predicate Valid()
      reads this
    {
      position <= |input|
    }

    /** The part of the object that `NextToken` changes. */
    function State(): (st: LexState)
      reads this
    {
      LexState(position, atLineStart)
    }

    /** A fresh scanner stands at offset 0, at the start of a line. */
    constructor (inputText: string)
      ensures Valid() && input == inputText && State() == LexState(0, true)
    {
      input := inputText;
      position := 0;
      atLineStart := true;
    }

    /** Within a valid state, the end is reached exactly at the input length. */
    predicate IsEof()
      reads this
      ensures Valid() ==> (IsEof() <==> position == |input|)
    {
      position >= |input|
    }

    /** The character `lookahead` places after the cursor, or '\0' past the end. */
    function Peek(lookahead: nat): (c: char)
      reads this
      ensures position + lookahead < |input| ==> c == input[position + lookahead]
      ensures |input| <= position + lookahead ==> c == '\0'
    {
      CharAt(input, position + lookahead)
    }

    /** The character under the cursor, which moves past it; '\0' at the end, with no move. */
    method Next() returns (c: char)
      requires Valid()
      modifies this`position
      ensures Valid()
      ensures c == CharAt(input, old(position))
      ensures position == if old(position) < |input| then old(position) + 1 else old(position)
    {
      if IsEof() {
        return '\0';
      }
      c := input[position];
      position := position + 1;
    }

    /** Consumes a line break, `\r\n` as one. */
    method SkipLineBreak()
      requires Valid() && position < |input| && IsLineTerminator(input[position])
      modifies this`position
      ensures Valid() && position == LineBreakEnd(input, old(position))
    {
      if Peek(0) == '\r' {
        var _ := Next();
        if Peek(0) == '\n' {
          var _ := Next();
        }
      } else {
        var _ := Next();
      }
    }

    /** Consumes the body of a `//` comment, up to the line terminator. */
    method SkipLineComment()
      requires Valid()
      modifies this`position
      ensures Valid() && position == LineCommentEnd(input, old(position))
    {
      while !IsEof() && Peek(0) != '\n' && Peek(0) != '\r'
        invariant Valid()
        invariant LineCommentEnd(input, position) == LineCommentEnd(input, old(position))
        decreases |input| - position
      {
        var _ := Next();
      }
    }

    /** Consumes the body of a block comment and its star-slash, noting line breaks. */
    method SkipBlockComment(saw: bool) returns (sawNewline: bool)
      requires Valid()
      modifies this`position
      ensures Valid()
      ensures BlockCommentEnd(input, old(position), saw) == Skipped(position, sawNewline)
    {
      sawNewline := saw;
      while !IsEof()
        invariant Valid()
        invariant BlockCommentEnd(input, position, sawNewline) == BlockCommentEnd(input, old(position), saw)
        decreases |input| - position
      {
        if Peek(0) == '*' && Peek(1) == '/' {
          var _ := Next();
          var _ := Next();
          break;
        }
        if Peek(0) == '\r' || Peek(0) == '\n' {
          SkipLineBreak();
          sawNewline := true;
        } else {
          var _ := Next();
        }
      }
    }

    /**
     * One round of the skipping loop: a blank, a line break or a comment is consumed, or
     * the character in front starts a token and nothing moves.
     */
    method SkipGapPiece(saw: bool) returns (sawNewline: bool, skipped: bool)
      requires Valid() && position < |input|
      modifies this`position
      ensures Valid()
      ensures skipped ==>
                old(position) < position &&
                SkipFrom(input, position, sawNewline) == SkipFrom(input, old(position), saw)
      ensures !skipped ==>
                position == old(position) && sawNewline == saw &&
                SkipFrom(input, position, saw) == Skipped(position, saw)
    {
      sawNewline, skipped := saw, true;
      var c := Peek(0);
      if IsBlank(c) {
        var _ := Next();
      } else if c == '\r' || c == '\n' {
        sawNewline := true;
        SkipLineBreak();
      } else if c == '/' && Peek(1) == '/' {
        var _ := Next();
        var _ := Next();
        SkipLineComment();
      } else if c == '/' && Peek(1) == '*' {
        var _ := Next();
        var _ := Next();
        sawNewline := SkipBlockComment(sawNewline);
      } else {
        skipped := false;
      }
    }

    /**
     * Skips blanks, line breaks and comments; the line-start flag then says whether a line
     * break was skipped, or whether a fresh scanner is still at offset 0.
     */
    method SkipWhitespaceAndComments()
      requires Valid()
      modifies this`position, this`atLineStart
      ensures Valid()
      ensures var r := SkipFrom(input, old(position), false);
        position == r.end && atLineStart == (r.sawNewline || (old(atLineStart) && position == 0))
    {
      var sawNewline := false;
      while !IsEof()
        invariant Valid() && atLineStart == old(atLineStart)
        invariant SkipFrom(input, position, sawNewline) == SkipFrom(input, old(position), false)
        decreases |input| - position
      {
        var skipped;
        sawNewline, skipped := SkipGapPiece(sawNewline);
        if !skipped {
          break;
        }
      }
      atLineStart := sawNewline || (atLineStart && position == 0);
    }

    /**
     * `ConsumeDigitsAllowUnderscore`: a run of digits of the radix, an underscore taken
     * only before such a digit; whether a digit was seen.
     */
    method ConsumeDigitsAllowUnderscore(radix: Radix) returns (sawDigit: bool)
      requires Valid()
      modifies this`position
      ensures Valid()
      ensures DigitsFrom(input, old(position), radix, false) == DigitRun(position, sawDigit)
    {
      sawDigit := false;
      while !IsEof()
        invariant Valid()
        invariant DigitsFrom(input, position, radix, sawDigit) == DigitsFrom(input, old(position), radix, false)
        decreases |input| - position
      {
        if IsRadixDigit(radix, Peek(0)) {
          sawDigit := true;
          var _ := Next();
          continue;
        }
        if Peek(0) == '_' && IsRadixDigit(radix, Peek(1)) {
          var _ := Next();
          continue;
        }
        break;
      }
    }

    /** Consumes one character of `suffixes`, if the cursor is on one. */
    method SkipSuffix(suffixes: string)
      requires Valid() && '\0' !in suffixes
      modifies this`position
      ensures Valid() && position == SuffixEnd(input, old(position), suffixes)
    {
      if !IsEof() && Peek(0) in suffixes {
        var _ := Next();
      }
    }

    /** `ReadNumberLiteral`: the text of the hexadecimal, binary or decimal literal. */
    method ReadNumberLiteral() returns (num: string)
      requires Valid()
      modifies this`position
      ensures Valid() && old(position) <= position
      ensures position == NumberEnd(input, old(position)) && num == input[old(position)..position]
    {
      var start := position;
      if Peek(0) == '0' && (Peek(1) == 'x' || Peek(1) == 'X') {
        var _ := Next();
        var _ := Next();
        ReadHexNumber();
        return input[start..position];
      }
      if Peek(0) == '0' && (Peek(1) == 'b' || Peek(1) == 'B') {
        var _ := Next();
        var _ := Next();
        var _ := ConsumeDigitsAllowUnderscore(Binary);
        SkipSuffix("lL");
        return input[start..position];
      }
      ReadDecimalNumber();
      return input[start..position];
    }

    /** The hexadecimal branch of `ReadNumberLiteral`, after the `0x`. */
    method ReadHexNumber()
      requires Valid()
      modifies this`position
      ensures Valid() && position == HexNumberEnd(input, old(position))
    {
      ReadHexMantissa();
      if Peek(0) == 'p' || Peek(0) == 'P' {
        var _ := Next();
        SkipSuffix("+-");
        var _ := ConsumeDigitsAllowUnderscore(Decimal);
        SkipSuffix("fFdD");
      } else {
        SkipSuffix("lL");
      }
    }

    /** The hexadecimal digits and the fraction, when a hex digit or `_` follows the `.`. */
    method ReadHexMantissa()
      requires Valid()
      modifies this`position
      ensures Valid() && position == HexMantissaEnd(input, old(position))
    {
      var _ := ConsumeDigitsAllowUnderscore(Hexadecimal);
      if Peek(0) == '.' {
        if IsHexDigit(Peek(1)) || Peek(1) == '_' {
          var _ := Next();
          var _ := ConsumeDigitsAllowUnderscore(Hexadecimal);
        }
      }
    }

    method ReadDecimalNumber()
      requires Valid()
      modifies this`position
      ensures Valid() && position == DecimalNumberEnd(input, old(position))
    {
      ReadDecimalMantissa();
      ReadDecimalExponent();
      SkipSuffix("fFdDlL");
    }

    /** The decimal digits and the fraction, when a digit follows the `.`. */
    method ReadDecimalMantissa()
      requires Valid()
      modifies this`position
      ensures Valid() && position == DecimalMantissaEnd(input, old(position))
    {
      var _ := ConsumeDigitsAllowUnderscore(Decimal);
      if Peek(0) == '.' {
        if IsDigit(Peek(1)) {
          var _ := Next();
          var _ := ConsumeDigitsAllowUnderscore(Decimal);
        }
      }
    }

    /** An exponent, given back to the saved position when no digit follows its marker. */
    method ReadDecimalExponent()
      requires Valid()
      modifies this`position
      ensures Valid() && position == DecimalExponentEnd(input, old(position))
    {
      if Peek(0) == 'e' || Peek(0) == 'E' {
        var save := position;
        var _ := Next();
        SkipSuffix("+-");
        var expDigits := ConsumeDigitsAllowUnderscore(Decimal);
        if !expDigits {
          position := save;
        }
      }
    }

    /** Consumes the `u` markers of a `\u` escape. */
    method SkipUnicodeMarkers()
      requires Valid()
      modifies this`position
      ensures Valid() && position == URunEnd(input, old(position))
    {
      while Peek(0) == 'u'
        invariant Valid()
        invariant URunEnd(input, position) == URunEnd(input, old(position))
        decreases |input| - position
      {
        var _ := Next();
      }
    }

    /**
     * `ReadStringLiteral`: the literal with its quotes, or None when a line terminator or
     * the end of the input comes first.
     */
    method ReadStringLiteral() returns (str: Option<string>)
      requires Valid()
      modifies this`position
      ensures Valid() && old(position) <= position
      ensures var r := StringLiteralEnd(input, old(position));
        position == r.end && str == if r.closed then Some(input[old(position)..position]) else None
    {
      var start := position;
      var open := Next();
      if start == |input| {
        return None;
      }
      while !IsEof()
        invariant Valid() && start < position
        invariant StringBodyEnd(input, position) == StringBodyEnd(input, start + 1)
        decreases |input| - position
      {
        var c := Next();
        if c == '\\' {
          if !IsEof() {
            if Peek(0) == 'u' {
              SkipUnicodeMarkers();
              var u := position;
              var i := 0;
              while i < 4 && !IsEof()
                invariant Valid() && 0 <= i <= 4 && position == u + i
                decreases 4 - i
              {
                var _ := Next();
                i := i + 1;
              }
            } else {
              var _ := Next();
            }
          }
          continue;
        }
        if c == '"' {
          return Some(input[start..position]);
        }
        if c == '\r' || c == '\n' {
          return None;
        }
      }
      return None;
    }

    /**
     * `ReadCharLiteral`: a quote, one character or an escape, and the closing quote; None
     * when the input ends first or the closing character is not a quote.
     */
    method ReadCharLiteral() returns (ch: Option<string>)
      requires Valid()
      modifies this`position
      ensures Valid() && old(position) <= position
      ensures var r := CharLiteralEnd(input, old(position));
        position == r.end && ch == if r.closed then Some(input[old(position)..position]) else None
    {
      var start := position;
      var open := Next();
      if IsEof() {
        return None;
      }
      var first := Next();
      if first == '\\' {
        if IsEof() {
          return None;
        }
        if Peek(0) == 'u' {
          SkipUnicodeMarkers();
          var i := 0;
          while i < 4
            invariant Valid() && 0 <= i <= 4 && position == URunEnd(input, start + 2) + i
            decreases 4 - i
          {
            if IsEof() {
              return None;
            }
            var _ := Next();
            i := i + 1;
          }
        } else {
          var _ := Next();
        }
      }
      if IsEof() {
        return None;
      }
      var closing := Next();
      if closing != '\'' {
        return None;
      }
      return Some(input[start..position]);
    }

    /**
     * The countdown search of `NextToken` over the lexemes at the cursor: the length of the
     * longest one of at most `maxLen` characters, or 0. The state is not changed.
     */
    method LongestMatchHere(lexemes: set<string>, maxLen: nat) returns (len: nat)
      requires Valid()
      ensures len == LongestMatch(input, position, lexemes, maxLen)
    {
      var remain := |input| - position;
      len := Min(maxLen, remain);
      while len > 0
        invariant len <= remain
        invariant MatchFrom(input, position, lexemes, len) == LongestMatch(input, position, lexemes, maxLen)
      {
        var candidate := input[position..position + len];
        if candidate in lexemes {
          return len;
        }
        len := len - 1;
      }
    }

    /** The word branch of `NextToken`: an identifier run, classified. */
    method ReadWord(isFromNewLine: bool) returns (token: Token)
      requires Valid() && position < |input| && IsIdentifierStart(input[position])
      modifies this`position
      ensures Valid()
      ensures TokenAt(input, old(position), isFromNewLine) == Stepped(token, LexState(position, isFromNewLine))
    {
      var start := position;
      var _ := Next();
      while !IsEof() && IsIdentifierPart(Peek(0))
        invariant Valid() && start < position
        invariant IdentifierEnd(input, position) == IdentifierEnd(input, start + 1)
        decreases |input| - position
      {
        var _ := Next();
      }
      var val := input[start..position];
      if IsKeyword(val) {
        return Token(Keyword, val, start, isFromNewLine);
      }
      if IsLiteral(val) {
        return Token(Literal, val, start, isFromNewLine);
      }
      return Token(Identifier, val, start, isFromNewLine);
    }

    /**
     * The last part of `NextToken`: the longest operator, else the longest separator,
     * else the one unrecognized character as an error token.
     */
    method ReadPunctuation(isFromNewLine: bool) returns (token: Token)
      requires Valid() && position < |input|
      modifies this`position, this`atLineStart
      ensures Valid()
      ensures PunctuationAt(input, old(position), isFromNewLine) == Stepped(token, State())
    {
      var start := position;
      var op := LongestMatchHere(OperatorSet, MaxOperatorLen);
      if op > 0 {
        var candidate := input[position..position + op];
        position := position + op;
        atLineStart := false;
        return Token(Operator, candidate, start, isFromNewLine);
      }
      var sep := LongestMatchHere(SeparatorSet, MaxSeparatorLen);
      if sep > 0 {
        var candidate := input[position..position + sep];
        position := position + sep;
        atLineStart := false;
        return Token(Separator, candidate, start, isFromNewLine);
      }
      var bad := Next();
      assert [bad] == input[start..start + 1];
      atLineStart := false;
      return Token(Error, [bad], start, isFromNewLine);
    }

    /**
     * `NextToken`: skips what separates tokens and reads one token, which is the token of
     * `Step` from the state before the call; the state after it is `Step`'s next state.
     */
    method NextToken() returns (token: Token)
      requires Valid()
      modifies this`position, this`atLineStart
      ensures Valid()
      ensures Step(input, old(State())) == Stepped(token, State())
    {
      SkipWhitespaceAndComments();
      var start := position;
      var isFromNewLine := atLineStart;
      if IsEof() {
        return Token(Eof, "", position, isFromNewLine);
      }
      assert Step(input, old(State())) == TokenAt(input, start, isFromNewLine);
      var c := Peek(0);
      if IsIdentifierStart(c) {
        token := ReadWord(isFromNewLine);
        return;
      }
      if IsDigit(c) {
        var num := ReadNumberLiteral();
        return Token(Literal, num, start, isFromNewLine);
      }
      if c == '"' {
        var str := ReadStringLiteral();
        if str.None? {
          return Token(Error, UnterminatedString, start, isFromNewLine);
        }
        return Token(Literal, str.value, start, isFromNewLine);
      }
      if c == '\'' {
        var ch := ReadCharLiteral();
        if ch.None? {
          return Token(Error, UnterminatedChar, start, isFromNewLine);
        }
        return Token(Literal, ch.value, start, isFromNewLine);
      }
      token := ReadPunctuation(isFromNewLine);
    }
  }
}
