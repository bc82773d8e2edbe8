/**
 * The driving loop of the program: a fresh scanner is asked for tokens until it returns
 * EOF, and every token, the EOF included, is collected in order.
 */
module Driver {
  import opened Tokens
  import opened Keywords
  import opened LexerSpec
  import opened LexerProperties
  import opened Lexer

  /** The tokens produced from state `st` up to and including the first EOF. */
  function TokensFrom(s: string, st: LexState): (ts: seq<Token>)
    requires st.position <= |s|
    decreases |s| - st.position
  {
    var r := Step(s, st);
    StepProgress(s, st);
    if r.token.kind == Eof then [r.token] else [r.token] + TokensFrom(s, r.next)
  }

  /** The token list the program builds for an input text. */
  function Tokenize(s: string): (ts: seq<Token>)
  {
    TokensFrom(s, LexState(0, true))
  }

  /** The program's loop over a fresh scanner: the token list of the whole input. */
  method CollectTokens(inputText: string) returns (tokens: seq<Token>)
    ensures tokens == Tokenize(inputText)
  {
    var lexer := new Lexer(inputText);
    tokens := CollectFrom(lexer);
  }

  /** The do-while loop: ask for tokens, collect each, stop after the EOF. */
  method CollectFrom(lexer: Lexer) returns (tokens: seq<Token>)
    requires lexer.Valid()
    modifies lexer`position, lexer`atLineStart
    ensures tokens == TokensFrom(lexer.input, old(lexer.State()))
    ensures lexer.Valid() && lexer.position == |lexer.input|
  {
    ghost var whole := TokensFrom(lexer.input, lexer.State());
    tokens := [];
    while true
      invariant lexer.Valid()
      invariant tokens + TokensFrom(lexer.input, lexer.State()) == whole
      decreases |lexer.input| - lexer.position
    {
      ghost var rest := TokensFrom(lexer.input, lexer.State());
      var token := Pull(lexer);
      if token.kind == Eof {
        tokens := tokens + [token];
        break;
      }
      ghost var later := TokensFrom(lexer.input, lexer.State());
      assert (tokens + [token]) + later == tokens + rest;
      tokens := tokens + [token];
    }
  }

  /** One round of the loop: the scanner's next token is the front of its token list. */
  method Pull(lexer: Lexer) returns (token: Token)
    requires lexer.Valid()
    modifies lexer`position, lexer`atLineStart
    ensures lexer.Valid()
    ensures lexer.State() == Step(lexer.input, old(lexer.State())).next
    ensures token.kind != Eof ==> old(lexer.position) < lexer.position
    ensures token.kind == Eof ==> lexer.position == |lexer.input|
    ensures TokensFrom(lexer.input, old(lexer.State())) ==
      if token.kind == Eof then [token] else [token] + TokensFrom(lexer.input, lexer.State())
  {
    ghost var before := lexer.State();
    token := lexer.NextToken();
    ghost var t, n := Peel(lexer.input, before);
  }

  // ---------------------------------------------------------------- the token list

  /**
   * One scanner step peels its token off the front of the list and moves forward; the
   * token's text is the consumed slice unless it is EOF or a message.
   */
  lemma Peel(s: string, st: LexState) returns (token: Token, next: LexState)
    requires st.position <= |s|
    ensures Step(s, st) == Stepped(token, next)
    ensures next.position <= |s|
    ensures token.kind == Eof ==> token.startPos == |s| && token.value == ""
    ensures token.kind != Eof ==> st.position <= token.startPos < next.position
    ensures token.startPos == SkipEnd(s, st.position)
    ensures token.kind != Eof && !IsMessage(token) ==> token.value == s[token.startPos..next.position]
    ensures TokensFrom(s, st) == if token.kind == Eof then [token] else [token] + TokensFrom(s, next)
  {
    var r := Step(s, st);
    token, next := r.token, r.next;
    StepProgress(s, st);
    StepValueIsSlice(s, st);
  }

  /** The two error tokens whose text is a message rather than a slice of the input. */
  predicate IsMessage(t: Token)
  {
    t.kind == Error && (t.value == UnterminatedString || t.value == UnterminatedChar)
  }

  /**
   * A token list that ends with its one EOF token, at offset `n`, every other token
   * starting in `[lo, n)`.
   */
  predicate EndsWithEof(ts: seq<Token>, lo: int, n: int)
  {
    |ts| >= 1 && ts[|ts| - 1].kind == Eof && ts[|ts| - 1].startPos == n &&
    forall i :: 0 <= i < |ts| - 1 ==> ts[i].kind != Eof && lo <= ts[i].startPos < n
  }

  /** A token list whose start offsets strictly increase. */
  predicate StartsIncrease(ts: seq<Token>)
  {
    forall i, j :: 0 <= i < j < |ts| ==> ts[i].startPos < ts[j].startPos
  }

  lemma ConsEndsWithEof(t: Token, rest: seq<Token>, lo: int, mid: int, n: int)
    requires t.kind != Eof && lo <= t.startPos < mid <= n && EndsWithEof(rest, mid, n)
    ensures EndsWithEof([t] + rest, lo, n)
  {
    var ts := [t] + rest;
    forall i | 0 <= i < |ts| - 1 ensures ts[i].kind != Eof && lo <= ts[i].startPos < n {
      if i > 0 {
        assert ts[i] == rest[i - 1];
      }
    }
  }

  lemma ConsStartsIncrease(t: Token, rest: seq<Token>, mid: int, n: int)
    requires t.startPos < mid <= n && EndsWithEof(rest, mid, n) && StartsIncrease(rest)
    ensures StartsIncrease([t] + rest)
  {
    var ts := [t] + rest;
    forall i, j | 0 <= i < j < |ts| ensures ts[i].startPos < ts[j].startPos {
      assert ts[j] == rest[j - 1] && mid <= rest[j - 1].startPos;
      if i > 0 {
        assert ts[i] == rest[i - 1];
      } else {
        assert ts[i] == t;
      }
    }
  }

  /**
   * The list ends with the one EOF token, which starts at the end of the input; every
   * other token starts inside the input, after the scanner's position.
   */
  lemma {:induction false} TokensEndWithEof(s: string, st: LexState)
    requires st.position <= |s|
    ensures EndsWithEof(TokensFrom(s, st), st.position, |s|)
    decreases |s| - st.position
  {
    var token, next := Peel(s, st);
    if token.kind != Eof {
      TokensEndWithEof(s, next);
      ConsEndsWithEof(token, TokensFrom(s, next), st.position, next.position, |s|);
    }
  }

  /** Each token starts strictly after the one before it. */
  lemma {:induction false} StartPositionsIncrease(s: string, st: LexState)
    requires st.position <= |s|
    ensures StartsIncrease(TokensFrom(s, st))
    decreases |s| - st.position
  {
    var token, next := Peel(s, st);
    if token.kind != Eof {
      StartPositionsIncrease(s, next);
      TokensEndWithEof(s, next);
      ConsStartsIncrease(token, TokensFrom(s, next), next.position, |s|);
    }
  }

  /**
   * A token list whose texts are in-order slices of `s`: every token before the last one,
   * messages aside, is the text at its offset, and it ends at or before the next token.
   */
  predicate TextsAreSlices(s: string, ts: seq<Token>)
  {
    forall i :: 0 <= i < |ts| - 1 && !IsMessage(ts[i]) ==>
      0 <= ts[i].startPos && ts[i].startPos + |ts[i].value| <= ts[i + 1].startPos &&
      ts[i].startPos + |ts[i].value| <= |s| &&
      s[ts[i].startPos..ts[i].startPos + |ts[i].value|] == ts[i].value
  }

  lemma ConsTextsAreSlices(s: string, t: Token, rest: seq<Token>, mid: int)
    requires t.kind != Eof && 0 <= t.startPos <= mid <= |s| && EndsWithEof(rest, mid, |s|)
    requires !IsMessage(t) ==> t.value == s[t.startPos..mid]
    requires TextsAreSlices(s, rest)
    ensures TextsAreSlices(s, [t] + rest)
  {
    var ts := [t] + rest;
    forall i | 0 <= i < |ts| - 1 && !IsMessage(ts[i])
      ensures 0 <= ts[i].startPos && ts[i].startPos + |ts[i].value| <= ts[i + 1].startPos &&
              ts[i].startPos + |ts[i].value| <= |s| &&
              s[ts[i].startPos..ts[i].startPos + |ts[i].value|] == ts[i].value
    {
      assert ts[i + 1] == rest[i];
      if i > 0 {
        assert ts[i] == rest[i - 1];
      } else {
        assert mid <= rest[0].startPos;
      }
    }
  }

  /**
   * The token texts are in-order slices of the input: each token but the EOF and the
   * messages is the slice of the input at its offset, and the slices do not overlap.
   */
  lemma {:induction false} TokenTextsAreSlices(s: string, st: LexState)
    requires st.position <= |s|
    ensures TextsAreSlices(s, TokensFrom(s, st))
    decreases |s| - st.position
  {
    var token, next := Peel(s, st);
    if token.kind != Eof {
      TokenTextsAreSlices(s, next);
      TokensEndWithEof(s, next);
      ConsTextsAreSlices(s, token, TokensFrom(s, next), next.position);
    }
  }

  /**
   * A token list whose gaps are exactly what the skip phase passes over: the first token
   * starts where skipping from `p` stops, and each token but the last, messages aside,
   * is followed by a token starting where skipping from its end stops.
   */
  predicate GapsAreSkipped(s: string, p: nat, ts: seq<Token>)
    requires p <= |s|
  {
    |ts| >= 1 && ts[0].startPos == SkipEnd(s, p) && GapsFollowTokens(s, ts)
  }

  predicate GapsFollowTokens(s: string, ts: seq<Token>)
  {
    forall i :: 0 <= i < |ts| - 1 && !IsMessage(ts[i]) ==>
      0 <= ts[i].startPos && ts[i].startPos + |ts[i].value| <= |s| &&
      ts[i + 1].startPos == SkipEnd(s, ts[i].startPos + |ts[i].value|)
  }

  lemma ConsGapsAreSkipped(s: string, t: Token, rest: seq<Token>, p: nat, mid: nat)
    requires p <= mid <= |s| && t.startPos == SkipEnd(s, p)
    requires !IsMessage(t) ==> 0 <= t.startPos && t.startPos + |t.value| == mid
    requires GapsAreSkipped(s, mid, rest)
    ensures GapsAreSkipped(s, p, [t] + rest)
  {
    var ts := [t] + rest;
    forall i | 0 <= i < |ts| - 1 && !IsMessage(ts[i])
      ensures 0 <= ts[i].startPos && ts[i].startPos + |ts[i].value| <= |s| &&
              ts[i + 1].startPos == SkipEnd(s, ts[i].startPos + |ts[i].value|)
    {
      assert ts[i + 1] == rest[i];
      if i > 0 {
        assert ts[i] == rest[i - 1];
      } else {
        assert ts[i] == t;
      }
    }
  }

  /**
   * Nothing between two tokens is lost: the text between the end of one token and the
   * start of the next is exactly what the skip phase passes over, blanks, line breaks
   * and comments; with `TokenTextsAreSlices`, the token texts and the skipped gaps make
   * up the input.
   */
  lemma {:induction false} TokenGapsAreSkipped(s: string, st: LexState)
    requires st.position <= |s|
    ensures GapsAreSkipped(s, st.position, TokensFrom(s, st))
    decreases |s| - st.position
  {
    var token, next := Peel(s, st);
    if token.kind != Eof {
      TokenGapsAreSkipped(s, next);
      ConsGapsAreSkipped(s, token, TokensFrom(s, next), st.position, next.position);
    }
  }

  /** The loop terminates: at most one token per character of the input, plus the EOF. */
  lemma {:induction false} TokenCountBound(s: string, st: LexState)
    requires st.position <= |s|
    ensures |TokensFrom(s, st)| <= |s| - st.position + 1
    decreases |s| - st.position
  {
    var token, next := Peel(s, st);
    if token.kind != Eof {
      TokenCountBound(s, next);
    }
  }

  /** The whole input: one EOF, last, at offset |s|, after at most |s| other tokens. */
  lemma TokenizeShape(s: string)
    ensures var ts := Tokenize(s);
      1 <= |ts| <= |s| + 1 && ts[|ts| - 1] == Token(Eof, "", |s|, ts[|ts| - 1].isFromNewLine) &&
      (forall i :: 0 <= i < |ts| - 1 ==> ts[i].kind != Eof) &&
      (forall i, j :: 0 <= i < j < |ts| ==> ts[i].startPos < ts[j].startPos)
  {
    TokensEndWithEof(s, LexState(0, true));
    StartPositionsIncrease(s, LexState(0, true));
    TokenCountBound(s, LexState(0, true));
    TokensEofValue(s, LexState(0, true));
  }

  /** A token list whose last token has the empty text. */
  predicate LastTextEmpty(ts: seq<Token>)
  {
    |ts| >= 1 && ts[|ts| - 1].value == ""
  }

  lemma ConsLastTextEmpty(t: Token, rest: seq<Token>)
    requires LastTextEmpty(rest)
    ensures LastTextEmpty([t] + rest)
  {
    assert ([t] + rest)[|rest|] == rest[|rest| - 1];
  }

  /** The EOF token at the end of the list has the empty text. */
  lemma {:induction false} TokensEofValue(s: string, st: LexState)
    requires st.position <= |s|
    ensures LastTextEmpty(TokensFrom(s, st))
    decreases |s| - st.position
  {
    var token, next := Peel(s, st);
    if token.kind != Eof {
      TokensEofValue(s, next);
      ConsLastTextEmpty(token, TokensFrom(s, next));
    }
  }

  // ---------------------------------------------------------------- examples

  /** The empty input: just EOF at 0, at the start of the first line. */
  lemma EmptyInput()
    ensures Tokenize("") == [Token(Eof, "", 0, true)]
  {
  }

  /** `...` is three `.` operators, never the separator `...`. */
  lemma EllipsisScansAsThreeDots()
    ensures Tokenize("...") == [Token(Operator, ".", 0, true), Token(Operator, ".", 1, false),
                                Token(Operator, ".", 2, false), Token(Eof, "", 3, false)]
  {
    var s := "...";
    DotSteps();
    assert TokensFrom(s, LexState(3, false)) == [Token(Eof, "", 3, false)];
    assert TokensFrom(s, LexState(2, false)) == [Token(Operator, ".", 2, false)] + TokensFrom(s, LexState(3, false));
    assert TokensFrom(s, LexState(1, false)) == [Token(Operator, ".", 1, false)] + TokensFrom(s, LexState(2, false));
  }

  lemma DotSteps()
    ensures Step("...", LexState(0, true)) == Stepped(Token(Operator, ".", 0, true), LexState(1, false))
    ensures Step("...", LexState(1, false)) == Stepped(Token(Operator, ".", 1, false), LexState(2, false))
    ensures Step("...", LexState(2, false)) == Stepped(Token(Operator, ".", 2, false), LexState(3, false))
  {
    var s := "...";
    assert "..." !in OperatorSet && ".." !in OperatorSet && "." in OperatorSet;
    assert s[0..3] == "..." && s[0..2] == ".." && s[0..1] == "." && s[1..3] == ".." && s[1..2] == "." && s[2..3] == ".";
    assert MatchFrom(s, 0, OperatorSet, 2) == 1;
    assert LongestMatch(s, 0, OperatorSet, MaxOperatorLen) == 1;
    assert MatchFrom(s, 1, OperatorSet, 2) == 1;
    assert LongestMatch(s, 1, OperatorSet, MaxOperatorLen) == 1;
    assert LongestMatch(s, 2, OperatorSet, MaxOperatorLen) == 1;
  }

  /**
   * An unterminated string ended by a lone line terminator swallows it, so the token on
   * the next line is not marked as starting a line.
   */
  lemma UnterminatedStringHidesLineBreak()
    ensures Tokenize("\"a\nb") == [Token(Error, UnterminatedString, 0, true),
                                  Token(Identifier, "b", 3, false), Token(Eof, "", 4, false)]
  {
    var s := "\"a\nb";
    assert StringBodyEnd(s, 2) == Scanned(3, false);
    assert Step(s, LexState(0, true)) == Stepped(Token(Error, UnterminatedString, 0, true), LexState(3, true));
    assert s[3..4] == "b" && "b" !in KeywordSet;
    assert Step(s, LexState(3, true)) == Stepped(Token(Identifier, "b", 3, false), LexState(4, false));
    assert TokensFrom(s, LexState(4, false)) == [Token(Eof, "", 4, false)];
    assert TokensFrom(s, LexState(3, true)) == [Token(Identifier, "b", 3, false)] + TokensFrom(s, LexState(4, false));
  }

  /**
   * An unterminated string ended by `\r\n` takes only the `\r`: the skip phase then reads
   * the `\n`, and the token on the next line is marked as starting a line.
   */
  lemma UnterminatedStringKeepsCrLfBreak()
    ensures Tokenize("\"a\r\nb") == [Token(Error, UnterminatedString, 0, true),
                                    Token(Identifier, "b", 4, true), Token(Eof, "", 5, false)]
  {
    var s := "\"a\r\nb";
    assert StringBodyEnd(s, 2) == Scanned(3, false);
    assert Step(s, LexState(0, true)) == Stepped(Token(Error, UnterminatedString, 0, true), LexState(3, true));
    assert SkipFrom(s, 3, false) == Skipped(4, true);
    assert s[4..5] == "b" && "b" !in KeywordSet;
    assert Step(s, LexState(3, true)) == Stepped(Token(Identifier, "b", 4, true), LexState(5, true));
    assert TokensFrom(s, LexState(5, true)) == [Token(Eof, "", 5, false)];
    assert TokensFrom(s, LexState(3, true)) == [Token(Identifier, "b", 4, true)] + TokensFrom(s, LexState(5, true));
  }

  /**
   * The line that a lone terminator hides is only one line: when a blank line follows, the
   * skip phase reads its break, and the token after it is marked as starting a line.
   */
  lemma UnterminatedStringThenBlankLine()
    ensures Tokenize("\"a\n\nb") == [Token(Error, UnterminatedString, 0, true),
                                     Token(Identifier, "b", 4, true), Token(Eof, "", 5, false)]
  {
    var s := "\"a\n\nb";
    assert StringBodyEnd(s, 2) == Scanned(3, false);
    assert Step(s, LexState(0, true)) == Stepped(Token(Error, UnterminatedString, 0, true), LexState(3, true));
    assert SkipFrom(s, 3, false) == Skipped(4, true);
    assert s[4..5] == "b" && "b" !in KeywordSet;
    assert Step(s, LexState(3, true)) == Stepped(Token(Identifier, "b", 4, true), LexState(5, true));
    assert TokensFrom(s, LexState(5, true)) == [Token(Eof, "", 5, false)];
    assert TokensFrom(s, LexState(3, true)) == [Token(Identifier, "b", 4, true)] + TokensFrom(s, LexState(5, true));
  }

  /** An escaped quote does not close a string: `"\""` is one literal. */
  lemma EscapedQuoteStaysInString()
    ensures Tokenize("\"\\\"\"") == [Token(Literal, "\"\\\"\"", 0, true), Token(Eof, "", 4, false)]
  {
    var s := "\"\\\"\"";
    assert StringBodyEnd(s, 1) == Scanned(4, true);
    assert Step(s, LexState(0, true)) == Stepped(Token(Literal, s, 0, true), LexState(4, true));
    assert TokensFrom(s, LexState(4, true)) == [Token(Eof, "", 4, false)];
  }

  /** A backslash before a line break carries the string onto the next line. */
  lemma EscapedLineBreakContinuesString()
    ensures Tokenize("\"a\\\nb\"") == [Token(Literal, "\"a\\\nb\"", 0, true), Token(Eof, "", 6, false)]
  {
    var s := "\"a\\\nb\"";
    assert StringBodyEnd(s, 1) == Scanned(6, true);
    assert Step(s, LexState(0, true)) == Stepped(Token(Literal, s, 0, true), LexState(6, true));
    assert TokensFrom(s, LexState(6, true)) == [Token(Eof, "", 6, false)];
  }

  /** The four characters of a `\u` escape are taken unchecked, a quote among them. */
  lemma UnicodeEscapeSkipsQuote()
    ensures Tokenize("\"\\u\"abc\"") == [Token(Literal, "\"\\u\"abc\"", 0, true), Token(Eof, "", 8, false)]
  {
    var s := "\"\\u\"abc\"";
    assert URunEnd(s, 2) == 3;
    assert StringBodyEnd(s, 1) == Scanned(8, true);
    assert Step(s, LexState(0, true)) == Stepped(Token(Literal, s, 0, true), LexState(8, true));
    assert TokensFrom(s, LexState(8, true)) == [Token(Eof, "", 8, false)];
  }

  /** An underscore not followed by a digit ends the number: `1__000` is `1` and `__000`. */
  lemma DoubleUnderscoreSplitsNumber()
    ensures Tokenize("1__000") == [Token(Literal, "1", 0, true), Token(Identifier, "__000", 1, false),
                                   Token(Eof, "", 6, false)]
  {
    var s := "1__000";
    SplitNumberLiteralStep();
    SplitNumberWordStep();
    assert TokensFrom(s, LexState(6, false)) == [Token(Eof, "", 6, false)];
    assert TokensFrom(s, LexState(1, true)) == [Token(Identifier, "__000", 1, false)] + TokensFrom(s, LexState(6, false));
  }

  lemma SplitNumberLiteralStep()
    ensures Step("1__000", LexState(0, true)) == Stepped(Token(Literal, "1", 0, true), LexState(1, true))
  {
    var s := "1__000";
    assert DigitsFrom(s, 0, Decimal, false) == DigitRun(1, true);
    assert NumberEnd(s, 0) == 1;
  }

  lemma SplitNumberWordStep()
    ensures Step("1__000", LexState(1, true)) == Stepped(Token(Identifier, "__000", 1, false), LexState(6, false))
  {
    var s := "1__000";
    assert IdentifierEnd(s, 2) == 6;
    assert s[1..6] == "__000" && "__000" !in KeywordSet;
  }

  /** An exponent without digits is given back: `1e+` is `1`, `e` and `+`. */
  lemma ExponentWithoutDigitsRollsBack()
    ensures Tokenize("1e+") == [Token(Literal, "1", 0, true), Token(Identifier, "e", 1, false),
                                Token(Operator, "+", 2, false), Token(Eof, "", 3, false)]
  {
    var s := "1e+";
    RolledBackLiteralStep();
    RolledBackMarkerStep();
    RolledBackSignStep();
    assert TokensFrom(s, LexState(3, false)) == [Token(Eof, "", 3, false)];
    assert TokensFrom(s, LexState(2, false)) == [Token(Operator, "+", 2, false)] + TokensFrom(s, LexState(3, false));
    assert TokensFrom(s, LexState(1, true)) == [Token(Identifier, "e", 1, false)] + TokensFrom(s, LexState(2, false));
  }

  lemma RolledBackLiteralStep()
    ensures Step("1e+", LexState(0, true)) == Stepped(Token(Literal, "1", 0, true), LexState(1, true))
  {
    var s := "1e+";
    assert DigitsFrom(s, 0, Decimal, false) == DigitRun(1, true);
    assert DigitsFrom(s, 3, Decimal, false) == DigitRun(3, false);
    assert NumberEnd(s, 0) == 1;
  }

  lemma RolledBackMarkerStep()
    ensures Step("1e+", LexState(1, true)) == Stepped(Token(Identifier, "e", 1, false), LexState(2, false))
  {
    var s := "1e+";
    assert IdentifierEnd(s, 2) == 2;
    assert s[1..2] == "e" && "e" !in KeywordSet;
  }

  lemma RolledBackSignStep()
    ensures Step("1e+", LexState(2, false)) == Stepped(Token(Operator, "+", 2, false), LexState(3, false))
  {
    var s := "1e+";
    assert s[2..3] == "+" && "+" in OperatorSet;
    assert LongestMatch(s, 2, OperatorSet, MaxOperatorLen) == 1;
  }

  /** The character literal accepts a bare quote between its quotes: `'''`. */
  lemma QuoteCharLiteral()
    ensures Tokenize("'''") == [Token(Literal, "'''", 0, true), Token(Eof, "", 3, false)]
  {
    var s := "'''";
    assert CharLiteralEnd(s, 0) == Scanned(3, true);
    assert Step(s, LexState(0, true)) == Stepped(Token(Literal, "'''", 0, true), LexState(3, true));
    assert TokensFrom(s, LexState(3, true)) == [Token(Eof, "", 3, false)];
  }

  /** An empty char literal at the end of the input is an error: `''` has no closing quote. */
  lemma EmptyCharLiteralAtEnd()
    ensures Tokenize("''") == [Token(Error, UnterminatedChar, 0, true), Token(Eof, "", 2, false)]
  {
    var s := "''";
    assert CharLiteralEnd(s, 0) == Scanned(2, false);
    assert Step(s, LexState(0, true)) == Stepped(Token(Error, UnterminatedChar, 0, true), LexState(2, true));
    assert TokensFrom(s, LexState(2, true)) == [Token(Eof, "", 2, false)];
  }

  /** A hexadecimal `p` exponent is kept even without digits: `0x1p` is one literal. */
  lemma HexExponentMarkerStays()
    ensures Tokenize("0x1p") == [Token(Literal, "0x1p", 0, true), Token(Eof, "", 4, false)]
  {
    var s := "0x1p";
    assert DigitsFrom(s, 2, Hexadecimal, false) == DigitRun(3, true);
    assert DigitsFrom(s, 4, Decimal, false) == DigitRun(4, false);
    assert NumberEnd(s, 0) == 4;
    assert Step(s, LexState(0, true)) == Stepped(Token(Literal, "0x1p", 0, true), LexState(4, true));
    assert TokensFrom(s, LexState(4, true)) == [Token(Eof, "", 4, false)];
  }

  /** Spaces before the first token hide the start of the line: `  a` is not flagged. */
  lemma LeadingSpacesHideLineStart()
    ensures Tokenize("  a") == [Token(Identifier, "a", 2, false), Token(Eof, "", 3, false)]
  {
    var s := "  a";
    assert SkipFrom(s, 0, false) == Skipped(2, false);
    assert s[2..3] == "a" && "a" !in KeywordSet;
    assert Step(s, LexState(0, true)) == Stepped(Token(Identifier, "a", 2, false), LexState(3, false));
    assert TokensFrom(s, LexState(3, false)) == [Token(Eof, "", 3, false)];
  }

  /** An underscore between digits stays inside the number: `1_000` is one literal. */
  lemma UnderscoreBetweenDigits()
    ensures Tokenize("1_000") == [Token(Literal, "1_000", 0, true), Token(Eof, "", 5, false)]
  {
    var s := "1_000";
    assert DigitsFrom(s, 0, Decimal, false) == DigitRun(5, true);
    assert NumberEnd(s, 0) == 5;
    assert Step(s, LexState(0, true)) == Stepped(Token(Literal, "1_000", 0, true), LexState(5, true));
    assert TokensFrom(s, LexState(5, true)) == [Token(Eof, "", 5, false)];
  }

  /** A `.` with no digit after it is not part of the number: `1.` is `1` and `.`. */
  lemma TrailingDotIsOperator()
    ensures Tokenize("1.") == [Token(Literal, "1", 0, true), Token(Operator, ".", 1, false),
                               Token(Eof, "", 2, false)]
  {
    var s := "1.";
    assert DigitsFrom(s, 0, Decimal, false) == DigitRun(1, true);
    assert NumberEnd(s, 0) == 1;
    assert Step(s, LexState(0, true)) == Stepped(Token(Literal, "1", 0, true), LexState(1, true));
    assert s[1..2] == "." && "." in OperatorSet;
    assert LongestMatch(s, 1, OperatorSet, MaxOperatorLen) == 1;
    assert Step(s, LexState(1, true)) == Stepped(Token(Operator, ".", 1, false), LexState(2, false));
    assert TokensFrom(s, LexState(2, false)) == [Token(Eof, "", 2, false)];
    assert TokensFrom(s, LexState(1, true)) == [Token(Operator, ".", 1, false)] + TokensFrom(s, LexState(2, false));
  }
}
