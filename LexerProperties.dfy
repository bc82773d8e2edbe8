/**
 * What the scanner guarantees, stated over the functions of LexerSpec: what each phase
 * consumes and where it stops, and for one call of `NextToken` the progress of the
 * cursor, the classification of words, longest matching of operators and separators,
 * the line-start flag, and the text of every token.
 */
module LexerProperties {
  import opened Tokens
  import opened Keywords
  import opened LexerSpec

  // ---------------------------------------------------------------- line terminators

  lemma HasLineTerminatorSplit(s: string, i: nat, k: nat, j: nat)
    requires i <= k <= j <= |s|
    ensures HasLineTerminator(s, i, j) <==> HasLineTerminator(s, i, k) || HasLineTerminator(s, k, j)
  {
    if HasLineTerminator(s, i, j) {
      var m :| i <= m < j && IsLineTerminator(s[m]);
      if m < k {
        assert HasLineTerminator(s, i, k);
      } else {
        assert HasLineTerminator(s, k, j);
      }
    }
  }

  // ---------------------------------------------------------------- the skip phase

  /** A `//` comment contains no line terminator, and stops at one or at the end. */
  lemma {:induction false} LineCommentStops(s: string, p: nat)
    requires p <= |s|
    ensures var q := LineCommentEnd(s, p);
      !HasLineTerminator(s, p, q) && (q == |s| || IsLineTerminator(s[q]))
    decreases |s| - p
  {
    if p < |s| && !IsLineTerminator(s[p]) {
      LineCommentStops(s, p + 1);
      HasLineTerminatorSplit(s, p, p + 1, LineCommentEnd(s, p));
    }
  }

  lemma LineBreakIsLineTerminator(s: string, p: nat)
    requires p < |s| && IsLineTerminator(s[p])
    ensures HasLineTerminator(s, p, LineBreakEnd(s, p))
  {
    assert IsLineTerminator(s[p]);
  }

  /** A block comment records a line break exactly when it contains a line terminator. */
  lemma {:induction false} BlockCommentNewline(s: string, p: nat, saw: bool)
    requires p <= |s|
    ensures var r := BlockCommentEnd(s, p, saw);
      r.sawNewline <==> saw || HasLineTerminator(s, p, r.end)
    decreases |s| - p
  {
    var r := BlockCommentEnd(s, p, saw);
    if p == |s| {
    } else if s[p] == '*' && CharAt(s, p + 1) == '/' {
      assert !HasLineTerminator(s, p, p + 2) by {
        assert !IsLineTerminator(s[p]) && !IsLineTerminator(s[p + 1]);
      }
    } else if IsLineTerminator(s[p]) {
      var q := LineBreakEnd(s, p);
      BlockCommentNewline(s, q, true);
      LineBreakIsLineTerminator(s, p);
      HasLineTerminatorSplit(s, p, q, r.end);
    } else {
      BlockCommentNewline(s, p + 1, saw);
      HasLineTerminatorSplit(s, p, p + 1, r.end);
    }
  }

  /**
   * The skip phase records a line break exactly when the text it skipped contains a
   * `\r` or `\n`, whether as a line break of its own or inside a block comment.
   */
  lemma {:induction false} SkipNewline(s: string, p: nat, saw: bool)
    requires p <= |s|
    ensures var r := SkipFrom(s, p, saw);
      r.sawNewline <==> saw || HasLineTerminator(s, p, r.end)
    decreases |s| - p
  {
    var r := SkipFrom(s, p, saw);
    if p == |s| {
    } else if IsBlank(s[p]) {
      SkipNewline(s, p + 1, saw);
      HasLineTerminatorSplit(s, p, p + 1, r.end);
    } else if IsLineTerminator(s[p]) {
      var q := LineBreakEnd(s, p);
      SkipNewline(s, q, true);
      LineBreakIsLineTerminator(s, p);
      HasLineTerminatorSplit(s, p, q, r.end);
    } else if s[p] == '/' && CharAt(s, p + 1) == '/' {
      var q := LineCommentEnd(s, p + 2);
      LineCommentStops(s, p + 2);
      SkipNewline(s, q, saw);
      HasLineTerminatorSplit(s, p, p + 2, q);
      HasLineTerminatorSplit(s, p, q, r.end);
    } else if s[p] == '/' && CharAt(s, p + 1) == '*' {
      var b := BlockCommentEnd(s, p + 2, saw);
      BlockCommentNewline(s, p + 2, saw);
      SkipNewline(s, b.end, b.sawNewline);
      HasLineTerminatorSplit(s, p, p + 2, b.end);
      HasLineTerminatorSplit(s, p, b.end, r.end);
    }
  }

  /** A character where a token may start: not blank, no line break, no comment opener. */
  predicate StartsToken(s: string, e: nat)
    requires e < |s|
  {
    !IsBlank(s[e]) && !IsLineTerminator(s[e]) &&
    !(s[e] == '/' && (CharAt(s, e + 1) == '/' || CharAt(s, e + 1) == '*'))
  }

  /** The skip phase stops at the end of the input or where a token may start. */
  lemma {:induction false} SkipStops(s: string, p: nat, saw: bool)
    requires p <= |s|
    ensures var e := SkipFrom(s, p, saw).end; e == |s| || StartsToken(s, e)
    decreases |s| - p
  {
    if p == |s| {
    } else if IsBlank(s[p]) {
      SkipStops(s, p + 1, saw);
    } else if IsLineTerminator(s[p]) {
      SkipStops(s, LineBreakEnd(s, p), true);
    } else if s[p] == '/' && CharAt(s, p + 1) == '/' {
      SkipStops(s, LineCommentEnd(s, p + 2), saw);
    } else if s[p] == '/' && CharAt(s, p + 1) == '*' {
      var b := BlockCommentEnd(s, p + 2, saw);
      SkipStops(s, b.end, b.sawNewline);
    }
  }

  // ---------------------------------------------------------------- identifiers and digits

  /** An identifier run is maximal: identifier characters up to one that is not. */
  lemma {:induction false} IdentifierRunMaximal(s: string, p: nat)
    requires p <= |s|
    ensures var q := IdentifierEnd(s, p);
      (forall k :: p <= k < q ==> IsIdentifierPart(s[k])) && (q == |s| || !IsIdentifierPart(s[q]))
    decreases |s| - p
  {
    if p < |s| && IsIdentifierPart(s[p]) {
      IdentifierRunMaximal(s, p + 1);
    }
  }

  /** At `k` the digit-run reader takes the character: a digit, or `_` before a digit. */
  predicate TakesDigitChar(s: string, k: nat, r: Radix)
    requires k < |s|
  {
    IsRadixDigit(r, s[k]) || (s[k] == '_' && IsRadixDigit(r, CharAt(s, k + 1)))
  }

  /**
   * The underscore rule: the run holds digits of the radix and underscores each followed
   * by such a digit, and it is maximal; it saw a digit iff one of its characters is one.
   */
  lemma {:induction false} DigitRunShape(s: string, p: nat, r: Radix, saw: bool)
    requires p <= |s|
    ensures var d := DigitsFrom(s, p, r, saw);
      (forall k :: p <= k < d.end ==> TakesDigitChar(s, k, r)) &&
      (d.end == |s| || !TakesDigitChar(s, d.end, r)) &&
      (d.sawDigit <==> saw || exists k :: p <= k < d.end && IsRadixDigit(r, s[k]))
    decreases |s| - p
  {
    var d := DigitsFrom(s, p, r, saw);
    if p == |s| {
    } else if IsRadixDigit(r, s[p]) {
      DigitRunShape(s, p + 1, r, true);
    } else if s[p] == '_' && IsRadixDigit(r, CharAt(s, p + 1)) {
      DigitRunShape(s, p + 1, r, saw);
      if d.sawDigit && !saw {
        var k :| p + 1 <= k < d.end && IsRadixDigit(r, s[k]);
      }
    }
  }

  /** A digit run that starts on a digit consumes it and reports a digit. */
  lemma DigitRunStartsOnDigit(s: string, p: nat, r: Radix)
    requires p < |s| && IsRadixDigit(r, s[p])
    ensures DigitsFrom(s, p, r, false).end > p && DigitsFrom(s, p, r, false).sawDigit
  {
    DigitRunShape(s, p + 1, r, true);
  }

  // ---------------------------------------------------------------- numeric literals

  /** A numeric literal consumes at least the digit it starts with. */
  lemma NumberProgress(s: string, p: nat)
    requires p < |s| && IsDigit(s[p])
    ensures p < NumberEnd(s, p) <= |s|
  {
    if !(s[p] == '0' && (CharAt(s, p + 1) == 'x' || CharAt(s, p + 1) == 'X' ||
                        CharAt(s, p + 1) == 'b' || CharAt(s, p + 1) == 'B')) {
      DigitRunStartsOnDigit(s, p, Decimal);
    }
  }

  /**
   * A decimal `.` belongs to the literal only when a digit follows it: otherwise the
   * mantissa ends just before the `.`.
   */
  lemma DecimalPointNeedsDigit(s: string, p: nat)
    requires p <= |s|
    ensures var d := DigitsFrom(s, p, Decimal, false).end;
      DecimalMantissaEnd(s, p) == d <==> !(CharAt(s, d) == '.' && IsDigit(CharAt(s, d + 1)))
  {
  }

  /**
   * The exponent is speculative: when `e`/`E` and the optional sign are not followed by a
   * digit (or by `_` and a digit), the literal ends right before the `e`, with no suffix.
   */
  lemma DecimalExponentRollback(s: string, p: nat)
    requires p <= |s|
    ensures var m := DecimalMantissaEnd(s, p);
      (CharAt(s, m) == 'e' || CharAt(s, m) == 'E') &&
      !DigitsFrom(s, SignEnd(s, m + 1), Decimal, false).sawDigit
      ==> DecimalNumberEnd(s, p) == m
  {
  }

  /** An accepted exponent contains at least one digit after the marker and sign. */
  lemma DecimalExponentHasDigit(s: string, m: nat)
    requires m <= |s|
    ensures var e := DecimalExponentEnd(s, m);
      e == m || (exists k :: m < k < e && IsDigit(s[k]))
  {
    if CharAt(s, m) == 'e' || CharAt(s, m) == 'E' {
      var q := SignEnd(s, m + 1);
      DigitRunShape(s, q, Decimal, false);
    }
  }

  /** The hexadecimal `p` marker is never rolled back: it is part of the literal. */
  lemma HexExponentMarkerKept(s: string, p: nat)
    requires p + 2 <= |s| && s[p] == '0' && (s[p + 1] == 'x' || s[p + 1] == 'X')
    ensures var m := HexMantissaEnd(s, p + 2);
      (CharAt(s, m) == 'p' || CharAt(s, m) == 'P') ==> NumberEnd(s, p) > m
  {
  }

  // ---------------------------------------------------------------- string and char literals

  /**
   * A string literal ends right after its closing quote, or, unterminated, right after
   * the line terminator that stopped it, or at the end of the input.
   */
  lemma {:induction false} StringBodyStops(s: string, p: nat)
    requires p <= |s|
    ensures var r := StringBodyEnd(s, p);
      (r.closed ==> p < r.end && s[r.end - 1] == '"') &&
      (!r.closed ==> r.end == |s| || (p < r.end && IsLineTerminator(s[r.end - 1])))
    decreases |s| - p
  {
    if p == |s| {
    } else if s[p] == '\\' {
      StringBodyStops(s, StringEscapeEnd(s, p + 1));
    } else if s[p] == '"' {
    } else if IsLineTerminator(s[p]) {
    } else {
      StringBodyStops(s, p + 1);
    }
  }

  /** Without a backslash, the string stops at its first quote or line terminator. */
  lemma {:induction false} PlainStringStops(s: string, p: nat, k: nat)
    requires p <= k < |s|
    requires forall i :: p <= i < k ==> s[i] != '\\' && s[i] != '"' && !IsLineTerminator(s[i])
    requires s[k] == '"' || IsLineTerminator(s[k])
    ensures StringBodyEnd(s, p) == Scanned(k + 1, s[k] == '"')
    decreases k - p
  {
    if p < k {
      PlainStringStops(s, p + 1, k);
    }
  }

  /**
   * The escape rule of the string reader: a backslash takes the next character whatever
   * it is, a quote or a line terminator included, and `\u` takes its `u` markers and the
   * four characters after them unchecked; the scan goes on after the escape.
   */
  lemma StringEscapeSkipped(s: string, p: nat)
    requires p + 1 < |s| && s[p] == '\\'
    ensures s[p + 1] != 'u' ==> StringBodyEnd(s, p) == StringBodyEnd(s, p + 2)
    ensures s[p + 1] == 'u' ==>
              StringBodyEnd(s, p) == StringBodyEnd(s, Min(URunEnd(s, p + 1) + 4, |s|))
  {
  }

  /**
   * An accepted character literal is a quote, one character or an escape, and a closing
   * quote: three characters without a backslash, four with a plain escape, and with a
   * `\u` escape its `u` markers and exactly four more characters.
   */
  lemma CharLiteralShape(s: string, p: nat)
    requires p < |s|
    ensures var r := CharLiteralEnd(s, p);
      r.closed ==> p + 3 <= r.end && s[r.end - 1] == '\'' &&
                   (s[p + 1] != '\\' ==> r.end == p + 3) &&
                   (s[p + 1] == '\\' ==>
                      p + 2 < |s| && r.end == if s[p + 2] == 'u' then URunEnd(s, p + 2) + 5 else p + 4)
  {
  }

  /**
   * Any character but a backslash, the quote included, may stand between the two quotes;
   * a backslash is read as the start of an escape.
   */
  lemma CharLiteralAnyFirst(s: string, p: nat)
    requires p + 3 <= |s| && s[p + 1] != '\\' && s[p + 2] == '\''
    ensures CharLiteralEnd(s, p) == Scanned(p + 3, true)
  {
  }

  /**
   * The converse of `CharLiteralShape`: a literal is accepted exactly when it has one of
   * the three shapes, a plain character, a plain escape, or a `\u` escape with its `u`
   * markers and four more characters, each followed by the closing quote.
   */
  lemma CharLiteralAccepted(s: string, p: nat)
    requires p < |s|
    ensures CharLiteralEnd(s, p).closed <==>
      (p + 3 <= |s| && s[p + 1] != '\\' && s[p + 2] == '\'') ||
      (p + 4 <= |s| && s[p + 1] == '\\' && s[p + 2] != 'u' && s[p + 3] == '\'') ||
      (p + 2 < |s| && s[p + 1] == '\\' && s[p + 2] == 'u' &&
       URunEnd(s, p + 2) + 5 <= |s| && s[URunEnd(s, p + 2) + 4] == '\'')
  {
  }

  // ---------------------------------------------------------------- longest match

  /**
   * The countdown search finds the longest lexeme: the result is a lexeme (or 0) and no
   * longer candidate up to the bound is one.
   */
  lemma {:induction false} MatchFromLongest(s: string, p: nat, lexemes: set<string>, len: nat)
    requires p + len <= |s|
    ensures var n := MatchFrom(s, p, lexemes, len);
      (n > 0 ==> s[p..p + n] in lexemes) &&
      (forall l :: n < l <= len ==> !MatchesAt(s, p, lexemes, l))
  {
    if len > 0 && !MatchesAt(s, p, lexemes, len) {
      MatchFromLongest(s, p, lexemes, len - 1);
    }
  }

  lemma LongestMatchIsLongest(s: string, p: nat, lexemes: set<string>, maxLen: nat)
    requires p <= |s|
    ensures var n := LongestMatch(s, p, lexemes, maxLen);
      n <= maxLen && p + n <= |s| &&
      (n > 0 ==> s[p..p + n] in lexemes) &&
      (forall l :: n < l <= Min(maxLen, |s| - p) ==> !MatchesAt(s, p, lexemes, l))
  {
    MatchFromLongest(s, p, lexemes, Min(maxLen, |s| - p));
  }

  // ---------------------------------------------------------------- one call of NextToken

  /** Where the skip phase stops when it starts at `p`. */
  function SkipEnd(s: string, p: nat): (e: nat)
    requires p <= |s|
    ensures p <= e <= |s|
  {
    SkipFrom(s, p, false).end
  }

  /** Where the token of a step starts: the end of the skip phase. */
  function TokenStart(s: string, st: LexState): (start: nat)
    requires st.position <= |s|
    ensures st.position <= start <= |s|
  {
    SkipEnd(s, st.position)
  }

  /**
   * Progress and bounds: a non-EOF token starts at the end of the skip phase and moves
   * the cursor past it, never beyond the input; EOF comes exactly at the end of the
   * input and leaves the cursor there.
   */
  lemma StepProgress(s: string, st: LexState)
    requires st.position <= |s|
    ensures var r := Step(s, st);
      r.token.startPos == TokenStart(s, st) && r.next.position <= |s| &&
      (r.token.kind == Eof <==> r.token.startPos == |s|) &&
      (r.token.kind == Eof ==> r.next.position == |s|) &&
      (r.token.kind != Eof ==> st.position <= r.token.startPos < r.next.position)
  {
    var start := TokenStart(s, st);
    if start < |s| && IsDigit(s[start]) && !IsIdentifierStart(s[start]) {
      NumberProgress(s, start);
    }
  }

  /**
   * The line-start flag: a token is flagged iff the skip phase before it passed a line
   * terminator, or the token starts at offset 0 of a fresh scanner.
   */
  lemma StepLineStart(s: string, st: LexState)
    requires st.position <= |s|
    ensures Step(s, st).token.isFromNewLine <==>
      HasLineTerminator(s, st.position, TokenStart(s, st)) || (st.atLineStart && TokenStart(s, st) == 0)
  {
    SkipNewline(s, st.position, false);
  }

  /**
   * Words: a maximal run of identifier characters after an identifier start, classified
   * as keyword, else literal word, else identifier; the value is the exact run.
   */
  lemma StepWord(s: string, st: LexState)
    requires st.position <= |s|
    requires TokenStart(s, st) < |s| && IsIdentifierStart(s[TokenStart(s, st)])
    ensures var start, r := TokenStart(s, st), Step(s, st);
      var word := r.token.value;
      word == s[start..r.next.position] &&
      (forall k :: start < k < r.next.position ==> IsIdentifierPart(s[k])) &&
      (r.next.position == |s| || !IsIdentifierPart(s[r.next.position])) &&
      (r.token.kind == Keyword <==> word in KeywordSet) &&
      (r.token.kind == Literal <==> word !in KeywordSet && word in LiteralSet) &&
      (r.token.kind == Identifier <==> word !in KeywordSet && word !in LiteralSet)
  {
    IdentifierRunMaximal(s, TokenStart(s, st) + 1);
  }

  /** The characters that make the scanner try operators at all. */
  predicate StartsNoLiteral(c: char)
  {
    !IsIdentifierStart(c) && !IsDigit(c) && c != '"' && c != '\''
  }

  /**
   * Operators: when no word, number, string or char literal starts here and some prefix
   * of at most four characters is an operator, the token is the longest such prefix.
   */
  lemma StepOperator(s: string, st: LexState)
    requires st.position <= |s|
    requires TokenStart(s, st) < |s| && StartsNoLiteral(s[TokenStart(s, st)])
    requires exists l ::
               0 < l <= Min(MaxOperatorLen, |s| - TokenStart(s, st)) &&
               MatchesAt(s, TokenStart(s, st), OperatorSet, l)
    ensures var start, r := TokenStart(s, st), Step(s, st);
      var op := r.token.value;
      r.token.kind == Operator && op in OperatorSet && 1 <= |op| <= MaxOperatorLen &&
      r.next == LexState(start + |op|, false) && op == s[start..start + |op|] &&
      (forall l :: |op| < l <= Min(MaxOperatorLen, |s| - start) ==> !MatchesAt(s, start, OperatorSet, l))
  {
    LongestMatchIsLongest(s, TokenStart(s, st), OperatorSet, MaxOperatorLen);
  }

  /**
   * Separators are tried only after operators: a separator token means that no prefix
   * of at most four characters is an operator, and it is the longest separator prefix.
   */
  lemma StepSeparator(s: string, st: LexState)
    requires st.position <= |s|
    requires Step(s, st).token.kind == Separator
    ensures var start, r := TokenStart(s, st), Step(s, st);
      var sep := r.token.value;
      start < |s| && StartsNoLiteral(s[start]) &&
      (forall l :: 0 < l <= Min(MaxOperatorLen, |s| - start) ==> !MatchesAt(s, start, OperatorSet, l)) &&
      sep in SeparatorSet && 1 <= |sep| <= MaxSeparatorLen &&
      r.next == LexState(start + |sep|, false) && sep == s[start..start + |sep|] &&
      (forall l :: |sep| < l <= Min(MaxSeparatorLen, |s| - start) ==> !MatchesAt(s, start, SeparatorSet, l))
  {
    var start := TokenStart(s, st);
    if start < |s| && StartsNoLiteral(s[start]) {
      LongestMatchIsLongest(s, start, OperatorSet, MaxOperatorLen);
      LongestMatchIsLongest(s, start, SeparatorSet, MaxSeparatorLen);
    }
  }

  /**
   * The converse of `StepSeparator`: when nothing else starts here, no prefix of at most
   * four characters is an operator and some prefix of at most three is a separator, the
   * token is the longest such separator prefix.
   */
  lemma StepSeparatorWhenNoOperator(s: string, st: LexState)
    requires st.position <= |s|
    requires TokenStart(s, st) < |s| && StartsNoLiteral(s[TokenStart(s, st)])
    requires forall l :: 0 < l <= Min(MaxOperatorLen, |s| - TokenStart(s, st)) ==>
      !MatchesAt(s, TokenStart(s, st), OperatorSet, l)
    requires exists l ::
               0 < l <= Min(MaxSeparatorLen, |s| - TokenStart(s, st)) &&
               MatchesAt(s, TokenStart(s, st), SeparatorSet, l)
    ensures var start, r := TokenStart(s, st), Step(s, st);
      var sep := r.token.value;
      r.token.kind == Separator && sep in SeparatorSet && 1 <= |sep| <= MaxSeparatorLen &&
      r.next == LexState(start + |sep|, false) && sep == s[start..start + |sep|] &&
      (forall l :: |sep| < l <= Min(MaxSeparatorLen, |s| - start) ==> !MatchesAt(s, start, SeparatorSet, l))
  {
    var start := TokenStart(s, st);
    LongestMatchIsLongest(s, start, OperatorSet, MaxOperatorLen);
    LongestMatchIsLongest(s, start, SeparatorSet, MaxSeparatorLen);
  }

  /**
   * A `.` always starts an operator, since `.` itself is one and operators are tried
   * first; so the separator `...` is never produced, and `...` scans as three `.`.
   */
  lemma DotIsAlwaysOperator(s: string, st: LexState)
    requires st.position <= |s|
    requires TokenStart(s, st) < |s| && s[TokenStart(s, st)] == '.'
    ensures Step(s, st).token.kind == Operator
    ensures Step(s, st).token.value != "..."
  {
    var start := TokenStart(s, st);
    LongestMatchIsLongest(s, start, OperatorSet, MaxOperatorLen);
    assert MatchesAt(s, start, OperatorSet, 1) by {
      assert s[start..start + 1] == ".";
    }
    assert "..." !in OperatorSet;
  }

  /** No token is the separator `...`. */
  lemma EllipsisNeverSeparator(s: string, st: LexState)
    requires st.position <= |s|
    ensures Step(s, st).token.kind == Separator ==> Step(s, st).token.value != "..."
  {
    var start := TokenStart(s, st);
    if Step(s, st).token.kind == Separator {
      StepSeparator(s, st);
      if Step(s, st).token.value == "..." {
        assert s[start] == '.';
        DotIsAlwaysOperator(s, st);
      }
    }
  }

  /**
   * A character that starts nothing: an error token holding just that character, and
   * the cursor moves by exactly one.
   */
  lemma StepUnrecognized(s: string, st: LexState)
    requires st.position <= |s|
    requires TokenStart(s, st) < |s| && StartsNoLiteral(s[TokenStart(s, st)])
    requires forall l :: 0 < l <= Min(MaxOperatorLen, |s| - TokenStart(s, st)) ==>
      !MatchesAt(s, TokenStart(s, st), OperatorSet, l)
    requires forall l :: 0 < l <= Min(MaxSeparatorLen, |s| - TokenStart(s, st)) ==>
      !MatchesAt(s, TokenStart(s, st), SeparatorSet, l)
    ensures var start, r := TokenStart(s, st), Step(s, st);
      r.token.kind == Error && r.token.value == [s[start]] &&
      r.next == LexState(start + 1, false)
  {
    var start := TokenStart(s, st);
    LongestMatchIsLongest(s, start, OperatorSet, MaxOperatorLen);
    LongestMatchIsLongest(s, start, SeparatorSet, MaxSeparatorLen);
  }

  /**
   * An unterminated string gives the error message at the opening quote, and the cursor
   * stays after the line terminator that ended the attempt, or at the end of the input.
   */
  lemma StepUnterminatedString(s: string, st: LexState)
    requires st.position <= |s|
    requires TokenStart(s, st) < |s| && s[TokenStart(s, st)] == '"'
    requires Step(s, st).token.kind == Error
    ensures var start, r := TokenStart(s, st), Step(s, st);
      r.token.value == UnterminatedString && r.token.startPos == start &&
      (r.next.position == |s| || IsLineTerminator(s[r.next.position - 1]))
  {
    StringBodyStops(s, TokenStart(s, st) + 1);
  }

  /** A string literal token is the whole literal up to and including its closing quote. */
  lemma StepStringLiteral(s: string, st: LexState)
    requires st.position <= |s|
    requires TokenStart(s, st) < |s| && s[TokenStart(s, st)] == '"'
    requires Step(s, st).token.kind == Literal
    ensures var start, r := TokenStart(s, st), Step(s, st);
      r.token.value == s[start..r.next.position] && |r.token.value| >= 2 &&
      r.token.value[0] == '"' && r.token.value[|r.token.value| - 1] == '"'
  {
    StringBodyStops(s, TokenStart(s, st) + 1);
  }

  /** The token text: every token but EOF and the two messages is the consumed slice. */
  lemma StepValueIsSlice(s: string, st: LexState)
    requires st.position <= |s|
    ensures var r := Step(s, st);
      r.token.kind == Eof || r.token.value == s[r.token.startPos..r.next.position] ||
      (r.token.kind == Error && (r.token.value == UnterminatedString || r.token.value == UnterminatedChar))
  {
  }

  /**
   * Once at EOF, the scanner stays there: the next call yields EOF at the same offset
   * again, flagged only when the input is empty.
   */
  lemma StepEofRepeats(s: string, st: LexState)
    requires st.position <= |s|
    requires Step(s, st).token.kind == Eof
    ensures var r := Step(s, st); var r2 := Step(s, r.next);
      r2.token.kind == Eof && r2.token.startPos == r.token.startPos &&
      r2.next.position == r.next.position &&
      (r2.token.isFromNewLine <==> |s| == 0 && r.token.isFromNewLine)
  {
    StepProgress(s, st);
  }
}
