/**
 * The reserved words split into alphabetical runs, a device for counting them:
 * each run is small, and the runs are told apart by their initial letters.
 */
module KeywordRuns {

  /** The reserved words in alphabetical runs, for counting them. */
  const KeywordsAToC: set<string> := {
    "abstract", "assert", "boolean", "break", "byte", "case", "catch", "char", "class", "continue"}

  const KeywordsDToF: set<string> := {
    "default", "do", "double", "else", "enum", "extends", "final", "finally", "float", "for"}

  const KeywordsIToP: set<string> := {
    "if", "implements", "import", "instanceof", "int", "interface",
    "long", "native", "new", "package", "private", "protected", "public"}

  const KeywordsRToS: set<string> := {
    "return", "short", "static", "strictfp", "super", "switch", "synchronized"}

  const KeywordsTToW: set<string> := {
    "this", "throw", "throws", "transient", "try", "void", "volatile", "while"}

  const KeywordsRToW: set<string> := KeywordsRToS + KeywordsTToW

  /** Each run is told apart from the others by its initial letters. */
  lemma AToCInitials() ensures forall w :: w in KeywordsAToC ==> |w| > 0 && 'a' <= w[0] <= 'c' {}

  lemma DToFInitials() ensures forall w :: w in KeywordsDToF ==> |w| > 0 && 'd' <= w[0] <= 'f' {}

  lemma IToPInitials() ensures forall w :: w in KeywordsIToP ==> |w| > 0 && 'i' <= w[0] <= 'p' {}

  lemma RToSInitials() ensures forall w :: w in KeywordsRToS ==> |w| > 0 && 'r' <= w[0] <= 's' {}

  lemma TToWInitials() ensures forall w :: w in KeywordsTToW ==> |w| > 0 && 't' <= w[0] <= 'w' {}

  lemma RToWInitials()
    ensures forall w :: w in KeywordsRToW ==> |w| > 0 && 'r' <= w[0] <= 'w'
  {
    RToSInitials();
    TToWInitials();
  }

  lemma KeywordsAToCSize() ensures |KeywordsAToC| == 10 {}

  lemma KeywordsDToFSize() ensures |KeywordsDToF| == 10 {}

  lemma KeywordsIToPSize() ensures |KeywordsIToP| == 13 {}

  lemma KeywordsRToSSize() ensures |KeywordsRToS| == 7 {}

  lemma KeywordsTToWSize() ensures |KeywordsTToW| == 8 {}

  lemma KeywordsRToWSize()
    ensures |KeywordsRToW| == 15
  {
    RToSInitials();
    TToWInitials();
    KeywordsRToSSize();
    KeywordsTToWSize();
    assert KeywordsRToS * KeywordsTToW == {};
  }
}

/**
 * The fixed lexeme registry: reserved words, literal words, operators and separators,
 * each a case-sensitive set of strings with an exact-membership test.
 *
 * The two large sets are written as comprehensions over their displays: membership in
 * them then unfolds to one flat disjunction of string comparisons, which the verifier
 * decides quickly; the sets denoted are exactly the displays.
 */
module Keywords {

  import opened KeywordRuns

  const KeywordSet: set<string> := set k | k in {
    "abstract", "assert",
    "boolean", "break", "byte",
    "case", "catch", "char", "class", "continue",
    "default", "do", "double",
    "else", "enum", "extends",
    "final", "finally", "float", "for",
    "if", "implements", "import", "instanceof", "int", "interface",
    "long",
    "native", "new",
    "package", "private", "protected", "public",
    "return",
    "short", "static", "strictfp", "super", "switch", "synchronized",
    "this", "throw", "throws", "transient", "try",
    "void", "volatile",
    "while"
  }

  const LiteralSet: set<string> := {"true", "false", "null"}

  const OperatorSet: set<string> := set op | op in {
    "+", "-", "*", "/", "%",
    "++", "--",
    "==", "!=", "<", ">", "<=", ">=",
    "&&", "||", "!",
    "&", "|", "^", "~",
    "<<", ">>", ">>>",
    "=", "+=", "-=", "*=", "/=", "%=",
    "&=", "|=", "^=",
    "<<=", ">>=", ">>>=",
    "?", ":", "->", "::", "."
  }

  const SeparatorSet: set<string> := {"(", ")", "{", "}", "[", "]", ";", ",", "..."}

  /**
   * Exact, ordinal membership: no case folding, no trimming. Reserved words and literal
   * words are lower-case letters only; operators and separators are punctuation only.
   */
  predicate IsKeyword(value: string)
    ensures IsKeyword(value) ==>
              2 <= |value| <= 12 && forall i :: 0 <= i < |value| ==> 'a' <= value[i] <= 'z'
  {
    value in KeywordSet
  }

  predicate IsLiteral(value: string)
    ensures IsLiteral(value) ==>
              4 <= |value| <= 5 && forall i :: 0 <= i < |value| ==> 'a' <= value[i] <= 'z'
  {
    value in LiteralSet
  }

  predicate IsOperator(value: string)
    ensures IsOperator(value) ==>
              1 <= |value| <= 4 && forall i :: 0 <= i < |value| ==> value[i] in "+-*/%=!<>&|^~?:."
  {
    value in OperatorSet
  }

  predicate IsSeparator(value: string)
    ensures IsSeparator(value) ==>
              1 <= |value| <= 3 && forall i :: 0 <= i < |value| ==> value[i] in "(){}[];,."
  {
    value in SeparatorSet
  }

  lemma RunsAreKeywords()
    ensures KeywordsAToC <= KeywordSet && KeywordsDToF <= KeywordSet
    ensures KeywordsIToP <= KeywordSet && KeywordsRToS <= KeywordSet && KeywordsTToW <= KeywordSet
  {
  }

  lemma KeywordsAreInRuns()
    ensures forall w :: w in KeywordSet ==>
      w in KeywordsAToC || w in KeywordsDToF || w in KeywordsIToP || w in KeywordsRToS || w in KeywordsTToW
  {
  }

  lemma KeywordRunsCover()
    ensures KeywordSet == (KeywordsAToC + KeywordsDToF) + (KeywordsIToP + KeywordsRToW)
  {
    RunsAreKeywords();
    KeywordsAreInRuns();
  }

  lemma FirstRunsSize()
    ensures |KeywordsAToC + KeywordsDToF| == 20
  {
    AToCInitials();
    DToFInitials();
    KeywordsAToCSize();
    KeywordsDToFSize();
    assert KeywordsAToC * KeywordsDToF == {};
  }

  lemma LastRunsSize()
    ensures |KeywordsIToP + KeywordsRToW| == 28
  {
    IToPInitials();
    RToWInitials();
    KeywordsIToPSize();
    KeywordsRToWSize();
    assert KeywordsIToP * KeywordsRToW == {};
  }

  lemma FirstRunsMissIToP()
    ensures (KeywordsAToC + KeywordsDToF) * KeywordsIToP == {}
  {
    AToCInitials();
    DToFInitials();
    IToPInitials();
  }

  lemma FirstRunsMissRToW()
    ensures (KeywordsAToC + KeywordsDToF) * KeywordsRToW == {}
  {
    AToCInitials();
    DToFInitials();
    RToWInitials();
  }

  lemma FirstAndLastRunsDisjoint()
    ensures (KeywordsAToC + KeywordsDToF) * (KeywordsIToP + KeywordsRToW) == {}
  {
    FirstRunsMissIToP();
    FirstRunsMissRToW();
  }

  /** There are 48 reserved words: the list has no repeated entry. */
  lemma KeywordCount()
    ensures |KeywordSet| == 48
  {
    KeywordRunsCover();
    FirstRunsSize();
    LastRunsSize();
    FirstAndLastRunsDisjoint();
  }

  /** `const` and `goto` are not reserved here, and membership is case-sensitive. */
  lemma KeywordExclusions()
    ensures !IsKeyword("const") && !IsKeyword("goto")
    ensures IsKeyword("int") && !IsKeyword("Int") && !IsKeyword("INT")
  {
  }

  /** `true`, `false` and `null` are literal words and only that. */
  lemma KeywordsAndLiteralsDisjoint()
    ensures KeywordSet * LiteralSet == {}
    ensures LiteralSet == {"true", "false", "null"}
    ensures !IsLiteral("True") && !IsLiteral("NULL")
  {
  }

  /** No lexeme is both; `.` is an operator and `...` a separator. */
  lemma OperatorsAndSeparatorsDisjoint()
    ensures OperatorSet * SeparatorSet == {}
    ensures IsOperator(".") && !IsSeparator(".")
    ensures IsSeparator("...") && !IsOperator("...") && !IsOperator("..") && !IsSeparator("..")
  {
  }

  /** Every operator has 1 to 4 characters, and `>>>=` has 4. */
  lemma OperatorLengths()
    ensures forall op :: op in OperatorSet ==> 1 <= |op| <= 4
    ensures ">>>=" in OperatorSet && |">>>="| == 4
  {
  }

  /** Every separator has 1 to 3 characters, and `...` has 3. */
  lemma SeparatorLengths()
    ensures forall sep :: sep in SeparatorSet ==> 1 <= |sep| <= 3
    ensures "..." in SeparatorSet && |"..."| == 3
  {
  }

  /** The first character of every longer operator is an operator by itself. */
  lemma OperatorPrefixClosed()
    ensures forall op :: op in OperatorSet && |op| > 1 ==> [op[0]] in OperatorSet
  {
  }
}
