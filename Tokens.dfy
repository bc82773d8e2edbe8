/**
 * The token value types of the lexer: the closed set of token kinds, the immutable
 * token record with its textual rendering, and the literal token that also carries
 * a type tag.
 */
module Tokens {

  /** The seven token kinds, in their declared order. */
  datatype TokenKind = Eof | Error | Identifier | Keyword | Literal | Operator | Separator

  /** Position of a kind in the declaration (the value `CompareTo` orders by). */
  function Ordinal(k: TokenKind): (n: nat)
    ensures n < 7
  {
    match k
    case Eof => 0
    case Error => 1
    case Identifier => 2
    case Keyword => 3
    case Literal => 4
    case Operator => 5
    case Separator => 6
  }

  /** Distinct kinds have distinct positions in the declaration. */
  lemma OrdinalInjective(k1: TokenKind, k2: TokenKind)
    requires Ordinal(k1) == Ordinal(k2)
    ensures k1 == k2
  {
  }

  /**
   * A token: its kind, its text (the consumed source slice, or a diagnostic for some
   * errors), the offset where it starts and whether it is the first token of a line.
   * Equality of datatype values is structural, as for the C# record.
   */
  datatype Token = Token(kind: TokenKind, value: string, startPos: int, isFromNewLine: bool)

  /** The rendering prefix of every kind except end-of-file. */
  function Prefix(k: TokenKind): (p: string)
    requires k != Eof
    ensures 2 <= |p| <= 3 && 'E' <= p[0] <= 'S'
  {
    match k
    case Error => "ERR"
    case Identifier => "ID"
    case Keyword => "KEY"
    case Literal => "LIT"
    case Operator => "OP"
    case Separator => "SEP"
  }

  /** `Token.ToString`: "EOF", or PREFIX(Value). */
  function Render(t: Token): (r: string)
    ensures t.kind == Eof <==> r == "EOF"
    ensures t.kind != Eof ==> |r| == |Prefix(t.kind)| + |t.value| + 2 && r[|r| - 1] == ')'
  {
    if t.kind == Eof then "EOF" else Prefix(t.kind) + "(" + t.value + ")"
  }

  /** Strips the prefix of kind `k` and the enclosing parentheses from a rendering. */
  function UnRender(k: TokenKind, r: string): (v: string)
    requires k != Eof
    requires |Prefix(k)| + 2 <= |r|
    ensures |v| == |r| - |Prefix(k)| - 2
  {
    r[|Prefix(k)| + 1 .. |r| - 1]
  }

  /** Every non-EOF rendering is the kind's prefix, '(' , the value and ')'. */
  lemma RenderShape(t: Token)
    requires t.kind != Eof
    ensures var r := Render(t);
      |r| == |Prefix(t.kind)| + |t.value| + 2 &&
      r[..|Prefix(t.kind)|] == Prefix(t.kind) && r[|Prefix(t.kind)|] == '(' && r[|r| - 1] == ')'
  {
  }

  /** Stripping prefix and parentheses from the rendering gives back the value. */
  lemma RenderRoundTrip(t: Token)
    requires t.kind != Eof
    ensures |Prefix(t.kind)| + 2 <= |Render(t)|
    ensures UnRender(t.kind, Render(t)) == t.value
  {
    var p := Prefix(t.kind);
    var r := Render(t);
    assert r == p + ("(" + t.value + ")");
    assert r[|p| + 1 .. |r| - 1] == t.value;
  }

  lemma PrefixHasNoParen(k: TokenKind)
    requires k != Eof
    ensures 2 <= |Prefix(k)| <= 3
    ensures forall i :: 0 <= i < |Prefix(k)| ==> Prefix(k)[i] != '('
  {
  }

  /**
   * The rendering determines the kind, and for every kind but EOF also the value:
   * no two tokens that differ in kind or value print the same.
   */
  lemma RenderInjective(t1: Token, t2: Token)
    requires Render(t1) == Render(t2)
    ensures t1.kind == t2.kind
    ensures t1.kind != Eof ==> t1.value == t2.value
  {
    if t1.kind != Eof && t2.kind != Eof {
      RenderShape(t1);
      RenderShape(t2);
      PrefixHasNoParen(t1.kind);
      PrefixHasNoParen(t2.kind);
      var r, p1, p2 := Render(t1), Prefix(t1.kind), Prefix(t2.kind);
      // the first '(' of the rendering ends the prefix, so both prefixes have one length
      assert |p1| == |p2|;
      assert p1 == r[..|p1|] == p2;
      RenderRoundTrip(t1);
      RenderRoundTrip(t2);
    }
  }

  /**
   * The type tag of a literal token. The C# field holds a `System.Type` (or null); the
   * model keeps the cases `LiteralToken.ToString` distinguishes, and any other type by
   * its name.
   */
  datatype LiteralType =
    | Unknown         // a null Type
    | JavaNull        // the marker type of the `null` literal
    | Int | Long | Float | Double | Char | Boolean
    | String | Object
    | Other(name: string)

  /** The Java spelling of a literal's type, as printed by `LiteralToken.ToString`. */
  function TypeName(t: LiteralType): (n: string)
    ensures !t.Other? ==> 3 <= |n| <= 7
    ensures t.Other? ==> n == t.name
  {
    match t
    case Unknown => "unknown"
    case JavaNull => "null"
    case Int => "int"
    case Long => "long"
    case Float => "float"
    case Double => "double"
    case Char => "char"
    case Boolean => "boolean"
    case String => "String"
    case Object => "Object"
    case Other(name) => name
  }

  /** The named cases print pairwise differently. */
  lemma TypeNameInjectiveOnNamedTypes(a: LiteralType, b: LiteralType)
    requires !a.Other? && !b.Other?
    requires TypeName(a) == TypeName(b)
    ensures a == b
  {
  }

  /** A token with a type tag; its base part is an ordinary token. */
  datatype LiteralToken = LiteralToken(token: Token, litType: LiteralType)

  /** `LiteralToken.ToString`: LIT(Value, type), whatever the token's kind. */
  function RenderLiteral(lt: LiteralToken): (r: string)
    ensures |r| == |lt.token.value| + |TypeName(lt.litType)| + 7
    ensures r[..4] == "LIT(" && r[|r| - 1] == ')'
  {
    "LIT(" + lt.token.value + ", " + TypeName(lt.litType) + ")"
  }

  /** Given the type name, the value is recovered from a literal token's rendering. */
  function LiteralValueOf(r: string, typeName: string): (v: string)
    requires 4 + |typeName| + 3 <= |r|
    ensures |v| == |r| - |typeName| - 7
  {
    r[4 .. |r| - |typeName| - 3]
  }

  lemma RenderLiteralRoundTrip(lt: LiteralToken)
    ensures 4 + |TypeName(lt.litType)| + 3 <= |RenderLiteral(lt)|
    ensures LiteralValueOf(RenderLiteral(lt), TypeName(lt.litType)) == lt.token.value
  {
    var r := RenderLiteral(lt);
    var n := TypeName(lt.litType);
    assert r == "LIT(" + lt.token.value + (", " + n + ")");
    assert r[4 .. |r| - |n| - 3] == lt.token.value;
  }

  /** The kind, offset and line flag play no part in a literal token's rendering. */
  lemma RenderLiteralIgnoresKind(a: LiteralToken, b: LiteralToken)
    requires a.token.value == b.token.value && a.litType == b.litType
    ensures RenderLiteral(a) == RenderLiteral(b)
    ensures RenderLiteral(a)[..4] == "LIT("
  {
  }

  /**
   * A literal token renders differently from the plain token it extends: the override
   * adds ", type" inside the parentheses.
   */
  lemma RenderLiteralDiffersFromBase(lt: LiteralToken)
    requires lt.token.kind == Literal
    ensures RenderLiteral(lt) != Render(lt.token)
  {
    var r := RenderLiteral(lt);
    var v := lt.token.value;
    assert |r| == |v| + |TypeName(lt.litType)| + 7;
    assert |Render(lt.token)| == |v| + 5;
  }
}
