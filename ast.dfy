/**
 * The syntax tree (ast/expression.go, ast/assignment.go, ast/return.go, ast/program.go).
 * Each node category is a closed datatype; a child the source may leave nil is an Option.
 * TokenLiteral and String are the two renderers every node has.
 */
module Ast {
  import opened Wrappers
  import opened Tokens

  /** A variable name: its IDENT token and the name. */
  datatype Identifier = Identifier(tok: Token, value: string) {
    function TokenLiteral(): (r: string)
      ensures r == tok.Literal
    {
      tok.Literal
    }

    function String(): (s: string)
      ensures s == TokenLiteral()
    {
      tok.Literal
    }
  }

  datatype Expression =
    | Ident(id: Identifier)
    | Integer(tok: Token, value: int)
    | Prefix(tok: Token, operator: string, right: Option<Expression>)
  {
    /** Every expression's literal is that of the token it was built from. */
    function TokenLiteral(): (r: string)
      ensures Ident? ==> r == id.tok.Literal
      ensures !Ident? ==> r == tok.Literal
    {
      match this
      case Ident(id) => id.TokenLiteral()
      case Integer(t, _) => t.Literal
      case Prefix(t, _, _) => t.Literal
    }

    /** An identifier or integer renders as its token literal. */
    function String(): (s: string)
      ensures !Prefix? ==> s == TokenLiteral()
    {
      match this
      case Ident(id) => id.String()
      case Integer(t, _) => t.Literal
      case Prefix(_, op, right) =>
        "(" + op + ")" + (if right.Some? then " " + right.value.String() else "")
    }
  }

  datatype Statement =
    | LetStatement(tok: Token, name: Option<Identifier>, value: Option<Expression>)
    | ReturnStatement(tok: Token, value: Option<Expression>)
    | ExpressionStatement(tok: Token, expression: Option<Expression>)
  {
    function TokenLiteral(): (r: string)
      ensures r == tok.Literal
    {
      tok.Literal
    }

    /**
     * A bare return renders as its keyword's literal and an expression statement with a nil
     * expression as nothing; AstProperties states the rest.
     */
    function String(): (s: string)
      ensures ReturnStatement? && value.None? ==> s == TokenLiteral()
      ensures ExpressionStatement? && expression.None? ==> s == ""
    {
      match this
      case LetStatement(t, name, value) =>
        t.Literal
        + (if name.Some? then " " + name.value.value else "")
        + (if value.Some? then " = " + value.value.String() + ";" else "")
      case ReturnStatement(t, value) =>
        t.Literal + (if value.Some? then " " + value.value.String() else "")
      case ExpressionStatement(_, expression) =>
        if expression.Some? then expression.value.String() else ""
    }
  }

  /** The root: the statements in source order. */
  datatype Program = Program(statements: seq<Statement>) {
    /** The statements' renderings, one per line: the first leads, the last ends it. */
    function String(): (s: string)
      ensures statements == [] ==> s == ""
      ensures |statements| > 0 ==> statements[0].String() <= s
      ensures |statements| > 0 ==> EndsIn(s, statements[|statements| - 1].String())
    {
      Join(Strings(statements), "\n")
    }

    /** String, as the source computes it: the renderings collected in a loop, then joined. */
    method Render() returns (s: string)
      ensures s == String()
    {
      var ss: seq<string> := [];
      var i := 0;
      while i < |statements|
        invariant 0 <= i <= |statements|
        invariant |ss| == i && forall k :: 0 <= k < i ==> ss[k] == statements[k].String()
      {
        ss := ss + [statements[i].String()];
        i := i + 1;
      }
      assert ss == Strings(statements);
      s := Join(ss, "\n");
    }
  }

  /** s ends in the string t. */
  predicate EndsIn(s: string, t: string) {
    |t| <= |s| && s[|s| - |t|..] == t
  }

  function Strings(ss: seq<Statement>): (r: seq<string>)
    ensures |r| == |ss| && forall i :: 0 <= i < |ss| ==> r[i] == ss[i].String()
  {
    if ss == [] then [] else [ss[0].String()] + Strings(ss[1..])
  }

  /** strings.Join: the parts with sep between consecutive ones. */
  function Join(parts: seq<string>, sep: string): (r: string)
    ensures parts == [] ==> r == ""
    ensures |parts| > 0 ==> parts[0] <= r && EndsIn(r, parts[|parts| - 1])
  {
    if |parts| == 0 then ""
    else if |parts| == 1 then parts[0]
    else parts[0] + sep + Join(parts[1..], sep)
  }
}
