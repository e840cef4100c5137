/**
 * What the renderers of the syntax tree promise: which bytes a rendering can hold, how
 * prefix nesting shows as parentheses, what a nil child drops, and how a program's
 * rendering splits back into its statements' renderings.
 */
module AstProperties {
  import opened Wrappers
  import opened Tokens
  import opened Lexing
  import opened IntLiteral
  import opened Ast
  import opened Parsing

  /** The number of occurrences of c in s. */
  function Count(s: string, c: char): (n: nat)
    ensures n <= |s|
    ensures n == 0 <==> c !in s
  {
    if s == [] then 0 else (if s[0] == c then 1 else 0) + Count(s[1..], c)
  }

  lemma {:induction false} CountAppend(a: string, b: string, c: char)
    ensures Count(a + b, c) == Count(a, c) + Count(b, c)
    decreases |a|
  {
    if a != [] {
      assert (a + b)[1..] == a[1..] + b;
      CountAppend(a[1..], b, c);
    } else {
      assert a + b == b;
    }
  }

  /**
   * strings.Split on a one-byte separator: the pieces between the occurrences of c, so
   * always one more piece than there are separators.
   */
  function Split(s: string, c: char): (r: seq<string>)
    ensures |r| == Count(s, c) + 1
    ensures forall i :: 0 <= i < |r| ==> c !in r[i]
  {
    if s == [] then [""]
    else
      var rest := Split(s[1..], c);
      if s[0] == c then [""] + rest else [[s[0]] + rest[0]] + rest[1..]
  }

  /** The bytes a rendering of a well-formed expression is made of. */
  predicate RenderByte(ch: char) {
    IsValidIdentChar(ch) || IsDigit(ch) || ch == '(' || ch == ')' || ch == ' ' || ch == '!' || ch == '-'
  }

  /** How many prefix operators the expression is nested under. */
  function PrefixDepth(e: Expression): nat {
    match e
    case Prefix(_, _, right) => 1 + (if right.Some? then PrefixDepth(right.value) else 0)
    case _ => 0
  }

  /** A string all in class k contains no byte outside k. */
  lemma LettersAvoid(s: string, k: CharClass, c: char)
    requires AllIn(s, k) && !InClass(c, k)
    ensures c !in s
  {
    forall i | 0 <= i < |s| ensures s[i] != c {
      assert InClass(s[i], k);
    }
  }

  /** A well-formed expression renders only letters, digits, parentheses, spaces, `!` and `-`. */
  lemma {:induction false} RenderingAvoids(e: Expression, c: char)
    requires WellFormedExpression(e) && !RenderByte(c)
    ensures c !in e.String()
  {
    match e
    case Ident(id) =>
      LettersAvoid(id.tok.Literal, Letter, c);
    case Integer(t, _) =>
      LettersAvoid(t.Literal, Digit, c);
    case Prefix(_, op, right) =>
      if right.Some? {
        RenderingAvoids(right.value, c);
      }
  }

  /**
   * Each prefix operator renders as one `(`, its operator and one `)`: a well-formed
   * expression has as many of each parenthesis as it has nested prefix operators.
   */
  lemma {:induction false} ParenthesesCountPrefixes(e: Expression)
    requires WellFormedExpression(e)
    ensures Count(e.String(), '(') == PrefixDepth(e)
    ensures Count(e.String(), ')') == PrefixDepth(e)
  {
    match e
    case Ident(id) =>
      LettersAvoid(id.tok.Literal, Letter, '(');
      LettersAvoid(id.tok.Literal, Letter, ')');
    case Integer(t, _) =>
      LettersAvoid(t.Literal, Digit, '(');
      LettersAvoid(t.Literal, Digit, ')');
    case Prefix(_, op, right) =>
      var head := "(" + op + ")";
      var tail := if right.Some? then " " + right.value.String() else "";
      assert e.String() == head + tail;
      OperatorParentheses(op);
      CountAppend(head, tail, '(');
      CountAppend(head, tail, ')');
      if right.Some? {
        ParenthesesCountPrefixes(right.value);
        CountAppend(" ", right.value.String(), '(');
        CountAppend(" ", right.value.String(), ')');
      }
  }

  lemma OperatorParentheses(op: string)
    requires op == "!" || op == "-"
    ensures Count("(" + op + ")", '(') == 1 && Count("(" + op + ")", ')') == 1
  {
    var head := "(" + op + ")";
    assert head == ['(', op[0], ')'];
    assert head[1..] == [op[0], ')'];
    assert head[1..][1..] == [')'];
  }

  /** The rendering of an Integer is its token's literal as written, whatever its value. */
  lemma IntegerKeepsSpelling(t: Token, v: int)
    requires t.Type == INT && AllIn(t.Literal, Digit) && ParseIntLit(t.Literal) == Some(v)
    ensures Integer(t, v).String() == t.Literal
    ensures t.Literal != "" && t.Literal[0] == '0' && |t.Literal| > 1 ==> Integer(t, v).String() != DecimalString(v)
  {
    assert DecimalString(0) == "0";
  }

  /** `010` renders as `010`, while its value is 8. */
  lemma OctalLiteralRendering()
    ensures var e := Integer(Token(INT, "010"), 8);
      WellFormedExpression(e) && e.String() == "010"
  {
    ParseIntLitExamples();
  }

  /** `!-5` renders with each operator in parentheses; a nil operand leaves just the operator. */
  lemma PrefixRenderings()
    ensures var five := Integer(Token(INT, "5"), 5);
      var minus := Prefix(Token(MINUS, "-"), "-", Some(five));
      && Prefix(Token(BANG, "!"), "!", Some(minus)).String() == "(!) (-) 5"
      && Prefix(Token(MINUS, "-"), "-", None).String() == "(-)"
      && Prefix(Token(BANG, "!"), "!", Some(minus)).TokenLiteral() == "!"
  {
  }

  /** A prefix renders as its operator in parentheses, followed by its operand exactly when it has one. */
  lemma PrefixRendering(e: Expression)
    requires e.Prefix?
    ensures "(" + e.operator + ")" <= e.String()
    ensures e.right.None? <==> e.String() == "(" + e.operator + ")"
  {
    if e.right.Some? {
      assert |e.String()| > |"(" + e.operator + ")"|;
    }
  }

  /**
   * A let or return statement's rendering starts with its keyword's literal; an expression
   * statement renders as its expression's rendering, which for an identifier or integer is
   * the statement's own literal, and as nothing when the expression is nil.
   */
  lemma StatementLeadsWithLiteral(s: Statement)
    requires WellFormedStatement(s)
    ensures !s.ExpressionStatement? ==> s.TokenLiteral() <= s.String()
    ensures s.ExpressionStatement? && s.expression.Some? ==> s.String() == s.expression.value.String()
    ensures s.ExpressionStatement? && s.expression.Some? && !s.expression.value.Prefix? ==>
      s.String() == s.TokenLiteral()
    ensures s.ExpressionStatement? && s.expression.None? ==> s.String() == ""
  {
  }

  /** A well-formed let statement with a value ends in its only `;`; without one it has no `;`. */
  lemma LetSemicolon(s: Statement)
    requires WellFormedStatement(s) && s.LetStatement?
    ensures s.value.Some? ==> s.String()[|s.String()| - 1] == ';' && Count(s.String(), ';') == 1
    ensures s.value.None? ==> ';' !in s.String()
  {
    var name := s.name.value.value;
    LettersAvoid(name, Letter, ';');
    if s.value.Some? {
      RenderingAvoids(s.value.value, ';');
      var a := s.tok.Literal + " " + name + " = " + s.value.value.String();
      assert s.String() == a + ";";
      CountAppend(a, ";", ';');
    } else {
      assert s.String() == s.tok.Literal + " " + name;
    }
  }

  /** A return statement renders without a `;`, though the parser demands one after its value. */
  lemma ReturnHasNoSemicolon(s: Statement)
    requires WellFormedStatement(s) && s.ReturnStatement?
    ensures ';' !in s.String()
    ensures s.value.None? ==> s.String() == "return"
  {
    if s.value.Some? {
      RenderingAvoids(s.value.value, ';');
    }
  }

  /** A statement renders on one line. */
  lemma StatementOneLine(s: Statement)
    requires WellFormedStatement(s)
    ensures '\n' !in s.String()
  {
    match s
    case LetStatement(t, name, value) =>
      LettersAvoid(name.value.value, Letter, '\n');
      if value.Some? {
        RenderingAvoids(value.value, '\n');
      }
    case ReturnStatement(t, value) =>
      if value.Some? {
        RenderingAvoids(value.value, '\n');
      }
    case ExpressionStatement(t, e) =>
      if e.Some? {
        RenderingAvoids(e.value, '\n');
      }
  }

  /** Splitting at a separator that follows a first piece without one. */
  lemma {:induction false} SplitAfterPiece(a: string, b: string, c: char)
    requires c !in a
    ensures Split(a + [c] + b, c) == [a] + Split(b, c)
    decreases |a|
  {
    if a == [] {
      assert [] + [c] + b == [c] + b;
      assert ([c] + b)[1..] == b;
    } else {
      var s := a + [c] + b;
      assert s[0] == a[0] != c;
      assert s[1..] == a[1..] + [c] + b;
      SplitAfterPiece(a[1..], b, c);
      var rest := Split(s[1..], c);
      assert rest == [a[1..]] + Split(b, c);
      assert Split(s, c) == [[a[0]] + rest[0]] + rest[1..];
      assert [a[0]] + a[1..] == a;
    }
  }

  /** A piece without the separator splits as itself. */
  lemma {:induction false} SplitPiece(a: string, c: char)
    requires c !in a
    ensures Split(a, c) == [a]
    decreases |a|
  {
    if a != [] {
      SplitPiece(a[1..], c);
      assert [a[0]] + a[1..] == a;
    }
  }

  /** Joining parts free of the separator and splitting again gives the parts back. */
  lemma {:induction false} SplitJoin(parts: seq<string>, c: char)
    requires |parts| > 0 && forall i :: 0 <= i < |parts| ==> c !in parts[i]
    ensures Split(Join(parts, [c]), c) == parts
    decreases |parts|
  {
    if |parts| == 1 {
      SplitPiece(parts[0], c);
    } else {
      SplitJoin(parts[1..], c);
      SplitAfterPiece(parts[0], Join(parts[1..], [c]), c);
      assert [parts[0]] + parts[1..] == parts;
    }
  }

  /** The empty program renders as the empty string, a one-statement one as that statement. */
  lemma SmallPrograms(s: Statement)
    ensures Program([]).String() == ""
    ensures Program([s]).String() == s.String()
  {
    assert Strings([s]) == [s.String()];
  }

  /**
   * A program of well-formed statements renders one statement per line, in order: the
   * rendering splits at its newlines into the statements' renderings, and it holds n - 1
   * newlines for n statements.
   */
  lemma ProgramLines(p: Program)
    requires |p.statements| > 0
    requires forall s | s in p.statements :: WellFormedStatement(s)
    ensures Split(p.String(), '\n') == Strings(p.statements)
    ensures Count(p.String(), '\n') == |p.statements| - 1
  {
    var parts := Strings(p.statements);
    forall i | 0 <= i < |parts| ensures '\n' !in parts[i] {
      StatementOneLine(p.statements[i]);
    }
    SplitJoin(parts, '\n');
  }
}
