/**
 * The recursive-descent parser (parser/parser.go).
 *
 * The parser's window is two tokens of the lexer's stream. It is described by one
 * position, cur: the lexer position from which the current token was scanned. The
 * current token is CurrAt(input, cur), the next one NextAt(input, cur), and reading a
 * token moves cur to Advance(input, cur). The functions ParseXAt give, for a window
 * position, what each parse method returns and where it leaves the window; the class
 * Parser is proved against them.
 */
module Parsing {
  import opened Wrappers
  import opened Tokens
  import opened Lexing
  import opened IntLiteral
  import opened Ast

  /** The causes of a failed statement, nested the way the source wraps its messages. */
  datatype ParseError =
    | BadInteger(tok: Token)                      // an INT literal that is not an int64
    | Wanted(want: TokenType, have: TokenType)    // a token of the wrong type
    | InPrefix(cause: ParseError)                 // failure in a prefix expression's operand
    | InReturn(cause: ParseError)                 // failure in a return statement's value
    | InLet(cause: ParseError)                    // failure in a let statement's value

  datatype Result<+T> = Ok(value: T) | Err(error: ParseError)

  /** What a parse step returns, and the window position it leaves. */
  datatype Outcome<+T> = Outcome(res: Result<T>, cur: nat)

  /** The current token of the window at cur. */
  function CurrAt(input: string, cur: nat): Token {
    NextTokenAt(input, cur).tok
  }

  /** The window position after one readToken. */
  function Advance(input: string, cur: nat): (c: nat)
    ensures cur < c
  {
    NextTokenAt(input, cur).next
  }

  /** The lookahead token of the window at cur. */
  function NextAt(input: string, cur: nat): Token {
    CurrAt(input, Advance(input, cur))
  }

  /** The current and the next token have an empty literal exactly when they are EOF. */
  lemma WindowLiterals(input: string, cur: nat)
    ensures CurrAt(input, cur).Literal == "" <==> CurrAt(input, cur).Type == EOF
    ensures NextAt(input, cur).Literal == "" <==> NextAt(input, cur).Type == EOF
  {
  }

  /** Only a window inside the input shows a token other than EOF. */
  lemma NotEofInside(input: string, cur: nat)
    requires CurrAt(input, cur).Type != EOF
    ensures cur < Advance(input, cur) <= |input|
  {
  }

  /** A reserved token's literal is its keyword's spelling. */
  lemma KeywordLiteral(input: string, cur: nat)
    requires IsKeyword(CurrAt(input, cur).Type)
    ensures CurrAt(input, cur).Literal == Spelling(CurrAt(input, cur).Type)
  {
    IdentTypeExact(CurrAt(input, cur).Literal);
  }

  /**
   * Every INT token of the stream from p to the end of the input is a literal the
   * conversion accepts.
   */
  predicate IntsValidFrom(input: string, p: nat)
    decreases if p < |input| then |input| - p else 0
  {
    p < |input| ==>
      (CurrAt(input, p).Type == INT ==> ParseIntLit(CurrAt(input, p).Literal).Some?) &&
      IntsValidFrom(input, Advance(input, p))
  }

  lemma IntsValidAdvance(input: string, p: nat)
    ensures IntsValidFrom(input, p) ==> IntsValidFrom(input, Advance(input, p))
  {
  }

  /** The invariant of every tree the parser builds. */
  predicate WellFormedIdentifier(id: Identifier) {
    id.tok.Type == IDENT && id.value == id.tok.Literal &&
    id.tok.Literal != "" && AllIn(id.tok.Literal, Letter)
  }

  predicate WellFormedExpression(e: Expression) {
    match e
    case Ident(id) => WellFormedIdentifier(id)
    case Integer(t, v) =>
      t.Type == INT && AllIn(t.Literal, Digit) && ParseIntLit(t.Literal) == Some(v)
    case Prefix(t, op, right) =>
      (t.Type == BANG || t.Type == MINUS) && op == t.Literal && (op == "!" || op == "-") &&
      (right.Some? ==> WellFormedExpression(right.value))
  }

  predicate WellFormedStatement(s: Statement) {
    match s
    case LetStatement(t, name, value) =>
      t.Type == LET && t.Literal == "let" && name.Some? && WellFormedIdentifier(name.value) &&
      (value.Some? ==> WellFormedExpression(value.value))
    case ReturnStatement(t, value) =>
      t.Type == RETURN && t.Literal == "return" &&
      (value.Some? ==> WellFormedExpression(value.value))
    case ExpressionStatement(t, e) =>
      t.Type != LET && t.Type != RETURN &&
      (e.Some? ==> WellFormedExpression(e.value) && e.value.TokenLiteral() == t.Literal)
  }

  /** parseExpression with the window at cur. */
  function ParseExpressionAt(input: string, cur: nat): (o: Outcome<Option<Expression>>)
    ensures cur <= o.cur
    ensures o.res.Ok? && o.res.value.Some? ==>
      WellFormedExpression(o.res.value.value) &&
      o.res.value.value.TokenLiteral() == CurrAt(input, cur).Literal
    ensures IntsValidFrom(input, cur) ==> o.res.Ok? && IntsValidFrom(input, o.cur)
    decreases if cur < |input| then |input| - cur else 0
  {
    var t := CurrAt(input, cur);
    match t.Type
    case BANG | MINUS =>
      NotEofInside(input, cur);
      var operand := ParseExpressionAt(input, Advance(input, cur));
      if operand.res.Err? then Outcome(Err(InPrefix(operand.res.error)), operand.cur)
      else Outcome(Ok(Some(Prefix(t, t.Literal, operand.res.value))), operand.cur)
    case IDENT => Outcome(Ok(Some(Ident(Identifier(t, t.Literal)))), cur)
    case INT =>
      var num := ParseIntLit(t.Literal);
      if num.None? then Outcome(Err(BadInteger(t)), cur)
      else Outcome(Ok(Some(Integer(t, num.value))), cur)
    case _ => Outcome(Ok(None), cur)
  }

  /** parseExpressionStatement: an expression and an optional `;`. */
  function ParseExpressionStatementAt(input: string, cur: nat): (o: Outcome<Statement>)
    ensures cur <= o.cur
    ensures o.res.Ok? ==>
      o.res.value.ExpressionStatement? && o.res.value.tok == CurrAt(input, cur) &&
      (o.res.value.expression.Some? ==>
        WellFormedExpression(o.res.value.expression.value) &&
        o.res.value.expression.value.TokenLiteral() == CurrAt(input, cur).Literal)
    ensures IntsValidFrom(input, cur) ==> o.res.Ok? && IntsValidFrom(input, o.cur)
  {
    var t := CurrAt(input, cur);
    var e := ParseExpressionAt(input, cur);
    if e.res.Err? then Outcome(Err(e.res.error), e.cur)
    else if NextAt(input, e.cur).Type == SEMICOLON then
      IntsValidAdvance(input, e.cur);
      Outcome(Ok(ExpressionStatement(t, e.res.value)), Advance(input, e.cur))
    else Outcome(Ok(ExpressionStatement(t, e.res.value)), e.cur)
  }

  /** parseReturnStatement: `return`, an expression, and a required `;` after it. */
  function ParseReturnStatementAt(input: string, cur: nat): (o: Outcome<Statement>)
    ensures cur <= o.cur
    ensures o.res.Ok? ==>
      o.res.value.tok == CurrAt(input, cur) && WellFormedStatement(o.res.value) &&
      o.res.value.ReturnStatement?
    ensures o.res.Err? && CurrAt(input, cur).Type == RETURN ==> cur < o.cur
    ensures IntsValidFrom(input, cur) ==> IntsValidFrom(input, o.cur)
  {
    var t := CurrAt(input, cur);
    if t.Type != RETURN then Outcome(Err(Wanted(RETURN, t.Type)), cur)
    else
      KeywordLiteral(input, cur);
      IntsValidAdvance(input, cur);
      var e := ParseExpressionAt(input, Advance(input, cur));
      if e.res.Err? then Outcome(Err(InReturn(e.res.error)), e.cur)
      else if NextAt(input, e.cur).Type != SEMICOLON then
        Outcome(Err(Wanted(SEMICOLON, NextAt(input, e.cur).Type)), e.cur)
      else
        IntsValidAdvance(input, e.cur);
        Outcome(Ok(ReturnStatement(t, e.res.value)), Advance(input, e.cur))
  }

  /** parseLetStatement: `let`, an IDENT, `=`, an expression, and a required `;` after it. */
  function ParseLetStatementAt(input: string, cur: nat): (o: Outcome<Statement>)
    ensures cur <= o.cur
    ensures o.res.Ok? ==>
      o.res.value.tok == CurrAt(input, cur) && WellFormedStatement(o.res.value) &&
      o.res.value.LetStatement?
    ensures o.res.Err? && CurrAt(input, cur).Type == LET ==> cur < o.cur
    ensures IntsValidFrom(input, cur) ==> IntsValidFrom(input, o.cur)
  {
    var t := CurrAt(input, cur);
    if t.Type != LET then Outcome(Err(Wanted(LET, t.Type)), cur)
    else
      KeywordLiteral(input, cur);
      IntsValidAdvance(input, cur);
      var c1 := Advance(input, cur);
      var name := CurrAt(input, c1);
      if name.Type != IDENT then Outcome(Err(Wanted(IDENT, name.Type)), c1)
      else
        IntsValidAdvance(input, c1);
        var c2 := Advance(input, c1);
        if CurrAt(input, c2).Type != ASSIGN then Outcome(Err(Wanted(ASSIGN, CurrAt(input, c2).Type)), c2)
        else
          IntsValidAdvance(input, c2);
          var e := ParseExpressionAt(input, Advance(input, c2));
          if e.res.Err? then Outcome(Err(InLet(e.res.error)), e.cur)
          else if NextAt(input, e.cur).Type != SEMICOLON then
            Outcome(Err(Wanted(SEMICOLON, NextAt(input, e.cur).Type)), e.cur)
          else
            IntsValidAdvance(input, e.cur);
            Outcome(Ok(LetStatement(t, Some(Identifier(name, name.Literal)), e.res.value)), Advance(input, e.cur))
  }

  /** parseStatement: dispatch on the current token. */
  function ParseStatementAt(input: string, cur: nat): (o: Outcome<Statement>)
    ensures cur <= o.cur
    ensures o.res.Ok? ==> o.res.value.tok == CurrAt(input, cur) && WellFormedStatement(o.res.value)
    ensures IntsValidFrom(input, cur) ==>
      IntsValidFrom(input, o.cur) && IntsValidFrom(input, Advance(input, o.cur)) &&
      (o.res.Err? ==> cur < o.cur)
  {
    var o := match CurrAt(input, cur).Type
      case LET => ParseLetStatementAt(input, cur)
      case RETURN => ParseReturnStatementAt(input, cur)
      case _ => ParseExpressionStatementAt(input, cur);
    IntsValidAdvance(input, o.cur);
    o
  }

  /** Which parse function ParseStatementAt hands the window to. */
  lemma StatementDispatch(input: string, cur: nat)
    ensures CurrAt(input, cur).Type == LET ==> ParseStatementAt(input, cur) == ParseLetStatementAt(input, cur)
    ensures CurrAt(input, cur).Type == RETURN ==> ParseStatementAt(input, cur) == ParseReturnStatementAt(input, cur)
    ensures CurrAt(input, cur).Type != LET && CurrAt(input, cur).Type != RETURN ==>
      ParseStatementAt(input, cur) == ParseExpressionStatementAt(input, cur)
  {
  }

  /**
   * Parse from the window at cur: the statements that succeed, in order, and the errors
   * of those that fail. A failed statement leaves the window where it stopped; a
   * successful one is followed by one readToken.
   */
  function ParseProgram(input: string, cur: nat): (r: (seq<Statement>, seq<ParseError>))
    requires IntsValidFrom(input, cur)
    ensures forall s | s in r.0 :: WellFormedStatement(s) && s.tok.Type != EOF
    decreases if cur < |input| then |input| - cur else 0
  {
    if CurrAt(input, cur).Type == EOF then ([], [])
    else
      NotEofInside(input, cur);
      var o := ParseStatementAt(input, cur);
      match o.res
      case Err(e) =>
        var rest := ParseProgram(input, o.cur);
        (rest.0, [e] + rest.1)
      case Ok(s) =>
        var rest := ParseProgram(input, Advance(input, o.cur));
        ([s] + rest.0, rest.1)
  }

  /** The window position at which the parse loop from cur stops: the first EOF it meets. */
  function ProgramEnd(input: string, cur: nat): (e: nat)
    requires IntsValidFrom(input, cur)
    ensures cur <= e && CurrAt(input, e).Type == EOF && IntsValidFrom(input, e)
    decreases if cur < |input| then |input| - cur else 0
  {
    if CurrAt(input, cur).Type == EOF then cur
    else
      NotEofInside(input, cur);
      var o := ParseStatementAt(input, cur);
      ProgramEnd(input, if o.res.Ok? then Advance(input, o.cur) else o.cur)
  }

  /** One round of the parse loop leaves its end where it was. */
  lemma EndStep(input: string, cur: nat)
    requires IntsValidFrom(input, cur) && CurrAt(input, cur).Type != EOF
    ensures var o := ParseStatementAt(input, cur);
      var next := if o.res.Ok? then Advance(input, o.cur) else o.cur;
      IntsValidFrom(input, next) && ProgramEnd(input, cur) == ProgramEnd(input, next)
  {
  }

  /** One round of the parse loop: the statement at cur, then the rest of the program. */
  lemma ProgramStep(input: string, cur: nat)
    requires IntsValidFrom(input, cur) && CurrAt(input, cur).Type != EOF
    ensures var o := ParseStatementAt(input, cur);
      && (o.res.Err? ==>
        IntsValidFrom(input, o.cur) &&
        ParseProgram(input, cur) == (ParseProgram(input, o.cur).0, [o.res.error] + ParseProgram(input, o.cur).1))
      && (o.res.Ok? ==>
        IntsValidFrom(input, Advance(input, o.cur)) &&
        ParseProgram(input, cur) ==
          ([o.res.value] + ParseProgram(input, Advance(input, o.cur)).0, ParseProgram(input, Advance(input, o.cur)).1))
  {
  }

  /**
   * The loop's accumulators after one more round: the statement or the error of the round
   * moves from the rest of the program to the end of its accumulator.
   */
  lemma LoopStep(whole: (seq<Statement>, seq<ParseError>), ss: seq<Statement>, es: seq<ParseError>,
                 here: (seq<Statement>, seq<ParseError>), r: Result<Statement>,
                 after: (seq<Statement>, seq<ParseError>))
    requires whole.0 == ss + here.0 && whole.1 == es + here.1
    requires r.Err? ==> here == (after.0, [r.error] + after.1)
    requires r.Ok? ==> here == ([r.value] + after.0, after.1)
    ensures r.Err? ==> whole.0 == ss + after.0 && whole.1 == (es + [r.error]) + after.1
    ensures r.Ok? ==> whole.0 == (ss + [r.value]) + after.0 && whole.1 == es + after.1
  {
    if r.Err? {
      assert es + ([r.error] + after.1) == (es + [r.error]) + after.1;
    } else {
      assert ss + ([r.value] + after.0) == (ss + [r.value]) + after.0;
    }
  }

  /** The parser object: a lexer and a two-token window over its stream. */
  class Parser {
    const l: Lexer
    var currTok: Token
    var nextTok: Token
    ghost var cur: nat

    ghost predicate Valid()
      reads this, l
    {
      l.Valid() &&
      currTok == CurrAt(l.input, cur) &&
      nextTok == NextAt(l.input, cur) &&
      l.position == Advance(l.input, Advance(l.input, cur))
    }

    /** New: primes the window with the lexer's next two tokens. */
    constructor (l: Lexer)
      requires l.Valid()
      modifies l
      ensures Valid() && this.l == l && cur == old(l.position)
    {
      this.l := l;
      var first := l.NextToken();
      var second := l.NextToken();
      currTok, nextTok := first, second;
      cur := old(l.position);
    }

    /** Shifts the window by one token, pulling exactly one token from the lexer. */
    method ReadToken()
      requires Valid()
      modifies this, l
      ensures Valid() && cur == Advance(l.input, old(cur))
      ensures currTok == old(nextTok)
      ensures Step(nextTok, l.position) == NextTokenAt(l.input, old(l.position))
    {
      currTok := nextTok;
      nextTok := l.NextToken();
      cur := Advance(l.input, cur);
    }

    method ParseExpression() returns (r: Result<Option<Expression>>)
      requires Valid()
      modifies this, l
      ensures Valid() && Outcome(r, cur) == ParseExpressionAt(l.input, old(cur))
      decreases if cur < |l.input| then |l.input| - cur else 0
    {
      match currTok.Type
      case BANG | MINUS =>
        NotEofInside(l.input, cur);
        var op := currTok;
        ReadToken();
        var operand := ParseExpression();
        if operand.Err? {
          return Err(InPrefix(operand.error));
        }
        r := Ok(Some(Prefix(op, op.Literal, operand.value)));
      case IDENT =>
        r := Ok(Some(Ident(Identifier(currTok, currTok.Literal))));
      case INT =>
        var num := ParseIntLit(currTok.Literal);
        if num.None? {
          return Err(BadInteger(currTok));
        }
        r := Ok(Some(Integer(currTok, num.value)));
      case _ =>
        r := Ok(None);
    }

    method ParseExpressionStatement() returns (r: Result<Statement>)
      requires Valid()
      modifies this, l
      ensures Valid() && Outcome(r, cur) == ParseExpressionStatementAt(l.input, old(cur))
    {
      var t := currTok;
      var e := ParseExpression();
      if e.Err? {
        return Err(e.error);
      }
      if nextTok.Type == SEMICOLON {
        ReadToken();
      }
      r := Ok(ExpressionStatement(t, e.value));
    }

    method ParseReturnStatement() returns (r: Result<Statement>)
      requires Valid()
      modifies this, l
      ensures Valid() && Outcome(r, cur) == ParseReturnStatementAt(l.input, old(cur))
    {
      var t := currTok;
      if currTok.Type != RETURN {
        return Err(Wanted(RETURN, currTok.Type));
      }
      ReadToken();
      var e := ParseExpression();
      if e.Err? {
        return Err(InReturn(e.error));
      }
      if nextTok.Type != SEMICOLON {
        return Err(Wanted(SEMICOLON, nextTok.Type));
      }
      ReadToken();
      r := Ok(ReturnStatement(t, e.value));
    }

    method ParseLetStatement() returns (r: Result<Statement>)
      requires Valid()
      modifies this, l
      ensures Valid() && Outcome(r, cur) == ParseLetStatementAt(l.input, old(cur))
    {
      var t := currTok;
      if currTok.Type != LET {
        return Err(Wanted(LET, currTok.Type));
      }
      ReadToken();
      if currTok.Type != IDENT {
        return Err(Wanted(IDENT, currTok.Type));
      }
      var name := Identifier(currTok, currTok.Literal);
      ReadToken();
      if currTok.Type != ASSIGN {
        return Err(Wanted(ASSIGN, currTok.Type));
      }
      ReadToken();
      var e := ParseExpression();
      if e.Err? {
        return Err(InLet(e.error));
      }
      if nextTok.Type != SEMICOLON {
        return Err(Wanted(SEMICOLON, nextTok.Type));
      }
      ReadToken();
      r := Ok(LetStatement(t, Some(name), e.value));
    }

    method ParseStatement() returns (r: Result<Statement>)
      requires Valid()
      modifies this, l
      ensures Valid() && Outcome(r, cur) == ParseStatementAt(l.input, old(cur))
    {
      StatementDispatch(l.input, cur);
      match currTok.Type
      case LET => r := ParseLetStatement();
      case RETURN => r := ParseReturnStatement();
      case _ => r := ParseExpressionStatement();
    }

    /**
     * Parse: statements until the current token is EOF. A failed statement records its
     * error and the loop goes on without reading a token.
     */
    method Parse() returns (program: Program, errors: seq<ParseError>)
      requires Valid() && IntsValidFrom(l.input, cur)
      modifies this, l
      ensures Valid() && currTok.Type == EOF
      ensures cur == ProgramEnd(l.input, old(cur)) && IntsValidFrom(l.input, cur)
      ensures program.statements == ParseProgram(l.input, old(cur)).0
      ensures errors == ParseProgram(l.input, old(cur)).1
    {
      var statements: seq<Statement> := [];
      errors := [];
      ghost var whole := ParseProgram(l.input, cur);
      while currTok.Type != EOF
        invariant Valid() && IntsValidFrom(l.input, cur)
        invariant whole == ParseProgram(l.input, old(cur))
        invariant ProgramEnd(l.input, cur) == ProgramEnd(l.input, old(cur))
        invariant whole.0 == statements + ParseProgram(l.input, cur).0
        invariant whole.1 == errors + ParseProgram(l.input, cur).1
        decreases if cur < |l.input| then |l.input| - cur else 0
      {
        ghost var here := ParseProgram(l.input, cur);
        ProgramStep(l.input, cur);
        EndStep(l.input, cur);
        var r := ParseStatement();
        if r.Err? {
          LoopStep(whole, statements, errors, here, r, ParseProgram(l.input, cur));
          errors := errors + [r.error];
          continue;
        }
        LoopStep(whole, statements, errors, here, r, ParseProgram(l.input, Advance(l.input, cur)));
        statements := statements + [r.value];
        ReadToken();
      }
      program := Program(statements);
    }
  }
}
