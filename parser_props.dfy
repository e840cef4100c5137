/**
 * What the parser promises beyond its functions' own contracts: the nil-expression
 * policy, the window that does not move on a rejected integer, and the parse loop as
 * the sequence of its statement outcomes, of which the program keeps the successes and
 * the error list keeps the failures.
 */
module ParserProperties {
  import opened Wrappers
  import opened Tokens
  import opened Lexing
  import opened IntLiteral
  import opened Ast
  import opened Parsing

  /**
   * A token that starts no expression gives a nil expression and no error, and the window
   * does not move; as a statement it is an ExpressionStatement with a nil expression that
   * swallows a `;` right after it.
   */
  lemma NilExpression(input: string, cur: nat)
    requires var t := CurrAt(input, cur).Type; t != BANG && t != MINUS && t != IDENT && t != INT
    ensures ParseExpressionAt(input, cur) == Outcome(Ok(None), cur)
    ensures var t := CurrAt(input, cur).Type;
      t != LET && t != RETURN ==>
        ParseStatementAt(input, cur) ==
          Outcome(Ok(ExpressionStatement(CurrAt(input, cur), None)),
                  if NextAt(input, cur).Type == SEMICOLON then Advance(input, cur) else cur)
  {
    StatementDispatch(input, cur);
  }

  /**
   * An INT literal the conversion rejects fails its statement with BadInteger and leaves
   * the window where it was, so the parse loop, which does not read a token after an
   * error, meets the same token again: the input is outside IntsValidFrom.
   */
  lemma BadIntegerStuck(input: string, cur: nat)
    requires CurrAt(input, cur).Type == INT && ParseIntLit(CurrAt(input, cur).Literal).None?
    ensures ParseStatementAt(input, cur) == Outcome(Err(BadInteger(CurrAt(input, cur))), cur)
    ensures !IntsValidFrom(input, cur)
  {
    StatementDispatch(input, cur);
    NotEofInside(input, cur);
  }

  /** A prefix operator over a rejected integer fails too, with the window on the integer. */
  lemma BadIntegerInPrefix(input: string, cur: nat)
    requires CurrAt(input, cur).Type == MINUS || CurrAt(input, cur).Type == BANG
    requires var c := Advance(input, cur);
      CurrAt(input, c).Type == INT && ParseIntLit(CurrAt(input, c).Literal).None?
    ensures var c := Advance(input, cur);
      ParseExpressionAt(input, cur) == Outcome(Err(InPrefix(BadInteger(CurrAt(input, c)))), c)
  {
    NotEofInside(input, cur);
  }

  /** The result of every round of the parse loop from cur, in order. */
  function Outcomes(input: string, cur: nat): (rs: seq<Result<Statement>>)
    requires IntsValidFrom(input, cur)
    decreases if cur < |input| then |input| - cur else 0
  {
    if CurrAt(input, cur).Type == EOF then []
    else
      NotEofInside(input, cur);
      var o := ParseStatementAt(input, cur);
      [o.res] + Outcomes(input, if o.res.Ok? then Advance(input, o.cur) else o.cur)
  }

  /** The statements of the rounds that succeeded, in order. */
  function Oks(rs: seq<Result<Statement>>): (ss: seq<Statement>)
    ensures |ss| <= |rs|
  {
    if rs == [] then []
    else (if rs[0].Ok? then [rs[0].value] else []) + Oks(rs[1..])
  }

  /** The errors of the rounds that failed, in order. */
  function Errs(rs: seq<Result<Statement>>): (es: seq<ParseError>)
    ensures |es| <= |rs|
  {
    if rs == [] then []
    else (if rs[0].Err? then [rs[0].error] else []) + Errs(rs[1..])
  }

  /** Every round either adds its statement or its error. */
  lemma {:induction false} OksErrsSplit(rs: seq<Result<Statement>>)
    ensures |Oks(rs)| + |Errs(rs)| == |rs|
    ensures Errs(rs) == [] <==> forall i :: 0 <= i < |rs| ==> rs[i].Ok?
  {
    if rs != [] {
      OksErrsSplit(rs[1..]);
      if Errs(rs) == [] {
        forall i | 0 <= i < |rs| ensures rs[i].Ok? {
          if i > 0 {
            assert rs[i] == rs[1..][i - 1];
          }
        }
      }
    }
  }

  lemma OksErrsCons(r: Result<Statement>, rs: seq<Result<Statement>>)
    ensures Oks([r] + rs) == (if r.Ok? then [r.value] else []) + Oks(rs)
    ensures Errs([r] + rs) == (if r.Err? then [r.error] else []) + Errs(rs)
  {
    assert ([r] + rs)[1..] == rs;
  }

  /** The rounds from cur: the one at cur, then those from where it leaves the window. */
  lemma OutcomesStep(input: string, cur: nat)
    requires IntsValidFrom(input, cur) && CurrAt(input, cur).Type != EOF
    ensures var o := ParseStatementAt(input, cur);
      var next := if o.res.Ok? then Advance(input, o.cur) else o.cur;
      IntsValidFrom(input, next) && Outcomes(input, cur) == [o.res] + Outcomes(input, next)
  {
    ProgramStep(input, cur);
  }

  /**
   * Parse keeps the statements of the rounds that succeeded, in source order, and the
   * errors of the rounds that failed, in the order they happened.
   */
  lemma {:induction false} ProgramFiltersOutcomes(input: string, cur: nat)
    requires IntsValidFrom(input, cur)
    ensures ParseProgram(input, cur) == (Oks(Outcomes(input, cur)), Errs(Outcomes(input, cur)))
    decreases if cur < |input| then |input| - cur else 0
  {
    if CurrAt(input, cur).Type == EOF {
      assert ParseProgram(input, cur) == ([], []);
      assert Outcomes(input, cur) == [];
    } else {
      ProgramStep(input, cur);
      OutcomesStep(input, cur);
      var o := ParseStatementAt(input, cur);
      var next := if o.res.Ok? then Advance(input, o.cur) else o.cur;
      ProgramFiltersOutcomes(input, next);
      FilterStep(ParseProgram(input, cur), ParseProgram(input, next), o.res, Outcomes(input, next));
    }
  }

  /** One more round, on the two sides of ProgramFiltersOutcomes. */
  lemma FilterStep(p: (seq<Statement>, seq<ParseError>), q: (seq<Statement>, seq<ParseError>),
                   r: Result<Statement>, rs: seq<Result<Statement>>)
    requires q == (Oks(rs), Errs(rs))
    requires r.Err? ==> p == (q.0, [r.error] + q.1)
    requires r.Ok? ==> p == ([r.value] + q.0, q.1)
    ensures p == (Oks([r] + rs), Errs([r] + rs))
  {
    OksErrsCons(r, rs);
    if r.Ok? {
      assert Errs([r] + rs) == [] + Errs(rs) == Errs(rs);
    } else {
      assert Oks([r] + rs) == [] + Oks(rs) == Oks(rs);
    }
  }

  /**
   * The error Parse returns is empty exactly when no round failed, and every round
   * contributes exactly one statement or one error.
   */
  lemma NoErrorsIffNoFailure(input: string, cur: nat)
    requires IntsValidFrom(input, cur)
    ensures var rs := Outcomes(input, cur);
      && (ParseProgram(input, cur).1 == [] <==> forall i :: 0 <= i < |rs| ==> rs[i].Ok?)
      && |ParseProgram(input, cur).0| + |ParseProgram(input, cur).1| == |rs|
  {
    ProgramFiltersOutcomes(input, cur);
    OksErrsSplit(Outcomes(input, cur));
  }

  /**
   * A let statement succeeds exactly when `let`, an IDENT, `=`, an expression and a `;`
   * after it come in that order; the statement holds the name and the expression.
   */
  lemma LetShape(input: string, cur: nat)
    requires CurrAt(input, cur).Type == LET
    ensures var c1 := Advance(input, cur);
      var c2 := Advance(input, c1);
      var e := ParseExpressionAt(input, Advance(input, c2));
      var o := ParseLetStatementAt(input, cur);
      && (o.res.Ok? <==>
          CurrAt(input, c1).Type == IDENT && CurrAt(input, c2).Type == ASSIGN &&
          e.res.Ok? && NextAt(input, e.cur).Type == SEMICOLON)
      && (o.res.Ok? ==>
          o.res.value == LetStatement(CurrAt(input, cur),
                                      Some(Identifier(CurrAt(input, c1), CurrAt(input, c1).Literal)),
                                      e.res.value) &&
          o.cur == Advance(input, e.cur))
  {
  }

  /** A return statement succeeds exactly when an expression and a `;` right after it follow. */
  lemma ReturnShape(input: string, cur: nat)
    requires CurrAt(input, cur).Type == RETURN
    ensures var e := ParseExpressionAt(input, Advance(input, cur));
      var o := ParseReturnStatementAt(input, cur);
      && (o.res.Ok? <==> e.res.Ok? && NextAt(input, e.cur).Type == SEMICOLON)
      && (o.res.Ok? ==> o.res.value == ReturnStatement(CurrAt(input, cur), e.res.value) &&
                        o.cur == Advance(input, e.cur))
      && (e.res.Ok? && NextAt(input, e.cur).Type != SEMICOLON ==>
            o.res == Err(Wanted(SEMICOLON, NextAt(input, e.cur).Type)))
  {
  }

  /**
   * Any other token starts an expression statement: it fails exactly when its expression
   * fails, holds the expression otherwise, and swallows one `;` right after it.
   */
  lemma ExpressionStatementShape(input: string, cur: nat)
    requires CurrAt(input, cur).Type != LET && CurrAt(input, cur).Type != RETURN
    ensures var e := ParseExpressionAt(input, cur);
      var o := ParseStatementAt(input, cur);
      && (o.res.Ok? <==> e.res.Ok?)
      && (e.res.Ok? ==>
          o.res.value == ExpressionStatement(CurrAt(input, cur), e.res.value) &&
          o.cur == if NextAt(input, e.cur).Type == SEMICOLON then Advance(input, e.cur) else e.cur)
      && (e.res.Err? ==> o == Outcome(Err(e.res.error), e.cur))
  {
    StatementDispatch(input, cur);
  }

  /**
   * A prefix operator parses its operand from the next token on: it fails exactly when the
   * operand fails, and otherwise wraps it, with the token's literal as the operator.
   */
  lemma PrefixShape(input: string, cur: nat)
    requires CurrAt(input, cur).Type == BANG || CurrAt(input, cur).Type == MINUS
    ensures var t := CurrAt(input, cur);
      var r := ParseExpressionAt(input, Advance(input, cur));
      var o := ParseExpressionAt(input, cur);
      && o.cur == r.cur
      && (o.res.Ok? <==> r.res.Ok?)
      && (r.res.Ok? ==> o.res.value == Some(Prefix(t, t.Literal, r.res.value)))
      && (r.res.Err? ==> o.res.error == InPrefix(r.res.error))
  {
  }

  /** One round of the parse loop that adds statement s, the window then past c. */
  lemma OkRound(input: string, cur: nat, s: Statement, c: nat, rest: (seq<Statement>, seq<ParseError>))
    requires IntsValidFrom(input, cur) && CurrAt(input, cur).Type != EOF
    requires ParseStatementAt(input, cur) == Outcome(Ok(s), c)
    requires ParseProgram(input, Advance(input, c)) == rest
    ensures ParseProgram(input, cur) == ([s] + rest.0, rest.1)
  {
    ProgramStep(input, cur);
  }

  /** One round of the parse loop that adds error err, the window then at c. */
  lemma ErrRound(input: string, cur: nat, err: ParseError, c: nat, rest: (seq<Statement>, seq<ParseError>))
    requires IntsValidFrom(input, cur) && CurrAt(input, cur).Type != EOF
    requires ParseStatementAt(input, cur) == Outcome(Err(err), c)
    requires ParseProgram(input, c) == rest
    ensures ParseProgram(input, cur) == (rest.0, [err] + rest.1)
  {
    ProgramStep(input, cur);
  }

  /** A program of one statement s at 0, which leaves the window at c, with EOF next. */
  lemma OneStatement(input: string, s: Statement, c: nat, e: nat)
    requires IntsValidFrom(input, 0) && CurrAt(input, 0).Type != EOF
    requires ParseStatementAt(input, 0) == Outcome(Ok(s), c)
    requires Advance(input, c) == e && CurrAt(input, e).Type == EOF
    ensures ParseProgram(input, 0) == ([s], [])
  {
    assert ParseProgram(input, e) == ([], []);
    OkRound(input, 0, s, c, ([], []));
    assert [s] + [] == [s];
  }
}
