/**
 * The parser's own tests (parser/parser_test.go) and a few more inputs, worked through the
 * model: the tokens the lexer returns at each window position, then what ParseProgram
 * builds from them and how the program renders.
 */
module ParserTests {
  import opened Wrappers
  import opened Tokens
  import opened Lexing
  import opened IntLiteral
  import opened Ast
  import opened Parsing
  import opened LexerProperties
  import opened AstProperties
  import opened ParserProperties

  lemma LexLetFoo0(input: string)
    requires input == "let foo = 5;"
    ensures NextTokenAt(input, 0) == Step(Token(LET, "let"), 3)
  {
    ScanRun(input, 0, 0, 3, Letter);
    assert input[0..3] == "let";
    KeywordsLookUp(LET);
  }

  lemma LexLetFoo1(input: string)
    requires input == "let foo = 5;"
    ensures NextTokenAt(input, 3) == Step(Token(IDENT, "foo"), 7)
  {
    assert input[3] == ' ' && input[4] == 'f' && input[5] == 'o' && input[6] == 'o' && input[7] == ' ';
    ScanRun(input, 3, 4, 7, Letter);
    assert input[4..7] == "foo";
  }

  lemma LexLetFoo2(input: string)
    requires input == "let foo = 5;"
    ensures NextTokenAt(input, 7) == Step(Token(ASSIGN, "="), 9)
  {
    ScanByte(input, 7, 8);
  }

  lemma LexLetFoo3(input: string)
    requires input == "let foo = 5;"
    ensures NextTokenAt(input, 9) == Step(Token(INT, "5"), 11)
  {
    ScanRun(input, 9, 10, 11, Digit);
    assert input[10..11] == "5";
  }

  lemma LexLetFoo4(input: string)
    requires input == "let foo = 5;"
    ensures NextTokenAt(input, 11) == Step(Token(SEMICOLON, ";"), 12)
  {
    ScanByte(input, 11, 11);
  }

  lemma LexLetFoo5(input: string)
    requires input == "let foo = 5;"
    ensures NextTokenAt(input, 12) == Step(Token(EOF, ""), 13)
  {
    ScanEnd(input, 12);
  }

  /** The window positions of `let foo = 5;` and the tokens there. */
  lemma LetFooTokens(input: string)
    requires input == "let foo = 5;"
    ensures CurrAt(input, 0) == Token(LET, "let") && Advance(input, 0) == 3
    ensures CurrAt(input, 3) == Token(IDENT, "foo") && Advance(input, 3) == 7
    ensures CurrAt(input, 7) == Token(ASSIGN, "=") && Advance(input, 7) == 9
    ensures CurrAt(input, 9) == Token(INT, "5") && Advance(input, 9) == 11
    ensures CurrAt(input, 11) == Token(SEMICOLON, ";") && Advance(input, 11) == 12
    ensures CurrAt(input, 12) == Token(EOF, "") && Advance(input, 12) == 13
    ensures |input| == 12
  {
    LexLetFoo0(input);
    LexLetFoo1(input);
    LexLetFoo2(input);
    LexLetFoo3(input);
    LexLetFoo4(input);
    LexLetFoo5(input);
  }

  /** Every INT token of `let foo = 5;` is a literal the conversion accepts, from every window position. */
  lemma LetFooValid(input: string)
    requires input == "let foo = 5;"
    ensures IntsValidFrom(input, 0)
    ensures IntsValidFrom(input, 3)
    ensures IntsValidFrom(input, 7)
    ensures IntsValidFrom(input, 9)
    ensures IntsValidFrom(input, 11)
    ensures IntsValidFrom(input, 12)
  {
    LetFooTokens(input);
    ParseIntLitExamples();
    assert IntsValidFrom(input, 12);
    assert IntsValidFrom(input, 11);
    assert IntsValidFrom(input, 9);
    assert IntsValidFrom(input, 7);
    assert IntsValidFrom(input, 3);
    assert IntsValidFrom(input, 0);
  }

  lemma LexFiveFoo0(input: string)
    requires input == "5; foo"
    ensures NextTokenAt(input, 0) == Step(Token(INT, "5"), 1)
  {
    ScanRun(input, 0, 0, 1, Digit);
    assert input[0..1] == "5";
  }

  lemma LexFiveFoo1(input: string)
    requires input == "5; foo"
    ensures NextTokenAt(input, 1) == Step(Token(SEMICOLON, ";"), 2)
  {
    ScanByte(input, 1, 1);
  }

  lemma LexFiveFoo2(input: string)
    requires input == "5; foo"
    ensures NextTokenAt(input, 2) == Step(Token(IDENT, "foo"), 6)
  {
    ScanRun(input, 2, 3, 6, Letter);
    assert input[3..6] == "foo";
  }

  lemma LexFiveFoo3(input: string)
    requires input == "5; foo"
    ensures NextTokenAt(input, 6) == Step(Token(EOF, ""), 7)
  {
    ScanEnd(input, 6);
  }

  /** The window positions of `5; foo` and the tokens there. */
  lemma FiveFooTokens(input: string)
    requires input == "5; foo"
    ensures CurrAt(input, 0) == Token(INT, "5") && Advance(input, 0) == 1
    ensures CurrAt(input, 1) == Token(SEMICOLON, ";") && Advance(input, 1) == 2
    ensures CurrAt(input, 2) == Token(IDENT, "foo") && Advance(input, 2) == 6
    ensures CurrAt(input, 6) == Token(EOF, "") && Advance(input, 6) == 7
    ensures |input| == 6
  {
    LexFiveFoo0(input);
    LexFiveFoo1(input);
    LexFiveFoo2(input);
    LexFiveFoo3(input);
  }

  /** Every INT token of `5; foo` is a literal the conversion accepts, from every window position. */
  lemma FiveFooValid(input: string)
    requires input == "5; foo"
    ensures IntsValidFrom(input, 0)
    ensures IntsValidFrom(input, 1)
    ensures IntsValidFrom(input, 2)
    ensures IntsValidFrom(input, 6)
  {
    FiveFooTokens(input);
    ParseIntLitExamples();
    assert IntsValidFrom(input, 6);
    assert IntsValidFrom(input, 2);
    assert IntsValidFrom(input, 1);
    assert IntsValidFrom(input, 0);
  }

  lemma LexPrefixes0(input: string)
    requires input == "!foo; -foo; -5;"
    ensures NextTokenAt(input, 0) == Step(Token(BANG, "!"), 1)
  {
    ScanByte(input, 0, 0);
  }

  lemma LexPrefixes1(input: string)
    requires input == "!foo; -foo; -5;"
    ensures NextTokenAt(input, 1) == Step(Token(IDENT, "foo"), 4)
  {
    ScanRun(input, 1, 1, 4, Letter);
    assert input[1..4] == "foo";
  }

  lemma LexPrefixes2(input: string)
    requires input == "!foo; -foo; -5;"
    ensures NextTokenAt(input, 4) == Step(Token(SEMICOLON, ";"), 5)
  {
    ScanByte(input, 4, 4);
  }

  lemma LexPrefixes3(input: string)
    requires input == "!foo; -foo; -5;"
    ensures NextTokenAt(input, 5) == Step(Token(MINUS, "-"), 7)
  {
    ScanByte(input, 5, 6);
  }

  lemma LexPrefixes4(input: string)
    requires input == "!foo; -foo; -5;"
    ensures NextTokenAt(input, 7) == Step(Token(IDENT, "foo"), 10)
  {
    ScanRun(input, 7, 7, 10, Letter);
    assert input[7..10] == "foo";
  }

  lemma LexPrefixes5(input: string)
    requires input == "!foo; -foo; -5;"
    ensures NextTokenAt(input, 10) == Step(Token(SEMICOLON, ";"), 11)
  {
    ScanByte(input, 10, 10);
  }

  lemma LexPrefixes6(input: string)
    requires input == "!foo; -foo; -5;"
    ensures NextTokenAt(input, 11) == Step(Token(MINUS, "-"), 13)
  {
    ScanByte(input, 11, 12);
  }

  lemma LexPrefixes7(input: string)
    requires input == "!foo; -foo; -5;"
    ensures NextTokenAt(input, 13) == Step(Token(INT, "5"), 14)
  {
    ScanRun(input, 13, 13, 14, Digit);
    assert input[13..14] == "5";
  }

  lemma LexPrefixes8(input: string)
    requires input == "!foo; -foo; -5;"
    ensures NextTokenAt(input, 14) == Step(Token(SEMICOLON, ";"), 15)
  {
    ScanByte(input, 14, 14);
  }

  lemma LexPrefixes9(input: string)
    requires input == "!foo; -foo; -5;"
    ensures NextTokenAt(input, 15) == Step(Token(EOF, ""), 16)
  {
    ScanEnd(input, 15);
  }

  /** The window positions of `!foo; -foo; -5;` and the tokens there. */
  lemma PrefixesTokens(input: string)
    requires input == "!foo; -foo; -5;"
    ensures CurrAt(input, 0) == Token(BANG, "!") && Advance(input, 0) == 1
    ensures CurrAt(input, 1) == Token(IDENT, "foo") && Advance(input, 1) == 4
    ensures CurrAt(input, 4) == Token(SEMICOLON, ";") && Advance(input, 4) == 5
    ensures CurrAt(input, 5) == Token(MINUS, "-") && Advance(input, 5) == 7
    ensures CurrAt(input, 7) == Token(IDENT, "foo") && Advance(input, 7) == 10
    ensures CurrAt(input, 10) == Token(SEMICOLON, ";") && Advance(input, 10) == 11
    ensures CurrAt(input, 11) == Token(MINUS, "-") && Advance(input, 11) == 13
    ensures CurrAt(input, 13) == Token(INT, "5") && Advance(input, 13) == 14
    ensures CurrAt(input, 14) == Token(SEMICOLON, ";") && Advance(input, 14) == 15
    ensures CurrAt(input, 15) == Token(EOF, "") && Advance(input, 15) == 16
    ensures |input| == 15
  {
    LexPrefixes0(input);
    LexPrefixes1(input);
    LexPrefixes2(input);
    LexPrefixes3(input);
    LexPrefixes4(input);
    LexPrefixes5(input);
    LexPrefixes6(input);
    LexPrefixes7(input);
    LexPrefixes8(input);
    LexPrefixes9(input);
  }

  /** Every INT token of `!foo; -foo; -5;` is a literal the conversion accepts, from every window position. */
  lemma PrefixesValid(input: string)
    requires input == "!foo; -foo; -5;"
    ensures IntsValidFrom(input, 0)
    ensures IntsValidFrom(input, 1)
    ensures IntsValidFrom(input, 4)
    ensures IntsValidFrom(input, 5)
    ensures IntsValidFrom(input, 7)
    ensures IntsValidFrom(input, 10)
    ensures IntsValidFrom(input, 11)
    ensures IntsValidFrom(input, 13)
    ensures IntsValidFrom(input, 14)
    ensures IntsValidFrom(input, 15)
  {
    PrefixesTokens(input);
    ParseIntLitExamples();
    assert IntsValidFrom(input, 15);
    assert IntsValidFrom(input, 14);
    assert IntsValidFrom(input, 13);
    assert IntsValidFrom(input, 11);
    assert IntsValidFrom(input, 10);
    assert IntsValidFrom(input, 7);
    assert IntsValidFrom(input, 5);
    assert IntsValidFrom(input, 4);
    assert IntsValidFrom(input, 1);
    assert IntsValidFrom(input, 0);
  }

  lemma LexBangMinus0(input: string)
    requires input == "!-5"
    ensures NextTokenAt(input, 0) == Step(Token(BANG, "!"), 1)
  {
    ScanByte(input, 0, 0);
  }

  lemma LexBangMinus1(input: string)
    requires input == "!-5"
    ensures NextTokenAt(input, 1) == Step(Token(MINUS, "-"), 2)
  {
    ScanByte(input, 1, 1);
  }

  lemma LexBangMinus2(input: string)
    requires input == "!-5"
    ensures NextTokenAt(input, 2) == Step(Token(INT, "5"), 3)
  {
    ScanRun(input, 2, 2, 3, Digit);
    assert input[2..3] == "5";
  }

  lemma LexBangMinus3(input: string)
    requires input == "!-5"
    ensures NextTokenAt(input, 3) == Step(Token(EOF, ""), 4)
  {
    ScanEnd(input, 3);
  }

  /** The window positions of `!-5` and the tokens there. */
  lemma BangMinusTokens(input: string)
    requires input == "!-5"
    ensures CurrAt(input, 0) == Token(BANG, "!") && Advance(input, 0) == 1
    ensures CurrAt(input, 1) == Token(MINUS, "-") && Advance(input, 1) == 2
    ensures CurrAt(input, 2) == Token(INT, "5") && Advance(input, 2) == 3
    ensures CurrAt(input, 3) == Token(EOF, "") && Advance(input, 3) == 4
    ensures |input| == 3
  {
    LexBangMinus0(input);
    LexBangMinus1(input);
    LexBangMinus2(input);
    LexBangMinus3(input);
  }

  /** Every INT token of `!-5` is a literal the conversion accepts, from every window position. */
  lemma BangMinusValid(input: string)
    requires input == "!-5"
    ensures IntsValidFrom(input, 0)
    ensures IntsValidFrom(input, 1)
    ensures IntsValidFrom(input, 2)
    ensures IntsValidFrom(input, 3)
  {
    BangMinusTokens(input);
    ParseIntLitExamples();
    assert IntsValidFrom(input, 3);
    assert IntsValidFrom(input, 2);
    assert IntsValidFrom(input, 1);
    assert IntsValidFrom(input, 0);
  }

  lemma LexLetNoAssign0(input: string)
    requires input == "let foo 5;"
    ensures NextTokenAt(input, 0) == Step(Token(LET, "let"), 3)
  {
    ScanRun(input, 0, 0, 3, Letter);
    assert input[0..3] == "let";
    KeywordsLookUp(LET);
  }

  lemma LexLetNoAssign1(input: string)
    requires input == "let foo 5;"
    ensures NextTokenAt(input, 3) == Step(Token(IDENT, "foo"), 7)
  {
    assert input[3] == ' ' && input[4] == 'f' && input[5] == 'o' && input[6] == 'o' && input[7] == ' ';
    ScanRun(input, 3, 4, 7, Letter);
    assert input[4..7] == "foo";
  }

  lemma LexLetNoAssign2(input: string)
    requires input == "let foo 5;"
    ensures NextTokenAt(input, 7) == Step(Token(INT, "5"), 9)
  {
    ScanRun(input, 7, 8, 9, Digit);
    assert input[8..9] == "5";
  }

  lemma LexLetNoAssign3(input: string)
    requires input == "let foo 5;"
    ensures NextTokenAt(input, 9) == Step(Token(SEMICOLON, ";"), 10)
  {
    ScanByte(input, 9, 9);
  }

  lemma LexLetNoAssign4(input: string)
    requires input == "let foo 5;"
    ensures NextTokenAt(input, 10) == Step(Token(EOF, ""), 11)
  {
    ScanEnd(input, 10);
  }

  /** The window positions of `let foo 5;` and the tokens there. */
  lemma LetNoAssignTokens(input: string)
    requires input == "let foo 5;"
    ensures CurrAt(input, 0) == Token(LET, "let") && Advance(input, 0) == 3
    ensures CurrAt(input, 3) == Token(IDENT, "foo") && Advance(input, 3) == 7
    ensures CurrAt(input, 7) == Token(INT, "5") && Advance(input, 7) == 9
    ensures CurrAt(input, 9) == Token(SEMICOLON, ";") && Advance(input, 9) == 10
    ensures CurrAt(input, 10) == Token(EOF, "") && Advance(input, 10) == 11
    ensures |input| == 10
  {
    LexLetNoAssign0(input);
    LexLetNoAssign1(input);
    LexLetNoAssign2(input);
    LexLetNoAssign3(input);
    LexLetNoAssign4(input);
  }

  /** Every INT token of `let foo 5;` is a literal the conversion accepts, from every window position. */
  lemma LetNoAssignValid(input: string)
    requires input == "let foo 5;"
    ensures IntsValidFrom(input, 0)
    ensures IntsValidFrom(input, 3)
    ensures IntsValidFrom(input, 7)
    ensures IntsValidFrom(input, 9)
    ensures IntsValidFrom(input, 10)
  {
    LetNoAssignTokens(input);
    ParseIntLitExamples();
    assert IntsValidFrom(input, 10);
    assert IntsValidFrom(input, 9);
    assert IntsValidFrom(input, 7);
    assert IntsValidFrom(input, 3);
    assert IntsValidFrom(input, 0);
  }

  lemma LexReturnFive0(input: string)
    requires input == "return 5;"
    ensures NextTokenAt(input, 0) == Step(Token(RETURN, "return"), 6)
  {
    ScanRun(input, 0, 0, 6, Letter);
    assert input[0..6] == "return";
    KeywordsLookUp(RETURN);
  }

  lemma LexReturnFive1(input: string)
    requires input == "return 5;"
    ensures NextTokenAt(input, 6) == Step(Token(INT, "5"), 8)
  {
    ScanRun(input, 6, 7, 8, Digit);
    assert input[7..8] == "5";
  }

  lemma LexReturnFive2(input: string)
    requires input == "return 5;"
    ensures NextTokenAt(input, 8) == Step(Token(SEMICOLON, ";"), 9)
  {
    ScanByte(input, 8, 8);
  }

  lemma LexReturnFive3(input: string)
    requires input == "return 5;"
    ensures NextTokenAt(input, 9) == Step(Token(EOF, ""), 10)
  {
    ScanEnd(input, 9);
  }

  /** The window positions of `return 5;` and the tokens there. */
  lemma ReturnFiveTokens(input: string)
    requires input == "return 5;"
    ensures CurrAt(input, 0) == Token(RETURN, "return") && Advance(input, 0) == 6
    ensures CurrAt(input, 6) == Token(INT, "5") && Advance(input, 6) == 8
    ensures CurrAt(input, 8) == Token(SEMICOLON, ";") && Advance(input, 8) == 9
    ensures CurrAt(input, 9) == Token(EOF, "") && Advance(input, 9) == 10
    ensures |input| == 9
  {
    LexReturnFive0(input);
    LexReturnFive1(input);
    LexReturnFive2(input);
    LexReturnFive3(input);
  }

  /** Every INT token of `return 5;` is a literal the conversion accepts, from every window position. */
  lemma ReturnFiveValid(input: string)
    requires input == "return 5;"
    ensures IntsValidFrom(input, 0)
    ensures IntsValidFrom(input, 6)
    ensures IntsValidFrom(input, 8)
    ensures IntsValidFrom(input, 9)
  {
    ReturnFiveTokens(input);
    ParseIntLitExamples();
    assert IntsValidFrom(input, 9);
    assert IntsValidFrom(input, 8);
    assert IntsValidFrom(input, 6);
    assert IntsValidFrom(input, 0);
  }

  lemma LexReturnRendered0(input: string)
    requires input == "return 5"
    ensures NextTokenAt(input, 0) == Step(Token(RETURN, "return"), 6)
  {
    ScanRun(input, 0, 0, 6, Letter);
    assert input[0..6] == "return";
    KeywordsLookUp(RETURN);
  }

  lemma LexReturnRendered1(input: string)
    requires input == "return 5"
    ensures NextTokenAt(input, 6) == Step(Token(INT, "5"), 8)
  {
    ScanRun(input, 6, 7, 8, Digit);
    assert input[7..8] == "5";
  }

  lemma LexReturnRendered2(input: string)
    requires input == "return 5"
    ensures NextTokenAt(input, 8) == Step(Token(EOF, ""), 9)
  {
    ScanEnd(input, 8);
  }

  /** The window positions of `return 5` and the tokens there. */
  lemma ReturnRenderedTokens(input: string)
    requires input == "return 5"
    ensures CurrAt(input, 0) == Token(RETURN, "return") && Advance(input, 0) == 6
    ensures CurrAt(input, 6) == Token(INT, "5") && Advance(input, 6) == 8
    ensures CurrAt(input, 8) == Token(EOF, "") && Advance(input, 8) == 9
    ensures |input| == 8
  {
    LexReturnRendered0(input);
    LexReturnRendered1(input);
    LexReturnRendered2(input);
  }

  /** Every INT token of `return 5` is a literal the conversion accepts, from every window position. */
  lemma ReturnRenderedValid(input: string)
    requires input == "return 5"
    ensures IntsValidFrom(input, 0)
    ensures IntsValidFrom(input, 6)
    ensures IntsValidFrom(input, 8)
  {
    ReturnRenderedTokens(input);
    ParseIntLitExamples();
    assert IntsValidFrom(input, 8);
    assert IntsValidFrom(input, 6);
    assert IntsValidFrom(input, 0);
  }

  /** The integer 5 as a window shows it. */
  lemma FiveAt(input: string, cur: nat)
    requires CurrAt(input, cur) == Token(INT, "5")
    ensures ParseExpressionAt(input, cur) == Outcome(Ok(Some(Integer(Token(INT, "5"), 5))), cur)
  {
    ParseIntLitExamples();
  }

  /** The identifier foo as a window shows it. */
  lemma FooAt(input: string, cur: nat)
    requires CurrAt(input, cur) == Token(IDENT, "foo")
    ensures ParseExpressionAt(input, cur) == Outcome(Ok(Some(Ident(Identifier(Token(IDENT, "foo"), "foo")))), cur)
  {
  }

  /** An expression statement over an expression ending at c, with a `;` after c or not. */
  lemma ExpressionStatementAt(input: string, cur: nat, e: Expression, c: nat, next: nat)
    requires CurrAt(input, cur).Type != LET && CurrAt(input, cur).Type != RETURN
    requires ParseExpressionAt(input, cur) == Outcome(Ok(Some(e)), c)
    requires next == if NextAt(input, c).Type == SEMICOLON then Advance(input, c) else c
    ensures ParseStatementAt(input, cur) == Outcome(Ok(ExpressionStatement(CurrAt(input, cur), Some(e))), next)
  {
    ExpressionStatementShape(input, cur);
  }

  /** A prefix expression whose operand ends at c. */
  lemma PrefixAt(input: string, cur: nat, e: Expression, c: nat)
    requires CurrAt(input, cur).Type == BANG || CurrAt(input, cur).Type == MINUS
    requires ParseExpressionAt(input, Advance(input, cur)) == Outcome(Ok(Some(e)), c)
    ensures ParseExpressionAt(input, cur) ==
      Outcome(Ok(Some(Prefix(CurrAt(input, cur), CurrAt(input, cur).Literal, Some(e)))), c)
  {
    PrefixShape(input, cur);
  }

  /** A program of two statements, at 0 and at c1's successor, with EOF after the second. */
  lemma TwoStatements(input: string, s1: Statement, c1: nat, p2: nat, s2: Statement, c2: nat, e: nat)
    requires IntsValidFrom(input, 0) && IntsValidFrom(input, p2)
    requires CurrAt(input, 0).Type != EOF && CurrAt(input, p2).Type != EOF
    requires ParseStatementAt(input, 0) == Outcome(Ok(s1), c1) && Advance(input, c1) == p2
    requires ParseStatementAt(input, p2) == Outcome(Ok(s2), c2)
    requires Advance(input, c2) == e && CurrAt(input, e).Type == EOF
    ensures ParseProgram(input, 0) == ([s1, s2], [])
  {
    assert ParseProgram(input, e) == ([], []);
    OkRound(input, p2, s2, c2, ([], []));
    OkRound(input, 0, s1, c1, ([s2] + [], []));
    assert [s1] + ([s2] + []) == [s1, s2];
  }

  /** A failed statement at 0 that leaves the window at c, then one statement from there. */
  lemma FailThenStatement(input: string, err: ParseError, c: nat, s: Statement, c2: nat, e: nat)
    requires IntsValidFrom(input, 0) && IntsValidFrom(input, c)
    requires CurrAt(input, 0).Type != EOF && CurrAt(input, c).Type != EOF
    requires ParseStatementAt(input, 0) == Outcome(Err(err), c)
    requires ParseStatementAt(input, c) == Outcome(Ok(s), c2)
    requires Advance(input, c2) == e && CurrAt(input, e).Type == EOF
    ensures ParseProgram(input, 0) == ([s], [err])
  {
    assert ParseProgram(input, e) == ([], []);
    OkRound(input, c, s, c2, ([], []));
    ErrRound(input, 0, err, c, ([s] + [], []));
    assert [s] + [] == [s];
    assert [err] + [] == [err];
  }

  /** The program `let foo = 5;` parses to; it renders as that input. */
  lemma LetFooRenders(stmt: Statement)
    requires stmt == LetStatement(Token(LET, "let"), Some(Identifier(Token(IDENT, "foo"), "foo")), Some(Integer(Token(INT, "5"), 5)))
    ensures Program([stmt]).String() == "let foo = 5;"
  {
    SmallPrograms(stmt);
    assert stmt.String() == "let" + " " + "foo" + " = " + "5" + ";";
  }

  lemma LetFooStatement(input: string, stmt: Statement)
    requires input == "let foo = 5;"
    requires stmt == LetStatement(Token(LET, "let"), Some(Identifier(Token(IDENT, "foo"), "foo")), Some(Integer(Token(INT, "5"), 5)))
    ensures ParseStatementAt(input, 0) == Outcome(Ok(stmt), 11)
    ensures CurrAt(input, 0).Type != EOF && Advance(input, 11) == 12 && CurrAt(input, 12).Type == EOF
  {
    LetFooTokens(input);
    FiveAt(input, 9);
    StatementDispatch(input, 0);
  }

  /** TestString: `let foo = 5;` parses to one let statement, and the program renders as the input. */
  lemma ParseLetFoo(input: string)
    requires input == "let foo = 5;"
    ensures IntsValidFrom(input, 0)
    ensures var foo := Identifier(Token(IDENT, "foo"), "foo");
      var stmt := LetStatement(Token(LET, "let"), Some(foo), Some(Integer(Token(INT, "5"), 5)));
      ParseProgram(input, 0) == ([stmt], [])
    ensures Program(ParseProgram(input, 0).0).String() == input
  {
    LetFooValid(input);
    var stmt := LetStatement(Token(LET, "let"), Some(Identifier(Token(IDENT, "foo"), "foo")), Some(Integer(Token(INT, "5"), 5)));
    LetFooStatement(input, stmt);
    OneStatement(input, stmt, 11, 12);
    LetFooRenders(stmt);
  }

  lemma FiveFooStatements(input: string, s1: Statement, s2: Statement)
    requires input == "5; foo"
    requires s1 == ExpressionStatement(Token(INT, "5"), Some(Integer(Token(INT, "5"), 5)))
    requires s2 == ExpressionStatement(Token(IDENT, "foo"), Some(Ident(Identifier(Token(IDENT, "foo"), "foo"))))
    ensures ParseStatementAt(input, 0) == Outcome(Ok(s1), 1) && Advance(input, 1) == 2
    ensures ParseStatementAt(input, 2) == Outcome(Ok(s2), 2) && Advance(input, 2) == 6
    ensures CurrAt(input, 0).Type != EOF && CurrAt(input, 2).Type != EOF && CurrAt(input, 6).Type == EOF
  {
    FiveFooTokens(input);
    FiveAt(input, 0);
    ExpressionStatementAt(input, 0, s1.expression.value, 0, 1);
    FooAt(input, 2);
    ExpressionStatementAt(input, 2, s2.expression.value, 2, 2);
  }

  /**
   * TestExpression: `5; foo` is two expression statements, the integer 5 and the
   * identifier foo; the `;` after the first is optional and swallowed.
   */
  lemma ParseFiveFoo(input: string)
    requires input == "5; foo"
    ensures IntsValidFrom(input, 0)
    ensures ParseProgram(input, 0) ==
      ([ExpressionStatement(Token(INT, "5"), Some(Integer(Token(INT, "5"), 5))),
        ExpressionStatement(Token(IDENT, "foo"), Some(Ident(Identifier(Token(IDENT, "foo"), "foo"))))], [])
  {
    FiveFooValid(input);
    var s1 := ExpressionStatement(Token(INT, "5"), Some(Integer(Token(INT, "5"), 5)));
    var s2 := ExpressionStatement(Token(IDENT, "foo"), Some(Ident(Identifier(Token(IDENT, "foo"), "foo"))));
    FiveFooStatements(input, s1, s2);
    TwoStatements(input, s1, 1, 2, s2, 2, 6);
  }

  lemma PrefixesStatements(input: string, foo: Expression, s1: Statement, s2: Statement, s3: Statement)
    requires input == "!foo; -foo; -5;"
    requires foo == Ident(Identifier(Token(IDENT, "foo"), "foo"))
    requires s1 == ExpressionStatement(Token(BANG, "!"), Some(Prefix(Token(BANG, "!"), "!", Some(foo))))
    requires s2 == ExpressionStatement(Token(MINUS, "-"), Some(Prefix(Token(MINUS, "-"), "-", Some(foo))))
    requires s3 == ExpressionStatement(Token(MINUS, "-"), Some(Prefix(Token(MINUS, "-"), "-", Some(Integer(Token(INT, "5"), 5)))))
    ensures ParseStatementAt(input, 0) == Outcome(Ok(s1), 4)
    ensures ParseStatementAt(input, 5) == Outcome(Ok(s2), 10)
    ensures ParseStatementAt(input, 11) == Outcome(Ok(s3), 14)
    ensures CurrAt(input, 0).Type != EOF && CurrAt(input, 5).Type != EOF && CurrAt(input, 11).Type != EOF
    ensures Advance(input, 4) == 5 && Advance(input, 10) == 11 && Advance(input, 14) == 15
    ensures CurrAt(input, 15).Type == EOF
  {
    PrefixesTokens(input);
    var five := Integer(Token(INT, "5"), 5);
    FooAt(input, 1);
    PrefixAt(input, 0, foo, 1);
    ExpressionStatementAt(input, 0, s1.expression.value, 1, 4);
    FooAt(input, 7);
    PrefixAt(input, 5, foo, 7);
    ExpressionStatementAt(input, 5, s2.expression.value, 7, 10);
    FiveAt(input, 13);
    PrefixAt(input, 11, five, 13);
    ExpressionStatementAt(input, 11, s3.expression.value, 13, 14);
  }

  /** The three rounds of the parse loop over `!foo; -foo; -5;`, whatever the bytes. */
  lemma PrefixesRounds(input: string, s1: Statement, s2: Statement, s3: Statement)
    requires IntsValidFrom(input, 0) && IntsValidFrom(input, 5) && IntsValidFrom(input, 11)
    requires ParseStatementAt(input, 0) == Outcome(Ok(s1), 4)
    requires ParseStatementAt(input, 5) == Outcome(Ok(s2), 10)
    requires ParseStatementAt(input, 11) == Outcome(Ok(s3), 14)
    requires CurrAt(input, 0).Type != EOF && CurrAt(input, 5).Type != EOF && CurrAt(input, 11).Type != EOF
    requires Advance(input, 4) == 5 && Advance(input, 10) == 11 && Advance(input, 14) == 15
    requires CurrAt(input, 15).Type == EOF
    ensures ParseProgram(input, 0) == ([s1, s2, s3], [])
  {
    assert ParseProgram(input, 15) == ([], []);
    OkRound(input, 11, s3, 14, ([], []));
    OkRound(input, 5, s2, 10, ([s3] + [], []));
    OkRound(input, 0, s1, 4, ([s2] + ([s3] + []), []));
    assert [s1] + ([s2] + ([s3] + [])) == [s1, s2, s3];
  }

  /**
   * TestPrefixExpression: `!foo; -foo; -5;` is three expression statements, each a prefix
   * expression whose operator is its token's literal and whose operand is foo, foo and 5.
   */
  lemma ParsePrefixes(input: string)
    requires input == "!foo; -foo; -5;"
    ensures IntsValidFrom(input, 0)
    ensures var foo := Ident(Identifier(Token(IDENT, "foo"), "foo"));
      ParseProgram(input, 0) ==
      ([ExpressionStatement(Token(BANG, "!"), Some(Prefix(Token(BANG, "!"), "!", Some(foo)))),
        ExpressionStatement(Token(MINUS, "-"), Some(Prefix(Token(MINUS, "-"), "-", Some(foo)))),
        ExpressionStatement(Token(MINUS, "-"), Some(Prefix(Token(MINUS, "-"), "-", Some(Integer(Token(INT, "5"), 5)))))],
       [])
  {
    PrefixesValid(input);
    var foo := Ident(Identifier(Token(IDENT, "foo"), "foo"));
    var s1 := ExpressionStatement(Token(BANG, "!"), Some(Prefix(Token(BANG, "!"), "!", Some(foo))));
    var s2 := ExpressionStatement(Token(MINUS, "-"), Some(Prefix(Token(MINUS, "-"), "-", Some(foo))));
    var s3 := ExpressionStatement(Token(MINUS, "-"), Some(Prefix(Token(MINUS, "-"), "-", Some(Integer(Token(INT, "5"), 5)))));
    PrefixesStatements(input, foo, s1, s2, s3);
    PrefixesRounds(input, s1, s2, s3);
  }

  lemma BangMinusStatement(input: string, s: Statement)
    requires input == "!-5"
    requires s == ExpressionStatement(Token(BANG, "!"),
      Some(Prefix(Token(BANG, "!"), "!", Some(Prefix(Token(MINUS, "-"), "-", Some(Integer(Token(INT, "5"), 5)))))))
    ensures ParseStatementAt(input, 0) == Outcome(Ok(s), 2)
    ensures CurrAt(input, 0).Type != EOF && Advance(input, 2) == 3 && CurrAt(input, 3).Type == EOF
  {
    BangMinusTokens(input);
    var five := Integer(Token(INT, "5"), 5);
    var minus := Prefix(Token(MINUS, "-"), "-", Some(five));
    FiveAt(input, 2);
    PrefixAt(input, 1, five, 2);
    PrefixAt(input, 0, minus, 2);
    ExpressionStatementAt(input, 0, s.expression.value, 2, 2);
  }

  /** `!-5` nests: `!` over `-` over 5, and renders as `(!) (-) 5`. */
  lemma ParseBangMinus(input: string)
    requires input == "!-5"
    ensures IntsValidFrom(input, 0)
    ensures var e := Prefix(Token(BANG, "!"), "!", Some(Prefix(Token(MINUS, "-"), "-", Some(Integer(Token(INT, "5"), 5)))));
      ParseProgram(input, 0) == ([ExpressionStatement(Token(BANG, "!"), Some(e))], [])
    ensures Program(ParseProgram(input, 0).0).String() == "(!) (-) 5"
  {
    BangMinusValid(input);
    var e := Prefix(Token(BANG, "!"), "!", Some(Prefix(Token(MINUS, "-"), "-", Some(Integer(Token(INT, "5"), 5)))));
    var s := ExpressionStatement(Token(BANG, "!"), Some(e));
    BangMinusStatement(input, s);
    OneStatement(input, s, 2, 3);
    SmallPrograms(s);
    PrefixRenderings();
  }

  lemma LetNoAssignStatements(input: string, s: Statement)
    requires input == "let foo 5;"
    requires s == ExpressionStatement(Token(INT, "5"), Some(Integer(Token(INT, "5"), 5)))
    ensures ParseStatementAt(input, 0) == Outcome(Err(Wanted(ASSIGN, INT)), 7)
    ensures ParseStatementAt(input, 7) == Outcome(Ok(s), 9)
    ensures CurrAt(input, 0).Type != EOF && CurrAt(input, 7).Type != EOF
    ensures Advance(input, 9) == 10 && CurrAt(input, 10).Type == EOF
  {
    LetNoAssignTokens(input);
    StatementDispatch(input, 0);
    FiveAt(input, 7);
    ExpressionStatementAt(input, 7, s.expression.value, 7, 9);
  }

  /**
   * `let foo 5;` lacks its `=`: the let statement fails, nothing is added for it, and the
   * loop goes on from the window where it stopped, so `5;` becomes a statement of its own.
   */
  lemma ParseLetNoAssign(input: string)
    requires input == "let foo 5;"
    ensures IntsValidFrom(input, 0)
    ensures ParseProgram(input, 0) ==
      ([ExpressionStatement(Token(INT, "5"), Some(Integer(Token(INT, "5"), 5)))], [Wanted(ASSIGN, INT)])
  {
    LetNoAssignValid(input);
    var s := ExpressionStatement(Token(INT, "5"), Some(Integer(Token(INT, "5"), 5)));
    LetNoAssignStatements(input, s);
    FailThenStatement(input, Wanted(ASSIGN, INT), 7, s, 9, 10);
  }

  lemma ReturnFiveStatement(input: string, s: Statement)
    requires input == "return 5;"
    requires s == ReturnStatement(Token(RETURN, "return"), Some(Integer(Token(INT, "5"), 5)))
    ensures ParseStatementAt(input, 0) == Outcome(Ok(s), 8)
    ensures CurrAt(input, 0).Type != EOF && Advance(input, 8) == 9 && CurrAt(input, 9).Type == EOF
  {
    ReturnFiveTokens(input);
    FiveAt(input, 6);
    StatementDispatch(input, 0);
  }

  /** `return 5;` parses to one return statement, which renders without its `;`. */
  lemma ParseReturnFive(input: string)
    requires input == "return 5;"
    ensures IntsValidFrom(input, 0)
    ensures var s := ReturnStatement(Token(RETURN, "return"), Some(Integer(Token(INT, "5"), 5)));
      ParseProgram(input, 0) == ([s], [])
    ensures Program(ParseProgram(input, 0).0).String() == "return 5"
  {
    ReturnFiveValid(input);
    var s := ReturnStatement(Token(RETURN, "return"), Some(Integer(Token(INT, "5"), 5)));
    ReturnFiveStatement(input, s);
    OneStatement(input, s, 8, 9);
    SmallPrograms(s);
    assert s.String() == "return" + " " + "5";
  }

  lemma ReturnRenderedStatements(input: string, s: Statement)
    requires input == "return 5"
    requires s == ExpressionStatement(Token(INT, "5"), Some(Integer(Token(INT, "5"), 5)))
    ensures ParseStatementAt(input, 0) == Outcome(Err(Wanted(SEMICOLON, EOF)), 6)
    ensures ParseStatementAt(input, 6) == Outcome(Ok(s), 6)
    ensures CurrAt(input, 0).Type != EOF && CurrAt(input, 6).Type != EOF
    ensures Advance(input, 6) == 8 && CurrAt(input, 8).Type == EOF
  {
    ReturnRenderedTokens(input);
    FiveAt(input, 6);
    StatementDispatch(input, 0);
    ExpressionStatementAt(input, 6, s.expression.value, 6, 6);
  }

  /**
   * The rendering `return 5` does not parse back: the return statement fails for want of
   * its `;` on EOF, and the loop then reads `5` as an expression statement.
   */
  lemma ParseReturnRendered(input: string)
    requires input == "return 5"
    ensures IntsValidFrom(input, 0)
    ensures ParseProgram(input, 0) ==
      ([ExpressionStatement(Token(INT, "5"), Some(Integer(Token(INT, "5"), 5)))], [Wanted(SEMICOLON, EOF)])
  {
    ReturnRenderedValid(input);
    var s := ExpressionStatement(Token(INT, "5"), Some(Integer(Token(INT, "5"), 5)));
    ReturnRenderedStatements(input, s);
    FailThenStatement(input, Wanted(SEMICOLON, EOF), 6, s, 6, 8);
  }

  lemma LexLetNil0(input: string)
    requires input == "let x = );"
    ensures NextTokenAt(input, 0) == Step(Token(LET, "let"), 3)
  {
    ScanRun(input, 0, 0, 3, Letter);
    assert input[0..3] == "let";
    KeywordsLookUp(LET);
  }

  lemma LexLetNil1(input: string)
    requires input == "let x = );"
    ensures NextTokenAt(input, 3) == Step(Token(IDENT, "x"), 5)
  {
    ScanRun(input, 3, 4, 5, Letter);
    assert input[4..5] == "x";
  }

  lemma LexLetNil2(input: string)
    requires input == "let x = );"
    ensures NextTokenAt(input, 5) == Step(Token(ASSIGN, "="), 7)
  {
    ScanByte(input, 5, 6);
  }

  lemma LexLetNil3(input: string)
    requires input == "let x = );"
    ensures NextTokenAt(input, 7) == Step(Token(RPAREN, ")"), 9)
  {
    ScanByte(input, 7, 8);
  }

  lemma LexLetNil4(input: string)
    requires input == "let x = );"
    ensures NextTokenAt(input, 9) == Step(Token(SEMICOLON, ";"), 10)
  {
    ScanByte(input, 9, 9);
  }

  lemma LexLetNil5(input: string)
    requires input == "let x = );"
    ensures NextTokenAt(input, 10) == Step(Token(EOF, ""), 11)
  {
    ScanEnd(input, 10);
  }

  /** The window positions of `let x = );` and the tokens there. */
  lemma LetNilTokens(input: string)
    requires input == "let x = );"
    ensures CurrAt(input, 0) == Token(LET, "let") && Advance(input, 0) == 3
    ensures CurrAt(input, 3) == Token(IDENT, "x") && Advance(input, 3) == 5
    ensures CurrAt(input, 5) == Token(ASSIGN, "=") && Advance(input, 5) == 7
    ensures CurrAt(input, 7) == Token(RPAREN, ")") && Advance(input, 7) == 9
    ensures CurrAt(input, 9) == Token(SEMICOLON, ";") && Advance(input, 9) == 10
    ensures CurrAt(input, 10) == Token(EOF, "") && Advance(input, 10) == 11
    ensures |input| == 10
  {
    LexLetNil0(input);
    LexLetNil1(input);
    LexLetNil2(input);
    LexLetNil3(input);
    LexLetNil4(input);
    LexLetNil5(input);
  }

  /** `let x = );` holds no INT token, so it is inside IntsValidFrom from every window position. */
  lemma LetNilValid(input: string)
    requires input == "let x = );"
    ensures IntsValidFrom(input, 0)
  {
    LetNilTokens(input);
    assert IntsValidFrom(input, 10);
    assert IntsValidFrom(input, 9);
    assert IntsValidFrom(input, 7);
    assert IntsValidFrom(input, 5);
    assert IntsValidFrom(input, 3);
    assert IntsValidFrom(input, 0);
  }

  lemma LetNilStatement(input: string, s: Statement)
    requires input == "let x = );"
    requires s == LetStatement(Token(LET, "let"), Some(Identifier(Token(IDENT, "x"), "x")), None)
    ensures ParseStatementAt(input, 0) == Outcome(Ok(s), 9)
    ensures CurrAt(input, 0).Type != EOF && Advance(input, 9) == 10 && CurrAt(input, 10).Type == EOF
  {
    LetNilTokens(input);
    NilExpression(input, 7);
    StatementDispatch(input, 0);
  }

  /**
   * `let x = );`: the `)` starts no expression, so the let statement is accepted with a nil
   * value, its `;` being the token after the `)`. The statement renders as `let x`.
   */
  lemma ParseLetNil(input: string)
    requires input == "let x = );"
    ensures IntsValidFrom(input, 0)
    ensures var s := LetStatement(Token(LET, "let"), Some(Identifier(Token(IDENT, "x"), "x")), None);
      ParseProgram(input, 0) == ([s], [])
    ensures Program(ParseProgram(input, 0).0).String() == "let x"
  {
    LetNilValid(input);
    var s := LetStatement(Token(LET, "let"), Some(Identifier(Token(IDENT, "x"), "x")), None);
    LetNilStatement(input, s);
    OneStatement(input, s, 9, 10);
    LetNilRenders(s);
  }

  lemma LetNilRenders(s: Statement)
    requires s == LetStatement(Token(LET, "let"), Some(Identifier(Token(IDENT, "x"), "x")), None)
    ensures Program([s]).String() == "let x"
  {
    SmallPrograms(s);
    assert s.String() == "let" + " " + "x";
  }

  lemma LexLetEmpty0(input: string)
    requires input == "let x = ;"
    ensures NextTokenAt(input, 0) == Step(Token(LET, "let"), 3)
  {
    ScanRun(input, 0, 0, 3, Letter);
    assert input[0..3] == "let";
    KeywordsLookUp(LET);
  }

  lemma LexLetEmpty1(input: string)
    requires input == "let x = ;"
    ensures NextTokenAt(input, 3) == Step(Token(IDENT, "x"), 5)
  {
    ScanRun(input, 3, 4, 5, Letter);
    assert input[4..5] == "x";
  }

  lemma LexLetEmpty2(input: string)
    requires input == "let x = ;"
    ensures NextTokenAt(input, 5) == Step(Token(ASSIGN, "="), 7)
  {
    ScanByte(input, 5, 6);
  }

  lemma LexLetEmpty3(input: string)
    requires input == "let x = ;"
    ensures NextTokenAt(input, 7) == Step(Token(SEMICOLON, ";"), 9)
  {
    ScanByte(input, 7, 8);
  }

  lemma LexLetEmpty4(input: string)
    requires input == "let x = ;"
    ensures NextTokenAt(input, 9) == Step(Token(EOF, ""), 10)
  {
    ScanEnd(input, 9);
  }

  /** The window positions of `let x = ;` and the tokens there. */
  lemma LetEmptyTokens(input: string)
    requires input == "let x = ;"
    ensures CurrAt(input, 0) == Token(LET, "let") && Advance(input, 0) == 3
    ensures CurrAt(input, 3) == Token(IDENT, "x") && Advance(input, 3) == 5
    ensures CurrAt(input, 5) == Token(ASSIGN, "=") && Advance(input, 5) == 7
    ensures CurrAt(input, 7) == Token(SEMICOLON, ";") && Advance(input, 7) == 9
    ensures CurrAt(input, 9) == Token(EOF, "") && Advance(input, 9) == 10
    ensures |input| == 9
  {
    LexLetEmpty0(input);
    LexLetEmpty1(input);
    LexLetEmpty2(input);
    LexLetEmpty3(input);
    LexLetEmpty4(input);
  }

  /** `let x = ;` holds no INT token, so it is inside IntsValidFrom from every window position. */
  lemma LetEmptyValid(input: string)
    requires input == "let x = ;"
    ensures IntsValidFrom(input, 0) && IntsValidFrom(input, 7)
  {
    LetEmptyTokens(input);
    assert IntsValidFrom(input, 9);
    assert IntsValidFrom(input, 7);
    assert IntsValidFrom(input, 5);
    assert IntsValidFrom(input, 3);
    assert IntsValidFrom(input, 0);
  }

  lemma LetEmptyStatements(input: string, s: Statement)
    requires input == "let x = ;"
    requires s == ExpressionStatement(Token(SEMICOLON, ";"), None)
    ensures ParseStatementAt(input, 0) == Outcome(Err(Wanted(SEMICOLON, EOF)), 7)
    ensures ParseStatementAt(input, 7) == Outcome(Ok(s), 7)
    ensures CurrAt(input, 0).Type != EOF && CurrAt(input, 7).Type != EOF
    ensures Advance(input, 7) == 9 && CurrAt(input, 9).Type == EOF
  {
    LetEmptyTokens(input);
    NilExpression(input, 7);
    StatementDispatch(input, 0);
  }

  /**
   * `let x = ;`: the `;` is the value, which is nil, and the token after it is EOF where the
   * let statement wants its `;`. The loop then reads the `;` as an expression statement
   * with a nil expression.
   */
  lemma ParseLetEmpty(input: string)
    requires input == "let x = ;"
    ensures IntsValidFrom(input, 0)
    ensures ParseProgram(input, 0) == ([ExpressionStatement(Token(SEMICOLON, ";"), None)], [Wanted(SEMICOLON, EOF)])
  {
    LetEmptyValid(input);
    var s := ExpressionStatement(Token(SEMICOLON, ";"), None);
    LetEmptyStatements(input, s);
    FailThenStatement(input, Wanted(SEMICOLON, EOF), 7, s, 7, 9);
  }

  /**
   * `5\0 08`: the loop stops at the embedded NUL, so the bad literal `08` after it is never
   * parsed, yet the input lies outside IntsValidFrom.
   */
  lemma BadLiteralPastNul(input: string)
    requires input == "5\0 08"
    ensures CurrAt(input, 0) == Token(INT, "5") && Advance(input, 0) == 1
    ensures CurrAt(input, 1).Type == EOF
    ensures !IntsValidFrom(input, 0)
  {
    ScanRun(input, 0, 0, 1, Digit);
    assert input[0..1] == "5";
    ScanByte(input, 1, 1);
    ScanRun(input, 2, 3, 5, Digit);
    assert input[3..5] == "08";
    NonOctalRejected("08", 1);
    assert !IntsValidFrom(input, 2);
  }

  lemma LexLetBad0(input: string)
    requires input == "let x = 08;"
    ensures NextTokenAt(input, 0) == Step(Token(LET, "let"), 3)
  {
    ScanRun(input, 0, 0, 3, Letter);
    assert input[0..3] == "let";
    KeywordsLookUp(LET);
  }

  lemma LexLetBad1(input: string)
    requires input == "let x = 08;"
    ensures NextTokenAt(input, 3) == Step(Token(IDENT, "x"), 5)
  {
    ScanRun(input, 3, 4, 5, Letter);
    assert input[4..5] == "x";
  }

  lemma LexLetBad2(input: string)
    requires input == "let x = 08;"
    ensures NextTokenAt(input, 5) == Step(Token(ASSIGN, "="), 7)
  {
    ScanByte(input, 5, 6);
  }

  lemma LexLetBad3(input: string)
    requires input == "let x = 08;"
    ensures NextTokenAt(input, 7) == Step(Token(INT, "08"), 10)
  {
    ScanRun(input, 7, 8, 10, Digit);
    assert input[8..10] == "08";
  }

  /** The window positions of `let x = 08;` up to the literal. */
  lemma LetBadTokens(input: string)
    requires input == "let x = 08;"
    ensures CurrAt(input, 0) == Token(LET, "let") && Advance(input, 0) == 3
    ensures CurrAt(input, 3) == Token(IDENT, "x") && Advance(input, 3) == 5
    ensures CurrAt(input, 5) == Token(ASSIGN, "=") && Advance(input, 5) == 7
    ensures CurrAt(input, 7) == Token(INT, "08")
  {
    LexLetBad0(input);
    LexLetBad1(input);
    LexLetBad2(input);
    LexLetBad3(input);
  }

  /**
   * `let x = 08;`: the let statement reads three tokens before it meets the bad literal, so
   * it fails with the window moved onto `08`; every later round starts there, fails and
   * does not move.
   */
  lemma ParseLetBadInteger(input: string)
    requires input == "let x = 08;"
    ensures ParseStatementAt(input, 0) == Outcome(Err(InLet(BadInteger(Token(INT, "08")))), 7)
    ensures ParseStatementAt(input, 7) == Outcome(Err(BadInteger(Token(INT, "08"))), 7)
  {
    LetBadTokens(input);
    NonOctalRejected("08", 1);
    BadIntegerStuck(input, 7);
    StatementDispatch(input, 0);
  }
}
