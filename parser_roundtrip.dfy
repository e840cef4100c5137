/**
 * The round trip of the two statement forms with a value, for every name and every
 * integer literal: `let x = d;` and `return d;` each parse to one statement with no
 * error, and the let statement renders back to its input while the return statement
 * renders without its `;`.
 */
module ParserRoundTrip {
  import opened Wrappers
  import opened Tokens
  import opened Lexing
  import opened IntLiteral
  import opened Ast
  import opened Parsing
  import opened LexerProperties
  import opened AstProperties
  import opened ParserProperties

  /** A name a let statement accepts: a non-empty run of letters that is no keyword. */
  predicate IsName(x: string) {
    x != "" && AllIn(x, Letter) && IdentType(x) == IDENT
  }

  /** A digit string the conversion accepts, with its value. */
  predicate IsNumber(d: string, v: int) {
    d != "" && AllIn(d, Digit) && ParseIntLit(d) == Some(v)
  }

  /** The integer literal d as a window shows it. */
  lemma IntegerAt(input: string, cur: nat, d: string, v: int)
    requires IsNumber(d, v) && CurrAt(input, cur) == Token(INT, d)
    ensures ParseExpressionAt(input, cur) == Outcome(Ok(Some(Integer(Token(INT, d), v))), cur)
  {
  }

  /** The lookahead of the window at c is the token at the position one readToken later. */
  lemma LookAhead(input: string, c: nat, c': nat)
    requires Advance(input, c) == c'
    ensures NextAt(input, c) == CurrAt(input, c')
  {
  }

  /** The bytes of `let x = d;`, by offset. */
  lemma LetBytes(input: string, x: string, d: string)
    requires input == "let " + x + " = " + d + ";"
    ensures |input| == 8 + |x| + |d|
    ensures input[0..3] == "let" && input[3] == ' '
    ensures forall i :: 0 <= i < |x| ==> input[4 + i] == x[i]
    ensures input[4 + |x|] == ' ' && input[5 + |x|] == '=' && input[6 + |x|] == ' '
    ensures forall i :: 0 <= i < |d| ==> input[7 + |x| + i] == d[i]
    ensures input[7 + |x| + |d|] == ';'
  {
  }

  /** The bytes of `return d;`, by offset. */
  lemma ReturnBytes(input: string, d: string)
    requires input == "return " + d + ";"
    ensures |input| == 8 + |d|
    ensures input[0..6] == "return" && input[6] == ' '
    ensures forall i :: 0 <= i < |d| ==> input[7 + i] == d[i]
    ensures input[7 + |d|] == ';'
  {
  }

  /** A word that fills input from s up to e, with no letter after it. */
  lemma WordAt(input: string, p: nat, s: nat, w: string)
    requires p <= s && s + |w| <= |input| && w != "" && AllIn(w, Letter)
    requires forall i :: p <= i < s ==> IsWhiteSpace(input[i])
    requires forall i :: 0 <= i < |w| ==> input[s + i] == w[i]
    requires !IsValidIdentChar(At(input, s + |w|))
    ensures NextTokenAt(input, p) == Step(Token(IdentType(w), w), s + |w|)
  {
    forall i | s <= i < s + |w| ensures IsValidIdentChar(input[i]) {
      assert input[i] == w[i - s];
    }
    assert input[s..s + |w|] == w;
    ScanRun(input, p, s, s + |w|, Letter);
  }

  /** A digit string that fills input from s, with no digit after it. */
  lemma NumberAt(input: string, p: nat, s: nat, d: string)
    requires p <= s && s + |d| <= |input| && d != "" && AllIn(d, Digit)
    requires forall i :: p <= i < s ==> IsWhiteSpace(input[i])
    requires forall i :: 0 <= i < |d| ==> input[s + i] == d[i]
    requires !IsDigit(At(input, s + |d|))
    ensures NextTokenAt(input, p) == Step(Token(INT, d), s + |d|)
  {
    forall i | s <= i < s + |d| ensures IsDigit(input[i]) {
      assert input[s + (i - s)] == d[i - s];
    }
    assert input[s..s + |d|] == d;
    ScanRun(input, p, s, s + |d|, Digit);
  }

  /** The bytes of `let x = d;` at the offsets the lexer reads. */
  predicate LetLayout(input: string, x: string, d: string) {
    && |input| == 8 + |x| + |d|
    && input[0..3] == "let" && input[3] == ' '
    && (forall i :: 0 <= i < |x| ==> input[4 + i] == x[i])
    && input[4 + |x|] == ' ' && input[5 + |x|] == '=' && input[6 + |x|] == ' '
    && (forall i :: 0 <= i < |d| ==> input[7 + |x| + i] == d[i])
    && input[7 + |x| + |d|] == ';'
  }

  /** The window of `let x = d;`: the keyword and the name. */
  lemma LetWords(input: string, x: string, d: string)
    requires LetLayout(input, x, d) && IsName(x)
    ensures CurrAt(input, 0) == Token(LET, "let") && Advance(input, 0) == 3
    ensures CurrAt(input, 3) == Token(IDENT, x) && Advance(input, 3) == 4 + |x|
  {
    LetKeyword(input);
    NameWindow(input, 3, x);
  }

  /** `let` and a blank at the front: the window shows LET. */
  lemma LetKeyword(input: string)
    requires |input| > 3 && input[0..3] == "let" && input[3] == ' '
    ensures CurrAt(input, 0) == Token(LET, "let") && Advance(input, 0) == 3
  {
    KeywordsLookUp(LET);
    assert forall i :: 0 <= i < 3 ==> input[0 + i] == "let"[i];
    WordAt(input, 0, 0, "let");
  }

  /** A blank and then the name x at p, with a blank after it: the window shows IDENT x. */
  lemma NameWindow(input: string, p: nat, x: string)
    requires IsName(x) && p + 1 + |x| < |input| && input[p] == ' ' && input[p + 1 + |x|] == ' '
    requires forall i :: 0 <= i < |x| ==> input[p + 1 + i] == x[i]
    ensures CurrAt(input, p) == Token(IDENT, x) && Advance(input, p) == p + 1 + |x|
  {
    WordAt(input, p, p + 1, x);
  }

  /** The window of `let x = d;`: `=`, the literal, `;` and EOF. */
  lemma LetRest(input: string, x: string, d: string)
    requires LetLayout(input, x, d) && d != "" && AllIn(d, Digit)
    ensures var n, m := |x|, |d|;
      && CurrAt(input, 4 + n) == Token(ASSIGN, "=") && Advance(input, 4 + n) == 6 + n
      && CurrAt(input, 6 + n) == Token(INT, d) && Advance(input, 6 + n) == 7 + n + m
      && CurrAt(input, 7 + n + m) == Token(SEMICOLON, ";") && Advance(input, 7 + n + m) == 8 + n + m
      && CurrAt(input, 8 + n + m) == Token(EOF, "")
  {
    var n, m := |x|, |d|;
    AssignWindow(input, 4 + n);
    NumberWindow(input, 6 + n, d);
    SemicolonWindow(input, 7 + n + m);
  }

  /** ` = ` at p: the window shows ASSIGN, and the next one starts at the blank after it. */
  lemma AssignWindow(input: string, p: nat)
    requires p + 2 < |input| && input[p] == ' ' && input[p + 1] == '=' && input[p + 2] == ' '
    ensures CurrAt(input, p) == Token(ASSIGN, "=") && Advance(input, p) == p + 2
  {
    ScanByte(input, p, p + 1);
  }

  /** A blank and then the digits d at p: the window shows INT d. */
  lemma NumberWindow(input: string, p: nat, d: string)
    requires p + 1 + |d| < |input| && d != "" && AllIn(d, Digit) && input[p] == ' '
    requires forall i :: 0 <= i < |d| ==> input[p + 1 + i] == d[i]
    requires !IsDigit(input[p + 1 + |d|])
    ensures CurrAt(input, p) == Token(INT, d) && Advance(input, p) == p + 1 + |d|
  {
    NumberAt(input, p, p + 1, d);
  }

  /** A final `;` at p: the window shows it, and EOF after it. */
  lemma SemicolonWindow(input: string, p: nat)
    requires p + 1 == |input| && input[p] == ';'
    ensures CurrAt(input, p) == Token(SEMICOLON, ";") && Advance(input, p) == p + 1
    ensures CurrAt(input, p + 1) == Token(EOF, "")
  {
    ScanByte(input, p, p);
    ScanEnd(input, p + 1);
  }

  /** The window of `let x = d;`, token by token. */
  lemma LetTokens(input: string, x: string, d: string)
    requires input == "let " + x + " = " + d + ";" && IsName(x) && d != "" && AllIn(d, Digit)
    ensures var n, m := |x|, |d|;
      && CurrAt(input, 0) == Token(LET, "let") && Advance(input, 0) == 3
      && CurrAt(input, 3) == Token(IDENT, x) && Advance(input, 3) == 4 + n
      && CurrAt(input, 4 + n) == Token(ASSIGN, "=") && Advance(input, 4 + n) == 6 + n
      && CurrAt(input, 6 + n) == Token(INT, d) && Advance(input, 6 + n) == 7 + n + m
      && CurrAt(input, 7 + n + m) == Token(SEMICOLON, ";") && Advance(input, 7 + n + m) == 8 + n + m
      && CurrAt(input, 8 + n + m) == Token(EOF, "") && |input| == 8 + n + m
  {
    LetBytes(input, x, d);
    assert LetLayout(input, x, d);
    LetWords(input, x, d);
    LetRest(input, x, d);
  }

  /**
   * A let statement whose window positions after the keyword, the name, `=` and the
   * integer are c1, c2, c3 and c4, with `;` at c4.
   */
  lemma LetAt(input: string, c1: nat, c2: nat, c3: nat, c4: nat, name: Token, lit: Token, v: int)
    requires CurrAt(input, 0) == Token(LET, "let") && Advance(input, 0) == c1
    requires CurrAt(input, c1) == name && name.Type == IDENT && Advance(input, c1) == c2
    requires CurrAt(input, c2).Type == ASSIGN && Advance(input, c2) == c3
    requires ParseExpressionAt(input, c3) == Outcome(Ok(Some(Integer(lit, v))), c3)
    requires Advance(input, c3) == c4 && CurrAt(input, c4).Type == SEMICOLON
    ensures ParseStatementAt(input, 0) ==
      Outcome(Ok(LetStatement(Token(LET, "let"), Some(Identifier(name, name.Literal)), Some(Integer(lit, v)))), c4)
  {
    LookAhead(input, c3, c4);
    LetShape(input, 0);
    StatementDispatch(input, 0);
  }

  /** `return` and a blank at the front: the window shows RETURN. */
  lemma ReturnKeyword(input: string)
    requires |input| > 6 && input[0..6] == "return" && input[6] == ' '
    ensures CurrAt(input, 0) == Token(RETURN, "return") && Advance(input, 0) == 6
  {
    KeywordsLookUp(RETURN);
    assert forall i :: 0 <= i < 6 ==> input[0 + i] == "return"[i];
    WordAt(input, 0, 0, "return");
  }

  /** The window of `return d;`, token by token. */
  lemma ReturnTokens(input: string, d: string)
    requires input == "return " + d + ";" && d != "" && AllIn(d, Digit)
    ensures var m := |d|;
      && CurrAt(input, 0) == Token(RETURN, "return") && Advance(input, 0) == 6
      && CurrAt(input, 6) == Token(INT, d) && Advance(input, 6) == 7 + m
      && CurrAt(input, 7 + m) == Token(SEMICOLON, ";") && Advance(input, 7 + m) == 8 + m
      && CurrAt(input, 8 + m) == Token(EOF, "") && |input| == 8 + m
  {
    ReturnBytes(input, d);
    assert ReturnLayout(input, d);
    ReturnWindow(input, d);
  }

  /** The bytes of `return d;` at the offsets the lexer reads. */
  predicate ReturnLayout(input: string, d: string) {
    && |input| == 8 + |d|
    && input[0..6] == "return" && input[6] == ' '
    && (forall i :: 0 <= i < |d| ==> input[7 + i] == d[i])
    && input[7 + |d|] == ';'
  }

  /** The window of `return d;` over its layout. */
  lemma ReturnWindow(input: string, d: string)
    requires ReturnLayout(input, d) && d != "" && AllIn(d, Digit)
    ensures var m := |d|;
      && CurrAt(input, 0) == Token(RETURN, "return") && Advance(input, 0) == 6
      && CurrAt(input, 6) == Token(INT, d) && Advance(input, 6) == 7 + m
      && CurrAt(input, 7 + m) == Token(SEMICOLON, ";") && Advance(input, 7 + m) == 8 + m
      && CurrAt(input, 8 + m) == Token(EOF, "")
  {
    ReturnKeyword(input);
    NumberWindow(input, 6, d);
    SemicolonWindow(input, 7 + |d|);
  }

  /** A window holding a stream whose only INT token is d at position q. */
  lemma ValidAbove(input: string, p: nat, q: nat)
    requires q < |input| && Advance(input, q) <= |input|
    requires p == q || (p < q && Advance(input, p) == q && CurrAt(input, p).Type != INT)
    requires CurrAt(input, q).Type == INT ==> ParseIntLit(CurrAt(input, q).Literal).Some?
    requires IntsValidFrom(input, Advance(input, q))
    ensures IntsValidFrom(input, p)
  {
  }

  /** `let x = d;` is inside IntsValidFrom at every window position. */
  lemma LetValid(input: string, x: string, d: string, v: int)
    requires input == "let " + x + " = " + d + ";" && IsName(x) && IsNumber(d, v)
    ensures IntsValidFrom(input, 0)
  {
    var n, m := |x|, |d|;
    LetTokens(input, x, d);
    FiveTokensValid(input, 3, 4 + n, 6 + n, 7 + n + m);
  }

  /** A stream of five tokens, the fourth the only one that may be an INT, that ends the input. */
  lemma FiveTokensValid(input: string, c1: nat, c2: nat, c3: nat, c4: nat)
    requires Advance(input, 0) == c1 && Advance(input, c1) == c2 && Advance(input, c2) == c3
    requires Advance(input, c3) == c4 && Advance(input, c4) == |input|
    requires CurrAt(input, 0).Type != INT && CurrAt(input, c1).Type != INT
    requires CurrAt(input, c2).Type != INT && CurrAt(input, c4).Type != INT
    requires CurrAt(input, c3).Type == INT ==> ParseIntLit(CurrAt(input, c3).Literal).Some?
    ensures IntsValidFrom(input, 0)
  {
    assert IntsValidFrom(input, |input|);
    ValidAbove(input, c4, c4);
    ValidAbove(input, c2, c3);
    ValidAbove(input, 0, c1);
  }

  /** `return d;` is inside IntsValidFrom at every window position. */
  lemma ReturnValid(input: string, d: string, v: int)
    requires input == "return " + d + ";" && IsNumber(d, v)
    ensures IntsValidFrom(input, 0)
  {
    var m := |d|;
    ReturnTokens(input, d);
    ThreeTokensValid(input, 6, 7 + m);
  }

  /** A stream of three tokens, the second the only one that may be an INT, that ends the input. */
  lemma ThreeTokensValid(input: string, c1: nat, c2: nat)
    requires Advance(input, 0) == c1 && Advance(input, c1) == c2 && Advance(input, c2) == |input|
    requires CurrAt(input, 0).Type != INT && CurrAt(input, c2).Type != INT
    requires CurrAt(input, c1).Type == INT ==> ParseIntLit(CurrAt(input, c1).Literal).Some?
    ensures IntsValidFrom(input, 0)
  {
    assert IntsValidFrom(input, |input|);
    ValidAbove(input, c2, c2);
    ValidAbove(input, 0, c1);
  }

  /**
   * Every `let x = d;`, with x a name and d a literal the conversion accepts, parses to
   * exactly one let statement that binds x to the value of d, with no error, and the
   * program renders as the input.
   */
  lemma LetRoundTrip(x: string, d: string, v: int)
    requires IsName(x) && IsNumber(d, v)
    ensures var input := "let " + x + " = " + d + ";";
      var s := LetStatement(Token(LET, "let"), Some(Identifier(Token(IDENT, x), x)), Some(Integer(Token(INT, d), v)));
      && IntsValidFrom(input, 0)
      && ParseProgram(input, 0) == ([s], [])
      && Program(ParseProgram(input, 0).0).String() == input
  {
    var input := "let " + x + " = " + d + ";";
    var s := LetStatement(Token(LET, "let"), Some(Identifier(Token(IDENT, x), x)), Some(Integer(Token(INT, d), v)));
    var n, m := |x|, |d|;
    LetValid(input, x, d, v);
    LetTokens(input, x, d);
    IntegerAt(input, 6 + n, d, v);
    LetAt(input, 3, 4 + n, 6 + n, 7 + n + m, Token(IDENT, x), Token(INT, d), v);
    OneStatement(input, s, 7 + n + m, 8 + n + m);
    LetRenders(s, x, d, v);
  }

  /** The let statement of x and d renders, as a program, as `let x = d;`. */
  lemma LetRenders(s: Statement, x: string, d: string, v: int)
    requires s == LetStatement(Token(LET, "let"), Some(Identifier(Token(IDENT, x), x)), Some(Integer(Token(INT, d), v)))
    ensures Program([s]).String() == "let " + x + " = " + d + ";"
  {
    SmallPrograms(s);
    assert s.value.value.String() == d;
    assert "let" + " " == "let ";
    assert s.String() == "let" + " " + x + " = " + d + ";";
  }

  /**
   * Every `return d;`, with d a literal the conversion accepts, parses to exactly one
   * return statement of the value of d, with no error; the program renders as
   * `return d`, without the `;`.
   */
  lemma ReturnRoundTrip(d: string, v: int)
    requires IsNumber(d, v)
    ensures var input := "return " + d + ";";
      var s := ReturnStatement(Token(RETURN, "return"), Some(Integer(Token(INT, d), v)));
      && IntsValidFrom(input, 0)
      && ParseProgram(input, 0) == ([s], [])
      && Program(ParseProgram(input, 0).0).String() == "return " + d
  {
    var input := "return " + d + ";";
    var s := ReturnStatement(Token(RETURN, "return"), Some(Integer(Token(INT, d), v)));
    var m := |d|;
    ReturnValid(input, d, v);
    ReturnParsed(input, d, v);
    ReturnTokens(input, d);
    OneStatement(input, s, 7 + m, 8 + m);
    ReturnRenders(s, d, v);
  }

  /** The statement a `return d;` parses to. */
  lemma ReturnParsed(input: string, d: string, v: int)
    requires IsNumber(d, v) && input == "return " + d + ";"
    ensures ParseStatementAt(input, 0) ==
      Outcome(Ok(ReturnStatement(Token(RETURN, "return"), Some(Integer(Token(INT, d), v)))), 7 + |d|)
  {
    ReturnTokens(input, d);
    IntegerAt(input, 6, d, v);
    ReturnShape(input, 0);
    StatementDispatch(input, 0);
  }

  /** The return statement of d renders, as a program, as `return d`. */
  lemma ReturnRenders(s: Statement, d: string, v: int)
    requires s == ReturnStatement(Token(RETURN, "return"), Some(Integer(Token(INT, d), v)))
    ensures Program([s]).String() == "return " + d
  {
    SmallPrograms(s);
    assert s.String() == "return" + " " + d;
  }
}
