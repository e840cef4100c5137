/**
 * The lexer's own test (lexer/lexer_test.go): its input yields exactly the tokens the
 * test lists. The input is written as the pieces it may be cut into (CutAfter), line by
 * line; each piece is lexed on its own, ConcatLexes joins the pieces of a line and Join joins
 * the lines.
 */
module LexerTestVector {
  import opened Tokens
  import opened Lexing
  import opened LexerStreams


  const Line0: seq<string> := ["\n"]
  const Want0: seq<seq<Token>> := [[]]
  const Line1: seq<string> := ["\t", "let ", "five ", "= ", "5;", "\n"]
  const Want1: seq<seq<Token>> := [[], [Token(LET, "let")], [Token(IDENT, "five")], [Token(ASSIGN, "=")], [Token(INT, "5"), Token(SEMICOLON, ";")], []]
  const Line2: seq<string> := ["\n"]
  const Want2: seq<seq<Token>> := [[]]
  const Line3: seq<string> := ["\t", "let ", "ten ", "= ", "10;", "\n"]
  const Want3: seq<seq<Token>> := [[], [Token(LET, "let")], [Token(IDENT, "ten")], [Token(ASSIGN, "=")], [Token(INT, "10"), Token(SEMICOLON, ";")], []]
  const Line4: seq<string> := ["\n"]
  const Want4: seq<seq<Token>> := [[]]
  const Line5: seq<string> := ["\t", "let ", "add ", "= ", "fn(", "x,", " ", "y)", " ", "{", "\n"]
  const Want5: seq<seq<Token>> := [[], [Token(LET, "let")], [Token(IDENT, "add")], [Token(ASSIGN, "=")], [Token(FUNCTION, "fn"), Token(LPAREN, "(")], [Token(IDENT, "x"), Token(COMMA, ",")], [], [Token(IDENT, "y"), Token(RPAREN, ")")], [], [Token(LBRACE, "{")], []]
  const Line6: seq<string> := ["\t", "\t", "x ", "+", " ", "y;", "\n"]
  const Want6: seq<seq<Token>> := [[], [], [Token(IDENT, "x")], [Token(PLUS, "+")], [], [Token(IDENT, "y"), Token(SEMICOLON, ";")], []]
  const Line7: seq<string> := ["\t", "}", ";", "\n"]
  const Want7: seq<seq<Token>> := [[], [Token(RBRACE, "}")], [Token(SEMICOLON, ";")], []]
  const Line8: seq<string> := ["\n"]
  const Want8: seq<seq<Token>> := [[]]
  const Line9: seq<string> := ["\t", "let ", "result ", "= ", "add(", "five,", " ", "ten)", ";", "\n"]
  const Want9: seq<seq<Token>> := [[], [Token(LET, "let")], [Token(IDENT, "result")], [Token(ASSIGN, "=")], [Token(IDENT, "add"), Token(LPAREN, "(")], [Token(IDENT, "five"), Token(COMMA, ",")], [], [Token(IDENT, "ten"), Token(RPAREN, ")")], [Token(SEMICOLON, ";")], []]
  const Line10: seq<string> := ["\t", "!-", "/", "*", "5;", "\n"]
  const Want10: seq<seq<Token>> := [[], [Token(BANG, "!"), Token(MINUS, "-")], [Token(SLASH, "/")], [Token(ASTERISK, "*")], [Token(INT, "5"), Token(SEMICOLON, ";")], []]
  const Line11: seq<string> := ["\t", "5 ", "<", " ", "10 ", ">", " ", "5;", "\n"]
  const Want11: seq<seq<Token>> := [[], [Token(INT, "5")], [Token(LT, "<")], [], [Token(INT, "10")], [Token(GT, ">")], [], [Token(INT, "5"), Token(SEMICOLON, ";")], []]
  const Line12: seq<string> := ["\n"]
  const Want12: seq<seq<Token>> := [[]]
  const Line13: seq<string> := ["\t", "if ", "(", "5 ", "<", " ", "10)", " ", "{", "\n"]
  const Want13: seq<seq<Token>> := [[], [Token(IF, "if")], [Token(LPAREN, "(")], [Token(INT, "5")], [Token(LT, "<")], [], [Token(INT, "10"), Token(RPAREN, ")")], [], [Token(LBRACE, "{")], []]
  const Line14: seq<string> := ["\t", "\t", "return ", "true;", "\n"]
  const Want14: seq<seq<Token>> := [[], [], [Token(RETURN, "return")], [Token(TRUE, "true"), Token(SEMICOLON, ";")], []]
  const Line15: seq<string> := ["\t", "}", " ", "else ", "{", "\n"]
  const Want15: seq<seq<Token>> := [[], [Token(RBRACE, "}")], [], [Token(ELSE, "else")], [Token(LBRACE, "{")], []]
  const Line16: seq<string> := ["\t", "\t", "return ", "false;", "\n"]
  const Want16: seq<seq<Token>> := [[], [], [Token(RETURN, "return")], [Token(FALSE, "false"), Token(SEMICOLON, ";")], []]
  const Line17: seq<string> := ["\t", "}", "\n"]
  const Want17: seq<seq<Token>> := [[], [Token(RBRACE, "}")], []]
  const Line18: seq<string> := ["\t", "\n"]
  const Want18: seq<seq<Token>> := [[], []]
  const Line19: seq<string> := ["\t", "10 ", "== ", "10\n"]
  const Want19: seq<seq<Token>> := [[], [Token(INT, "10")], [Token(EQ, "==")], [Token(INT, "10")]]
  const Line20: seq<string> := ["\t", "10 ", "!= ", "9\n"]
  const Want20: seq<seq<Token>> := [[], [Token(INT, "10")], [Token(NOT_EQ, "!=")], [Token(INT, "9")]]
  const Line21: seq<string> := ["\t"]
  const Want21: seq<seq<Token>> := [[]]


  /** The whole test input, line after line. */
  const TestInput: string :=
    (Concat(Line0) + Concat(Line1) + Concat(Line2) + Concat(Line3) + Concat(Line4) + Concat(Line5) + Concat(Line6) + Concat(Line7))
    + (Concat(Line8) + Concat(Line9) + Concat(Line10) + Concat(Line11) + Concat(Line12) + Concat(Line13) + Concat(Line14))
    + (Concat(Line15) + Concat(Line16) + Concat(Line17) + Concat(Line18) + Concat(Line19) + Concat(Line20) + Concat(Line21))

  /** The tokens the test expects before the final EOF, line after line. */
  const TestTokens: seq<Token> :=
    (Flatten(Want0) + Flatten(Want1) + Flatten(Want2) + Flatten(Want3) + Flatten(Want4) + Flatten(Want5) + Flatten(Want6) + Flatten(Want7))
    + (Flatten(Want8) + Flatten(Want9) + Flatten(Want10) + Flatten(Want11) + Flatten(Want12) + Flatten(Want13) + Flatten(Want14))
    + (Flatten(Want15) + Flatten(Want16) + Flatten(Want17) + Flatten(Want18) + Flatten(Want19) + Flatten(Want20) + Flatten(Want21))

  lemma Piece0(piece: string)
    requires piece == "\n"
    ensures LexesTo(piece, [])
  {
    var input := "\n";
    assert TokenStart(input, 0) == 1;
    assert NextTokenAt(input, 0) == Step(Token(EOF, ""), 2);
  }

  lemma Piece1(piece: string)
    requires piece == "\t"
    ensures LexesTo(piece, [])
  {
    var input := "\t";
    assert TokenStart(input, 0) == 1;
    assert NextTokenAt(input, 0) == Step(Token(EOF, ""), 2);
  }

  lemma Piece2(piece: string)
    requires piece == "let "
    ensures LexesTo(piece, [Token(LET, "let")])
  {
    var input := "let ";
    assert TokenStart(input, 0) == 0;
    assert RunEnd(input, 0, Letter) == 3;
    assert input[0..3] == "let";
    KeywordsLookUp(LET);
    assert NextTokenAt(input, 0) == Step(Token(LET, "let"), 3);
    assert TokenStart(input, 3) == 4;
    assert NextTokenAt(input, 3) == Step(Token(EOF, ""), 5);
  }

  lemma Piece3(piece: string)
    requires piece == "five "
    ensures LexesTo(piece, [Token(IDENT, "five")])
  {
    var input := "five ";
    assert TokenStart(input, 0) == 0;
    assert RunEnd(input, 0, Letter) == 4;
    assert input[0..4] == "five";
    assert NextTokenAt(input, 0) == Step(Token(IDENT, "five"), 4);
    assert TokenStart(input, 4) == 5;
    assert NextTokenAt(input, 4) == Step(Token(EOF, ""), 6);
  }

  lemma Piece4(piece: string)
    requires piece == "= "
    ensures LexesTo(piece, [Token(ASSIGN, "=")])
  {
    var input := "= ";
    assert TokenStart(input, 0) == 0;
    assert NextTokenAt(input, 0) == Step(Token(ASSIGN, "="), 1);
    assert TokenStart(input, 1) == 2;
    assert NextTokenAt(input, 1) == Step(Token(EOF, ""), 3);
  }

  lemma Piece5(piece: string)
    requires piece == "5;"
    ensures LexesTo(piece, [Token(INT, "5"), Token(SEMICOLON, ";")])
  {
    var input := "5;";
    assert TokenStart(input, 0) == 0;
    assert RunEnd(input, 0, Digit) == 1;
    assert NextTokenAt(input, 0) == Step(Token(INT, "5"), 1);
    assert TokenStart(input, 1) == 1;
    assert NextTokenAt(input, 1) == Step(Token(SEMICOLON, ";"), 2);
    assert TokenStart(input, 2) == 2;
    assert NextTokenAt(input, 2) == Step(Token(EOF, ""), 3);
  }

  lemma Piece6(piece: string)
    requires piece == "ten "
    ensures LexesTo(piece, [Token(IDENT, "ten")])
  {
    var input := "ten ";
    assert TokenStart(input, 0) == 0;
    assert RunEnd(input, 0, Letter) == 3;
    assert input[0..3] == "ten";
    assert NextTokenAt(input, 0) == Step(Token(IDENT, "ten"), 3);
    assert TokenStart(input, 3) == 4;
    assert NextTokenAt(input, 3) == Step(Token(EOF, ""), 5);
  }

  lemma Piece7(piece: string)
    requires piece == "10;"
    ensures LexesTo(piece, [Token(INT, "10"), Token(SEMICOLON, ";")])
  {
    var input := "10;";
    assert TokenStart(input, 0) == 0;
    assert RunEnd(input, 0, Digit) == 2;
    assert NextTokenAt(input, 0) == Step(Token(INT, "10"), 2);
    assert TokenStart(input, 2) == 2;
    assert NextTokenAt(input, 2) == Step(Token(SEMICOLON, ";"), 3);
    assert TokenStart(input, 3) == 3;
    assert NextTokenAt(input, 3) == Step(Token(EOF, ""), 4);
  }

  lemma Piece8(piece: string)
    requires piece == "add "
    ensures LexesTo(piece, [Token(IDENT, "add")])
  {
    var input := "add ";
    assert TokenStart(input, 0) == 0;
    assert RunEnd(input, 0, Letter) == 3;
    assert input[0..3] == "add";
    assert NextTokenAt(input, 0) == Step(Token(IDENT, "add"), 3);
    assert TokenStart(input, 3) == 4;
    assert NextTokenAt(input, 3) == Step(Token(EOF, ""), 5);
  }

  lemma Piece9(piece: string)
    requires piece == "fn("
    ensures LexesTo(piece, [Token(FUNCTION, "fn"), Token(LPAREN, "(")])
  {
    var input := "fn(";
    assert TokenStart(input, 0) == 0;
    assert RunEnd(input, 0, Letter) == 2;
    assert input[0..2] == "fn";
    KeywordsLookUp(FUNCTION);
    assert NextTokenAt(input, 0) == Step(Token(FUNCTION, "fn"), 2);
    assert TokenStart(input, 2) == 2;
    assert NextTokenAt(input, 2) == Step(Token(LPAREN, "("), 3);
    assert TokenStart(input, 3) == 3;
    assert NextTokenAt(input, 3) == Step(Token(EOF, ""), 4);
  }

  lemma Piece10(piece: string)
    requires piece == "x,"
    ensures LexesTo(piece, [Token(IDENT, "x"), Token(COMMA, ",")])
  {
    var input := "x,";
    assert TokenStart(input, 0) == 0;
    assert RunEnd(input, 0, Letter) == 1;
    assert input[0..1] == "x";
    assert NextTokenAt(input, 0) == Step(Token(IDENT, "x"), 1);
    assert TokenStart(input, 1) == 1;
    assert NextTokenAt(input, 1) == Step(Token(COMMA, ","), 2);
    assert TokenStart(input, 2) == 2;
    assert NextTokenAt(input, 2) == Step(Token(EOF, ""), 3);
  }

  lemma Piece11(piece: string)
    requires piece == " "
    ensures LexesTo(piece, [])
  {
    var input := " ";
    assert TokenStart(input, 0) == 1;
    assert NextTokenAt(input, 0) == Step(Token(EOF, ""), 2);
  }

  lemma Piece12(piece: string)
    requires piece == "y)"
    ensures LexesTo(piece, [Token(IDENT, "y"), Token(RPAREN, ")")])
  {
    var input := "y)";
    assert TokenStart(input, 0) == 0;
    assert RunEnd(input, 0, Letter) == 1;
    assert input[0..1] == "y";
    assert NextTokenAt(input, 0) == Step(Token(IDENT, "y"), 1);
    assert TokenStart(input, 1) == 1;
    assert NextTokenAt(input, 1) == Step(Token(RPAREN, ")"), 2);
    assert TokenStart(input, 2) == 2;
    assert NextTokenAt(input, 2) == Step(Token(EOF, ""), 3);
  }

  lemma Piece13(piece: string)
    requires piece == "{"
    ensures LexesTo(piece, [Token(LBRACE, "{")])
  {
    var input := "{";
    assert TokenStart(input, 0) == 0;
    assert NextTokenAt(input, 0) == Step(Token(LBRACE, "{"), 1);
    assert TokenStart(input, 1) == 1;
    assert NextTokenAt(input, 1) == Step(Token(EOF, ""), 2);
  }

  lemma Piece14(piece: string)
    requires piece == "x "
    ensures LexesTo(piece, [Token(IDENT, "x")])
  {
    var input := "x ";
    assert TokenStart(input, 0) == 0;
    assert RunEnd(input, 0, Letter) == 1;
    assert input[0..1] == "x";
    assert NextTokenAt(input, 0) == Step(Token(IDENT, "x"), 1);
    assert TokenStart(input, 1) == 2;
    assert NextTokenAt(input, 1) == Step(Token(EOF, ""), 3);
  }

  lemma Piece15(piece: string)
    requires piece == "+"
    ensures LexesTo(piece, [Token(PLUS, "+")])
  {
    var input := "+";
    assert TokenStart(input, 0) == 0;
    assert NextTokenAt(input, 0) == Step(Token(PLUS, "+"), 1);
    assert TokenStart(input, 1) == 1;
    assert NextTokenAt(input, 1) == Step(Token(EOF, ""), 2);
  }

  lemma Piece16(piece: string)
    requires piece == "y;"
    ensures LexesTo(piece, [Token(IDENT, "y"), Token(SEMICOLON, ";")])
  {
    var input := "y;";
    assert TokenStart(input, 0) == 0;
    assert RunEnd(input, 0, Letter) == 1;
    assert input[0..1] == "y";
    assert NextTokenAt(input, 0) == Step(Token(IDENT, "y"), 1);
    assert TokenStart(input, 1) == 1;
    assert NextTokenAt(input, 1) == Step(Token(SEMICOLON, ";"), 2);
    assert TokenStart(input, 2) == 2;
    assert NextTokenAt(input, 2) == Step(Token(EOF, ""), 3);
  }

  lemma Piece17(piece: string)
    requires piece == "}"
    ensures LexesTo(piece, [Token(RBRACE, "}")])
  {
    var input := "}";
    assert TokenStart(input, 0) == 0;
    assert NextTokenAt(input, 0) == Step(Token(RBRACE, "}"), 1);
    assert TokenStart(input, 1) == 1;
    assert NextTokenAt(input, 1) == Step(Token(EOF, ""), 2);
  }

  lemma Piece18(piece: string)
    requires piece == ";"
    ensures LexesTo(piece, [Token(SEMICOLON, ";")])
  {
    var input := ";";
    assert TokenStart(input, 0) == 0;
    assert NextTokenAt(input, 0) == Step(Token(SEMICOLON, ";"), 1);
    assert TokenStart(input, 1) == 1;
    assert NextTokenAt(input, 1) == Step(Token(EOF, ""), 2);
  }

  lemma Piece19(piece: string)
    requires piece == "result "
    ensures LexesTo(piece, [Token(IDENT, "result")])
  {
    var input := "result ";
    assert TokenStart(input, 0) == 0;
    assert RunEnd(input, 0, Letter) == 6;
    assert input[0..6] == "result";
    assert NextTokenAt(input, 0) == Step(Token(IDENT, "result"), 6);
    assert TokenStart(input, 6) == 7;
    assert NextTokenAt(input, 6) == Step(Token(EOF, ""), 8);
  }

  lemma Piece20(piece: string)
    requires piece == "add("
    ensures LexesTo(piece, [Token(IDENT, "add"), Token(LPAREN, "(")])
  {
    var input := "add(";
    assert TokenStart(input, 0) == 0;
    assert RunEnd(input, 0, Letter) == 3;
    assert input[0..3] == "add";
    assert NextTokenAt(input, 0) == Step(Token(IDENT, "add"), 3);
    assert TokenStart(input, 3) == 3;
    assert NextTokenAt(input, 3) == Step(Token(LPAREN, "("), 4);
    assert TokenStart(input, 4) == 4;
    assert NextTokenAt(input, 4) == Step(Token(EOF, ""), 5);
  }

  lemma Piece21(piece: string)
    requires piece == "five,"
    ensures LexesTo(piece, [Token(IDENT, "five"), Token(COMMA, ",")])
  {
    var input := "five,";
    assert TokenStart(input, 0) == 0;
    assert RunEnd(input, 0, Letter) == 4;
    assert input[0..4] == "five";
    assert NextTokenAt(input, 0) == Step(Token(IDENT, "five"), 4);
    assert TokenStart(input, 4) == 4;
    assert NextTokenAt(input, 4) == Step(Token(COMMA, ","), 5);
    assert TokenStart(input, 5) == 5;
    assert NextTokenAt(input, 5) == Step(Token(EOF, ""), 6);
  }

  lemma Piece22(piece: string)
    requires piece == "ten)"
    ensures LexesTo(piece, [Token(IDENT, "ten"), Token(RPAREN, ")")])
  {
    var input := "ten)";
    assert TokenStart(input, 0) == 0;
    assert RunEnd(input, 0, Letter) == 3;
    assert input[0..3] == "ten";
    assert NextTokenAt(input, 0) == Step(Token(IDENT, "ten"), 3);
    assert TokenStart(input, 3) == 3;
    assert NextTokenAt(input, 3) == Step(Token(RPAREN, ")"), 4);
    assert TokenStart(input, 4) == 4;
    assert NextTokenAt(input, 4) == Step(Token(EOF, ""), 5);
  }

  lemma Piece23(piece: string)
    requires piece == "!-"
    ensures LexesTo(piece, [Token(BANG, "!"), Token(MINUS, "-")])
  {
    var input := "!-";
    assert TokenStart(input, 0) == 0;
    assert NextTokenAt(input, 0) == Step(Token(BANG, "!"), 1);
    assert TokenStart(input, 1) == 1;
    assert NextTokenAt(input, 1) == Step(Token(MINUS, "-"), 2);
    assert TokenStart(input, 2) == 2;
    assert NextTokenAt(input, 2) == Step(Token(EOF, ""), 3);
  }

  lemma Piece24(piece: string)
    requires piece == "/"
    ensures LexesTo(piece, [Token(SLASH, "/")])
  {
    var input := "/";
    assert TokenStart(input, 0) == 0;
    assert NextTokenAt(input, 0) == Step(Token(SLASH, "/"), 1);
    assert TokenStart(input, 1) == 1;
    assert NextTokenAt(input, 1) == Step(Token(EOF, ""), 2);
  }

  lemma Piece25(piece: string)
    requires piece == "*"
    ensures LexesTo(piece, [Token(ASTERISK, "*")])
  {
    var input := "*";
    assert TokenStart(input, 0) == 0;
    assert NextTokenAt(input, 0) == Step(Token(ASTERISK, "*"), 1);
    assert TokenStart(input, 1) == 1;
    assert NextTokenAt(input, 1) == Step(Token(EOF, ""), 2);
  }

  lemma Piece26(piece: string)
    requires piece == "5 "
    ensures LexesTo(piece, [Token(INT, "5")])
  {
    var input := "5 ";
    assert TokenStart(input, 0) == 0;
    assert RunEnd(input, 0, Digit) == 1;
    assert NextTokenAt(input, 0) == Step(Token(INT, "5"), 1);
    assert TokenStart(input, 1) == 2;
    assert NextTokenAt(input, 1) == Step(Token(EOF, ""), 3);
  }

  lemma Piece27(piece: string)
    requires piece == "<"
    ensures LexesTo(piece, [Token(LT, "<")])
  {
    var input := "<";
    assert TokenStart(input, 0) == 0;
    assert NextTokenAt(input, 0) == Step(Token(LT, "<"), 1);
    assert TokenStart(input, 1) == 1;
    assert NextTokenAt(input, 1) == Step(Token(EOF, ""), 2);
  }

  lemma Piece28(piece: string)
    requires piece == "10 "
    ensures LexesTo(piece, [Token(INT, "10")])
  {
    var input := "10 ";
    assert TokenStart(input, 0) == 0;
    assert RunEnd(input, 0, Digit) == 2;
    assert NextTokenAt(input, 0) == Step(Token(INT, "10"), 2);
    assert TokenStart(input, 2) == 3;
    assert NextTokenAt(input, 2) == Step(Token(EOF, ""), 4);
  }

  lemma Piece29(piece: string)
    requires piece == ">"
    ensures LexesTo(piece, [Token(GT, ">")])
  {
    var input := ">";
    assert TokenStart(input, 0) == 0;
    assert NextTokenAt(input, 0) == Step(Token(GT, ">"), 1);
    assert TokenStart(input, 1) == 1;
    assert NextTokenAt(input, 1) == Step(Token(EOF, ""), 2);
  }

  lemma Piece30(piece: string)
    requires piece == "if "
    ensures LexesTo(piece, [Token(IF, "if")])
  {
    var input := "if ";
    assert TokenStart(input, 0) == 0;
    assert RunEnd(input, 0, Letter) == 2;
    assert input[0..2] == "if";
    KeywordsLookUp(IF);
    assert NextTokenAt(input, 0) == Step(Token(IF, "if"), 2);
    assert TokenStart(input, 2) == 3;
    assert NextTokenAt(input, 2) == Step(Token(EOF, ""), 4);
  }

  lemma Piece31(piece: string)
    requires piece == "("
    ensures LexesTo(piece, [Token(LPAREN, "(")])
  {
    var input := "(";
    assert TokenStart(input, 0) == 0;
    assert NextTokenAt(input, 0) == Step(Token(LPAREN, "("), 1);
    assert TokenStart(input, 1) == 1;
    assert NextTokenAt(input, 1) == Step(Token(EOF, ""), 2);
  }

  lemma Piece32(piece: string)
    requires piece == "10)"
    ensures LexesTo(piece, [Token(INT, "10"), Token(RPAREN, ")")])
  {
    var input := "10)";
    assert TokenStart(input, 0) == 0;
    assert RunEnd(input, 0, Digit) == 2;
    assert NextTokenAt(input, 0) == Step(Token(INT, "10"), 2);
    assert TokenStart(input, 2) == 2;
    assert NextTokenAt(input, 2) == Step(Token(RPAREN, ")"), 3);
    assert TokenStart(input, 3) == 3;
    assert NextTokenAt(input, 3) == Step(Token(EOF, ""), 4);
  }

  lemma Piece33(piece: string)
    requires piece == "return "
    ensures LexesTo(piece, [Token(RETURN, "return")])
  {
    var input := "return ";
    assert TokenStart(input, 0) == 0;
    assert RunEnd(input, 0, Letter) == 6;
    assert input[0..6] == "return";
    KeywordsLookUp(RETURN);
    assert NextTokenAt(input, 0) == Step(Token(RETURN, "return"), 6);
    assert TokenStart(input, 6) == 7;
    assert NextTokenAt(input, 6) == Step(Token(EOF, ""), 8);
  }

  lemma Piece34(piece: string)
    requires piece == "true;"
    ensures LexesTo(piece, [Token(TRUE, "true"), Token(SEMICOLON, ";")])
  {
    var input := "true;";
    assert TokenStart(input, 0) == 0;
    assert RunEnd(input, 0, Letter) == 4;
    assert input[0..4] == "true";
    KeywordsLookUp(TRUE);
    assert NextTokenAt(input, 0) == Step(Token(TRUE, "true"), 4);
    assert TokenStart(input, 4) == 4;
    assert NextTokenAt(input, 4) == Step(Token(SEMICOLON, ";"), 5);
    assert TokenStart(input, 5) == 5;
    assert NextTokenAt(input, 5) == Step(Token(EOF, ""), 6);
  }

  lemma Piece35(piece: string)
    requires piece == "else "
    ensures LexesTo(piece, [Token(ELSE, "else")])
  {
    var input := "else ";
    assert TokenStart(input, 0) == 0;
    assert RunEnd(input, 0, Letter) == 4;
    assert input[0..4] == "else";
    KeywordsLookUp(ELSE);
    assert NextTokenAt(input, 0) == Step(Token(ELSE, "else"), 4);
    assert TokenStart(input, 4) == 5;
    assert NextTokenAt(input, 4) == Step(Token(EOF, ""), 6);
  }

  lemma Piece36(piece: string)
    requires piece == "false;"
    ensures LexesTo(piece, [Token(FALSE, "false"), Token(SEMICOLON, ";")])
  {
    var input := "false;";
    assert TokenStart(input, 0) == 0;
    assert RunEnd(input, 0, Letter) == 5;
    assert input[0..5] == "false";
    KeywordsLookUp(FALSE);
    assert NextTokenAt(input, 0) == Step(Token(FALSE, "false"), 5);
    assert TokenStart(input, 5) == 5;
    assert NextTokenAt(input, 5) == Step(Token(SEMICOLON, ";"), 6);
    assert TokenStart(input, 6) == 6;
    assert NextTokenAt(input, 6) == Step(Token(EOF, ""), 7);
  }

  lemma Piece37(piece: string)
    requires piece == "== "
    ensures LexesTo(piece, [Token(EQ, "==")])
  {
    var input := "== ";
    assert TokenStart(input, 0) == 0;
    assert NextTokenAt(input, 0) == Step(Token(EQ, "=="), 2);
    assert TokenStart(input, 2) == 3;
    assert NextTokenAt(input, 2) == Step(Token(EOF, ""), 4);
  }

  lemma Piece38(piece: string)
    requires piece == "10\n"
    ensures LexesTo(piece, [Token(INT, "10")])
  {
    var input := "10\n";
    assert TokenStart(input, 0) == 0;
    assert RunEnd(input, 0, Digit) == 2;
    assert NextTokenAt(input, 0) == Step(Token(INT, "10"), 2);
    assert TokenStart(input, 2) == 3;
    assert NextTokenAt(input, 2) == Step(Token(EOF, ""), 4);
  }

  lemma Piece39(piece: string)
    requires piece == "!= "
    ensures LexesTo(piece, [Token(NOT_EQ, "!=")])
  {
    var input := "!= ";
    assert TokenStart(input, 0) == 0;
    assert NextTokenAt(input, 0) == Step(Token(NOT_EQ, "!="), 2);
    assert TokenStart(input, 2) == 3;
    assert NextTokenAt(input, 2) == Step(Token(EOF, ""), 4);
  }

  lemma Piece40(piece: string)
    requires piece == "9\n"
    ensures LexesTo(piece, [Token(INT, "9")])
  {
    var input := "9\n";
    assert TokenStart(input, 0) == 0;
    assert RunEnd(input, 0, Digit) == 1;
    assert NextTokenAt(input, 0) == Step(Token(INT, "9"), 1);
    assert TokenStart(input, 1) == 2;
    assert NextTokenAt(input, 1) == Step(Token(EOF, ""), 3);
  }

  lemma LexLine0()
    ensures LexesTo(Concat(Line0), Flatten(Want0))
  {
    var pieces, groups := Line0, Want0;
    forall i | 0 <= i < |pieces| ensures LexesTo(pieces[i], groups[i]) {
      Piece0(pieces[0]);
    }
    ConcatLexes(pieces, groups);
  }

  lemma LexLine1()
    ensures LexesTo(Concat(Line1), Flatten(Want1))
  {
    var pieces, groups := Line1, Want1;
    forall i | 0 <= i < |pieces| ensures LexesTo(pieces[i], groups[i]) {
      if i == 0 {
        Piece1(pieces[0]);
      } else if i == 1 {
        Piece2(pieces[1]);
      } else if i == 2 {
        Piece3(pieces[2]);
      } else if i == 3 {
        Piece4(pieces[3]);
      } else if i == 4 {
        Piece5(pieces[4]);
      } else {
        Piece0(pieces[5]);
      }
    }
    ConcatLexes(pieces, groups);
  }

  lemma LexLine2()
    ensures LexesTo(Concat(Line2), Flatten(Want2))
  {
    var pieces, groups := Line2, Want2;
    forall i | 0 <= i < |pieces| ensures LexesTo(pieces[i], groups[i]) {
      Piece0(pieces[0]);
    }
    ConcatLexes(pieces, groups);
  }

  lemma LexLine3()
    ensures LexesTo(Concat(Line3), Flatten(Want3))
  {
    var pieces, groups := Line3, Want3;
    forall i | 0 <= i < |pieces| ensures LexesTo(pieces[i], groups[i]) {
      if i == 0 {
        Piece1(pieces[0]);
      } else if i == 1 {
        Piece2(pieces[1]);
      } else if i == 2 {
        Piece6(pieces[2]);
      } else if i == 3 {
        Piece4(pieces[3]);
      } else if i == 4 {
        Piece7(pieces[4]);
      } else {
        Piece0(pieces[5]);
      }
    }
    ConcatLexes(pieces, groups);
  }

  lemma LexLine4()
    ensures LexesTo(Concat(Line4), Flatten(Want4))
  {
    var pieces, groups := Line4, Want4;
    forall i | 0 <= i < |pieces| ensures LexesTo(pieces[i], groups[i]) {
      Piece0(pieces[0]);
    }
    ConcatLexes(pieces, groups);
  }

  lemma LexLine5()
    ensures LexesTo(Concat(Line5), Flatten(Want5))
  {
    var pieces, groups := Line5, Want5;
    forall i | 0 <= i < |pieces| ensures LexesTo(pieces[i], groups[i]) {
      if i == 0 {
        Piece1(pieces[0]);
      } else if i == 1 {
        Piece2(pieces[1]);
      } else if i == 2 {
        Piece8(pieces[2]);
      } else if i == 3 {
        Piece4(pieces[3]);
      } else if i == 4 {
        Piece9(pieces[4]);
      } else if i == 5 {
        Piece10(pieces[5]);
      } else if i == 6 {
        Piece11(pieces[6]);
      } else if i == 7 {
        Piece12(pieces[7]);
      } else if i == 8 {
        Piece11(pieces[8]);
      } else if i == 9 {
        Piece13(pieces[9]);
      } else {
        Piece0(pieces[10]);
      }
    }
    ConcatLexes(pieces, groups);
  }

  lemma LexLine6()
    ensures LexesTo(Concat(Line6), Flatten(Want6))
  {
    var pieces, groups := Line6, Want6;
    forall i | 0 <= i < |pieces| ensures LexesTo(pieces[i], groups[i]) {
      if i == 0 {
        Piece1(pieces[0]);
      } else if i == 1 {
        Piece1(pieces[1]);
      } else if i == 2 {
        Piece14(pieces[2]);
      } else if i == 3 {
        Piece15(pieces[3]);
      } else if i == 4 {
        Piece11(pieces[4]);
      } else if i == 5 {
        Piece16(pieces[5]);
      } else {
        Piece0(pieces[6]);
      }
    }
    ConcatLexes(pieces, groups);
  }

  lemma LexLine7()
    ensures LexesTo(Concat(Line7), Flatten(Want7))
  {
    var pieces, groups := Line7, Want7;
    forall i | 0 <= i < |pieces| ensures LexesTo(pieces[i], groups[i]) {
      if i == 0 {
        Piece1(pieces[0]);
      } else if i == 1 {
        Piece17(pieces[1]);
      } else if i == 2 {
        Piece18(pieces[2]);
      } else {
        Piece0(pieces[3]);
      }
    }
    ConcatLexes(pieces, groups);
  }

  lemma LexLine8()
    ensures LexesTo(Concat(Line8), Flatten(Want8))
  {
    var pieces, groups := Line8, Want8;
    forall i | 0 <= i < |pieces| ensures LexesTo(pieces[i], groups[i]) {
      Piece0(pieces[0]);
    }
    ConcatLexes(pieces, groups);
  }

  lemma LexLine9()
    ensures LexesTo(Concat(Line9), Flatten(Want9))
  {
    var pieces, groups := Line9, Want9;
    forall i | 0 <= i < |pieces| ensures LexesTo(pieces[i], groups[i]) {
      if i == 0 {
        Piece1(pieces[0]);
      } else if i == 1 {
        Piece2(pieces[1]);
      } else if i == 2 {
        Piece19(pieces[2]);
      } else if i == 3 {
        Piece4(pieces[3]);
      } else if i == 4 {
        Piece20(pieces[4]);
      } else if i == 5 {
        Piece21(pieces[5]);
      } else if i == 6 {
        Piece11(pieces[6]);
      } else if i == 7 {
        Piece22(pieces[7]);
      } else if i == 8 {
        Piece18(pieces[8]);
      } else {
        Piece0(pieces[9]);
      }
    }
    ConcatLexes(pieces, groups);
  }

  lemma LexLine10()
    ensures LexesTo(Concat(Line10), Flatten(Want10))
  {
    var pieces, groups := Line10, Want10;
    forall i | 0 <= i < |pieces| ensures LexesTo(pieces[i], groups[i]) {
      if i == 0 {
        Piece1(pieces[0]);
      } else if i == 1 {
        Piece23(pieces[1]);
      } else if i == 2 {
        Piece24(pieces[2]);
      } else if i == 3 {
        Piece25(pieces[3]);
      } else if i == 4 {
        Piece5(pieces[4]);
      } else {
        Piece0(pieces[5]);
      }
    }
    ConcatLexes(pieces, groups);
  }

  lemma LexLine11()
    ensures LexesTo(Concat(Line11), Flatten(Want11))
  {
    var pieces, groups := Line11, Want11;
    forall i | 0 <= i < |pieces| ensures LexesTo(pieces[i], groups[i]) {
      if i == 0 {
        Piece1(pieces[0]);
      } else if i == 1 {
        Piece26(pieces[1]);
      } else if i == 2 {
        Piece27(pieces[2]);
      } else if i == 3 {
        Piece11(pieces[3]);
      } else if i == 4 {
        Piece28(pieces[4]);
      } else if i == 5 {
        Piece29(pieces[5]);
      } else if i == 6 {
        Piece11(pieces[6]);
      } else if i == 7 {
        Piece5(pieces[7]);
      } else {
        Piece0(pieces[8]);
      }
    }
    ConcatLexes(pieces, groups);
  }

  lemma LexLine12()
    ensures LexesTo(Concat(Line12), Flatten(Want12))
  {
    var pieces, groups := Line12, Want12;
    forall i | 0 <= i < |pieces| ensures LexesTo(pieces[i], groups[i]) {
      Piece0(pieces[0]);
    }
    ConcatLexes(pieces, groups);
  }

  lemma LexLine13()
    ensures LexesTo(Concat(Line13), Flatten(Want13))
  {
    var pieces, groups := Line13, Want13;
    forall i | 0 <= i < |pieces| ensures LexesTo(pieces[i], groups[i]) {
      if i == 0 {
        Piece1(pieces[0]);
      } else if i == 1 {
        Piece30(pieces[1]);
      } else if i == 2 {
        Piece31(pieces[2]);
      } else if i == 3 {
        Piece26(pieces[3]);
      } else if i == 4 {
        Piece27(pieces[4]);
      } else if i == 5 {
        Piece11(pieces[5]);
      } else if i == 6 {
        Piece32(pieces[6]);
      } else if i == 7 {
        Piece11(pieces[7]);
      } else if i == 8 {
        Piece13(pieces[8]);
      } else {
        Piece0(pieces[9]);
      }
    }
    ConcatLexes(pieces, groups);
  }

  lemma LexLine14()
    ensures LexesTo(Concat(Line14), Flatten(Want14))
  {
    var pieces, groups := Line14, Want14;
    forall i | 0 <= i < |pieces| ensures LexesTo(pieces[i], groups[i]) {
      if i == 0 {
        Piece1(pieces[0]);
      } else if i == 1 {
        Piece1(pieces[1]);
      } else if i == 2 {
        Piece33(pieces[2]);
      } else if i == 3 {
        Piece34(pieces[3]);
      } else {
        Piece0(pieces[4]);
      }
    }
    ConcatLexes(pieces, groups);
  }

  lemma LexLine15()
    ensures LexesTo(Concat(Line15), Flatten(Want15))
  {
    var pieces, groups := Line15, Want15;
    forall i | 0 <= i < |pieces| ensures LexesTo(pieces[i], groups[i]) {
      if i == 0 {
        Piece1(pieces[0]);
      } else if i == 1 {
        Piece17(pieces[1]);
      } else if i == 2 {
        Piece11(pieces[2]);
      } else if i == 3 {
        Piece35(pieces[3]);
      } else if i == 4 {
        Piece13(pieces[4]);
      } else {
        Piece0(pieces[5]);
      }
    }
    ConcatLexes(pieces, groups);
  }

  lemma LexLine16()
    ensures LexesTo(Concat(Line16), Flatten(Want16))
  {
    var pieces, groups := Line16, Want16;
    forall i | 0 <= i < |pieces| ensures LexesTo(pieces[i], groups[i]) {
      if i == 0 {
        Piece1(pieces[0]);
      } else if i == 1 {
        Piece1(pieces[1]);
      } else if i == 2 {
        Piece33(pieces[2]);
      } else if i == 3 {
        Piece36(pieces[3]);
      } else {
        Piece0(pieces[4]);
      }
    }
    ConcatLexes(pieces, groups);
  }

  lemma LexLine17()
    ensures LexesTo(Concat(Line17), Flatten(Want17))
  {
    var pieces, groups := Line17, Want17;
    forall i | 0 <= i < |pieces| ensures LexesTo(pieces[i], groups[i]) {
      if i == 0 {
        Piece1(pieces[0]);
      } else if i == 1 {
        Piece17(pieces[1]);
      } else {
        Piece0(pieces[2]);
      }
    }
    ConcatLexes(pieces, groups);
  }

  lemma LexLine18()
    ensures LexesTo(Concat(Line18), Flatten(Want18))
  {
    var pieces, groups := Line18, Want18;
    forall i | 0 <= i < |pieces| ensures LexesTo(pieces[i], groups[i]) {
      if i == 0 {
        Piece1(pieces[0]);
      } else {
        Piece0(pieces[1]);
      }
    }
    ConcatLexes(pieces, groups);
  }

  lemma LexLine19()
    ensures LexesTo(Concat(Line19), Flatten(Want19))
  {
    var pieces, groups := Line19, Want19;
    forall i | 0 <= i < |pieces| ensures LexesTo(pieces[i], groups[i]) {
      if i == 0 {
        Piece1(pieces[0]);
      } else if i == 1 {
        Piece28(pieces[1]);
      } else if i == 2 {
        Piece37(pieces[2]);
      } else {
        Piece38(pieces[3]);
      }
    }
    ConcatLexes(pieces, groups);
  }

  lemma LexLine20()
    ensures LexesTo(Concat(Line20), Flatten(Want20))
  {
    var pieces, groups := Line20, Want20;
    forall i | 0 <= i < |pieces| ensures LexesTo(pieces[i], groups[i]) {
      if i == 0 {
        Piece1(pieces[0]);
      } else if i == 1 {
        Piece28(pieces[1]);
      } else if i == 2 {
        Piece39(pieces[2]);
      } else {
        Piece40(pieces[3]);
      }
    }
    ConcatLexes(pieces, groups);
  }

  lemma LexLine21()
    ensures LexesTo(Concat(Line21), Flatten(Want21))
  {
    var pieces, groups := Line21, Want21;
    forall i | 0 <= i < |pieces| ensures LexesTo(pieces[i], groups[i]) {
      Piece1(pieces[0]);
    }
    ConcatLexes(pieces, groups);
  }

  /** Lines 0 to 7 of the test input. */
  lemma LexBlock0()
    ensures LexesTo(Concat(Line0) + Concat(Line1) + Concat(Line2) + Concat(Line3) + Concat(Line4) + Concat(Line5) + Concat(Line6) + Concat(Line7), Flatten(Want0) + Flatten(Want1) + Flatten(Want2) + Flatten(Want3) + Flatten(Want4) + Flatten(Want5) + Flatten(Want6) + Flatten(Want7))
  {
    LexLine0();
    LexLine1();
    LexesJoined(Concat(Line0), Concat(Line1), Flatten(Want0), Flatten(Want1));
    LexLine2();
    LexesJoined(Concat(Line0) + Concat(Line1), Concat(Line2), Flatten(Want0) + Flatten(Want1), Flatten(Want2));
    LexLine3();
    LexesJoined(Concat(Line0) + Concat(Line1) + Concat(Line2), Concat(Line3), Flatten(Want0) + Flatten(Want1) + Flatten(Want2), Flatten(Want3));
    LexLine4();
    LexesJoined(Concat(Line0) + Concat(Line1) + Concat(Line2) + Concat(Line3), Concat(Line4), Flatten(Want0) + Flatten(Want1) + Flatten(Want2) + Flatten(Want3), Flatten(Want4));
    LexLine5();
    LexesJoined(Concat(Line0) + Concat(Line1) + Concat(Line2) + Concat(Line3) + Concat(Line4), Concat(Line5), Flatten(Want0) + Flatten(Want1) + Flatten(Want2) + Flatten(Want3) + Flatten(Want4), Flatten(Want5));
    LexLine6();
    LexesJoined(Concat(Line0) + Concat(Line1) + Concat(Line2) + Concat(Line3) + Concat(Line4) + Concat(Line5), Concat(Line6), Flatten(Want0) + Flatten(Want1) + Flatten(Want2) + Flatten(Want3) + Flatten(Want4) + Flatten(Want5), Flatten(Want6));
    LexLine7();
    LexesJoined(Concat(Line0) + Concat(Line1) + Concat(Line2) + Concat(Line3) + Concat(Line4) + Concat(Line5) + Concat(Line6), Concat(Line7), Flatten(Want0) + Flatten(Want1) + Flatten(Want2) + Flatten(Want3) + Flatten(Want4) + Flatten(Want5) + Flatten(Want6), Flatten(Want7));
  }

  /** Lines 8 to 14 of the test input. */
  lemma LexBlock1()
    ensures LexesTo(Concat(Line8) + Concat(Line9) + Concat(Line10) + Concat(Line11) + Concat(Line12) + Concat(Line13) + Concat(Line14), Flatten(Want8) + Flatten(Want9) + Flatten(Want10) + Flatten(Want11) + Flatten(Want12) + Flatten(Want13) + Flatten(Want14))
  {
    LexLine8();
    LexLine9();
    LexesJoined(Concat(Line8), Concat(Line9), Flatten(Want8), Flatten(Want9));
    LexLine10();
    LexesJoined(Concat(Line8) + Concat(Line9), Concat(Line10), Flatten(Want8) + Flatten(Want9), Flatten(Want10));
    LexLine11();
    LexesJoined(Concat(Line8) + Concat(Line9) + Concat(Line10), Concat(Line11), Flatten(Want8) + Flatten(Want9) + Flatten(Want10), Flatten(Want11));
    LexLine12();
    LexesJoined(Concat(Line8) + Concat(Line9) + Concat(Line10) + Concat(Line11), Concat(Line12), Flatten(Want8) + Flatten(Want9) + Flatten(Want10) + Flatten(Want11), Flatten(Want12));
    LexLine13();
    LexesJoined(Concat(Line8) + Concat(Line9) + Concat(Line10) + Concat(Line11) + Concat(Line12), Concat(Line13), Flatten(Want8) + Flatten(Want9) + Flatten(Want10) + Flatten(Want11) + Flatten(Want12), Flatten(Want13));
    LexLine14();
    LexesJoined(Concat(Line8) + Concat(Line9) + Concat(Line10) + Concat(Line11) + Concat(Line12) + Concat(Line13), Concat(Line14), Flatten(Want8) + Flatten(Want9) + Flatten(Want10) + Flatten(Want11) + Flatten(Want12) + Flatten(Want13), Flatten(Want14));
  }

  /** Lines 15 to 21 of the test input. */
  lemma LexBlock2()
    ensures LexesTo(Concat(Line15) + Concat(Line16) + Concat(Line17) + Concat(Line18) + Concat(Line19) + Concat(Line20) + Concat(Line21), Flatten(Want15) + Flatten(Want16) + Flatten(Want17) + Flatten(Want18) + Flatten(Want19) + Flatten(Want20) + Flatten(Want21))
  {
    LexLine15();
    LexLine16();
    LexesJoined(Concat(Line15), Concat(Line16), Flatten(Want15), Flatten(Want16));
    LexLine17();
    LexesJoined(Concat(Line15) + Concat(Line16), Concat(Line17), Flatten(Want15) + Flatten(Want16), Flatten(Want17));
    LexLine18();
    LexesJoined(Concat(Line15) + Concat(Line16) + Concat(Line17), Concat(Line18), Flatten(Want15) + Flatten(Want16) + Flatten(Want17), Flatten(Want18));
    LexLine19();
    LexesJoined(Concat(Line15) + Concat(Line16) + Concat(Line17) + Concat(Line18), Concat(Line19), Flatten(Want15) + Flatten(Want16) + Flatten(Want17) + Flatten(Want18), Flatten(Want19));
    LexLine20();
    LexesJoined(Concat(Line15) + Concat(Line16) + Concat(Line17) + Concat(Line18) + Concat(Line19), Concat(Line20), Flatten(Want15) + Flatten(Want16) + Flatten(Want17) + Flatten(Want18) + Flatten(Want19), Flatten(Want20));
    LexLine21();
    LexesJoined(Concat(Line15) + Concat(Line16) + Concat(Line17) + Concat(Line18) + Concat(Line19) + Concat(Line20), Concat(Line21), Flatten(Want15) + Flatten(Want16) + Flatten(Want17) + Flatten(Want18) + Flatten(Want19) + Flatten(Want20), Flatten(Want21));
  }

  /** The test's input lexes to exactly the tokens the test lists, then EOF. */
  lemma TestVector()
    ensures Tokenize(TestInput) == TestTokens + [Token(EOF, "")]
  {
    LexBlock0();
    LexBlock1();
    LexBlock2();
    LexesJoined((Concat(Line0) + Concat(Line1) + Concat(Line2) + Concat(Line3) + Concat(Line4) + Concat(Line5) + Concat(Line6) + Concat(Line7)), (Concat(Line8) + Concat(Line9) + Concat(Line10) + Concat(Line11) + Concat(Line12) + Concat(Line13) + Concat(Line14)), (Flatten(Want0) + Flatten(Want1) + Flatten(Want2) + Flatten(Want3) + Flatten(Want4) + Flatten(Want5) + Flatten(Want6) + Flatten(Want7)), (Flatten(Want8) + Flatten(Want9) + Flatten(Want10) + Flatten(Want11) + Flatten(Want12) + Flatten(Want13) + Flatten(Want14)));
    LexesJoined((Concat(Line0) + Concat(Line1) + Concat(Line2) + Concat(Line3) + Concat(Line4) + Concat(Line5) + Concat(Line6) + Concat(Line7)) + (Concat(Line8) + Concat(Line9) + Concat(Line10) + Concat(Line11) + Concat(Line12) + Concat(Line13) + Concat(Line14)), (Concat(Line15) + Concat(Line16) + Concat(Line17) + Concat(Line18) + Concat(Line19) + Concat(Line20) + Concat(Line21)), (Flatten(Want0) + Flatten(Want1) + Flatten(Want2) + Flatten(Want3) + Flatten(Want4) + Flatten(Want5) + Flatten(Want6) + Flatten(Want7)) + (Flatten(Want8) + Flatten(Want9) + Flatten(Want10) + Flatten(Want11) + Flatten(Want12) + Flatten(Want13) + Flatten(Want14)), (Flatten(Want15) + Flatten(Want16) + Flatten(Want17) + Flatten(Want18) + Flatten(Want19) + Flatten(Want20) + Flatten(Want21)));
  }
}
