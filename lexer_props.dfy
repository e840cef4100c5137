/**
 * What one call of NextToken does, stated case by case over NextTokenAt, and what a
 * sequence of calls does at and past the end of the input.
 */
module LexerProperties {
  import opened Wrappers
  import opened Tokens
  import opened Lexing

  /**
   * The byte classes of isDigit, isValidIdentChar and the whitespace table are disjoint,
   * the whitespace table holds exactly space, tab, newline and carriage return, and NUL,
   * which ends the input, is in none of them.
   */
  lemma ByteClasses(c: char)
    ensures IsDigit(c) ==> !IsValidIdentChar(c) && !IsWhiteSpace(c)
    ensures IsValidIdentChar(c) ==> !IsWhiteSpace(c)
    ensures IsWhiteSpace(c) <==> c == ' ' || c == '\t' || c == '\n' || c == '\r'
    ensures !IsDigit(NUL) && !IsValidIdentChar(NUL) && !IsWhiteSpace(NUL)
  {
  }

  /** A run of class k from p to e that stops at a byte outside k is the run RunEnd finds. */
  lemma {:induction false} RunEndIs(input: string, p: nat, e: nat, k: CharClass)
    requires p <= e <= |input|
    requires forall i :: p <= i < e ==> InClass(input[i], k)
    requires !InClass(At(input, e), k)
    ensures RunEnd(input, p, k) == e
    decreases e - p
  {
    if p < e {
      RunEndIs(input, p + 1, e, k);
    }
  }

  /** Bytes p up to s are white space and s is not: the token starts at s. */
  lemma StartsAt(input: string, p: nat, s: nat)
    requires p <= s <= |input|
    requires forall i :: p <= i < s ==> IsWhiteSpace(input[i])
    requires !IsWhiteSpace(At(input, s))
    ensures TokenStart(input, p) == s
  {
    RunEndIs(input, p, s, Space);
  }

  /** A token read from a run of class k that spans s up to e. */
  lemma ScanRun(input: string, p: nat, s: nat, e: nat, k: CharClass)
    requires k == Letter || k == Digit
    requires p <= s < e <= |input|
    requires forall i :: p <= i < s ==> IsWhiteSpace(input[i])
    requires forall i :: s <= i < e ==> InClass(input[i], k)
    requires !InClass(At(input, e), k)
    ensures NextTokenAt(input, p) ==
      Step(Token(if k == Letter then IdentType(input[s..e]) else INT, input[s..e]), e)
  {
    StartsAt(input, p, s);
    RunEndIs(input, s, e, k);
  }

  /** A token read from a byte at s that is neither a letter nor a digit. */
  lemma ScanByte(input: string, p: nat, s: nat)
    requires p <= s < |input|
    requires forall i :: p <= i < s ==> IsWhiteSpace(input[i])
    requires !IsWhiteSpace(input[s]) && !IsValidIdentChar(input[s]) && !IsDigit(input[s])
    ensures SingleByteType(input[s]).Some? ==>
      NextTokenAt(input, p) == Step(Token(SingleByteType(input[s]).value, [input[s]]), s + 1)
    ensures input[s] == '=' || input[s] == '!' ==> NextTokenAt(input, p) == OperatorAt(input, s)
  {
    StartsAt(input, p, s);
  }

  /** Only white space is left from p: the token is EOF. */
  lemma ScanEnd(input: string, p: nat)
    requires p <= |input|
    requires forall i :: p <= i < |input| ==> IsWhiteSpace(input[i])
    ensures NextTokenAt(input, p) == Step(Token(EOF, ""), |input| + 1)
  {
    StartsAt(input, p, |input|);
  }

  /** White space before a token is skipped: the token is the one the next byte starts. */
  lemma WhiteSpaceSkipped(input: string, pos: nat)
    requires IsWhiteSpace(At(input, pos))
    ensures NextTokenAt(input, pos) == NextTokenAt(input, pos + 1)
  {
    assert TokenStart(input, pos) == TokenStart(input, pos + 1);
  }

  /** No literal holds a white-space byte, so white space never becomes part of a token. */
  lemma NoWhiteSpaceInLiteral(input: string, pos: nat)
    ensures forall i :: 0 <= i < |NextTokenAt(input, pos).tok.Literal| ==>
      !IsWhiteSpace(NextTokenAt(input, pos).tok.Literal[i])
  {
    var s := TokenStart(input, pos);
    var c := At(input, s);
    var lit := NextTokenAt(input, pos).tok.Literal;
    if SingleByteType(c).Some? || c == NUL {
    } else if c == '=' || c == '!' {
      assert lit == OperatorAt(input, s).tok.Literal;
    } else if IsValidIdentChar(c) {
      assert AllIn(lit, Letter);
    } else if IsDigit(c) {
      assert AllIn(lit, Digit);
    } else {
      assert lit == [c];
    }
  }

  /** `==` and `!=` are one token thanks to the lookahead byte; a lone `=` or `!` is one byte. */
  lemma OperatorLookahead(input: string, pos: nat)
    ensures var s := TokenStart(input, pos);
      var r := NextTokenAt(input, pos);
      && (At(input, s) == '=' && At(input, s + 1) == '=' ==> r == Step(Token(EQ, "=="), s + 2))
      && (At(input, s) == '=' && At(input, s + 1) != '=' ==> r == Step(Token(ASSIGN, "="), s + 1))
      && (At(input, s) == '!' && At(input, s + 1) == '=' ==> r == Step(Token(NOT_EQ, "!="), s + 2))
      && (At(input, s) == '!' && At(input, s + 1) != '=' ==> r == Step(Token(BANG, "!"), s + 1))
  {
  }

  /** At the very end of the input the lookahead reads NUL, so `=` and `!` stay one byte. */
  lemma LoneOperatorAtEnd(input: string)
    requires |input| > 0 && (input[|input| - 1] == '=' || input[|input| - 1] == '!')
    ensures var r := NextTokenAt(input, |input| - 1);
      r.next == |input| &&
      r.tok == if input[|input| - 1] == '=' then Token(ASSIGN, "=") else Token(BANG, "!")
  {
    assert TokenStart(input, |input| - 1) == |input| - 1;
  }

  /**
   * A byte of [A-Za-z_] starts an identifier: the literal is the whole maximal run, the
   * type is the keyword lookup of that run, and the cursor stops on the first other byte.
   */
  lemma IdentifierRun(input: string, pos: nat)
    requires IsValidIdentChar(At(input, TokenStart(input, pos)))
    ensures var s := TokenStart(input, pos);
      var r := NextTokenAt(input, pos);
      && s < r.next <= |input|
      && r.tok.Literal == input[s..r.next]
      && AllIn(r.tok.Literal, Letter)
      && !IsValidIdentChar(At(input, r.next))
      && r.tok.Type == IdentType(r.tok.Literal)
  {
  }

  /** A digit starts an integer: the literal is the whole maximal run of digits, as read. */
  lemma IntegerRun(input: string, pos: nat)
    requires IsDigit(At(input, TokenStart(input, pos)))
    ensures var s := TokenStart(input, pos);
      var r := NextTokenAt(input, pos);
      && s < r.next <= |input|
      && r.tok == Token(INT, input[s..r.next])
      && AllIn(r.tok.Literal, Digit)
      && !IsDigit(At(input, r.next))
  {
  }

  /** Bytes the language has no use for. */
  predicate IsStray(c: char) {
    SingleByteType(c).None? && c != '=' && c != '!' && c != NUL && !IsValidIdentChar(c) && !IsDigit(c)
  }

  /** ILLEGAL is exactly the stray bytes, one byte per token. */
  lemma IllegalByte(input: string, pos: nat)
    ensures var s := TokenStart(input, pos);
      var r := NextTokenAt(input, pos);
      r.tok.Type == ILLEGAL <==> IsStray(At(input, s))
    ensures var s := TokenStart(input, pos);
      var r := NextTokenAt(input, pos);
      IsStray(At(input, s)) ==> r == Step(Token(ILLEGAL, [At(input, s)]), s + 1) && r.next <= |input|
  {
    var s := TokenStart(input, pos);
    var c := At(input, s);
    if SingleByteType(c).Some? {
    } else if c == '=' || c == '!' {
      assert NextTokenAt(input, pos) == OperatorAt(input, s);
    } else if c == NUL {
    } else if IsValidIdentChar(c) {
    } else if IsDigit(c) {
    } else {
      assert s < |input|;
    }
  }

  /** The cursor position after n calls of NextToken from pos. */
  function PositionAfter(input: string, pos: nat, n: nat): (p: nat)
    ensures pos + n <= p
    decreases n
  {
    if n == 0 then pos else PositionAfter(input, NextTokenAt(input, pos).next, n - 1)
  }

  /** Past the end of the input, every call returns EOF with an empty literal. */
  lemma EofAtEnd(input: string, pos: nat)
    requires pos >= |input|
    ensures NextTokenAt(input, pos) == Step(Token(EOF, ""), pos + 1)
  {
    assert TokenStart(input, pos) == pos;
  }

  /** Once the cursor is at the end, it stays there: every later call returns EOF too. */
  lemma {:induction false} EofForever(input: string, pos: nat, n: nat)
    requires pos >= |input|
    ensures PositionAfter(input, pos, n) == pos + n
    ensures NextTokenAt(input, PositionAfter(input, pos, n)).tok == Token(EOF, "")
    decreases n
  {
    EofAtEnd(input, pos);
    if n > 0 {
      EofForever(input, pos + 1, n - 1);
    } else {
      assert PositionAfter(input, pos, 0) == pos;
    }
  }

  /** A NUL byte inside the input is read as EOF, and the cursor moves past it. */
  lemma EmbeddedNul(input: string, pos: nat)
    requires TokenStart(input, pos) < |input| && input[TokenStart(input, pos)] == NUL
    ensures var s := TokenStart(input, pos);
      NextTokenAt(input, pos) == Step(Token(EOF, ""), s + 1) && s + 1 <= |input|
  {
  }

  /** So a call after an embedded NUL goes on lexing the bytes that follow it. */
  lemma EmbeddedNulExample()
    ensures NextTokenAt("\0x", 0) == Step(Token(EOF, ""), 1)
    ensures NextTokenAt("\0x", 1) == Step(Token(IDENT, "x"), 2)
    ensures Tokenize("\0x") == [Token(EOF, "")]
  {
    assert TokenStart("\0x", 0) == 0;
    assert TokenStart("\0x", 1) == 1;
    assert RunEnd("\0x", 1, Letter) == 2;
  }

  /** Digits end an identifier: `x1` is IDENT `x` then INT `1`. */
  lemma DigitEndsIdentifier()
    ensures Tokenize("x1") == [Token(IDENT, "x"), Token(INT, "1"), Token(EOF, "")]
  {
    var input := "x1";
    assert TokenStart(input, 0) == 0;
    assert RunEnd(input, 0, Letter) == 1;
    assert NextTokenAt(input, 0) == Step(Token(IDENT, "x"), 1);
    assert TokenStart(input, 1) == 1;
    assert RunEnd(input, 1, Digit) == 2;
    assert NextTokenAt(input, 1) == Step(Token(INT, "1"), 2);
    assert NextTokenAt(input, 2) == Step(Token(EOF, ""), 3);
  }

  /** Leading zeros stay in the literal: `007` is one INT token `007`. */
  lemma LeadingZerosKept()
    ensures Tokenize("007") == [Token(INT, "007"), Token(EOF, "")]
  {
    var input := "007";
    assert TokenStart(input, 0) == 0;
    RunEndIs(input, 0, 3, Digit);
    assert NextTokenAt(input, 0) == Step(Token(INT, "007"), 3);
    assert NextTokenAt(input, 3) == Step(Token(EOF, ""), 4);
  }
}
