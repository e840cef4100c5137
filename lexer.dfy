/**
 * The tokenizer (lexer/lexer.go). The input is a byte string, one char per byte.
 * NextTokenAt is the specification of one call of NextToken as a function of the
 * cursor position; the class Lexer is the cursor object, whose methods are proved
 * against it.
 */
module Lexing {
  import opened Wrappers
  import opened Tokens

  /** The byte the cursor holds once it has run off the end of the input. */
  const NUL: char := '\0'

  /** The bytes skipped before every token. */
  const WhiteSpace: seq<char> := [' ', '\t', '\n', '\r']

  predicate IsDigit(c: char) {
    '0' <= c <= '9'
  }

  predicate IsValidIdentChar(c: char) {
    'a' <= c <= 'z' || 'A' <= c <= 'Z' || c == '_'
  }

  predicate IsWhiteSpace(c: char) {
    c in WhiteSpace
  }

  /** Whether ch is one of the bytes chs, by a scan from the front. */
  method InByteArray(ch: char, chs: seq<char>) returns (found: bool)
    ensures found <==> ch in chs
  {
    var i := 0;
    while i < |chs|
      invariant 0 <= i <= |chs|
      invariant ch !in chs[..i]
    {
      if chs[i] == ch {
        return true;
      }
      i := i + 1;
    }
    assert chs[..i] == chs;
    return false;
  }

  /** The three byte classes the lexer reads greedy runs of. */
  datatype CharClass = Space | Letter | Digit

  predicate InClass(c: char, k: CharClass) {
    match k
    case Space => IsWhiteSpace(c)
    case Letter => IsValidIdentChar(c)
    case Digit => IsDigit(c)
  }

  predicate AllIn(s: string, k: CharClass) {
    forall i :: 0 <= i < |s| ==> InClass(s[i], k)
  }

  /** The byte under a cursor at p: input[p], or NUL past the end. */
  function At(input: string, p: nat): char {
    if p < |input| then input[p] else NUL
  }

  /** The end of the maximal run of class k that starts at p. */
  function RunEnd(input: string, p: nat, k: CharClass): (e: nat)
    ensures p <= e
    ensures p < e ==> e <= |input|
    ensures forall i :: p <= i < e ==> i < |input| && InClass(input[i], k)
    ensures !InClass(At(input, e), k)
    decreases |input| - p
  {
    if p < |input| && InClass(input[p], k) then RunEnd(input, p + 1, k) else p
  }

  /** The token a NextToken call returns and the cursor position it leaves. */
  datatype Step = Step(tok: Token, next: nat)

  /** Where the token scanned from pos starts: the first byte that is not white space. */
  function TokenStart(input: string, pos: nat): (s: nat)
    ensures pos <= s && !IsWhiteSpace(At(input, s))
  {
    RunEnd(input, pos, Space)
  }

  /** The type of a byte that is a token on its own, whatever follows it. */
  function SingleByteType(c: char): (t: Option<TokenType>)
    ensures t.Some? ==> IsSymbol(t.value) && Name(t.value) == [c]
  {
    match c
    case ';' => Some(SEMICOLON)
    case ',' => Some(COMMA)
    case '(' => Some(LPAREN)
    case ')' => Some(RPAREN)
    case '{' => Some(LBRACE)
    case '}' => Some(RBRACE)
    case '+' => Some(PLUS)
    case '-' => Some(MINUS)
    case '*' => Some(ASTERISK)
    case '/' => Some(SLASH)
    case '<' => Some(LT)
    case '>' => Some(GT)
    case _ => None
  }

  /** `=` and `!`: a two-byte operator when the byte after is `=`, else a one-byte one. */
  function OperatorAt(input: string, s: nat): (r: Step)
    requires At(input, s) == '=' || At(input, s) == '!'
    ensures IsSymbol(r.tok.Type) && r.tok.Literal == Name(r.tok.Type)
    ensures s < r.next <= |input| && r.tok.Literal == input[s..r.next]
  {
    var c := At(input, s);
    if At(input, s + 1) == '=' then
      Step(Token(if c == '=' then EQ else NOT_EQ, [c, At(input, s + 1)]), s + 2)
    else
      Step(Token(if c == '=' then ASSIGN else BANG, [c]), s + 1)
  }

  /** The identifier or integer token read from the maximal run of class k that starts at s. */
  function RunToken(input: string, s: nat, k: CharClass): (r: Step)
    requires k == Letter || k == Digit
    requires s < |input| && InClass(input[s], k)
    ensures s < r.next <= |input| && r.tok.Literal == input[s..r.next]
    ensures r.tok.Literal != "" && AllIn(r.tok.Literal, k) && !InClass(At(input, r.next), k)
    ensures r.tok.Type == if k == Letter then IdentType(r.tok.Literal) else INT
  {
    var e := RunEnd(input, s, k);
    Step(Token(if k == Letter then IdentType(input[s..e]) else INT, input[s..e]), e)
  }

  /** One call of NextToken with the cursor at pos. */
  function NextTokenAt(input: string, pos: nat): (r: Step)
    ensures pos < r.next
    ensures r.tok.Type == EOF <==> At(input, TokenStart(input, pos)) == NUL
    ensures r.tok.Type == EOF ==> r.tok.Literal == "" && r.next == TokenStart(input, pos) + 1
    ensures r.tok.Type != EOF ==>
      TokenStart(input, pos) < r.next <= |input| &&
      r.tok.Literal == input[TokenStart(input, pos)..r.next]
    ensures IsSymbol(r.tok.Type) ==> r.tok.Literal == Name(r.tok.Type)
    ensures r.tok.Type == INT ==> r.tok.Literal != "" && AllIn(r.tok.Literal, Digit)
    ensures r.tok.Type == IDENT || IsKeyword(r.tok.Type) ==>
      r.tok.Literal != "" && AllIn(r.tok.Literal, Letter) && r.tok.Type == IdentType(r.tok.Literal)
  {
    var s := TokenStart(input, pos);
    var c := At(input, s);
    if SingleByteType(c).Some? then
      Step(Token(SingleByteType(c).value, [c]), s + 1)
    else if c == '=' || c == '!' then
      OperatorAt(input, s)
    else if c == NUL then
      Step(Token(EOF, ""), s + 1)
    else if IsValidIdentChar(c) then
      RunToken(input, s, Letter)
    else if IsDigit(c) then
      RunToken(input, s, Digit)
    else
      Step(Token(ILLEGAL, [c]), s + 1)
  }

  /** The tokens NextToken returns from pos up to and including the first EOF. */
  function TokensFrom(input: string, pos: nat): (ts: seq<Token>)
    ensures |ts| >= 1 && ts[|ts| - 1] == Token(EOF, "")
    ensures forall i :: 0 <= i < |ts| - 1 ==> ts[i].Type != EOF && ts[i].Literal != ""
    decreases if pos < |input| then |input| - pos else 0
  {
    var r := NextTokenAt(input, pos);
    if r.tok.Type == EOF then [r.tok] else [r.tok] + TokensFrom(input, r.next)
  }

  /** The tokens of a fresh lexer over the whole input. */
  function Tokenize(input: string): (ts: seq<Token>)
    ensures |ts| >= 1 && ts[|ts| - 1] == Token(EOF, "")
    ensures forall i :: 0 <= i < |ts| - 1 ==> ts[i].Type != EOF && ts[i].Literal != ""
  {
    TokensFrom(input, 0)
  }

  /** The cursor object. */
  class Lexer {
    const input: string
    var position: nat
    var readPosition: nat
    var ch: char

    /** The cursor invariant: readPosition is one past position, and ch is the byte there. */
    ghost predicate Valid()
      reads this
    {
      readPosition == position + 1 && ch == At(input, position)
    }

    /** New: a lexer over input with the cursor on its first byte. */
    constructor (input: string)
      ensures Valid() && this.input == input && position == 0
    {
      this.input := input;
      position, readPosition, ch := 0, 0, NUL;
      new;
      ReadChar();
    }

    /** Moves the cursor one byte forward. */
    method ReadChar()
      modifies this
      ensures position == old(readPosition) && readPosition == old(readPosition) + 1
      ensures ch == At(input, old(readPosition))
    {
      if readPosition >= |input| {
        ch := NUL;
      } else {
        ch := input[readPosition];
      }
      position := readPosition;
      readPosition := readPosition + 1;
    }

    /** The byte after the cursor, without moving it. */
    function PeekChar(): (c: char)
      reads this
      requires Valid()
      ensures c == At(input, position + 1)
    {
      if readPosition >= |input| then NUL else input[readPosition]
    }

    method SkipWhiteSpace()
      requires Valid()
      modifies this
      ensures Valid() && position == RunEnd(input, old(position), Space)
    {
      var more := InByteArray(ch, WhiteSpace);
      while more
        invariant Valid() && old(position) <= position
        invariant more == IsWhiteSpace(ch)
        invariant RunEnd(input, position, Space) == RunEnd(input, old(position), Space)
        decreases |input| - position
      {
        ReadChar();
        more := InByteArray(ch, WhiteSpace);
      }
    }

    method ReadIdentifier() returns (ident: string)
      requires Valid() && position <= |input|
      modifies this
      ensures Valid() && position == RunEnd(input, old(position), Letter)
      ensures ident == input[old(position)..position]
    {
      var start := position;
      while IsValidIdentChar(ch)
        invariant Valid() && start <= position <= |input|
        invariant RunEnd(input, position, Letter) == RunEnd(input, start, Letter)
        decreases |input| - position
      {
        ReadChar();
      }
      ident := input[start..position];
    }

    method ReadInt() returns (lit: string)
      requires Valid() && position <= |input|
      modifies this
      ensures Valid() && position == RunEnd(input, old(position), Digit)
      ensures lit == input[old(position)..position]
    {
      var start := position;
      while IsDigit(ch)
        invariant Valid() && start <= position <= |input|
        invariant RunEnd(input, position, Digit) == RunEnd(input, start, Digit)
        decreases |input| - position
      {
        ReadChar();
      }
      lit := input[start..position];
    }

    /** Returns the next token and leaves the cursor where NextTokenAt says. */
    method NextToken() returns (tok: Token)
      requires Valid()
      modifies this
      ensures Valid()
      ensures Step(tok, position) == NextTokenAt(input, old(position))
    {
      SkipWhiteSpace();
      match ch {
      case ';' => tok := Token(SEMICOLON, [ch]);
      case ',' => tok := Token(COMMA, [ch]);
      case '(' => tok := Token(LPAREN, [ch]);
      case ')' => tok := Token(RPAREN, [ch]);
      case '{' => tok := Token(LBRACE, [ch]);
      case '}' => tok := Token(RBRACE, [ch]);
      case '=' =>
        if PeekChar() == '=' {
          var c := ch;
          ReadChar();
          tok := Token(EQ, [c] + [ch]);
        } else {
          tok := Token(ASSIGN, [ch]);
        }
      case '+' => tok := Token(PLUS, [ch]);
      case '-' => tok := Token(MINUS, [ch]);
      case '!' =>
        if PeekChar() == '=' {
          var c := ch;
          ReadChar();
          tok := Token(NOT_EQ, [c] + [ch]);
        } else {
          tok := Token(BANG, [ch]);
        }
      case '*' => tok := Token(ASTERISK, [ch]);
      case '/' => tok := Token(SLASH, [ch]);
      case '<' => tok := Token(LT, [ch]);
      case '>' => tok := Token(GT, [ch]);
      case '\0' => tok := Token(EOF, "");
      case _ =>
        if IsValidIdentChar(ch) {
          var ident := ReadIdentifier();
          return Token(IdentType(ident), ident);
        } else if IsDigit(ch) {
          var lit := ReadInt();
          return Token(INT, lit);
        }
        tok := Token(ILLEGAL, [ch]);
      }
      ReadChar();
    }
  }
}
