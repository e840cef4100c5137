/**
 * Lexical categories and the keyword table (token/token.go).
 * In the source a token type is a string constant; here it is a closed enumeration,
 * and Name gives the string each constant stands for.
 */
module Tokens {

  datatype TokenType =
    | ILLEGAL | EOF | IDENT | INT
    | COMMA | SEMICOLON | LPAREN | RPAREN | LBRACE | RBRACE
    | ASSIGN | PLUS | MINUS | BANG | ASTERISK | SLASH | LT | GT
    | EQ | NOT_EQ
    | FUNCTION | LET | TRUE | FALSE | IF | ELSE | RETURN

  /** A lexical token: its type and the text it was read from. */
  datatype Token = Token(Type: TokenType, Literal: string)

  /** The string value of each type constant. */
  function Name(t: TokenType): string {
    match t
    case ILLEGAL => "ILLEGAL"
    case EOF => "EOF"
    case IDENT => "IDENT"
    case INT => "INT"
    case COMMA => ","
    case SEMICOLON => ";"
    case LPAREN => "("
    case RPAREN => ")"
    case LBRACE => "{"
    case RBRACE => "}"
    case ASSIGN => "="
    case PLUS => "+"
    case MINUS => "-"
    case BANG => "!"
    case ASTERISK => "*"
    case SLASH => "/"
    case LT => "<"
    case GT => ">"
    case EQ => "=="
    case NOT_EQ => "!="
    case FUNCTION => "FUNCTION"
    case LET => "LET"
    case TRUE => "TRUE"
    case FALSE => "FALSE"
    case IF => "IF"
    case ELSE => "ELSE"
    case RETURN => "RETURN"
  }

  /** No two type constants share a string. */
  lemma NameInjective(a: TokenType, b: TokenType)
    ensures Name(a) == Name(b) ==> a == b
  {
  }

  /** Punctuation and operators: the types whose constant is their own spelling. */
  predicate IsSymbol(t: TokenType) {
    t.COMMA? || t.SEMICOLON? || t.LPAREN? || t.RPAREN? || t.LBRACE? || t.RBRACE? ||
    t.ASSIGN? || t.PLUS? || t.MINUS? || t.BANG? || t.ASTERISK? || t.SLASH? || t.LT? || t.GT? ||
    t.EQ? || t.NOT_EQ?
  }

  /** The seven reserved types. */
  predicate IsKeyword(t: TokenType) {
    t.FUNCTION? || t.LET? || t.TRUE? || t.FALSE? || t.IF? || t.ELSE? || t.RETURN?
  }

  /** The keyword table. */
  const Keywords: map<string, TokenType> := map[
    "fn" := FUNCTION,
    "let" := LET,
    "true" := TRUE,
    "false" := FALSE,
    "if" := IF,
    "else" := ELSE,
    "return" := RETURN
  ]

  /** The keyword type of an identifier's spelling, or IDENT. */
  function IdentType(ident: string): (t: TokenType)
    ensures t == IDENT || IsKeyword(t)
  {
    if ident in Keywords then Keywords[ident] else IDENT
  }

  /** The spelling of a reserved type: an independent statement of the table, by type. */
  function Spelling(t: TokenType): string
    requires IsKeyword(t)
  {
    match t
    case FUNCTION => "fn"
    case LET => "let"
    case TRUE => "true"
    case FALSE => "false"
    case IF => "if"
    case ELSE => "else"
    case RETURN => "return"
  }

  /** Each keyword spelling looks up its own reserved type. */
  lemma KeywordsLookUp(t: TokenType)
    requires IsKeyword(t)
    ensures IdentType(Spelling(t)) == t
  {
  }

  /**
   * Lookup is exact: a reserved type comes back only for its own spelling, and every
   * other string (a different case, a longer word) is IDENT.
   */
  lemma IdentTypeExact(ident: string)
    ensures IdentType(ident) != IDENT ==> Spelling(IdentType(ident)) == ident
    ensures IdentType(ident) == IDENT <==> forall t :: IsKeyword(t) ==> Spelling(t) != ident
  {
    if IdentType(ident) == IDENT {
      forall t | IsKeyword(t) ensures Spelling(t) != ident {
        KeywordsLookUp(t);
      }
    }
  }

  /** The table is injective: two spellings with the same reserved type are the same. */
  lemma KeywordTableInjective(a: string, b: string)
    requires IdentType(a) != IDENT && IdentType(a) == IdentType(b)
    ensures a == b
  {
    IdentTypeExact(a);
    IdentTypeExact(b);
  }

  /** Lookup is case-sensitive and whole-word. */
  lemma IdentTypeCaseSensitive()
    ensures IdentType("Let") == IDENT && IdentType("LET") == IDENT && IdentType("lets") == IDENT
    ensures IdentType("Fn") == IDENT && IdentType("iff") == IDENT && IdentType("") == IDENT
  {
  }
}
