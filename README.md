# Monkey tokenizer, syntax tree and parser in Dafny

This project models the front end of the "monkey" interpreter, which is written in Go:

- the token table;
- the byte-oriented lexer, which turns source text into a stream of tokens;
- the syntax-tree nodes and the way they render back to text;
- the recursive-descent parser for `let`, `return` and expression statements, whose expressions are identifiers, integers and the prefix operators `!` and `-`.

The modules follow the packages of the source:

| module | file | models |
|---|---|---|
| `Tokens` | tokens.dfy | token/token.go: token types, their names, the keyword table |
| `IntLiteral` | intliteral.dfy | the `strconv.ParseInt(lit, 0, 64)` conversion, restricted to the digit strings the lexer produces |
| `Lexing` | lexer.dfy | lexer/lexer.go. `NextTokenAt` specifies one `NextToken` call as a function of the cursor. The class `Lexer` is the cursor object, and its methods (`ReadChar`, `PeekChar`, `SkipWhiteSpace`, `ReadIdentifier`, `ReadInt`, `NextToken`) are proved against that function. |
| `LexerProperties` | lexer_props.dfy | what the lexer promises about a single token |
| `LexerStreams` | lexer_streams.dfy | whole token streams: lexing a suffix, and lexing a string cut after white space or a one-byte token |
| `LexerTestVector` | lexer_test_vector.dfy | the input of lexer/lexer_test.go and the exact tokens it yields |
| `Ast` | ast.dfy | ast/*.go: the nodes and their `TokenLiteral` and `String` renderings |
| `AstProperties` | ast_props.dfy | what the renderings contain, and how a program's rendering splits into its statements |
| `Parsing` | parser.dfy | parser/parser.go. `ParseXAt` functions give the result and the new window position of each parse method. The class `Parser` (over a `Lexer`) is proved against them. `ParseProgram` is the parse loop. |
| `ParserProperties` | parser_props.dfy | statement shapes, the nil-expression policy, and the parse loop as the sequence of its rounds |
| `ParserTests` | parser_tests.dfy | the inputs of parser/parser_test.go and a few more, worked through to the exact program and errors |
| `ParserRoundTrip` | parser_roundtrip.dfy | `let x = d;` and `return d;` for every name x and every literal d that converts: the parse and the rendering |

## How the model is built

**Bytes.** The input is a `string` with one char per byte, so only chars below 256 stand for inputs of the source; the model accepts any char and lexes one at or above 256 as an ILLEGAL byte. Past the end, the cursor reads NUL, exactly as `readChar` does. A NUL byte inside the input is therefore EOF as well.

**The parser's window.** The two-token window (`currTok`, `nextTok`) is described by one number, `cur`: the lexer position from which the current token was read. The window is then:

- current token: `CurrAt(input, cur)`
- lookahead token: `NextAt(input, cur)`
- after `readToken`: `Advance(input, cur)`

The class `Parser` keeps `cur` as a ghost field. Its invariant ties the real fields, and the lexer's position, to that number.

**Errors.** The source returns error values carrying formatted messages. The model returns a `ParseError` datatype whose constructors record the same facts: which token type was wanted and which was found, and which literal failed to convert. The nesting `InPrefix`, `InReturn` and `InLet` follows how the source wraps one message in another. `Parse` chains its per-statement errors into one `error` value. The model returns them as a sequence, in order, and an empty sequence is the nil error.

**Termination and a precondition.** If an `INT` literal does not convert (for example `08`, or a value above 2^63 - 1), the statement that meets it fails with the window on the bad literal. A `let` or `return` has read its leading tokens by then, so its window has moved onto the literal (`let x = 08;` fails with the window at `08`, see `ParserTests.ParseLetBadInteger`). `Parse` does not read a token after an error, so from then on every round starts on that literal, fails as an expression statement and does not move, and the loop never ends. The model makes the parse loop total by requiring `IntsValidFrom`: every `INT` token from the window to the end converts. `ParserProperties.BadIntegerStuck` proves that a round starting on a bad literal fails without moving, and that such an input is outside the precondition.

**Where the documentation and the code differ, the model follows the code:**

- `let x = );` parses with a nil value, because `)` starts no expression and the `;` after it satisfies the lookahead check. It renders as `let x`, without ` = ` and without `;`. In contrast, `let x = ;` is rejected with "wanted SEMICOLON, got EOF", and the `;` is then parsed as an expression statement with a nil expression.
- A `return` statement renders without its `;`, although the parser demands one. For example, `return 5;` renders as `return 5`, and parsing that rendering again yields an expression statement and a "wanted SEMICOLON, got EOF" error.
- A prefix expression renders as `(-) 5`: the operator is parenthesised, not the whole expression.
- An `INT` literal with a leading `0` is octal (`010` is 8), and its rendering keeps the spelling.

## Model

| member | source | states |
|---|---|---|
| Tokens.NameInjective | token/token.go:12-49 | no two type constants share a string, so a type's string determines the type |
| Tokens.IdentType | token/token.go:62-67 | an identifier's type is IDENT or one of the seven reserved types |
| Tokens.KeywordsLookUp | token/token.go:51-67 | each keyword's spelling looks up its own reserved type |
| Tokens.IdentTypeExact | token/token.go:51-67 | a reserved type comes back only for its own spelling; IDENT comes back exactly when no keyword is spelled that way |
| Tokens.KeywordTableInjective | token/token.go:51-59 | two spellings with the same reserved type are equal |
| Tokens.IdentTypeCaseSensitive | token/token.go:62-67 | lookup is case-sensitive and whole-word (`Let`, `lets`, `iff` and the empty string are IDENT) |
| IntLiteral.ParseIntLit | parser/parser.go:96-102 | a converted literal is non-empty and lies in 0 ..= 2^63 - 1 |
| IntLiteral.ToInt64 | parser/parser.go:96-102 | a value is accepted only if it fits int64, and is then unchanged |
| IntLiteral.DecimalRoundTrip | parser/parser.go:96-102 | every int64 from 0 up converts back from its decimal spelling |
| IntLiteral.OctalRoundTrip | parser/parser.go:96-102 | every int64 from 0 up converts back from `0` followed by its octal spelling |
| IntLiteral.NonOctalRejected | parser/parser.go:96-102 | a literal with a leading `0` and an 8 or 9 after it is rejected |
| IntLiteral.ParseIntLitExamples | parser/parser_test.go:12-58 | `5`, `4930` and `0` convert to themselves, `010` converts to 8, and `08` is rejected |
| IntLiteral.ParseIntLitRange | parser/parser.go:96-102 | 2^63 - 1 converts and 2^63 does not |
| IntLiteral.ParseIntLitValue | parser/parser.go:96-102 | a literal converts exactly when it is non-empty, all octal after a leading `0`, and its value in that base is at most 2^63 - 1; the result is that value |
| IntLiteral.LeadingZero | parser/parser.go:96-102 | a `0` in front of a digit string does not change its value |
| IntLiteral.NonCanonicalExamples | parser/parser.go:96-102 | `007` converts to 7 and `0010` to 8 |
| IntLiteral.TooLargeRejected | parser/parser.go:96-102 | every value above 2^63 - 1 is rejected, whether spelled in decimal or in octal with a leading `0` |
| IntLiteral.DecimalString | parser/parser.go:96-102 | the reference spelling: non-empty, all digits, no leading zero |
| Lexing.InByteArray | lexer/lexer.go:130-137 | the scan answers true exactly when the byte is in the list |
| Lexing.RunEnd | lexer/lexer.go:111-117 | the end of the maximal run of a byte class: every byte before it is in the class, and the byte under the cursor there is not |
| Lexing.TokenStart | lexer/lexer.go:123-128 | skipping white space stops at the first byte that is not white space |
| Lexing.SingleByteType | lexer/lexer.go:30-86 | a one-byte token's type is a symbol whose name is that byte |
| Lexing.OperatorAt | lexer/lexer.go:49-74 | `=` and `!` give a symbol whose literal is its name and is the exact slice read |
| Lexing.RunToken | lexer/lexer.go:89-95 | a word or number token is the exact maximal run; a word's type is its keyword lookup, a number's is INT |
| Lexing.NextTokenAt | lexer/lexer.go:25-101 | the cursor always moves forward; EOF exactly at NUL, with an empty literal; any other literal is the slice of the input it was read from; a symbol's literal is its name; INT literals are digits; words are letters, typed by lookup |
| Lexing.TokensFrom | lexer/lexer.go:25-101 | the stream ends in exactly one EOF, its last token, with an empty literal; every earlier token has a non-empty literal |
| Lexing.Tokenize | lexer/lexer.go:18-22 | a fresh lexer's stream ends in one EOF with an empty literal, and no earlier token is EOF or empty |
| Lexing.Lexer.constructor | lexer/lexer.go:18-22 | a new lexer is valid, with its cursor on the first byte |
| Lexing.Lexer.ReadChar | lexer/lexer.go:153-161 | the cursor moves one byte, and reads NUL past the end |
| Lexing.Lexer.PeekChar | lexer/lexer.go:103-108 | the byte after the cursor, NUL past the end |
| Lexing.Lexer.SkipWhiteSpace | lexer/lexer.go:123-128 | the cursor ends where the white-space run ends |
| Lexing.Lexer.ReadIdentifier | lexer/lexer.go:140-146 | returns the maximal letter run, with the cursor after it |
| Lexing.Lexer.ReadInt | lexer/lexer.go:111-117 | returns the maximal digit run, with the cursor after it |
| Lexing.Lexer.NextToken | lexer/lexer.go:25-101 | the token and the new cursor are those NextTokenAt specifies |
| LexerProperties.ByteClasses | lexer/lexer.go:119-151 | the classes of `isDigit`, `isValidIdentChar` and the white-space table are disjoint; the table holds exactly space, tab, newline and carriage return; NUL is in none of them |
| LexerProperties.RunEndIs | lexer/lexer.go:111-117 | a run of the class that stops at an outside byte is the run found |
| LexerProperties.StartsAt | lexer/lexer.go:123-128 | white space up to a non-white byte: the token starts there |
| LexerProperties.ScanRun | lexer/lexer.go:89-95 | the token read from a given run of letters or digits |
| LexerProperties.ScanByte | lexer/lexer.go:30-86 | the token read from a byte that is neither a letter nor a digit |
| LexerProperties.ScanEnd | lexer/lexer.go:87-88 | only white space left: the token is EOF |
| LexerProperties.WhiteSpaceSkipped | lexer/lexer.go:123-128 | a white-space byte before a token changes nothing |
| LexerProperties.NoWhiteSpaceInLiteral | lexer/lexer.go:25-101 | no literal holds a white-space byte |
| LexerProperties.OperatorLookahead | lexer/lexer.go:49-74 | `==` and `!=` are one token, while a lone `=` or `!` is one byte |
| LexerProperties.LoneOperatorAtEnd | lexer/lexer.go:103-108 | at the end of the input the lookahead is NUL, so `=` and `!` stay single |
| LexerProperties.IdentifierRun | lexer/lexer.go:89-92 | a letter starts a maximal identifier run, typed by keyword lookup |
| LexerProperties.IntegerRun | lexer/lexer.go:93-94 | a digit starts a maximal digit run, which is an INT token |
| LexerProperties.IllegalByte | lexer/lexer.go:96 | ILLEGAL occurs exactly for stray bytes, one byte per token |
| LexerProperties.PositionAfter | lexer/lexer.go:25-101 | n calls move the cursor at least n bytes |
| LexerProperties.EofAtEnd | lexer/lexer.go:87-88 | past the end, every call returns EOF with an empty literal |
| LexerProperties.EofForever | lexer/lexer.go:87-99 | once at the end, every later call returns EOF too |
| LexerProperties.EmbeddedNul | lexer/lexer.go:87-88 | a NUL byte inside the input is EOF, and the cursor moves past it |
| LexerProperties.EmbeddedNulExample | lexer/lexer.go:87-99 | lexing goes on after an embedded NUL, but the stream stops at it |
| LexerProperties.DigitEndsIdentifier | lexer/lexer.go:149-151 | `x1` is IDENT `x` followed by INT `1` |
| LexerProperties.LeadingZerosKept | lexer/lexer.go:111-117 | `007` is one INT token with literal `007` |
| LexerStreams.NextTokenShift | lexer/lexer.go:25-101 | lexing a suffix of a string gives the same token, shifted by the suffix's offset |
| LexerStreams.TokensFromShift | lexer/lexer.go:25-101 | the whole stream of a suffix is the same, seen from the longer string |
| LexerStreams.NextTokenPrefix | lexer/lexer.go:25-101 | a token that ends before the end of a piece is the same with more input after it |
| LexerStreams.EndsInside | lexer/lexer.go:25-101 | in a piece cut after white space or a one-byte token, a non-EOF token ends inside it, or is that last byte |
| LexerStreams.EofAtCut | lexer/lexer.go:87-88 | where a piece gives EOF, the joined input goes on with the stream of the next piece |
| LexerStreams.TokensFromAppend | lexer/lexer.go:25-101 | cut input lexes as its two pieces, one after the other |
| LexerStreams.TokenizeAppend | lexer/lexer.go:25-101 | the same, from a fresh lexer |
| LexerStreams.TokenizeConcat | lexer/lexer.go:25-101 | a sequence of cut pieces lexes as their groups of tokens, in order |
| LexerStreams.ConcatLexes | lexer/lexer.go:25-101 | pieces that each lex to their group lex, joined, to the joined groups |
| LexerStreams.LexesJoined | lexer/lexer.go:25-101 | two pieces that each lex to their group lex, joined, to the two groups in order |
| LexerTestVector.TestVector | lexer/lexer_test.go:10-129 | the test's input lexes to exactly the listed tokens, then EOF |
| Parsing.Advance | parser/parser.go:27-30 | reading a token moves the window forward |
| Parsing.WindowLiterals | parser/parser.go:27-30 | the current and the lookahead token have an empty literal exactly when they are EOF |
| Parsing.NotEofInside | parser/parser.go:36 | a window showing a token other than EOF lies inside the input |
| Parsing.KeywordLiteral | token/token.go:62-67 | a reserved token's literal is its keyword's spelling |
| Parsing.ParseExpressionAt | parser/parser.go:82-105 | the window only moves forward; a built expression is well-formed and starts at the current token; under IntsValidFrom it never fails |
| Parsing.ParseExpressionStatementAt | parser/parser.go:107-121 | a success holds the current token and a well-formed expression; under IntsValidFrom it never fails |
| Parsing.ParseReturnStatementAt | parser/parser.go:123-142 | a success is a well-formed return statement; on a RETURN token a failure still moves the window |
| Parsing.ParseLetStatementAt | parser/parser.go:144-175 | a success is a well-formed let statement; on a LET token a failure still moves the window |
| Parsing.ParseStatementAt | parser/parser.go:51-60 | a success is well-formed and starts at the current token; under IntsValidFrom a failure still moves the window, and the rest of the input stays inside IntsValidFrom |
| Parsing.StatementDispatch | parser/parser.go:51-60 | LET goes to the let parser, RETURN to the return parser, anything else to the expression-statement parser |
| Parsing.ParseProgram | parser/parser.go:33-49 | every statement parsed is well-formed and is not EOF |
| Parsing.ProgramStep | parser/parser.go:36-46 | one round: a success adds its statement and reads a token; a failure adds its error and reads none |
| Parsing.ProgramEnd | parser/parser.go:36-46 | the window position where the loop stops lies at or after the start, shows EOF, and is still inside IntsValidFrom |
| Parsing.EndStep | parser/parser.go:36-46 | one round, success or failure, leaves the stopping position unchanged |
| Parsing.Parser.constructor | parser/parser.go:20-25 | the window is primed with the lexer's first two tokens |
| Parsing.Parser.ReadToken | parser/parser.go:27-30 | the window shifts by one, pulling exactly one token from the lexer |
| Parsing.Parser.ParseExpression | parser/parser.go:82-105 | result and window as ParseExpressionAt |
| Parsing.Parser.ParseExpressionStatement | parser/parser.go:107-121 | result and window as ParseExpressionStatementAt |
| Parsing.Parser.ParseReturnStatement | parser/parser.go:123-142 | result and window as ParseReturnStatementAt |
| Parsing.Parser.ParseLetStatement | parser/parser.go:144-175 | result and window as ParseLetStatementAt |
| Parsing.Parser.ParseStatement | parser/parser.go:51-60 | result and window as ParseStatementAt |
| Parsing.Parser.Parse | parser/parser.go:33-49 | the program and the errors are those of ParseProgram, and the loop stops on EOF with the window at ProgramEnd of where it started |
| ParserProperties.NilExpression | parser/parser.go:103-104 | a token that starts no expression gives a nil expression, no error and no move; as a statement it takes one `;` after it |
| ParserProperties.BadIntegerStuck | parser/parser.go:96-102 | a rejected INT fails its statement with the window unmoved, so the input is outside IntsValidFrom |
| ParserProperties.BadIntegerInPrefix | parser/parser.go:85-102 | a prefix over a rejected INT fails inside the prefix, with the window on the integer |
| ParserProperties.Oks | parser/parser.go:42-44 | no more statements than rounds |
| ParserProperties.Errs | parser/parser.go:38-40 | no more errors than rounds |
| ParserProperties.OksErrsSplit | parser/parser.go:36-46 | each round contributes one statement or one error; no errors exactly when every round succeeded |
| ParserProperties.OutcomesStep | parser/parser.go:36-46 | the rounds from a window are its own round, then those from where it leaves the window |
| ParserProperties.ProgramFiltersOutcomes | parser/parser.go:33-49 | Parse keeps the successful statements in source order, and the errors in the order they happened |
| ParserProperties.NoErrorsIffNoFailure | parser/parser.go:33-49 | the error is nil exactly when no round failed; statements plus errors equal rounds |
| ParserProperties.LetShape | parser/parser.go:144-175 | a let succeeds exactly for `let` IDENT `=` expression `;`, and holds the name and the value |
| ParserProperties.ReturnShape | parser/parser.go:123-142 | a return succeeds exactly when an expression and a `;` follow; otherwise it reports the missing `;` |
| ParserProperties.ExpressionStatementShape | parser/parser.go:107-121 | an expression statement fails exactly when its expression fails, and takes one `;` after it |
| ParserProperties.PrefixShape | parser/parser.go:85-93 | a prefix wraps its operand under the token's literal, or fails inside the prefix |
| AstProperties.Count | ast/program.go:11-17 | reference definition, not in the source, used to count separators and parentheses in renderings: a byte occurs zero times exactly when it is absent |
| AstProperties.Split | ast/program.go:11-17 | reference definition of splitting at a byte, not in the source, used as the inverse of the `strings.Join` in `Program.String`: one more piece than there are separators, and no piece contains the separator |
| Ast.Identifier.String | ast/expression.go:41-43 | an identifier renders as its token literal |
| Ast.Identifier.TokenLiteral | ast/expression.go:36-38 | an identifier's literal is its token's literal |
| Ast.Expression.TokenLiteral | ast/expression.go:36-71 | every expression's literal is that of its own token: the identifier's token (36-38), the integer's (52-54), the prefix operator's (69-71) |
| Ast.Statement.TokenLiteral | ast/assignment.go:13-15 | a statement's literal is its token's literal; the same holds for return.go:12-14 and for the expression statement at expression.go:17-19 |
| Ast.Statement.String | ast/assignment.go:18-29 | renders the three statement kinds (let here; return at return.go:17-24; expression statement at expression.go:22-27). Its own ensures say only that a bare return renders as its keyword's literal and a nil expression statement as the empty string; its promises are stated by AstProperties.StatementLeadsWithLiteral, LetSemicolon, ReturnHasNoSemicolon and StatementOneLine |
| Ast.Expression.String | ast/expression.go:41-59 | an identifier or an integer renders as its token literal |
| Ast.Join | ast/program.go:16 | `strings.Join`: no parts give the empty string; otherwise the result starts with the first part and ends with the last |
| Ast.Program.String | ast/program.go:11-17 | an empty program renders as the empty string; otherwise the rendering starts with the first statement's and ends with the last statement's |
| Ast.Program.Render | ast/program.go:11-17 | the loop that collects the statements' renderings and then joins them computes String |
| AstProperties.PrefixRendering | ast/expression.go:74-81 | a prefix renders its operator in parentheses first, and nothing after it exactly when the operand is nil |
| AstProperties.StatementLeadsWithLiteral | ast/expression.go:17-27 | a let or return renders starting with its token literal; an expression statement renders as its expression, which for an identifier or integer is its own token literal, and as the empty string when the expression is nil |
| AstProperties.RenderingAvoids | ast/expression.go:41-81 | a well-formed expression renders only letters, digits, parentheses, spaces, `!` and `-` |
| AstProperties.ParenthesesCountPrefixes | ast/expression.go:74-81 | each prefix operator adds exactly one `(` and one `)` |
| AstProperties.IntegerKeepsSpelling | ast/expression.go:57-59 | an integer renders its spelling as written, not its value, so `010` does not render as 8 |
| AstProperties.OctalLiteralRendering | ast/expression.go:57-59 | `010` is a well-formed integer of value 8 that renders as `010` |
| AstProperties.PrefixRenderings | ast/expression.go:69-81 | `!-5` renders as `(!) (-) 5`, and a nil operand leaves `(-)` |
| AstProperties.LetSemicolon | ast/assignment.go:18-29 | a let with a value ends in its only `;`; a let without one has no `;` |
| AstProperties.ReturnHasNoSemicolon | ast/return.go:17-24 | a return renders without `;`, and a bare one renders as `return` |
| AstProperties.StatementOneLine | ast/expression.go:22-27 | a well-formed statement renders on one line |
| AstProperties.SplitJoin | ast/program.go:11-17 | joining newline-free parts and splitting again gives the parts back |
| AstProperties.SmallPrograms | ast/program.go:11-17 | an empty program renders as the empty string, and a one-statement program as that statement |
| AstProperties.ProgramLines | ast/program.go:11-17 | a program renders one statement per line, in order, with n - 1 newlines for n statements |
| ParserTests.ParseLetFoo | parser/parser_test.go:189-201 | `let foo = 5;` parses to one let statement, with no errors, and renders back to itself |
| ParserTests.ParseFiveFoo | parser/parser_test.go:104-133 | `5; foo` parses to an integer statement and then an identifier statement |
| ParserTests.ParsePrefixes | parser/parser_test.go:135-187 | `!foo; -foo; -5;` parses to the three prefix statements |
| ParserTests.ParseBangMinus | parser/parser.go:85-93 | `!-5` nests the prefixes and renders as `(!) (-) 5` |
| ParserTests.ParseLetNoAssign | parser/parser.go:160-163 | `let foo 5;` reports "wanted ASSIGN, got INT", then parses `5;` as a statement |
| ParserTests.ParseReturnFive | parser/parser_test.go:60-102 | `return 5;` parses to one return statement, which renders as `return 5` |
| ParserTests.ParseReturnRendered | ast/return.go:17-24 | re-parsing `return 5` reports the missing `;` and then yields an expression statement |
| ParserTests.ParseLetNil | parser/parser.go:163-172 | `let x = );` is one let statement with a nil value and no error, rendering as `let x` |
| ParserTests.ParseLetBadInteger | parser/parser.go:150-166 | `let x = 08;` reads three tokens, then fails with the error wrapped in the let and the window on `08`; the next round starts there, fails and does not move |
| ParserTests.ParseLetEmpty | parser/parser.go:169-171 | `let x = ;` reports "wanted SEMICOLON, got EOF" and then parses the `;` as an expression statement with a nil expression |
| ParserTests.BadLiteralPastNul | parser/parser.go:36 | in `5\0 08` the window after `5` shows EOF, so the loop stops, while the later `08` puts the input outside IntsValidFrom |
| ParserProperties.OkRound | parser/parser.go:42-45 | after a successful round, the program is its statement followed by the rest of the loop's result |
| ParserProperties.ErrRound | parser/parser.go:38-40 | after a failed round, the errors are its error followed by the rest, from the same window |
| ParserProperties.OneStatement | parser/parser.go:33-49 | a single successful statement followed by EOF is the whole program, with no errors |
| ParserRoundTrip.LetRoundTrip | parser/parser.go:144-175 | for every name x and every literal d that converts to v, `let x = d;` parses to exactly the let statement binding x to v, with no error, and renders back to itself |
| ParserRoundTrip.ReturnRoundTrip | parser/parser.go:123-142 | for every literal d that converts to v, `return d;` parses to exactly the return statement of v, with no error, and renders as `return d` |

## Left out

- The REPL and the command-line entry point (repl/repl.go, main.go) do I/O and are not part of this model.
- The `Node`, `Statement` and `Expression` interfaces of ast/ast.go become the `Statement` and `Expression` datatypes. Go's dynamic dispatch on those interfaces is not modelled separately.
- The text of error messages (`fmt.Errorf` formatting, including the `%!s(<nil>)` that leads the chained error) is not modelled. The constructors of `ParseError` record the same facts.
- `parsePrefixExpression` (parser/parser.go:62-80) is never called; `parseExpression` handles prefixes itself, and only that path is modelled.
- `strconv.ParseInt` is modelled only on what the lexer can hand it: non-empty strings of decimal digits, in base 0 with an int64 result.
- `string(l.ch)` for an ILLEGAL byte at or above 0x80 produces a two-byte UTF-8 string in Go. The model keeps the single byte.
- Parsing.Parser.Parse, Parsing.ParseProgram and Parsing.ProgramEnd: require IntsValidFrom, because the source never terminates on an INT literal that does not convert (see BadIntegerStuck). The precondition is stronger than termination needs: it also excludes inputs on which the source does stop, such as `5\0 08`, whose bad literal comes after an embedded NUL and is never parsed (see BadLiteralPastNul).
- The `stmt != nil` check in `Parse` is always true: every path that returns no error also returns a statement, so it is not modelled.
- The three-statement inputs of TestLetStatement and TestReturnStatement are not worked through. Their statements are covered by LetShape, ReturnShape and ParseReturnFive, and their literal values by ParseIntLitExamples.
- BenchmarkNextToken measures speed and has no counterpart.
- The parser's `errors` field is never read or written in the source and is not modelled.
