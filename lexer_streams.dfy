/**
 * Token streams. Lexing only ever looks forward from the cursor, so lexing the tail of a
 * string is lexing that tail on its own, and a string cut after a white-space byte
 * lexes as its two pieces one after the other.
 */
module LexerStreams {
  import opened Tokens
  import opened Lexing
  import opened LexerProperties

  /** ab holds b from offset n to its end. */
  predicate EndsWith(ab: string, n: nat, b: string) {
    |ab| == n + |b| && forall i :: 0 <= i < |b| ==> ab[n + i] == b[i]
  }

  lemma Suffix(a: string, b: string)
    ensures EndsWith(a + b, |a|, b)
  {
  }

  /** The cursor byte at n + q in ab is the byte at q in b. */
  lemma AtShift(ab: string, n: nat, b: string, q: nat)
    requires EndsWith(ab, n, b)
    ensures At(ab, n + q) == At(b, q)
  {
    if q < |b| {
      assert ab[n + q] == b[q];
    }
  }

  lemma {:induction false} RunEndShift(ab: string, n: nat, b: string, q: nat, k: CharClass)
    requires EndsWith(ab, n, b)
    ensures RunEnd(ab, n + q, k) == n + RunEnd(b, q, k)
    decreases if q < |b| then |b| - q else 0
  {
    AtShift(ab, n, b, q);
    if q < |b| && InClass(b[q], k) {
      RunEndShift(ab, n, b, q + 1, k);
    }
  }

  /** A step taken on b, seen from a string that holds b from offset n. */
  function Shifted(r: Step, n: nat): (r': Step)
    ensures r'.tok == r.tok && r'.next == r.next + n
  {
    Step(r.tok, r.next + n)
  }

  /** Lexing at n + q in ab returns the token lexing b at q returns. */
  lemma NextTokenShift(ab: string, n: nat, b: string, q: nat)
    requires EndsWith(ab, n, b)
    ensures NextTokenAt(ab, n + q) == Shifted(NextTokenAt(b, q), n)
  {
    var s := TokenStart(b, q);
    var c := At(b, s);
    if IsValidIdentChar(c) || IsDigit(c) {
      WordShift(ab, n, b, q, if IsValidIdentChar(c) then Letter else Digit);
    } else {
      ByteShift(ab, n, b, q);
    }
  }

  /** The token start and the two bytes from it, seen from ab. */
  lemma StartShift(ab: string, n: nat, b: string, q: nat)
    requires EndsWith(ab, n, b)
    ensures TokenStart(ab, n + q) == n + TokenStart(b, q)
    ensures At(ab, n + TokenStart(b, q)) == At(b, TokenStart(b, q))
    ensures At(ab, n + TokenStart(b, q) + 1) == At(b, TokenStart(b, q) + 1)
  {
    RunEndShift(ab, n, b, q, Space);
    AtShift(ab, n, b, TokenStart(b, q));
    AtShift(ab, n, b, TokenStart(b, q) + 1);
  }

  lemma ByteShift(ab: string, n: nat, b: string, q: nat)
    requires EndsWith(ab, n, b)
    requires !IsValidIdentChar(At(b, TokenStart(b, q))) && !IsDigit(At(b, TokenStart(b, q)))
    ensures NextTokenAt(ab, n + q) == Shifted(NextTokenAt(b, q), n)
  {
    StartShift(ab, n, b, q);
    var s := TokenStart(b, q);
    var c := At(b, s);
    assert At(ab, n + s) == c;
    if SingleByteType(c).Some? {
      assert NextTokenAt(b, q) == Step(Token(SingleByteType(c).value, [c]), s + 1);
    } else if c == '=' || c == '!' {
      OperatorShift(ab, n, b, s);
    } else if c == NUL {
      assert NextTokenAt(b, q) == Step(Token(EOF, ""), s + 1);
    } else {
      assert NextTokenAt(b, q) == Step(Token(ILLEGAL, [c]), s + 1);
    }
  }

  lemma OperatorShift(ab: string, n: nat, b: string, s: nat)
    requires At(b, s) == '=' || At(b, s) == '!'
    requires At(ab, n + s) == At(b, s) && At(ab, n + s + 1) == At(b, s + 1)
    ensures OperatorAt(ab, n + s) == Shifted(OperatorAt(b, s), n)
  {
  }

  lemma WordShift(ab: string, n: nat, b: string, q: nat, k: CharClass)
    requires EndsWith(ab, n, b)
    requires k == Letter || k == Digit
    requires InClass(At(b, TokenStart(b, q)), k)
    ensures NextTokenAt(ab, n + q) == Shifted(NextTokenAt(b, q), n)
  {
    WordFacts(ab, n, b, q, k);
    WordGlue(ab, n, b, q, k);
  }

  /** Where the word starts in ab, and the run read from there. */
  lemma WordFacts(ab: string, n: nat, b: string, q: nat, k: CharClass)
    requires EndsWith(ab, n, b)
    requires k == Letter || k == Digit
    requires InClass(At(b, TokenStart(b, q)), k)
    ensures TokenStart(ab, n + q) == n + TokenStart(b, q)
    ensures n + TokenStart(b, q) < |ab| && InClass(ab[n + TokenStart(b, q)], k)
    ensures TokenStart(b, q) < |b| &&
      RunToken(ab, n + TokenStart(b, q), k) == Shifted(RunToken(b, TokenStart(b, q), k), n)
  {
    StartShift(ab, n, b, q);
    RunTokenShift(ab, n, b, TokenStart(b, q), k);
  }

  /** The word step on b, and the same run n bytes further on in ab. */
  lemma WordGlue(ab: string, n: nat, b: string, q: nat, k: CharClass)
    requires k == Letter || k == Digit
    requires InClass(At(b, TokenStart(b, q)), k)
    requires TokenStart(ab, n + q) == n + TokenStart(b, q)
    requires n + TokenStart(b, q) < |ab| && InClass(ab[n + TokenStart(b, q)], k)
    requires TokenStart(b, q) < |b| &&
      RunToken(ab, n + TokenStart(b, q), k) == Shifted(RunToken(b, TokenStart(b, q), k), n)
    ensures NextTokenAt(ab, n + q) == Shifted(NextTokenAt(b, q), n)
  {
    var r := RunToken(b, TokenStart(b, q), k);
    WordToken(b, q, k);
    assert NextTokenAt(b, q) == r;
    WordToken(ab, n + q, k);
    assert NextTokenAt(ab, n + q) == Shifted(r, n);
  }

  /** A letter or a digit at the token start makes the token a run of its class. */
  lemma WordToken(input: string, q: nat, k: CharClass)
    requires k == Letter || k == Digit
    requires InClass(At(input, TokenStart(input, q)), k)
    ensures NextTokenAt(input, q) == RunToken(input, TokenStart(input, q), k)
  {
  }

  lemma RunTokenShift(ab: string, n: nat, b: string, s: nat, k: CharClass)
    requires EndsWith(ab, n, b)
    requires k == Letter || k == Digit
    requires s < |b| && InClass(b[s], k)
    ensures n + s < |ab| && InClass(ab[n + s], k)
    ensures RunToken(ab, n + s, k) == Shifted(RunToken(b, s, k), n)
  {
    assert ab[n + s] == b[s];
    RunEndShift(ab, n, b, s, k);
    var e := RunEnd(b, s, k);
    assert ab[n + s..n + e] == b[s..e] by {
      forall i | 0 <= i < e - s ensures ab[n + s..n + e][i] == b[s..e][i] {
        assert ab[n + s + i] == b[s + i];
      }
    }
  }

  /** The streams from n + q in ab and from q in b are the same. */
  lemma {:induction false} TokensFromShift(ab: string, n: nat, b: string, q: nat)
    requires EndsWith(ab, n, b)
    ensures TokensFrom(ab, n + q) == TokensFrom(b, q)
    decreases if q < |b| then |b| - q else 0
  {
    var r := NextTokenAt(b, q);
    NextTokenShift(ab, n, b, q);
    if r.tok.Type != EOF {
      TokensFromShift(ab, n, b, r.next);
    }
    StreamGlue(ab, n + q, b, q, n);
  }

  /** Two cursors whose first tokens agree and whose streams after them agree lex the same stream. */
  lemma StreamGlue(x: string, p: nat, y: string, q: nat, n: nat)
    requires NextTokenAt(x, p) == Shifted(NextTokenAt(y, q), n)
    requires NextTokenAt(y, q).tok.Type != EOF ==>
      TokensFrom(x, n + NextTokenAt(y, q).next) == TokensFrom(y, NextTokenAt(y, q).next)
    ensures TokensFrom(x, p) == TokensFrom(y, q)
  {
  }

  /** A run that ends inside a ends at the same place in a + b. */
  lemma {:induction false} RunEndPrefix(a: string, b: string, p: nat, k: CharClass)
    requires RunEnd(a, p, k) < |a|
    ensures RunEnd(a + b, p, k) == RunEnd(a, p, k)
    decreases |a| - p
  {
    assert At(a + b, p) == At(a, p);
    if InClass(At(a, p), k) {
      RunEndPrefix(a, b, p + 1, k);
    }
  }

  /** A token that ends inside a (strictly before its end) is lexed the same in a + b. */
  lemma NextTokenPrefix(a: string, b: string, p: nat)
    requires NextTokenAt(a, p).tok.Type != EOF && NextTokenAt(a, p).next < |a|
    ensures NextTokenAt(a + b, p) == NextTokenAt(a, p)
  {
    var s := TokenStart(a, p);
    RunEndPrefix(a, b, p, Space);
    assert At(a + b, s) == At(a, s);
    assert At(a + b, s + 1) == At(a, s + 1);
    var c := At(a, s);
    if SingleByteType(c).None? && c != '=' && c != '!' {
      var k := if IsValidIdentChar(c) then Letter else Digit;
      if IsValidIdentChar(c) || IsDigit(c) {
        RunEndPrefix(a, b, s, k);
        assert (a + b)[s..RunEnd(a, s, k)] == a[s..RunEnd(a, s, k)];
      }
    }
  }

  /** Every byte from p up to m is of class k, so the run from p goes at least as far as m. */
  lemma {:induction false} RunEndSkip(input: string, p: nat, m: nat, k: CharClass)
    requires p <= m <= |input|
    requires forall i :: p <= i < m ==> InClass(input[i], k)
    ensures RunEnd(input, p, k) == RunEnd(input, m, k)
    decreases m - p
  {
    if p < m {
      RunEndSkip(input, p + 1, m, k);
    }
  }

  /**
   * Where a piece of input may be cut: after a white-space byte or a byte that is a token on
   * its own, with no NUL in the piece.
   */
  predicate CutAfter(a: string) {
    NUL !in a && (|a| > 0 ==> IsWhiteSpace(a[|a| - 1]) || SingleByteType(a[|a| - 1]).Some?)
  }

  /** The tokens of a stream but its closing EOF. */
  function Body(ts: seq<Token>): seq<Token>
    requires |ts| > 0
  {
    ts[..|ts| - 1]
  }

  /**
   * In a piece that may be cut, a token other than EOF ends before the piece does, or is
   * the one-byte token at its very end.
   */
  lemma EndsInside(a: string, p: nat)
    requires CutAfter(a) && NextTokenAt(a, p).tok.Type != EOF
    ensures var r := NextTokenAt(a, p);
      r.next < |a| ||
      (TokenStart(a, p) == |a| - 1 && SingleByteType(a[|a| - 1]).Some? && r.next == |a|)
  {
    var r := NextTokenAt(a, p);
    var s := TokenStart(a, p);
    NoWhiteSpaceInLiteral(a, p);
    if r.next == |a| {
      var c := a[|a| - 1];
      assert r.tok.Literal[|r.tok.Literal| - 1] == c;
      assert SingleByteType(c).Some?;
      assert !IsValidIdentChar(c) && !IsDigit(c) && c != '=';
    }
  }

  /** The one-byte token at the very end of a piece is lexed the same with more input after it. */
  lemma LastSymbolPrefix(a: string, b: string, p: nat)
    requires TokenStart(a, p) == |a| - 1 && SingleByteType(a[|a| - 1]).Some?
    ensures NextTokenAt(a + b, p) == NextTokenAt(a, p)
  {
    RunEndPrefix(a, b, p, Space);
    assert At(a + b, |a| - 1) == a[|a| - 1];
  }

  /** In a piece that may be cut, EOF comes only once the rest of the piece is white space. */
  lemma EofAtCut(a: string, b: string, p: nat)
    requires CutAfter(a) && p <= |a| && NextTokenAt(a, p).tok.Type == EOF
    ensures TokensFrom(a + b, p) == TokensFrom(b, 0)
  {
    SpaceToCut(a, b, p);
    SameStart(a + b, p, |a| + 0);
    TailStream(a, b);
  }

  /** The stream of a + b from where b starts is the stream of b. */
  lemma TailStream(a: string, b: string)
    ensures TokensFrom(a + b, |a| + 0) == TokensFrom(b, 0)
  {
    var ab := a + b;
    Suffix(a, b);
    assert EndsWith(ab, |a|, b);
    TokensFromShift(ab, |a|, b, 0);
  }

  /** The white space before the EOF of a piece is skipped in a + b, up to where b starts. */
  lemma SpaceToCut(a: string, b: string, p: nat)
    requires CutAfter(a) && p <= |a| && NextTokenAt(a, p).tok.Type == EOF
    ensures TokenStart(a + b, p) == TokenStart(a + b, |a| + 0)
  {
    assert TokenStart(a, p) == |a|;
    assert forall i :: p <= i < |a| ==> (a + b)[i] == a[i];
    RunEndSkip(a + b, p, |a|, Space);
  }

  /** Two cursor positions with the same token start lex the same stream. */
  lemma SameStart(input: string, p: nat, q: nat)
    requires TokenStart(input, p) == TokenStart(input, q)
    ensures TokensFrom(input, p) == TokensFrom(input, q)
  {
    assert NextTokenAt(input, p) == NextTokenAt(input, q);
  }

  /** A stream is its first token followed by the stream after it. */
  lemma StreamStep(input: string, p: nat)
    requires NextTokenAt(input, p).tok.Type != EOF
    ensures TokensFrom(input, p) == [NextTokenAt(input, p).tok] + TokensFrom(input, NextTokenAt(input, p).next)
  {
  }

  lemma ConsAppend(t: Token, ta: seq<Token>, tab: seq<Token>, tb: seq<Token>)
    requires |ta| > 0 && tab == Body(ta) + tb
    ensures [t] + tab == Body([t] + ta) + tb
  {
    assert Body([t] + ta) == [t] + Body(ta);
  }

  lemma {:induction false} TokensFromAppend(a: string, b: string, p: nat)
    requires CutAfter(a) && p <= |a|
    ensures TokensFrom(a + b, p) == Body(TokensFrom(a, p)) + TokensFrom(b, 0)
    decreases |a| - p
  {
    var r := NextTokenAt(a, p);
    if r.tok.Type == EOF {
      EofAtCut(a, b, p);
    } else {
      EndsInside(a, p);
      if r.next < |a| {
        NextTokenPrefix(a, b, p);
      } else {
        LastSymbolPrefix(a, b, p);
      }
      TokensFromAppend(a, b, r.next);
      StreamStep(a, p);
      StreamStep(a + b, p);
      ConsAppend(r.tok, TokensFrom(a, r.next), TokensFrom(a + b, r.next), TokensFrom(b, 0));
    }
  }

  /** Input cut where CutAfter allows lexes as its two pieces, one after the other. */
  lemma TokenizeAppend(a: string, b: string)
    requires CutAfter(a)
    ensures Tokenize(a + b) == Body(Tokenize(a)) + Tokenize(b)
  {
    TokensFromAppend(a, b, 0);
  }

  /** The pieces, one after another. */
  function Concat(pieces: seq<string>): string {
    if |pieces| == 0 then "" else pieces[0] + Concat(pieces[1..])
  }

  /** The groups, one after another. */
  function Flatten(groups: seq<seq<Token>>): seq<Token> {
    if |groups| == 0 then [] else groups[0] + Flatten(groups[1..])
  }

  /** A piece that may be cut and lexes to the tokens of group g, then EOF. */
  predicate LexesTo(piece: string, g: seq<Token>) {
    CutAfter(piece) && Tokenize(piece) == g + [Token(EOF, "")]
  }

  lemma GroupStep(g: seq<Token>, rest: seq<Token>)
    ensures Body(g + [Token(EOF, "")]) + (rest + [Token(EOF, "")]) == (g + rest) + [Token(EOF, "")]
  {
    assert Body(g + [Token(EOF, "")]) == g;
  }

  /** Input made of pieces that may each be cut lexes piece by piece, with one EOF at the end. */
  lemma {:induction false} TokenizeConcat(pieces: seq<string>, groups: seq<seq<Token>>)
    requires |pieces| == |groups|
    requires forall i :: 0 <= i < |pieces| ==> LexesTo(pieces[i], groups[i])
    ensures Tokenize(Concat(pieces)) == Flatten(groups) + [Token(EOF, "")]
  {
    if |pieces| == 0 {
      EofAtEnd("", 0);
    } else {
      assert LexesTo(pieces[0], groups[0]);
      TokenizeAppend(pieces[0], Concat(pieces[1..]));
      TokenizeConcat(pieces[1..], groups[1..]);
      GroupStep(groups[0], Flatten(groups[1..]));
    }
  }

  /** Pieces that may each be cut, joined, may be cut too. */
  lemma {:induction false} CutAfterConcat(pieces: seq<string>)
    requires forall i :: 0 <= i < |pieces| ==> CutAfter(pieces[i])
    ensures CutAfter(Concat(pieces))
  {
    if |pieces| > 0 {
      CutAfterConcat(pieces[1..]);
      var a, b := pieces[0], Concat(pieces[1..]);
      assert CutAfter(a);
      if |b| > 0 {
        assert (a + b)[|a + b| - 1] == b[|b| - 1];
      }
    }
  }

  /** Pieces that each lex on their own to a group: their concatenation lexes to the groups in order. */
  lemma ConcatLexes(pieces: seq<string>, groups: seq<seq<Token>>)
    requires |pieces| == |groups|
    requires forall i :: 0 <= i < |pieces| ==> LexesTo(pieces[i], groups[i])
    ensures LexesTo(Concat(pieces), Flatten(groups))
  {
    TokenizeConcat(pieces, groups);
    CutAfterConcat(pieces);
  }

  /** Two inputs that each lex to a group: the two joined lex to the two groups in order. */
  lemma LexesJoined(a: string, b: string, ga: seq<Token>, gb: seq<Token>)
    requires LexesTo(a, ga) && LexesTo(b, gb)
    ensures LexesTo(a + b, ga + gb)
  {
    TokenizeAppend(a, b);
    GroupStep(ga, gb);
    if |b| > 0 {
      assert (a + b)[|a + b| - 1] == b[|b| - 1];
    } else {
      assert a + b == a;
    }
  }
}
