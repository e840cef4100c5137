/**
 * The parser's integer conversion, strconv.ParseInt(lit, 0, 64), on the strings the
 * lexer can hand it: runs of decimal digits. With base 0 a leading `0` followed by
 * more digits selects octal; the value must fit in a signed 64-bit integer.
 */
module IntLiteral {
  import opened Wrappers
  import opened Lexing

  /** 2^63 - 1, the largest int64. */
  const MaxInt64: int := 0x7FFF_FFFF_FFFF_FFFF

  predicate IsOctalDigit(c: char) {
    '0' <= c <= '7'
  }

  function DigitValue(c: char): (d: nat)
    requires IsDigit(c)
    ensures d < 10
  {
    c as int - '0' as int
  }

  /** The value of a digit string read in the given base, most significant digit first. */
  function DigitsValue(s: string, base: nat): nat
    requires AllIn(s, Digit)
  {
    if s == [] then 0 else DigitsValue(s[..|s| - 1], base) * base + DigitValue(s[|s| - 1])
  }

  function ToInt64(n: nat): (r: Option<int>)
    ensures r.Some? ==> r.value == n && n <= MaxInt64
  {
    if n <= MaxInt64 then Some(n) else None
  }

  /** The int64 a digit string denotes, or None where strconv reports an error. */
  function ParseIntLit(lit: string): (r: Option<int>)
    requires AllIn(lit, Digit)
    ensures r.Some? ==> lit != "" && 0 <= r.value <= MaxInt64
  {
    if lit == "" then None
    else if lit[0] == '0' then
      if forall i | 1 <= i < |lit| :: IsOctalDigit(lit[i]) then ToInt64(DigitsValue(lit[1..], 8))
      else None
    else ToInt64(DigitsValue(lit, 10))
  }

  /** The shortest decimal spelling of n: the reference the conversion is checked against. */
  function DecimalString(n: nat): (s: string)
    ensures s != "" && AllIn(s, Digit)
    ensures n > 0 ==> s[0] != '0'
  {
    if n < 10 then ['0' + n as char] else DecimalString(n / 10) + ['0' + (n % 10) as char]
  }

  /** The octal spelling of n, without the `0` prefix. */
  function OctalString(n: nat): (s: string)
    ensures s != "" && AllIn(s, Digit)
    ensures forall i :: 0 <= i < |s| ==> IsOctalDigit(s[i])
  {
    if n < 8 then ['0' + n as char] else OctalString(n / 8) + ['0' + (n % 8) as char]
  }

  lemma {:induction false} DigitsValueOfString(n: nat, base: nat)
    requires base == 8 || base == 10
    ensures DigitsValue(if base == 10 then DecimalString(n) else OctalString(n), base) == n
    decreases n
  {
    var s := if base == 10 then DecimalString(n) else OctalString(n);
    if n >= base {
      DigitsValueOfString(n / base, base);
      var prefix := if base == 10 then DecimalString(n / base) else OctalString(n / base);
      assert s[..|s| - 1] == prefix;
    }
  }

  /** Every int64 from 0 up survives a round trip through its decimal spelling. */
  lemma DecimalRoundTrip(n: nat)
    requires n <= MaxInt64
    ensures ParseIntLit(DecimalString(n)) == Some(n)
  {
    DigitsValueOfString(n, 10);
    if n == 0 {
      assert DecimalString(0) == "0";
    }
  }

  /** ... and through its octal spelling behind a leading `0`. */
  lemma OctalRoundTrip(n: nat)
    requires n <= MaxInt64
    ensures ParseIntLit("0" + OctalString(n)) == Some(n)
  {
    DigitsValueOfString(n, 8);
    var lit := "0" + OctalString(n);
    assert lit[1..] == OctalString(n);
  }

  /** A digit string with a leading `0` and an 8 or 9 after it is rejected. */
  lemma NonOctalRejected(lit: string, i: nat)
    requires AllIn(lit, Digit) && |lit| > 1 && lit[0] == '0'
    requires 1 <= i < |lit| && (lit[i] == '8' || lit[i] == '9')
    ensures ParseIntLit(lit) == None
  {
  }

  /** Values the source's conversion distinguishes. */
  lemma ParseIntLitExamples()
    ensures ParseIntLit("5") == Some(5) && ParseIntLit("4930") == Some(4930)
    ensures ParseIntLit("0") == Some(0) && ParseIntLit("010") == Some(8)
    ensures ParseIntLit("08") == None
  {
    assert "4930"[..3] == "493" && "493"[..2] == "49" && "49"[..1] == "4";
    assert "010"[1..] == "10" && "10"[..1] == "1";
    NonOctalRejected("08", 1);
  }

  /** Leading zeros do not change the value of a digit string. */
  lemma {:induction false} LeadingZero(s: string, base: nat)
    requires AllIn(s, Digit)
    ensures AllIn("0" + s, Digit) && DigitsValue("0" + s, base) == DigitsValue(s, base)
    decreases |s|
  {
    var z := "0" + s;
    if s != [] {
      assert z[..|z| - 1] == "0" + s[..|s| - 1];
      assert z[|z| - 1] == s[|s| - 1];
      LeadingZero(s[..|s| - 1], base);
    }
  }

  /**
   * What the conversion accepts, and the value it gives for any spelling, canonical or not:
   * a non-empty literal, all octal digits when it starts with `0`, whose value in base 8
   * (leading `0`) or base 10 fits int64.
   */
  lemma ParseIntLitValue(lit: string)
    requires AllIn(lit, Digit)
    ensures var base := if lit != "" && lit[0] == '0' then 8 else 10;
      && (ParseIntLit(lit).Some? <==>
          lit != "" && (lit[0] == '0' ==> forall i | 0 <= i < |lit| :: IsOctalDigit(lit[i])) &&
          DigitsValue(lit, base) <= MaxInt64)
      && (ParseIntLit(lit).Some? ==> ParseIntLit(lit).value == DigitsValue(lit, base))
  {
    if lit != "" && lit[0] == '0' {
      LeadingZero(lit[1..], 8);
      assert "0" + lit[1..] == lit;
    }
  }

  /** `007` is 7 and `0010` is 8: extra leading zeros are read and dropped. */
  lemma NonCanonicalExamples()
    ensures ParseIntLit("007") == Some(7) && ParseIntLit("0010") == Some(8)
  {
    ParseIntLitValue("007");
    ParseIntLitValue("0010");
    assert "007"[..2] == "00" && "00"[..1] == "0";
    assert "0010"[..3] == "001" && "001"[..2] == "00" && "00"[..1] == "0";
  }

  /** Every value above 2^63 - 1 is rejected, in its decimal spelling and in its octal one. */
  lemma TooLargeRejected(n: nat)
    requires n > MaxInt64
    ensures ParseIntLit(DecimalString(n)) == None
    ensures ParseIntLit("0" + OctalString(n)) == None
  {
    DigitsValueOfString(n, 10);
    DigitsValueOfString(n, 8);
    var lit := "0" + OctalString(n);
    assert lit[1..] == OctalString(n);
  }

  /** The int64 range is exact: 2^63 - 1 converts and 2^63 does not. */
  lemma ParseIntLitRange()
    ensures ParseIntLit(DecimalString(MaxInt64)) == Some(MaxInt64)
    ensures ParseIntLit(DecimalString(MaxInt64 + 1)) == None
  {
    DecimalRoundTrip(MaxInt64);
    DigitsValueOfString(MaxInt64 + 1, 10);
  }
}
