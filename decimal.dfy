/**
 * Base-10 text of 32-bit identifiers: what Go's strconv.ParseInt(s, 10, 32) accepts,
 * and what the "%d" verb prints. The printer is the parser's partner: every int32
 * printed with "%d" parses back to itself.
 */
module Decimal {
  import opened Wrappers
  import opened Ints

  predicate IsDigit(c: char) {
    '0' <= c <= '9'
  }

  predicate AllDigits(s: string) {
    forall i :: 0 <= i < |s| ==> IsDigit(s[i])
  }

  function DigitValue(c: char): (d: nat)
    requires IsDigit(c)
    ensures d < 10
  {
    (c as int) - ('0' as int)
  }

  function DigitChar(d: nat): (c: char)
    requires d < 10
    ensures IsDigit(c) && DigitValue(c) == d
  {
    (('0' as int) + d) as char
  }

  /** The value of a run of decimal digits, most significant digit first. */
  function DigitsValue(s: string): nat
    requires AllDigits(s)
  {
    if s == [] then 0 else DigitsValue(s[..|s| - 1]) * 10 + DigitValue(s[|s| - 1])
  }

  predicate IsSign(c: char) {
    c == '+' || c == '-'
  }

  /** The text after an optional leading sign. */
  function Magnitude(s: string): string {
    if |s| > 0 && IsSign(s[0]) then s[1..] else s
  }

  /** The syntax ParseInt accepts in base 10: an optional '+' or '-', then one or more ASCII digits. */
  predicate IsDecimalSyntax(s: string) {
    |Magnitude(s)| > 0 && AllDigits(Magnitude(s))
  }

  /** The mathematical value denoted by well-formed decimal text. */
  function SignedValue(s: string): int
    requires IsDecimalSyntax(s)
  {
    if s[0] == '-' then -(DigitsValue(Magnitude(s)) as int) else DigitsValue(Magnitude(s))
  }

  /**
   * strconv.ParseInt(s, 10, 32): a syntax error unless s is decimal text, a range
   * error unless its value fits in 32 signed bits; otherwise that value.
   */
  function ParseInt32(s: string): (r: Option<int32>)
    ensures r.Some? <==> IsDecimalSyntax(s) && InInt32Range(SignedValue(s))
    ensures r.Some? ==> r.value as int == SignedValue(s)
  {
    if IsDecimalSyntax(s) && InInt32Range(SignedValue(s)) then Some(SignedValue(s) as int32) else None
  }

  /** "%d" of a natural number: no sign, no leading zeros. */
  function FormatNat(n: nat): (s: string)
    ensures |s| > 0 && AllDigits(s)
    ensures n > 0 ==> s[0] != '0'
  {
    if n < 10 then [DigitChar(n)] else FormatNat(n / 10) + [DigitChar(n % 10)]
  }

  /** "%d" of any integer: a '-' before the magnitude when negative. */
  function FormatInt(x: int): (s: string)
    ensures |s| > 0
    ensures s[0] == '-' <==> x < 0
    ensures |Magnitude(s)| > 0 && (x != 0 ==> Magnitude(s)[0] != '0')
  {
    if x < 0 then "-" + FormatNat(-x) else FormatNat(x)
  }

  lemma {:induction false} FormatNatValue(n: nat)
    ensures DigitsValue(FormatNat(n)) == n
  {
    var s := FormatNat(n);
    if n >= 10 {
      FormatNatValue(n / 10);
      assert s[..|s| - 1] == FormatNat(n / 10);
    }
  }

  /** Any integer printed with "%d" is decimal text denoting that integer. */
  lemma FormatIntValue(v: int)
    ensures IsDecimalSyntax(FormatInt(v)) && SignedValue(FormatInt(v)) == v
  {
    var s := FormatInt(v);
    if v < 0 {
      FormatNatValue(-v);
      assert s[1..] == FormatNat(-v);
    } else {
      FormatNatValue(v);
      assert IsDigit(s[0]);
    }
  }

  /**
   * ParseInt(·, 10, 32) of "%d" text gives back the printed integer when it fits in
   * 32 signed bits, and a range error otherwise.
   */
  lemma ParseFormat(v: int)
    ensures ParseInt32(FormatInt(v)) == if InInt32Range(v) then Some(v as int32) else None
  {
    FormatIntValue(v);
  }

  /** Printing with "%d" and parsing with ParseInt(·, 10, 32) gives back every int32. */
  lemma FormatParseRoundTrip(x: int32)
    ensures ParseInt32(FormatInt(x as int)) == Some(x)
  {
    FormatIntValue(x as int);
  }

  /** Distinct identifiers print differently. */
  lemma FormatIntInjective(x: int32, y: int32)
    requires FormatInt(x as int) == FormatInt(y as int)
    ensures x == y
  {
    FormatParseRoundTrip(x);
    FormatParseRoundTrip(y);
  }

  /** The example from the REST tests: "111x" is rejected. */
  lemma RejectsTrailingLetter()
    ensures ParseInt32("111x") == None
  {
    assert !IsDigit("111x"[3]);
  }
}
