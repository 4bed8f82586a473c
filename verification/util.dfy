/** Small shared vocabulary: optional values, results, and the decimal
    rendering of non-negative integers that JavaScript template strings
    perform (`${n}`). */
module Util {

  datatype Option<+T> = None | Some(value: T)

  /** A value or the message of the `Error` that was thrown instead. */
  datatype Result<+T> = Success(value: T) | Failure(message: string)

  predicate IsDigit(c: char) {
    '0' <= c <= '9'
  }

  predicate AllDigits(s: string) {
    forall i :: 0 <= i < |s| ==> IsDigit(s[i])
  }

  function DigitChar(d: nat): (c: char)
    requires d < 10
    ensures IsDigit(c)
  {
    ['0', '1', '2', '3', '4', '5', '6', '7', '8', '9'][d]
  }

  function DigitValue(c: char): (d: nat)
    requires IsDigit(c)
    ensures d < 10 && DigitChar(d) == c
  {
    if c == '0' then 0 else if c == '1' then 1 else if c == '2' then 2
    else if c == '3' then 3 else if c == '4' then 4 else if c == '5' then 5
    else if c == '6' then 6 else if c == '7' then 7 else if c == '8' then 8
    else 9
  }

  /** `${n}` for a non-negative integer: its decimal digits, no sign, no
      leading zeros. */
  function Decimal(n: nat): (s: string)
    ensures |s| > 0 && AllDigits(s)
  {
    if n < 10 then [DigitChar(n)] else Decimal(n / 10) + [DigitChar(n % 10)]
  }

  /** Reads a string of decimal digits back as a number. */
  function ParseDecimal(s: string): nat
    requires AllDigits(s)
  {
    if s == [] then 0
    else ParseDecimal(s[..|s| - 1]) * 10 + DigitValue(s[|s| - 1])
  }

  lemma {:induction false} DecimalRoundTrip(n: nat)
    ensures ParseDecimal(Decimal(n)) == n
  {
    var s := Decimal(n);
    if n < 10 {
      assert s[..|s| - 1] == [];
    } else {
      assert s[..|s| - 1] == Decimal(n / 10);
      DecimalRoundTrip(n / 10);
    }
  }

  /** Distinct numbers render as distinct strings. */
  lemma DecimalInjective(m: nat, n: nat)
    requires Decimal(m) == Decimal(n)
    ensures m == n
  {
    DecimalRoundTrip(m);
    DecimalRoundTrip(n);
  }

  /** A string made of two digit strings joined by a separator that is
      not a digit splits back into the same two parts. */
  lemma JoinedUnique(a: string, b: string, c: string, d: string, sep: char)
    requires AllDigits(a) && AllDigits(b) && AllDigits(c) && AllDigits(d)
    requires !IsDigit(sep)
    requires a + [sep] + b == c + [sep] + d
    ensures a == c && b == d
  {
    var x := a + [sep] + b;
    assert forall i :: 0 <= i < |a| ==> IsDigit(x[i]);
    assert forall i :: 0 <= i < |c| ==> IsDigit(x[i]);
    assert !IsDigit(x[|a|]) && !IsDigit(x[|c|]);
    assert |a| == |c|;
    assert a == x[..|a|] == c;
    assert b == x[|a| + 1..] == d;
  }
}
