/** Java's `Long.toString`: the decimal text of an identifier, as string concatenation produces it. */
module Decimal {
  import opened Domain

  predicate IsDigit(c: char) {
    '0' <= c <= '9'
  }

  predicate IsDigits(s: string) {
    forall i :: 0 <= i < |s| ==> IsDigit(s[i])
  }

  function DigitChar(d: nat): (c: char)
    requires d < 10
    ensures IsDigit(c) && c as int - '0' as int == d
  {
    ('0' as int + d) as char
  }

  /** The shortest decimal numeral of `n`: no leading zero except for zero itself. */
  function Digits(n: nat): (s: string)
    ensures |s| >= 1 && IsDigits(s)
    ensures s[0] == '0' <==> n == 0
    ensures s[0] == '0' ==> |s| == 1
    decreases n
  {
    if n < 10 then [DigitChar(n)] else Digits(n / 10) + [DigitChar(n % 10)]
  }

  /** The number a string of digits denotes. */
  function ValueOf(s: string): nat
    requires IsDigits(s)
    decreases |s|
  {
    if s == [] then 0 else 10 * ValueOf(s[..|s| - 1]) + (s[|s| - 1] as int - '0' as int)
  }

  lemma {:induction false} ValueOfDigits(n: nat)
    ensures ValueOf(Digits(n)) == n
    decreases n
  {
    if n >= 10 {
      ValueOfDigits(n / 10);
      var s := Digits(n);
      assert s[..|s| - 1] == Digits(n / 10);
    }
  }

  /** A numeral as `Long.toString` writes it: an optional minus sign, then digits. */
  predicate IsNumeral(s: string) {
    if |s| > 0 && s[0] == '-' then |s| > 1 && IsDigits(s[1..]) else |s| > 0 && IsDigits(s)
  }

  /** The integer a numeral denotes. */
  function NumeralValue(s: string): int
    requires IsNumeral(s)
  {
    if s[0] == '-' then -(ValueOf(s[1..]) as int) else ValueOf(s)
  }

  /** `Long.toString(x)`. */
  function ToDecimal(x: Long): (s: string)
    ensures IsNumeral(s)
    ensures s[0] == '-' <==> x < 0
    ensures NumeralValue(s) == x as int
    ensures var d := if x < 0 then s[1..] else s; d[0] == '0' ==> |d| == 1
  {
    if x < 0 then
      var d := Digits(-(x as int));
      ValueOfDigits(-(x as int));
      assert ("-" + d)[1..] == d;
      "-" + d
    else
      ValueOfDigits(x as int);
      Digits(x as int)
  }

  /** Distinct identifiers render differently. */
  lemma ToDecimalInjective(x: Long, y: Long)
    ensures ToDecimal(x) == ToDecimal(y) <==> x == y
  {
  }
}
