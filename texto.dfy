/**
 * The pieces of the Kotlin and Java standard libraries that the account form
 * relies on: optional values, `String.isBlank`, `Int.toString` and
 * `String.toIntOrNull`.
 */
module Texto {

  datatype Option<+T> = None | Some(value: T)

  /** Bounds of a 32-bit `Int`. */
  const INT_MIN: int := -0x8000_0000
  const INT_MAX: int := 0x7fff_ffff

  /**
   * Kotlin's `Char.isWhitespace()` on the JVM: `Character.isWhitespace` (tab,
   * line feed, vertical tab, form feed, carriage return, the four separators
   * U+001C..U+001F and the Unicode space separators except the no-break ones)
   * or `Character.isSpaceChar` (every space separator, the line and the
   * paragraph separator).
   */
  predicate IsWhitespace(c: char) {
    || c == ' '
    || '\t' <= c <= '\r'
    || '\U{1C}' <= c <= '\U{1F}'
    || c == '\U{A0}'
    || c == '\U{1680}'
    || '\U{2000}' <= c <= '\U{200A}'
    || c == '\U{2028}'
    || c == '\U{2029}'
    || c == '\U{202F}'
    || c == '\U{205F}'
    || c == '\U{3000}'
  }

  /** Kotlin's `CharSequence.isBlank()`: empty, or white space only. */
  predicate IsBlank(s: string) {
    forall i | 0 <= i < |s| :: IsWhitespace(s[i])
  }

  predicate IsDigit(c: char) {
    '0' <= c <= '9'
  }

  predicate AllDigits(s: string) {
    forall i | 0 <= i < |s| :: IsDigit(s[i])
  }

  function DigitChar(d: nat): (c: char)
    requires d < 10
    ensures IsDigit(c)
  {
    (('0' as int) + d) as char
  }

  function DigitValue(c: char): (d: nat)
    requires IsDigit(c)
    ensures d < 10 && DigitChar(d) == c
  {
    (c as int) - ('0' as int)
  }

  function Pow10(k: nat): (p: nat)
    ensures p >= 1
  {
    if k == 0 then 1 else 10 * Pow10(k - 1)
  }

  /** The decimal digits of `n`, most significant first, without leading zeros. */
  function DigitsOf(n: nat): (s: string)
    ensures |s| >= 1 && AllDigits(s)
    decreases n
  {
    if n < 10 then [DigitChar(n)] else DigitsOf(n / 10) + [DigitChar(n % 10)]
  }

  /** The number written by a string of decimal digits. */
  function ValueOfDigits(s: string): nat
    requires AllDigits(s)
  {
    if s == [] then 0 else ValueOfDigits(s[..|s| - 1]) * 10 + DigitValue(s[|s| - 1])
  }

  /**
   * `Int.toString()` / `Integer.toString`: a minus sign exactly for a negative
   * number, then the decimal digits of its magnitude.
   */
  function IntToString(n: int): (s: string)
    ensures |s| >= 1 && (s[0] == '-' <==> n < 0)
    ensures n >= 0 ==> AllDigits(s) && ValueOfDigits(s) == n
    ensures n < 0 ==> |s| >= 2 && AllDigits(s[1..]) && ValueOfDigits(s[1..]) == -n
  {
    if n < 0 then
      ValueOfDigitsOf(-n);
      assert ("-" + DigitsOf(-n))[1..] == DigitsOf(-n);
      "-" + DigitsOf(-n)
    else
      ValueOfDigitsOf(n);
      DigitsOf(n)
  }

  /** `StringBuilder.deleteCharAt(i)` on the text `s`. */
  function DeleteCharAt(s: string, i: nat): (r: string)
    requires i < |s|
    ensures |r| == |s| - 1
    ensures forall k | 0 <= k < i :: r[k] == s[k]
    ensures forall k | i <= k < |r| :: r[k] == s[k + 1]
  {
    s[..i] + s[i + 1..]
  }

  /**
   * Kotlin's `String.toIntOrNull()` (radix 10): an optional leading '+' or '-',
   * then at least one decimal digit, and a value that fits a 32-bit `Int`;
   * `null` for anything else.
   */
  function ToIntOrNull(s: string): (r: Option<int>)
    ensures r.Some? ==> INT_MIN <= r.value <= INT_MAX
    ensures r.Some? ==> (|s| > 0 && IsDigit(s[0])) || (|s| > 1 && (s[0] == '+' || s[0] == '-'))
    ensures |s| > 0 && IsDigit(s[0]) ==>
      r == if AllDigits(s) && ValueOfDigits(s) <= INT_MAX then Some(ValueOfDigits(s) as int) else None
    ensures |s| > 1 && s[0] == '+' ==>
      r == if AllDigits(s[1..]) && ValueOfDigits(s[1..]) <= INT_MAX then Some(ValueOfDigits(s[1..]) as int) else None
    ensures |s| > 1 && s[0] == '-' ==>
      r == if AllDigits(s[1..]) && ValueOfDigits(s[1..]) <= -INT_MIN then Some(-(ValueOfDigits(s[1..]) as int)) else None
  {
    if |s| == 0 then None
    else if s[0] < '0' then
      if |s| == 1 then None
      else if s[0] == '-' then FromMagnitude(true, s[1..])
      else if s[0] == '+' then FromMagnitude(false, s[1..])
      else None
    else FromMagnitude(false, s)
  }

  /** The signed value of a string of digits, when it is all digits and fits an `Int`. */
  function FromMagnitude(negative: bool, digits: string): (r: Option<int>)
    ensures r.Some? <==> AllDigits(digits) && (if negative then INT_MIN <= -(ValueOfDigits(digits) as int) else ValueOfDigits(digits) <= INT_MAX)
    ensures r.Some? ==> r.value == if negative then -(ValueOfDigits(digits) as int) else ValueOfDigits(digits)
  {
    if !AllDigits(digits) then None
    else
      var v: int := if negative then -(ValueOfDigits(digits) as int) else ValueOfDigits(digits);
      if INT_MIN <= v <= INT_MAX then Some(v) else None
  }

  /** Reading back the digits of `n` gives `n`. */
  lemma {:induction false} ValueOfDigitsOf(n: nat)
    ensures ValueOfDigits(DigitsOf(n)) == n
    decreases n
  {
    var s := DigitsOf(n);
    if n >= 10 {
      ValueOfDigitsOf(n / 10);
      assert s[..|s| - 1] == DigitsOf(n / 10);
    }
  }

  /** A number of at least 10^k has more than k digits. */
  lemma {:induction false} DigitsOfLength(n: nat, k: nat)
    requires Pow10(k) <= n
    ensures k < |DigitsOf(n)|
    decreases n
  {
    if k > 0 {
      assert Pow10(k - 1) <= n / 10;
      DigitsOfLength(n / 10, k - 1);
    }
  }

  /** A number below 10^k has at most k digits. */
  lemma {:induction false} DigitsOfShort(n: nat, k: nat)
    requires 1 <= k && n < Pow10(k)
    ensures |DigitsOf(n)| <= k
    decreases n
  {
    if n >= 10 {
      assert 2 <= k;
      assert n / 10 < Pow10(k - 1);
      DigitsOfShort(n / 10, k - 1);
    }
  }

  /** The value of a digit string is its first digit's weight plus the value of the rest. */
  lemma {:induction false} ValueOfDigitsCons(s: string)
    requires |s| >= 1 && AllDigits(s)
    ensures ValueOfDigits(s) == DigitValue(s[0]) * Pow10(|s| - 1) + ValueOfDigits(s[1..])
    decreases |s|
  {
    if |s| > 1 {
      var init := s[..|s| - 1];
      ValueOfDigitsCons(init);
      assert s[1..][..|s[1..]| - 1] == init[1..];
      var a, p, x := DigitValue(s[0]), Pow10(|s| - 2), ValueOfDigits(init[1..]);
      assert Pow10(|s| - 1) == 10 * p;
      assert ValueOfDigits(s[1..]) == x * 10 + DigitValue(s[|s| - 1]);
      assert ValueOfDigits(s) == (a * p + x) * 10 + DigitValue(s[|s| - 1]);
      ShiftDigit(a, p, x);
    } else {
      assert s[..0] == [];
    }
  }

  /** Appending a digit multiplies by ten what was before it. */
  lemma ShiftDigit(a: int, p: int, x: int)
    ensures (a * p + x) * 10 == a * (10 * p) + x * 10
  {
  }

  /** A string of k digits writes a number below 10^k. */
  lemma {:induction false} ValueOfDigitsBound(s: string)
    requires AllDigits(s)
    ensures ValueOfDigits(s) < Pow10(|s|)
    decreases |s|
  {
    if s != [] {
      ValueOfDigitsBound(s[..|s| - 1]);
    }
  }

  /** `toIntOrNull` is the inverse of `toString` on every 32-bit `Int`. */
  lemma ToIntOrNullOfIntToString(n: int)
    requires INT_MIN <= n <= INT_MAX
    ensures ToIntOrNull(IntToString(n)) == Some(n)
  {
  }

  /** Text that holds a digit is never blank. */
  lemma DigitIsNotBlank(s: string, i: nat)
    requires i < |s| && IsDigit(s[i])
    ensures !IsBlank(s)
  {
  }
}
