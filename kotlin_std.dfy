/** The pieces of the Kotlin standard library that the catalogue relies on:
    nullable values, 32-bit `Int` arithmetic, `String.length`, `String.toIntOrNull`
    and `Int.toString`. */
module KotlinStd {

  /** A Kotlin nullable value `T?`: `None` stands for `null`. */
  datatype Option<+T> = None | Some(value: T) {
    /** The elvis operator `this ?: default`. */
    function OrElse(default: T): (r: T)
      ensures Some? ==> r == value
      ensures None? ==> r == default
    {
      match this
      case Some(v) => v
      case None => default
    }
  }

  const INT_MIN: int := -0x8000_0000
  const INT_MAX: int := 0x7fff_ffff

  /** Kotlin's `Int`. */
  type Int32 = x: int | -0x8000_0000 <= x <= 0x7fff_ffff

  /** Kotlin evaluates `Int` addition modulo 2^32 (two's complement wrap-around). */
  function Wrap32(x: int): (r: Int32)
    ensures INT_MIN <= x <= INT_MAX ==> r == x
    ensures (r - x) % 0x1_0000_0000 == 0
  {
    (x - INT_MIN) % 0x1_0000_0000 + INT_MIN
  }

  /** `String.length` on the JVM counts UTF-16 code units, so a character outside
      the Basic Multilingual Plane (a surrogate pair) counts twice. */
  function Utf16Length(s: string): (n: nat)
    ensures |s| <= n <= 2 * |s|
    ensures n == 0 <==> s == []
  {
    if s == [] then 0 else (if s[0] as int > 0xFFFF then 2 else 1) + Utf16Length(s[1..])
  }

  predicate InBmp(s: string) {
    forall i :: 0 <= i < |s| ==> s[i] as int <= 0xFFFF
  }

  /** For text made only of Basic Multilingual Plane characters the JVM length is
      the number of characters. */
  lemma {:induction false} Utf16LengthInBmp(s: string)
    requires InBmp(s)
    ensures Utf16Length(s) == |s|
  {
    if s != [] {
      assert InBmp(s[1..]) by {
        forall i | 0 <= i < |s[1..]| ensures s[1..][i] as int <= 0xFFFF {
          assert s[1..][i] == s[i + 1];
        }
      }
      Utf16LengthInBmp(s[1..]);
    }
  }

  predicate IsDigit(c: char) {
    '0' <= c <= '9'
  }

  predicate AllDigits(s: string) {
    forall i :: 0 <= i < |s| ==> IsDigit(s[i])
  }

  function DigitValue(c: char): (d: nat)
    requires IsDigit(c)
    ensures d <= 9
  {
    (c as int) - ('0' as int)
  }

  function DigitChar(d: nat): (c: char)
    requires d <= 9
    ensures IsDigit(c) && DigitValue(c) == d
  {
    ('0' as int + d) as char
  }

  /** The number a string of decimal digits denotes, most significant digit first. */
  function DigitsValue(s: string): nat
    requires AllDigits(s)
  {
    if s == [] then 0 else DigitsValue(s[..|s| - 1]) * 10 + DigitValue(s[|s| - 1])
  }

  /** Decimal digits of `n` without leading zeros, as `Int.toString` writes them. */
  function NatToDigits(n: nat): (s: string)
    ensures |s| > 0 && AllDigits(s)
    ensures DigitsValue(s) == n
    ensures |s| > 1 ==> s[0] != '0'
  {
    if n < 10 then [DigitChar(n)]
    else
      var t := NatToDigits(n / 10);
      var s := t + [DigitChar(n % 10)];
      assert s[..|s| - 1] == t;
      s
  }

  /** `Int.toString()`: an optional minus sign followed by the digits. */
  function IntToString(n: Int32): (s: string)
    ensures |s| > 0
    ensures n < 0 <==> s[0] == '-'
  {
    if n < 0 then "-" + NatToDigits(-(n as int)) else NatToDigits(n)
  }

  /** Text that `toIntOrNull` reads as a number: an optional `+` or `-` followed by
      at least one ASCII digit and nothing else. */
  predicate IsSignedDecimal(s: string) {
    |s| > 0 &&
    (AllDigits(s) || (|s| > 1 && (s[0] == '-' || s[0] == '+') && AllDigits(s[1..])))
  }

  /** The integer a signed decimal denotes. */
  function DecimalValue(s: string): int
    requires IsSignedDecimal(s)
  {
    if AllDigits(s) then DigitsValue(s)
    else if s[0] == '-' then -(DigitsValue(s[1..]) as int)
    else DigitsValue(s[1..])
  }

  /** The digit part of `String.toIntOrNull` once the sign has been read: every
      remaining character must be an ASCII digit and the signed value must fit in
      an `Int`, otherwise the result is `null`. */
  function SignedValue(digits: string, negative: bool): (r: Option<Int32>)
    ensures r.Some? <==>
      AllDigits(digits) &&
      INT_MIN <= (if negative then -(DigitsValue(digits) as int) else DigitsValue(digits)) <= INT_MAX
    ensures r.Some? ==> r.value == (if negative then -(DigitsValue(digits) as int) else DigitsValue(digits))
    ensures r.Some? && r.value < 0 ==> negative
  {
    if !AllDigits(digits) then None
    else
      var v: int := if negative then -(DigitsValue(digits) as int) else DigitsValue(digits);
      if INT_MIN <= v <= INT_MAX then Some(v) else None
  }

  /** `String.toIntOrNull()` in radix 10: an optional leading `+` or `-`, then at
      least one digit; any other text, and any value outside the `Int` range, gives
      `null`. The body follows the library's order of tests (a first character
      below `'0'` is a possible sign); the contract states the grammar. */
  function ToIntOrNull(s: string): (r: Option<Int32>)
    ensures r.Some? <==> IsSignedDecimal(s) && INT_MIN <= DecimalValue(s) <= INT_MAX
    ensures r.Some? ==> r.value == DecimalValue(s)
    ensures r.Some? && r.value < 0 ==> s[0] == '-'
  {
    if |s| == 0 then None
    else if s[0] < '0' then
      if |s| == 1 then None
      else if s[0] == '-' then SignedValue(s[1..], true)
      else if s[0] == '+' then SignedValue(s[1..], false)
      else None
    else
      SignedValue(s, false)
  }

  /** Reading back what `Int.toString()` wrote gives the same `Int`. */
  lemma IntToStringRoundTrip(n: Int32)
    ensures ToIntOrNull(IntToString(n)) == Some(n)
  {
    var s := IntToString(n);
    if n < 0 {
      var d := NatToDigits(-(n as int));
      assert s[1..] == d;
      assert SignedValue(d, true) == Some(n);
    } else {
      assert SignedValue(s, false) == Some(n);
    }
  }
}
