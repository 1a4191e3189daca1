/**
 * The pieces of Kotlin's string and integer library that the client relies
 * on: `Int` as a 32-bit integer, `Int.toString()` (used by every string
 * template that shows a port), `String.toIntOrNull()` (the port text field)
 * and `String.isBlank()` (the send guards).
 */
module Text {
  import opened Wrappers

  /** Kotlin's `Int`. */
  newtype int32 = x: int | -0x8000_0000 <= x < 0x8000_0000

  predicate InInt32Range(x: int)
  {
    -0x8000_0000 <= x < 0x8000_0000
  }

  // ---------------------------------------------------------------------
  // Whitespace and blankness

  /**
   * Kotlin's `Char.isWhitespace()` on the JVM: Java's `Character.isWhitespace`
   * (tab, line feed, vertical tab, form feed, carriage return, the four
   * information separators U+001C..U+001F and the space, line and paragraph
   * separators other than the no-break ones) together with
   * `Character.isSpaceChar` (every space, line and paragraph separator,
   * no-break ones included).
   */
  predicate IsWhitespace(c: char)
  {
    || ('\t' <= c <= '\r')
    || ('\U{001C}' <= c <= ' ')
    || c == '\U{00A0}'
    || c == '\U{1680}'
    || ('\U{2000}' <= c <= '\U{200A}')
    || c == '\U{2028}'
    || c == '\U{2029}'
    || c == '\U{202F}'
    || c == '\U{205F}'
    || c == '\U{3000}'
  }

  /** `String.isBlank()`: empty, or whitespace only. */
  predicate IsBlank(s: string)
  {
    forall i :: 0 <= i < |s| ==> IsWhitespace(s[i])
  }

  /** A string that starts with a printable ASCII letter is never blank. */
  lemma NotBlankWhenFirstIsLetter(s: string)
    requires |s| > 0 && 'A' <= s[0] <= 'Z'
    ensures !IsBlank(s)
  {
    assert !IsWhitespace(s[0]);
  }

  // ---------------------------------------------------------------------
  // Decimal digits

  predicate IsDigit(c: char)
  {
    '0' <= c <= '9'
  }

  predicate AllDigits(s: string)
  {
    forall i :: 0 <= i < |s| ==> IsDigit(s[i])
  }

  function DigitChar(d: nat): (c: char)
    requires d < 10
    ensures IsDigit(c) && DigitValue(c) == d
  {
    ('0' as int + d) as char
  }

  function DigitValue(c: char): nat
    requires IsDigit(c)
  {
    c as int - '0' as int
  }

  /** The decimal digits of `n`, most significant first, without leading zeros. */
  function DigitsOf(n: nat): (s: string)
    ensures |s| > 0 && AllDigits(s)
  {
    if n < 10 then [DigitChar(n)] else DigitsOf(n / 10) + [DigitChar(n % 10)]
  }

  /** The number a string of decimal digits denotes (leading zeros allowed). */
  function DigitsValue(s: string): nat
    requires AllDigits(s)
  {
    if s == [] then 0 else DigitsValue(s[..|s| - 1]) * 10 + DigitValue(s[|s| - 1])
  }

  lemma {:induction false} DigitsValueOfDigitsOf(n: nat)
    ensures DigitsValue(DigitsOf(n)) == n
  {
    if n >= 10 {
      var s := DigitsOf(n);
      assert s[..|s| - 1] == DigitsOf(n / 10);
      DigitsValueOfDigitsOf(n / 10);
    }
  }

  /** `Int.toString()`: a minus sign for negative values, then the digits. */
  function Decimal(n: int): (s: string)
    ensures |s| > 0
  {
    if n < 0 then "-" + DigitsOf(-n) else DigitsOf(n)
  }

  // ---------------------------------------------------------------------
  // Parsing

  /**
   * `String.toIntOrNull()` in radix 10: an optional leading '-' or '+',
   * then at least one decimal digit and nothing else, denoting a value
   * that fits in an `Int`; anything else is null.
   */
  function ParseInt(s: string): (r: Option<int32>)
    ensures r.Some? ==> |s| > 0
  {
    if |s| == 0 then None
    else
      var signed := s[0] == '-' || s[0] == '+';
      var digits := if signed then s[1..] else s;
      if digits == [] || !AllDigits(digits) then None
      else
        var n: int := DigitsValue(digits);
        var v := if s[0] == '-' then -n else n;
        if InInt32Range(v) then Some(v as int32) else None
  }

  /** Printing an `Int` and parsing it back gives the same `Int`. */
  lemma ParseDecimal(n: int32)
    ensures ParseInt(Decimal(n as int)) == Some(n)
  {
    var m := n as int;
    if m < 0 {
      var s := Decimal(m);
      assert s[1..] == DigitsOf(-m);
      DigitsValueOfDigitsOf(-m);
    } else {
      DigitsValueOfDigitsOf(m);
    }
  }

  /** An optional leading '-' or '+', then at least one decimal digit and nothing else. */
  predicate IntegerText(s: string)
  {
    |s| > 0 &&
    var digits := if s[0] == '-' || s[0] == '+' then s[1..] else s;
    digits != [] && AllDigits(digits)
  }

  /** The integer an `IntegerText` denotes: its digits' value, negated after a '-'. */
  function SignedValue(s: string): int
    requires IntegerText(s)
  {
    var n: int := DigitsValue(if s[0] == '-' || s[0] == '+' then s[1..] else s);
    if s[0] == '-' then -n else n
  }

  /** Integer text parses exactly when its value fits in an `Int`, and then to that value. */
  lemma ParseComplete(s: string)
    requires IntegerText(s)
    ensures ParseInt(s).Some? <==> InInt32Range(SignedValue(s))
    ensures ParseInt(s).Some? ==> ParseInt(s).value as int == SignedValue(s)
  {
  }

  /** Any other text does not parse. */
  lemma ParseRejects(s: string)
    requires !IntegerText(s)
    ensures ParseInt(s) == None
  {
  }
}
