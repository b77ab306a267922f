/**
 * Decimal text of Kotlin `Int` values: what a string template `"${n}"` produces,
 * and `String.toInt()`, which reads a route argument back.
 */
module Decimal {
  import opened Primitives

  predicate IsDigit(ch: char) {
    '0' <= ch <= '9'
  }

  predicate AllDigits(s: string) {
    forall i :: 0 <= i < |s| ==> IsDigit(s[i])
  }

  function DigitChar(d: nat): (ch: char)
    requires d < 10
    ensures IsDigit(ch)
  {
    ('0' as int + d) as char
  }

  function DigitValue(ch: char): (d: nat)
    requires IsDigit(ch)
    ensures d < 10
  {
    ch as int - '0' as int
  }

  /** The shortest decimal spelling of `n`: no sign and no leading zeros. */
  function NatToString(n: nat): (s: string)
    ensures 1 <= |s| && AllDigits(s)
    ensures |s| > 1 ==> s[0] != '0'
  {
    if n < 10 then [DigitChar(n)] else NatToString(n / 10) + [DigitChar(n % 10)]
  }

  /** The number a string of decimal digits denotes, most significant digit first (`0` for the empty string). */
  function DigitsValue(s: string): nat
    requires AllDigits(s)
  {
    if s == [] then 0 else DigitsValue(s[..|s| - 1]) * 10 + DigitValue(s[|s| - 1])
  }

  /** The text Kotlin renders for an `Int` in a string template: a minus sign for negative values. */
  function IntToString(i: int): string {
    if i < 0 then "-" + NatToString(-i) else NatToString(i)
  }

  /**
   * `String.toInt()`: an optional leading `+` or `-` followed by at least one decimal
   * digit, whose value must fit in an `Int`; anything else fails (`None`, where Kotlin
   * throws `NumberFormatException`).
   */
  function ParseInt(s: string): Option<Int32> {
    var signed := |s| > 0 && (s[0] == '-' || s[0] == '+');
    var digits := if signed then s[1..] else s;
    if digits == [] || !AllDigits(digits) then None
    else
      var v: int := if signed && s[0] == '-' then 0 - DigitsValue(digits) as int else DigitsValue(digits);
      if INT_MIN <= v <= INT_MAX then Some(v as Int32) else None
  }

  lemma {:induction false} DigitsValueOfNatToString(n: nat)
    ensures DigitsValue(NatToString(n)) == n
  {
    var s := NatToString(n);
    if n >= 10 {
      var prefix := NatToString(n / 10);
      assert s[..|s| - 1] == prefix;
      DigitsValueOfNatToString(n / 10);
    }
  }

  /**
   * An `Int` renders as a non-empty digit string without leading zeros, preceded by
   * "-" exactly when it is negative.
   */
  lemma IntToStringShape(i: int)
    ensures var s := IntToString(i);
      && |s| >= 1 && (s[0] == '-' <==> i < 0)
      && var digits := if i < 0 then s[1..] else s;
         |digits| >= 1 && AllDigits(digits) && (|digits| > 1 ==> digits[0] != '0')
  {
    if i < 0 {
      assert IntToString(i)[1..] == NatToString(-i);
    }
  }

  /**
   * Only a sign or digit followed by digits is read as a number, so text such as
   * `"null"` never is; a negative result was written with a leading "-".
   */
  lemma ParseIntAcceptsOnlyDigits(s: string)
    ensures ParseInt(s).Some? ==> |s| >= 1 && (IsDigit(s[0]) || s[0] == '-' || s[0] == '+')
    ensures ParseInt(s).Some? ==> forall k :: 1 <= k < |s| ==> IsDigit(s[k])
    ensures ParseInt(s).Some? && ParseInt(s).value < 0 ==> s[0] == '-'
  {
  }

  /** Rendering an `Int` and reading it back with `String.toInt()` gives the same `Int`. */
  lemma ParseIntOfIntToString(i: Int32)
    ensures ParseInt(IntToString(i as int)) == Some(i)
  {
    var s := IntToString(i as int);
    var n: nat := if i < 0 then -(i as int) else i as int;
    var digits := NatToString(n);
    DigitsValueOfNatToString(n);
    if i < 0 {
      assert s == "-" + digits && s[1..] == digits;
    } else {
      assert s == digits && IsDigit(s[0]);
    }
  }

  /** Different `Int`s never render to the same text. */
  lemma IntToStringInjective(i: Int32, j: Int32)
    requires IntToString(i as int) == IntToString(j as int)
    ensures i == j
  {
    ParseIntOfIntToString(i);
    ParseIntOfIntToString(j);
  }
}
