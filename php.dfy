/** The conventional optional value. */
module Wrappers {
  datatype Option<+T> = None | Some(value: T)
}

/**
 * The fragments of PHP's runtime semantics that the plugin relies on: the
 * truthiness of strings and `empty`, loose comparison (`==`, `switch`) between
 * strings that look like numbers, the conversion of an integer to a string,
 * and the literal-pattern substring test done with `preg_match`.
 *
 * Numeric strings are restricted to plain digit strings such as "0", "007" or
 * "300"; PHP also accepts signs, fractions, exponents and surrounding blanks.
 */
module Php {

  predicate IsDigit(c: char) {
    '0' <= c <= '9'
  }

  /** A decimal numeral: one or more ASCII digits, leading zeros allowed. */
  predicate IsDecimal(s: string) {
    |s| > 0 && forall i :: 0 <= i < |s| ==> IsDigit(s[i])
  }

  function DigitValue(c: char): (d: nat)
    requires IsDigit(c)
    ensures d < 10
  {
    (c as int - '0' as int) as nat
  }

  function DigitChar(d: nat): (c: char)
    requires d < 10
    ensures IsDigit(c) && DigitValue(c) == d
  {
    ('0' as int + d) as char
  }

  /** The number a decimal numeral denotes. */
  function DecimalValue(s: string): nat
    requires IsDecimal(s)
    decreases |s|
  {
    if |s| == 1 then DigitValue(s[0])
    else 10 * DecimalValue(s[..|s| - 1]) + DigitValue(s[|s| - 1])
  }

  /** The decimal numeral PHP prints for a natural number; it reads back as the number. */
  function NatToString(n: nat): (r: string)
    ensures IsDecimal(r) && DecimalValue(r) == n
    decreases n
  {
    if n < 10 then [DigitChar(n)]
    else
      var prefix := NatToString(n / 10);
      var r := prefix + [DigitChar(n % 10)];
      assert r[..|r| - 1] == prefix;
      r
  }

  /** PHP's string conversion of an integer. */
  function IntToString(i: int): string {
    if i < 0 then "-" + NatToString(-i) else NatToString(i)
  }

  /** PHP's `empty` on a string: the empty string and "0" are empty. */
  predicate Empty(s: string) {
    s == "" || s == "0"
  }

  /** PHP's `==` between two strings: numerically when both are numeric, else character by character. */
  predicate LooseStringEquals(a: string, b: string) {
    if IsDecimal(a) && IsDecimal(b) then DecimalValue(a) == DecimalValue(b) else a == b
  }

  predicate StartsWith(s: string, prefix: string) {
    |prefix| <= |s| && s[..|prefix|] == prefix
  }

  predicate EndsWith(s: string, suffix: string) {
    |suffix| <= |s| && s[|s| - |suffix|..] == suffix
  }

  /** `preg_match` with a pattern made only of literal characters: does `needle` occur in `s`? */
  predicate Contains(s: string, needle: string)
    decreases |s|
  {
    StartsWith(s, needle) || (|s| > 0 && Contains(s[1..], needle))
  }

  /** An occurrence of `needle` at any position is found by `Contains`. */
  lemma {:induction false} ContainsAt(s: string, needle: string, i: nat)
    requires i + |needle| <= |s| && s[i..i + |needle|] == needle
    ensures Contains(s, needle)
    decreases i
  {
    if i == 0 {
      assert StartsWith(s, needle);
    } else {
      assert s[1..][i - 1..i - 1 + |needle|] == s[i..i + |needle|];
      ContainsAt(s[1..], needle, i - 1);
    }
  }
}
