/**
 * Decimal renderings of integers, as JavaScript produces them with `toString()` and
 * template literals for safe integers, and the parse that `BigInt(string)` applies to
 * a string of digits.
 */
module Decimal {
  import opened Base

  predicate IsDigit(c: char) { '0' <= c <= '9' }

  predicate AllDigits(s: string) { forall i :: 0 <= i < |s| ==> IsDigit(s[i]) }

  function DigitChar(d: nat): (c: char)
    requires d < 10
    ensures IsDigit(c) && c as int - '0' as int == d
  {
    ('0' as int + d) as char
  }

  /** `n.toString()` for a non-negative integer: at least one digit, no leading zero. */
  function NatToString(n: nat): (s: string)
    ensures |s| >= 1 && AllDigits(s)
    ensures s[0] == '0' <==> n == 0
    ensures n == 0 ==> s == "0"
    decreases n
  {
    if n < 10 then [DigitChar(n)] else NatToString(n / 10) + [DigitChar(n % 10)]
  }

  /** `String(i)` for an integer. */
  function IntToString(i: int): string
  {
    if i < 0 then "-" + NatToString(-i) else NatToString(i)
  }

  /** The value of a string of decimal digits, most significant first. */
  function DigitsValue(s: string): nat
    requires AllDigits(s)
  {
    if s == [] then 0 else 10 * DigitsValue(s[..|s| - 1]) + (s[|s| - 1] as int - '0' as int)
  }

  /** A digit string as `toString()` writes it: at least one digit, no leading zero but in `"0"`. */
  predicate Canonical(d: string)
  {
    |d| >= 1 && AllDigits(d) && (d[0] == '0' ==> |d| == 1)
  }

  /**
   * Reads back exactly what `IntToString` writes: a canonical digit string, or a minus
   * sign before a canonical digit string other than `"0"`.
   */
  function ParseInt(s: string): Option<int>
  {
    if |s| > 1 && s[0] == '-' && Canonical(s[1..]) && s[1..] != "0" then Some(-(DigitsValue(s[1..]) as int))
    else if Canonical(s) then Some(DigitsValue(s))
    else None
  }

  /**
   * `BigInt(s)` on a string: a string of decimal digits gives its value (the empty
   * string gives 0, as in JavaScript); anything else throws, here `None`.
   */
  function BigIntOf(s: string): (r: Option<nat>)
    ensures r.Some? <==> AllDigits(s)
  {
    if AllDigits(s) then Some(DigitsValue(s)) else None
  }

  lemma {:induction false} NatToStringRoundTrip(n: nat)
    ensures DigitsValue(NatToString(n)) == n
  {
    if n >= 10 {
      NatToStringRoundTrip(n / 10);
      var s := NatToString(n);
      assert s[..|s| - 1] == NatToString(n / 10);
    }
  }

  /** A canonical digit string is the rendering of its value. */
  lemma {:induction false} CanonicalRoundTrip(d: string)
    requires Canonical(d)
    ensures NatToString(DigitsValue(d)) == d
    decreases |d|
  {
    if |d| > 1 {
      var p := d[..|d| - 1];
      assert p[0] == d[0];
      CanonicalRoundTrip(p);
      var v := DigitsValue(d);
      assert DigitsValue(p) != 0;
      assert v / 10 == DigitsValue(p) && v % 10 == d[|d| - 1] as int - '0' as int;
      assert d == p + [d[|d| - 1]];
    }
  }

  /** `ParseInt` accepts one spelling per integer: the one `IntToString` writes. */
  lemma ParseIntCanonical(t: string, k: int)
    requires ParseInt(t) == Some(k)
    ensures t == IntToString(k)
  {
    if |t| > 1 && t[0] == '-' && Canonical(t[1..]) && t[1..] != "0" {
      CanonicalRoundTrip(t[1..]);
      assert t == "-" + t[1..];
    } else {
      CanonicalRoundTrip(t);
    }
  }

  lemma IntToStringRoundTrip(i: int)
    ensures ParseInt(IntToString(i)) == Some(i)
  {
    if i < 0 {
      var t := NatToString(-i);
      NatToStringRoundTrip(-i);
      assert ("-" + t)[1..] == t;
    } else {
      NatToStringRoundTrip(i);
    }
  }

  /** A number rendered with `toString()` and read back with `BigInt` is the number itself. */
  lemma BigIntOfNatToString(n: nat)
    ensures BigIntOf(NatToString(n)) == Some(n)
  {
    NatToStringRoundTrip(n);
  }
}
