/**
 * Decimal rendering of integers, as used by the logsheet serialiser:
 * zero-padded fixed-width fields (chrono's `%Y`, `%m`, `%d`, `%H`, `%M`)
 * and Rust's `Display` for a signed integer (the `score` field).
 * Each renderer is paired with a parser that undoes it.
 */
module Decimal {
  import opened Options

  predicate IsDigit(c: char) {
    '0' <= c <= '9'
  }

  predicate AllDigits(s: string) {
    forall i :: 0 <= i < |s| ==> IsDigit(s[i])
  }

  function DigitValue(c: char): (d: nat)
    requires IsDigit(c)
    ensures d < 10
  {
    c as int - '0' as int
  }

  function DigitChar(d: nat): (c: char)
    requires d < 10
    ensures IsDigit(c) && DigitValue(c) == d
  {
    (d + '0' as int) as char
  }

  /** The number a string of decimal digits denotes, most significant digit first. */
  function Value(s: string): nat
    requires AllDigits(s)
  {
    if |s| == 0 then 0 else Value(s[..|s| - 1]) * 10 + DigitValue(s[|s| - 1])
  }

  function Pow10(k: nat): (r: nat)
    ensures r >= 1
  {
    if k == 0 then 1 else 10 * Pow10(k - 1)
  }

  /**
   * `n` written with exactly `width` digits, padded with leading zeros:
   * what chrono prints for `%Y` (width 4) and `%m`, `%d`, `%H`, `%M` (width 2).
   */
  function Padded(n: nat, width: nat): (r: string)
    requires n < Pow10(width)
    ensures |r| == width && AllDigits(r) && Value(r) == n
  {
    if width == 0 then ""
    else
      var high := Padded(n / 10, width - 1);
      var r := high + [DigitChar(n % 10)];
      assert r[..|r| - 1] == high;
      r
  }

  /** `n` in decimal with no leading zero (the single digit "0" for zero). */
  function Digits(n: nat): (r: string)
    ensures |r| >= 1 && AllDigits(r) && Value(r) == n
    ensures r[0] == '0' ==> r == "0"
  {
    if n < 10 then [DigitChar(n)]
    else
      var high := Digits(n / 10);
      var r := high + [DigitChar(n % 10)];
      assert r[..|r| - 1] == high;
      r
  }

  /**
   * Rust's `Display` for a signed integer: a `-` for negative values, then
   * the magnitude in its shortest form, with no leading zero.
   */
  function FormatInt(i: int): (r: string)
    ensures |r| >= 1
    ensures r[0] == '-' <==> i < 0
    ensures AllDigits(r[1..]) && (i < 0 ==> Value(r[1..]) == -i)
    ensures i >= 0 ==> AllDigits(r) && Value(r) == i
    ensures i >= 0 ==> (r[0] == '0' ==> r == "0")
    ensures i < 0 ==> |r| >= 2 && r[1] != '0'
  {
    if i < 0 then
      var m := Digits(-i);
      var r := "-" + m;
      assert r[1..] == m && r[1] == m[0];
      assert m != "0" by { assert Value("0") == 0; }
      r
    else
      var r := Digits(i);
      assert AllDigits(r[1..]);
      r
  }

  /** A non-empty run of decimal digits, read as a natural number. */
  function ParseNat(s: string): Option<nat> {
    if |s| > 0 && AllDigits(s) then Some(Value(s)) else None
  }

  /** An optional `-` followed by a non-empty run of digits. */
  function ParseInt(s: string): Option<int> {
    if |s| > 0 && s[0] == '-' then
      match ParseNat(s[1..])
      case Some(v) => Some(-(v as int))
      case None => None
    else
      match ParseNat(s)
      case Some(v) => Some(v)
      case None => None
  }

  /** Reading back what `FormatInt` writes gives the integer back. */
  lemma ParseFormatInt(i: int)
    ensures ParseInt(FormatInt(i)) == Some(i)
  {
    var r := FormatInt(i);
    if i < 0 {
      assert |r[1..]| > 0 by { assert r != "-"; }
    } else {
      assert r[0] != '-' by { assert IsDigit(r[0]); }
    }
  }

  /** The decimal form contains only digits and, for a negative value, a leading `-`. */
  lemma FormatIntChars(i: int, k: nat)
    requires k < |FormatInt(i)|
    ensures IsDigit(FormatInt(i)[k]) || (k == 0 && FormatInt(i)[k] == '-')
  {
    var r := FormatInt(i);
    if k > 0 {
      assert r[k] == r[1..][k - 1];
    }
  }

  /** A two-digit field is the tens digit then the units digit, so a value below ten gets a leading zero. */
  lemma PaddedTwo(n: nat)
    requires n < 100
    ensures Padded(n, 2) == [DigitChar(n / 10), DigitChar(n % 10)]
  {
    assert Pow10(2) == 100 && Pow10(1) == 10;
    assert Padded(n / 10, 1) == Padded(0, 0) + [DigitChar(n / 10)];
  }

  /** A four-digit field lists the thousands, hundreds, tens and units digits, zero-padded. */
  lemma PaddedFour(n: nat)
    requires n < 10000
    ensures Padded(n, 4) == [DigitChar(n / 1000), DigitChar(n / 100 % 10), DigitChar(n / 10 % 10), DigitChar(n % 10)]
  {
    assert Pow10(4) == 10000 && Pow10(3) == 1000;
    assert n / 10 / 10 == n / 100 && n / 100 / 10 == n / 1000;
    PaddedTwo(n / 100);
    assert Padded(n / 10, 3) == Padded(n / 100, 2) + [DigitChar(n / 10 % 10)];
  }
}
