/**
 * Decimal integers as Go's `strconv.Atoi` reads them on a 64-bit platform
 * (an optional sign, then one or more ASCII digits, within the range of
 * `int`), and `strconv.Itoa` as the inverse that writes them.
 */
module Decimal {
  import opened Wrappers

  const MinInt: int := -0x8000_0000_0000_0000
  const MaxInt: int := 0x7fff_ffff_ffff_ffff

  predicate IsDigit(c: char)
  {
    '0' <= c <= '9'
  }

  predicate AllDigits(s: string)
  {
    forall i :: 0 <= i < |s| ==> IsDigit(s[i])
  }

  /** The value of a string of digits, read most significant digit first. */
  function DigitsValue(s: string): nat
    requires AllDigits(s)
  {
    if s == [] then 0
    else DigitsValue(s[..|s| - 1]) * 10 + (s[|s| - 1] as int - '0' as int)
  }

  /** `strconv.Atoi`: `None` is the syntax or range error. */
  function Atoi(s: string): (r: Option<int>)
    ensures r.Some? ==> MinInt <= r.value <= MaxInt
    ensures r.Some? ==> s != [] && s[|s| - 1] in "0123456789"
  {
    var signed := |s| > 0 && (s[0] == '+' || s[0] == '-');
    var digits := if signed then s[1..] else s;
    if digits == [] || !AllDigits(digits) then None
    else
      var v: int := if signed && s[0] == '-' then 0 - DigitsValue(digits) as int else DigitsValue(digits);
      if MinInt <= v <= MaxInt then Some(v) else None
  }

  function DigitChar(d: nat): (c: char)
    requires d < 10
    ensures IsDigit(c) && c as int - '0' as int == d
  {
    ('0' as int + d) as char
  }

  /** The shortest decimal digits of a natural number. */
  function NatDigits(n: nat): string
  {
    if n < 10 then [DigitChar(n)] else NatDigits(n / 10) + [DigitChar(n % 10)]
  }

  /** `strconv.Itoa`. */
  function Itoa(n: int): string
  {
    if n < 0 then "-" + NatDigits(-n) else NatDigits(n)
  }

  lemma {:induction false} NatDigitsValue(n: nat)
    ensures NatDigits(n) != [] && AllDigits(NatDigits(n))
    ensures DigitsValue(NatDigits(n)) == n
  {
    if n >= 10 {
      NatDigitsValue(n / 10);
      var s := NatDigits(n);
      assert s[..|s| - 1] == NatDigits(n / 10);
    }
  }

  /** Every `int` written by Itoa is read back unchanged by Atoi. */
  lemma AtoiItoa(n: int)
    requires MinInt <= n <= MaxInt
    ensures Atoi(Itoa(n)) == Some(n)
  {
    var s := Itoa(n);
    if n < 0 {
      var d := NatDigits(-n);
      NatDigitsValue(-n);
      assert s == "-" + d;
      assert s[0] == '-' && s[1..] == d;
      assert AllDigits(d) && d != [] && DigitsValue(d) == -n;
    } else {
      NatDigitsValue(n);
      assert s == NatDigits(n) && s[0] != '+' && s[0] != '-';
    }
  }

  predicate AllZeros(z: string)
  {
    forall i :: 0 <= i < |z| ==> z[i] == '0'
  }

  lemma {:induction false} ZerosValue(z: string)
    requires AllZeros(z)
    ensures AllDigits(z) && DigitsValue(z) == 0
  {
    if z != [] {
      ZerosValue(z[..|z| - 1]);
    }
  }

  /** Leading zeros do not change the value of a string of digits. */
  lemma {:induction false} LeadingZerosValue(z: string, d: string)
    requires AllZeros(z) && AllDigits(d)
    ensures AllDigits(z + d) && DigitsValue(z + d) == DigitsValue(d)
  {
    ZerosValue(z);
    if d == [] {
      assert z + d == z;
    } else {
      var init := d[..|d| - 1];
      LeadingZerosValue(z, init);
      assert (z + d)[..|z + d| - 1] == z + init;
      assert (z + d)[|z + d| - 1] == d[|d| - 1];
    }
  }

  /** Atoi of an optional sign followed by a non-empty run of digits worth `m`. */
  lemma AtoiSigned(sign: string, body: string, m: nat)
    requires sign == "" || sign == "+" || sign == "-"
    requires body != [] && AllDigits(body) && DigitsValue(body) == m
    ensures var v: int := if sign == "-" then 0 - m else m;
      Atoi(sign + body) == if MinInt <= v <= MaxInt then Some(v) else None
  {
    var s := sign + body;
    if sign == "" {
      assert s == body && !(s[0] == '+' || s[0] == '-');
    } else {
      assert s[0] == sign[0] && s[1..] == body;
    }
  }

  /**
   * Every numeral Atoi accepts: an optional sign, any number of leading
   * zeros, then the digits of a natural number. The value is read with its
   * sign, and a value outside the 64-bit `int` range is the range error.
   */
  lemma AtoiNumeral(sign: string, z: string, m: nat)
    requires sign == "" || sign == "+" || sign == "-"
    requires AllZeros(z)
    ensures var v: int := if sign == "-" then 0 - m else m;
      Atoi(sign + z + NatDigits(m)) == if MinInt <= v <= MaxInt then Some(v) else None
  {
    var d := NatDigits(m);
    NatDigitsValue(m);
    LeadingZerosValue(z, d);
    assert sign + z + d == sign + (z + d);
    AtoiSigned(sign, z + d, m);
  }

  /** Leading zeros are accepted: "007" reads as 7. */
  lemma AtoiLeadingZeros(z: string, n: int)
    requires AllZeros(z) && 0 <= n <= MaxInt
    ensures Atoi(z + Itoa(n)) == Some(n)
  {
    var s := z + Itoa(n);
    assert s == "" + z + NatDigits(n);
    AtoiNumeral("", z, n);
  }

  /** An explicit plus sign is accepted: "+5" reads as 5. */
  lemma AtoiPlusSign(n: int)
    requires 0 <= n <= MaxInt
    ensures Atoi("+" + Itoa(n)) == Some(n)
  {
    var s := "+" + Itoa(n);
    assert s == "+" + "" + NatDigits(n);
    AtoiNumeral("+", "", n);
  }

  /** A numeral outside the 64-bit `int` range is refused, as Go's range error. */
  lemma AtoiOutOfRange(n: int)
    requires n < MinInt || MaxInt < n
    ensures Atoi(Itoa(n)) == None
  {
    if n < 0 {
      AtoiNumeral("-", "", -n);
      assert "-" + "" + NatDigits(-n) == Itoa(n);
    } else {
      AtoiNumeral("", "", n);
      assert "" + "" + NatDigits(n) == Itoa(n);
    }
  }

  /** A string with a character other than a digit after the optional sign is refused. */
  lemma AtoiRejectsNonDigit(s: string, i: nat)
    requires i < |s| && !IsDigit(s[i]) && !(i == 0 && (s[i] == '+' || s[i] == '-'))
    ensures Atoi(s) == None
  {
    if |s| > 0 && (s[0] == '+' || s[0] == '-') {
      assert s[1..][i - 1] == s[i];
    }
  }
}
