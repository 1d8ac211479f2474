/** Decimal rendering of task ids as `strconv.Itoa` produces it, and a
    reader for such numerals that serves as its inverse. */
module Decimal {
  import opened Wrappers

  predicate IsDigit(c: char) {
    '0' <= c <= '9'
  }

  predicate AllDigits(s: string) {
    forall i :: 0 <= i < |s| ==> IsDigit(s[i])
  }

  /** A numeral as `strconv.Itoa` writes it: an optional '-', then at least
      one digit, with no leading zero and no negative zero. */
  predicate Canonical(s: string) {
    if |s| > 0 && s[0] == '-' then
      |s| > 1 && AllDigits(s[1..]) && s[1] != '0'
    else
      |s| > 0 && AllDigits(s) && (|s| > 1 ==> s[0] != '0')
  }

  function DigitChar(d: nat): (c: char)
    requires d < 10
    ensures IsDigit(c)
    ensures c == '0' <==> d == 0
  {
    ('0' as int + d) as char
  }

  function DigitValue(c: char): (d: nat)
    requires IsDigit(c)
    ensures d < 10 && DigitChar(d) == c
  {
    c as int - '0' as int
  }

  /** The digits of `n`, most significant first. */
  function NatToDecimal(n: nat): (s: string)
    ensures 1 <= |s|
    ensures AllDigits(s)
    ensures s[0] == '0' <==> n == 0
    ensures |s| > 1 ==> s[0] != '0'
    decreases n
  {
    if n < 10 then [DigitChar(n)] else NatToDecimal(n / 10) + [DigitChar(n % 10)]
  }

  /** `strconv.Itoa`: a '-' sign for negative values, then the digits of
      the magnitude. */
  function Itoa(i: int): (s: string)
    ensures Canonical(s)
    ensures s[0] == '-' <==> i < 0
    ensures '/' !in s
  {
    if i < 0 then "-" + NatToDecimal(-i) else NatToDecimal(i)
  }

  /** The value of a string of digits, most significant first. */
  function DigitsValue(s: string): nat
    requires AllDigits(s)
    decreases |s|
  {
    if |s| == 0 then 0 else DigitsValue(s[..|s| - 1]) * 10 + DigitValue(s[|s| - 1])
  }

  /** Reads an optionally '-'-signed, non-empty run of digits. */
  function ParseDecimal(s: string): (r: Option<int>)
    ensures r.Some? <==> (|s| > 0 && AllDigits(s)) || (|s| > 1 && s[0] == '-' && AllDigits(s[1..]))
    ensures r.Some? && r.value < 0 ==> s[0] == '-'
  {
    if |s| > 0 && s[0] == '-' then
      if |s| > 1 && AllDigits(s[1..]) then Some(-(DigitsValue(s[1..]) as int)) else None
    else if |s| > 0 && AllDigits(s) then Some(DigitsValue(s) as int)
    else None
  }

  lemma {:induction false} DigitsValueOfDecimal(n: nat)
    ensures DigitsValue(NatToDecimal(n)) == n
    decreases n
  {
    if n >= 10 {
      var s := NatToDecimal(n);
      DigitsValueOfDecimal(n / 10);
      assert s[..|s| - 1] == NatToDecimal(n / 10);
    }
  }

  /** Reading back what Itoa wrote gives the original integer. */
  lemma ItoaRoundTrip(i: int)
    ensures ParseDecimal(Itoa(i)) == Some(i)
  {
    var s := Itoa(i);
    if i < 0 {
      DigitsValueOfDecimal(-i);
      assert s[1..] == NatToDecimal(-i);
    } else {
      DigitsValueOfDecimal(i);
    }
  }

  /** Distinct task ids render to distinct numerals. */
  lemma ItoaInjective(i: int, j: int)
    ensures Itoa(i) == Itoa(j) <==> i == j
  {
    ItoaRoundTrip(i);
    ItoaRoundTrip(j);
  }

  lemma {:induction false} DecimalOfDigitsValue(s: string)
    requires |s| > 0 && AllDigits(s) && (|s| > 1 ==> s[0] != '0')
    ensures NatToDecimal(DigitsValue(s)) == s
    decreases |s|
  {
    var n := |s| - 1;
    var d := DigitValue(s[n]);
    if n == 0 {
      assert s[..0] == [];
    } else {
      var front := s[..n];
      assert front[0] == s[0];
      DecimalOfDigitsValue(front);
      var v := DigitsValue(front);
      assert DigitsValue(s) == v * 10 + d;
      assert DigitsValue(s) / 10 == v && DigitsValue(s) % 10 == d;
      assert s == front + [s[n]];
    }
  }

  /** Every numeral in Itoa's form is what Itoa writes for the value it
      denotes, so ParseDecimal and Itoa are inverse on canonical numerals. */
  lemma CanonicalRoundTrip(s: string)
    requires Canonical(s)
    ensures ParseDecimal(s).Some? && Itoa(ParseDecimal(s).value) == s
  {
    if s[0] == '-' {
      var digits := s[1..];
      assert digits[0] == s[1];
      DecimalOfDigitsValue(digits);
      assert s == "-" + digits;
    } else {
      DecimalOfDigitsValue(s);
    }
  }
}
