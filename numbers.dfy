/**
 * The two JavaScript conversions the page applies to primary keys: `String(pk)`, when
 * the selected location is written into the query, and `Number(param)`, when the query
 * is read back. Integers are written in decimal without leading zeros; `Number` is
 * modelled for an optional sign followed by decimal digits, and NaN is `None`.
 */
module Numbers {
  import opened Wrappers

  predicate IsDigit(c: char) { '0' <= c <= '9' }

  predicate AllDigits(s: string) { forall i :: 0 <= i < |s| ==> IsDigit(s[i]) }

  function DigitChar(d: nat): (c: char)
    requires d < 10
    ensures IsDigit(c)
  {
    ('0' as int + d) as char
  }

  function DigitValue(c: char): (d: nat)
    requires IsDigit(c)
    ensures d < 10 && DigitChar(d) == c
  {
    c as int - '0' as int
  }

  /** The decimal digits of `n`, most significant first, with no leading zero. */
  function ShowNat(n: nat): (s: string)
    ensures s != [] && AllDigits(s)
    ensures |s| > 1 ==> s[0] != '0'
  {
    if n < 10 then [DigitChar(n)] else ShowNat(n / 10) + [DigitChar(n % 10)]
  }

  /** `String(n)` for an integer `n`. */
  function ShowInt(n: int): (s: string)
    ensures s != []
    ensures s[0] == '-' <==> n < 0
  {
    if n < 0 then "-" + ShowNat(-n) else ShowNat(n)
  }

  /** The number that a string of decimal digits denotes. */
  function DigitsValue(s: string): nat
    requires AllDigits(s)
  {
    if s == [] then 0 else DigitsValue(s[..|s| - 1]) * 10 + DigitValue(s[|s| - 1])
  }

  /** `Number(s)`: the empty string is 0; a sign alone, or any other character, is NaN. */
  function ParseNumber(s: string): (r: Option<int>)
    ensures r.Some? && s != [] ==> s[0] == '-' || s[0] == '+' || IsDigit(s[0])
  {
    if s == [] then Some(0)
    else if s[0] == '-' || s[0] == '+' then
      var digits := s[1..];
      if digits != [] && AllDigits(digits) then
        var magnitude: int := DigitsValue(digits);
        Some(if s[0] == '-' then -magnitude else magnitude)
      else None
    else if AllDigits(s) then Some(DigitsValue(s))
    else None
  }

  /** Reading back the digits of `n` gives `n`. */
  lemma {:induction false} DigitsValueOfShowNat(n: nat)
    ensures DigitsValue(ShowNat(n)) == n
  {
    if n >= 10 {
      var s := ShowNat(n);
      DigitsValueOfShowNat(n / 10);
      assert s[..|s| - 1] == ShowNat(n / 10);
    }
  }

  /** `Number(String(n)) === n` for every integer `n`. */
  lemma ParseShowInt(n: int)
    ensures ParseNumber(ShowInt(n)) == Some(n)
  {
    if n < 0 {
      DigitsValueOfShowNat(-n);
      assert ShowInt(n)[1..] == ShowNat(-n);
    } else {
      DigitsValueOfShowNat(n);
    }
  }

  /** Distinct keys are written as distinct strings. */
  lemma ShowIntInjective(m: int, n: int)
    requires ShowInt(m) == ShowInt(n)
    ensures m == n
  {
    ParseShowInt(m);
    ParseShowInt(n);
  }
}
