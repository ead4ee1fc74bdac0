/**
 * Decimal integer conversion as done by Go's `strconv.Atoi` on a 64-bit platform:
 * an optional `+` or `-` sign followed by one or more ASCII decimal digits whose value
 * lies in the range of a signed 64-bit integer. Anything else is an error.
 * `Itoa` is the inverse direction, used to state the round trip.
 */
module Strconv {
  import opened Results

  const MinInt64: int := -0x8000_0000_0000_0000
  const MaxInt64: int := 0x7FFF_FFFF_FFFF_FFFF

  predicate IsDigit(ch: char) {
    '0' <= ch <= '9'
  }

  predicate AllDigits(s: string) {
    forall i :: 0 <= i < |s| ==> IsDigit(s[i])
  }

  function DigitValue(ch: char): (d: nat)
    requires IsDigit(ch)
    ensures d < 10
  {
    (ch as int) - ('0' as int)
  }

  function DigitChar(d: nat): (ch: char)
    requires d < 10
    ensures IsDigit(ch) && DigitValue(ch) == d
  {
    (('0' as int) + d) as char
  }

  /** The value of a string of decimal digits, read most significant digit first. */
  function DigitsValue(s: string): nat
    requires AllDigits(s)
    decreases |s|
  {
    if s == [] then 0 else DigitsValue(s[..|s| - 1]) * 10 + DigitValue(s[|s| - 1])
  }

  /** True when `s` starts with a sign character. */
  predicate HasSign(s: string) {
    |s| > 0 && (s[0] == '+' || s[0] == '-')
  }

  /**
   * `strconv.Atoi(s)`: `Some(n)` when `s` is `[+|-]digits` with value `n` in the 64-bit range,
   * `None` for a syntax error (empty string, lone sign, any other character) or a range error.
   */
  function Atoi(s: string): (r: Option<int>)
    ensures r.Some? ==> MinInt64 <= r.value <= MaxInt64
    ensures r.Some? ==> var digits := if HasSign(s) then s[1..] else s;
                        digits != [] && AllDigits(digits)
    ensures r.Some? && !HasSign(s) ==> r.value >= 0
  {
    var negative := HasSign(s) && s[0] == '-';
    var digits := if HasSign(s) then s[1..] else s;
    if digits == [] || !AllDigits(digits) then None
    else
      var magnitude: int := DigitsValue(digits);
      var n: int := if negative then -magnitude else magnitude;
      if MinInt64 <= n <= MaxInt64 then Some(n) else None
  }

  /** Decimal digits of a natural number, most significant first, without leading zeros. */
  function NatDigits(n: nat): string
    decreases n
  {
    if n < 10 then [DigitChar(n)] else NatDigits(n / 10) + [DigitChar(n % 10)]
  }

  /** `strconv.Itoa(n)`: the shortest decimal spelling of `n`, with `-` for negatives. */
  function Itoa(n: int): string {
    if n < 0 then "-" + NatDigits(-n) else NatDigits(n)
  }

  lemma {:induction false} NatDigitsValue(n: nat)
    ensures NatDigits(n) != [] && AllDigits(NatDigits(n))
    ensures DigitsValue(NatDigits(n)) == n
    decreases n
  {
    if n >= 10 {
      NatDigitsValue(n / 10);
      var s := NatDigits(n);
      assert s[..|s| - 1] == NatDigits(n / 10);
    }
  }

  /** Every 64-bit integer survives the round trip through its decimal spelling. */
  lemma AtoiItoa(n: int)
    requires MinInt64 <= n <= MaxInt64
    ensures Atoi(Itoa(n)) == Some(n)
  {
    var m := if n < 0 then -n else n;
    NatDigitsValue(m);
    assert IsDigit(NatDigits(m)[0]);
    if n < 0 {
      assert Itoa(n)[1..] == NatDigits(m);
    }
  }

  /** Decimal spellings of integers outside the 64-bit range are rejected (Go's range error). */
  lemma AtoiRejectsOutOfRange(n: int)
    requires n < MinInt64 || MaxInt64 < n
    ensures Atoi(Itoa(n)) == None
  {
    var m := if n < 0 then -n else n;
    NatDigitsValue(m);
    assert IsDigit(NatDigits(m)[0]);
    if n < 0 {
      assert Itoa(n)[1..] == NatDigits(m);
    }
  }

  /** A leading `+` is accepted and changes nothing. */
  lemma AtoiPlusSign(n: nat)
    requires n <= MaxInt64
    ensures Atoi("+" + Itoa(n)) == Some(n)
  {
    NatDigitsValue(n);
    assert ("+" + Itoa(n))[1..] == NatDigits(n);
  }

  /**
   * Every non-empty digit string parses, bare or after either sign, to its value (leading
   * zeros included) when that value is in the 64-bit range, and is a range error otherwise.
   */
  lemma AtoiDigits(d: string)
    requires d != [] && AllDigits(d)
    ensures Atoi(d) == if DigitsValue(d) <= MaxInt64 then Some(DigitsValue(d)) else None
    ensures Atoi("+" + d) == if DigitsValue(d) <= MaxInt64 then Some(DigitsValue(d)) else None
    ensures Atoi("-" + d) == if MinInt64 <= -(DigitsValue(d) as int) then Some(-(DigitsValue(d) as int)) else None
  {
    assert IsDigit(d[0]);
    assert ("+" + d)[1..] == d;
    assert ("-" + d)[1..] == d;
  }

  /** A leading zero does not change a digit string's value. */
  lemma {:induction false} DigitsValueLeadingZero(d: string)
    requires AllDigits(d)
    ensures AllDigits("0" + d) && DigitsValue("0" + d) == DigitsValue(d)
    decreases |d|
  {
    var z := "0" + d;
    assert forall i :: 0 <= i < |z| ==> IsDigit(z[i]) by {
      forall i | 0 <= i < |z| ensures IsDigit(z[i]) {
        if i > 0 { assert z[i] == d[i - 1]; }
      }
    }
    if d != [] {
      assert z[..|z| - 1] == "0" + d[..|d| - 1];
      assert z[|z| - 1] == d[|d| - 1];
      DigitsValueLeadingZero(d[..|d| - 1]);
    }
  }

  /** `Atoi` ignores a leading zero in front of a digit string. */
  lemma AtoiLeadingZero(d: string)
    requires d != [] && AllDigits(d)
    ensures Atoi("0" + d) == Atoi(d)
  {
    DigitsValueLeadingZero(d);
    AtoiDigits(d);
    AtoiDigits("0" + d);
  }
}
