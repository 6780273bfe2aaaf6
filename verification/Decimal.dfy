/** Decimal numbers as the tools print and read them: std::to_string and std::stoi. */
module Decimal {
  import opened Basics

  predicate IsDigit(c: char) { '0' <= c <= '9' }

  predicate AllDigits(s: string) {
    forall i :: 0 <= i < |s| ==> IsDigit(s[i])
  }

  function Digit(d: nat): (c: char)
    requires d < 10
    ensures IsDigit(c)
  {
    '0' + d as char
  }

  function Digits(n: nat): string {
    if n < 10 then [Digit(n)] else Digits(n / 10) + [Digit(n % 10)]
  }

  function ToString(i: int): string {
    if i < 0 then "-" + Digits(-i) else Digits(i)
  }

  function Value(s: string): nat
    requires AllDigits(s)
  {
    if s == "" then 0 else 10 * Value(s[..|s| - 1]) + (s[|s| - 1] - '0') as nat
  }

  lemma {:induction false} DigitsAreDigits(n: nat)
    ensures AllDigits(Digits(n)) && Digits(n) != ""
  {
    if n >= 10 { DigitsAreDigits(n / 10); }
  }

  lemma {:induction false} ValueOfDigits(n: nat)
    ensures AllDigits(Digits(n)) && Value(Digits(n)) == n
  {
    DigitsAreDigits(n);
    if n < 10 {
    } else {
      ValueOfDigits(n / 10);
      assert Digits(n)[..|Digits(n)| - 1] == Digits(n / 10);
    }
  }

  function DigitRun(s: string): (k: nat)
    ensures k <= |s| && AllDigits(s[..k])
  {
    if s == "" || !IsDigit(s[0]) then 0
    else
      var k := DigitRun(s[1..]);
      assert s[..k + 1] == [s[0]] + s[1..][..k];
      k + 1
  }

  const INT_MAX := 0x7fff_ffff
  const INT_MIN := -0x8000_0000
  const LONG_MAX := 0x7fff_ffff_ffff_ffff
  const LONG_MIN := -0x8000_0000_0000_0000

  /** Blanks, a sign and a run of digits; whatever follows the digits is ignored. */
  function Integer(s: string): Option<int> {
    var t := SkipSpace(s);
    var signed := t != "" && (t[0] == '-' || t[0] == '+');
    var u := if signed then t[1..] else t;
    var k := DigitRun(u);
    var v := if signed && t[0] == '-' then -(Value(u[..k]) as int) else Value(u[..k]);
    if k > 0 then Some(v) else None
  }

  function Within(v: Option<int>, min: int, max: int): Option<int> {
    if v.Some? && min <= v.value <= max then v else None
  }

  /** No digit, or a value outside a 32-bit int, is an error. */
  function Stoi(s: string): Option<int> { Within(Integer(s), INT_MIN, INT_MAX) }

  /** The same for a 64-bit integer. */
  function Stoll(s: string): Option<int> { Within(Integer(s), LONG_MIN, LONG_MAX) }

  lemma {:induction false} DigitRunAll(s: string)
    requires AllDigits(s)
    ensures DigitRun(s) == |s|
  {
    if s != "" { DigitRunAll(s[1..]); }
  }

  lemma IntegerOfToString(i: int)
    ensures Integer(ToString(i)) == Some(i)
  {
    hide Digits, Value, DigitRun;
    var n := if i < 0 then -i else i;
    ValueOfDigits(n);
    DigitsAreDigits(n);
    assert SkipSpace(ToString(i)) == ToString(i);
    DigitRunAll(Digits(n));
    assert Digits(n)[..|Digits(n)|] == Digits(n);
    if i < 0 { assert ToString(i)[1..] == Digits(n); }
  }

  /** Reading a printed int gives it back, for exactly the ints that fit 32 bits, or 64. */
  lemma StoiToString(i: int)
    ensures Stoi(ToString(i)) == if INT_MIN <= i <= INT_MAX then Some(i) else None
    ensures Stoll(ToString(i)) == if LONG_MIN <= i <= LONG_MAX then Some(i) else None
  {
    hide ToString, Integer;
    IntegerOfToString(i);
  }

  lemma MinusSign(i: int)
    ensures ToString(i) != "" && (ToString(i)[0] == '-' <==> i < 0)
    ensures i < 0 ==> ToString(i)[1..] == Digits(-i)
  {
    DigitsAreDigits(if i < 0 then -i else i);
  }

  /** The ten digits, and how a number goes on. */
  lemma DigitsSpelled(n: nat, d: nat)
    requires d < 10
    ensures ToString(d) == ["0123456789"[d]]
    ensures n > 0 ==> ToString(10 * n + d) == ToString(n) + ToString(d)
  {
    assert "0123456789"[d] == Digit(d);
    if n > 0 { assert (10 * n + d) / 10 == n && (10 * n + d) % 10 == d; }
  }

  /** Two ints that print alike are the same. */
  lemma ToStringInjective(i: int, j: int)
    requires ToString(i) == ToString(j)
    ensures i == j
  {
    hide Digits;
    MinusSign(i);
    MinusSign(j);
    ValueOfDigits(if i < 0 then -i else i);
    ValueOfDigits(if j < 0 then -j else j);
  }

  /** What the characters of a printed number can be. */
  lemma PrintedNumber(n: nat)
    ensures ToString(n) != "" && AllDigits(ToString(n))
  {
    DigitsAreDigits(n);
  }
}
