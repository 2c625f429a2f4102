/** Decimal digit strings over ASCII: what they denote and how numbers are printed. */
module Decimals {
  import opened Common

  predicate IsDigit(c: char) {
    '0' <= c <= '9'
  }

  predicate AllDigits(s: string) {
    forall i :: 0 <= i < |s| ==> IsDigit(s[i])
  }

  function DigitValue(c: char): nat
    requires IsDigit(c)
  {
    c as int - '0' as int
  }

  function DigitChar(n: nat): (c: char)
    requires n < 10
    ensures IsDigit(c) && DigitValue(c) == n
  {
    ['0', '1', '2', '3', '4', '5', '6', '7', '8', '9'][n]
  }

  /** The number a digit string denotes. */
  function Value(s: string): (v: int)
    requires AllDigits(s)
    ensures v >= 0
  {
    if s == [] then 0 else 10 * Value(s[..|s| - 1]) + DigitValue(s[|s| - 1])
  }

  /** The usual decimal print of a natural number. */
  function PrintNat(n: nat): string {
    if n < 10 then [DigitChar(n)] else PrintNat(n / 10) + [DigitChar(n % 10)]
  }

  /** The usual decimal print of an integer. */
  function PrintInt(n: int): string {
    if n < 0 then "-" + PrintNat(-n) else PrintNat(n)
  }

  /** "0", or digits that do not start with a zero. */
  ghost predicate Canonical(s: string) {
    s == "0" || (s != "" && AllDigits(s) && s[0] != '0')
  }

  function Zeros(n: nat): (s: string)
    ensures |s| == n && AllDigits(s) && (forall i :: 0 <= i < n ==> s[i] == '0')
  {
    seq(n, _ => '0')
  }

  lemma {:induction false} PrintNatIsCanonical(n: nat)
    ensures Canonical(PrintNat(n)) && AllDigits(PrintNat(n)) && Value(PrintNat(n)) == n
    ensures n > 0 ==> PrintNat(n)[0] != '0'
  {
    if n >= 10 {
      PrintNatIsCanonical(n / 10);
      var s := PrintNat(n / 10) + [DigitChar(n % 10)];
      assert s[..|s| - 1] == PrintNat(n / 10);
    } else {
      assert PrintNat(n)[..0] == [];
    }
  }

  lemma {:induction false} PositiveValue(s: string)
    requires AllDigits(s) && s != "" && s[0] != '0'
    ensures Value(s) > 0
  {
    if |s| > 1 { PositiveValue(s[..|s| - 1]); }
  }

  lemma PrintAppends(n: nat, c: char)
    requires n > 0 && IsDigit(c)
    ensures PrintNat(10 * n + DigitValue(c)) == PrintNat(n) + [DigitChar(DigitValue(c))]
  {
    var m := 10 * n + DigitValue(c);
    assert m / 10 == n && m % 10 == DigitValue(c);
  }

  lemma {:induction false} PrintOfValue(s: string)
    requires Canonical(s)
    ensures AllDigits(s) && PrintNat(Value(s)) == s
  {
    var init := s[..|s| - 1];
    var last := s[|s| - 1];
    assert DigitChar(DigitValue(last)) == last;
    if |s| > 1 {
      PrintOfValue(init);
      PositiveValue(init);
      PrintAppends(Value(init), last);
      assert s == init + [last];
    } else {
      assert Value(init) == 0;
    }
  }

  lemma {:induction false} LeadingZeros(n: nat, t: string)
    requires AllDigits(t)
    ensures AllDigits(Zeros(n) + t) && Value(Zeros(n) + t) == Value(t)
    decreases |t|
  {
    var s := Zeros(n) + t;
    if t == [] {
      assert s == Zeros(n);
      ValueOfZeros(n);
    } else {
      assert s[..|s| - 1] == Zeros(n) + t[..|t| - 1];
      LeadingZeros(n, t[..|t| - 1]);
    }
  }

  lemma {:induction false} ValueOfZeros(n: nat)
    ensures Value(Zeros(n)) == 0
  {
    if n > 0 {
      assert Zeros(n)[..n - 1] == Zeros(n - 1);
      ValueOfZeros(n - 1);
    }
  }
}
