/** Exact positive quantities with milli precision, scaled to int64 without rounding. */
module Quantity {
  import opened Common
  import opened Decimals

  /** How many leading characters are digits. */
  function DigitPrefix(s: string): (n: nat)
    ensures n <= |s| && AllDigits(s[..n]) && (n < |s| ==> !IsDigit(s[n]))
  {
    if s == "" || !IsDigit(s[0]) then 0 else 1 + DigitPrefix(s[1..])
  }

  /** The submatches of ^(\d+)(?:\.(\d{1,3}))?$ : whole digits and fraction digits, if it matches. */
  function MatchDecimal(s: string): (m: Option<(string, string)>)
    ensures m.Some? ==> AllDigits(m.value.0) && AllDigits(m.value.1) && |m.value.1| <= 3
  {
    var n := DigitPrefix(s);
    var rest := s[n..];
    if n == 0 then None
    else if rest == "" then Some((s[..n], ""))
    else if rest[0] == '.' && 2 <= |rest| <= 4 && AllDigits(rest[1..]) then Some((s[..n], rest[1..]))
    else None
  }

  /** The decimal form, stated without scanning. */
  ghost predicate DecimalForm(s: string, whole: string, fraction: string) {
    && whole != "" && AllDigits(whole) && AllDigits(fraction) && |fraction| <= 3
    && s == if fraction == "" then whole else whole + "." + fraction
  }

  /** The fraction .f1f2f3... as the rational it denotes, digit by digit. */
  function FractionValue(f: string): real
    requires AllDigits(f)
  {
    if f == [] then 0.0 else (DigitValue(f[0]) as real + FractionValue(f[1..])) / 10.0
  }

  function Denotes(whole: string, fraction: string): real
    requires AllDigits(whole) && AllDigits(fraction)
  {
    Value(whole) as real + FractionValue(fraction)
  }

  /** What the quantity check is meant to accept. */
  ghost predicate QuantityInRange(s: string) {
    exists w, f :: DecimalForm(s, w, f) && 0.0 < 1000.0 * Denotes(w, f) <= MAX_INT64 as real
  }

  ghost predicate WholeCountInRange(s: string) {
    s != "" && AllDigits(s) && 0 < Value(s) <= MAX_INT64 / 1000
  }

  /** The print of an int64 that is not negative, with any number of zeros in front. */
  ghost predicate ExactInteger(s: string, allowZero: bool) {
    exists z: nat, n: nat :: s == Zeros(z) + PrintNat(n) && n <= MAX_INT64 && (allowZero || n > 0)
  }

  // ---- What Python refuses besides ----

  /** The longest digit string int() reads by default, leading zeros included. */
  const MAX_STR_DIGITS: nat := 4300

  function PythonInt(digits: string): Option<int>
    requires AllDigits(digits)
  {
    if |digits| > MAX_STR_DIGITS then None else Some(Value(digits))
  }

  /** What the Python checks accept: what Go accepts, in at most that many digits before the point. */
  ghost predicate PythonQuantity(s: string) {
    QuantityInRange(s) && DigitPrefix(s) <= MAX_STR_DIGITS
  }

  ghost predicate PythonWholeCount(s: string) {
    WholeCountInRange(s) && |s| <= MAX_STR_DIGITS
  }

  ghost predicate PythonExactInteger(s: string, allowZero: bool) {
    ExactInteger(s, allowZero) && |s| <= MAX_STR_DIGITS
  }

  lemma {:induction false} PrefixOfForm(whole: string, rest: string)
    requires AllDigits(whole) && (rest == "" || !IsDigit(rest[0]))
    ensures DigitPrefix(whole + rest) == |whole|
  {
    var s := whole + rest;
    if whole == "" {
      assert s == rest;
    } else {
      assert s[1..] == whole[1..] + rest;
      PrefixOfForm(whole[1..], rest);
    }
  }

  /** The matcher finds a decimal form exactly when there is one, and there is at most one. */
  lemma MatchIsForm(s: string, w: string, f: string)
    ensures MatchDecimal(s) == Some((w, f)) <==> DecimalForm(s, w, f)
  {
    if DecimalForm(s, w, f) {
      var rest := if f == "" then "" else "." + f;
      assert s == w + rest;
      assert rest != "" ==> rest[1..] == f;
      PrefixOfForm(w, rest);
      assert s[..|w|] == w && s[|w|..] == rest;
    }
    if MatchDecimal(s) == Some((w, f)) {
      var n := DigitPrefix(s);
      assert s == s[..n] + s[n..];
      if s[n..] != "" { assert s[n..] == "." + s[n..][1..]; }
    }
  }

  lemma ThreeDigits(t: string)
    requires AllDigits(t) && |t| == 3
    ensures Value(t) == 100 * DigitValue(t[0]) + 10 * DigitValue(t[1]) + DigitValue(t[2])
    ensures Value(t) as real == 1000.0 * FractionValue(t)
  {
    assert t[..2][..1] == t[..1] && t[..1][..0] == [];
    assert Value(t[..1]) == DigitValue(t[0]);
    assert t[1..][1..] == t[2..] && t[2..][1..] == [];
    assert FractionValue(t[2..]) == DigitValue(t[2]) as real / 10.0;
    assert FractionValue(t[1..]) == (DigitValue(t[1]) as real + FractionValue(t[2..])) / 10.0;
  }

  /** The digit-padding computation is exactly 1000 times the denoted rational. */
  lemma ScalingIsExact(w: string, f: string)
    requires AllDigits(w) && AllDigits(f) && |f| <= 3
    ensures AllDigits(f + Zeros(3 - |f|))
    ensures (Value(w) * 1000 + Value(f + Zeros(3 - |f|))) as real == 1000.0 * Denotes(w, f)
  {
    TrailingZeros(f, 3 - |f|);
    ThreeDigits(f + Zeros(3 - |f|));
  }

  lemma InRangeByMatch(s: string, w: string, f: string)
    requires MatchDecimal(s) == Some((w, f))
    ensures QuantityInRange(s) <==> 0.0 < 1000.0 * Denotes(w, f) <= MAX_INT64 as real
  {
    MatchIsForm(s, w, f);
    if w', f' :| DecimalForm(s, w', f') && 0.0 < 1000.0 * Denotes(w', f') <= MAX_INT64 as real {
      MatchIsForm(s, w', f');
    }
  }

  lemma OutOfRangeWithoutMatch(s: string)
    requires MatchDecimal(s).None?
    ensures !QuantityInRange(s)
  {
    forall w, f ensures !DecimalForm(s, w, f) { MatchIsForm(s, w, f); }
  }

  /** The Go check: the fraction is added in place only when there is one. */
  method ValidateQuantity(value: string) returns (ok: bool)
    ensures ok <==> QuantityInRange(value)
  {
    var matched := MatchDecimal(value);
    if matched.None? {
      OutOfRangeWithoutMatch(value);
      return false;
    }
    var (whole, fraction) := matched.value;
    InRangeByMatch(value, whole, fraction);
    ScalingIsExact(whole, fraction);
    var scaled := Value(whole) * 1000;
    if fraction != "" {
      scaled := scaled + Value(fraction + Zeros(3 - |fraction|));
    } else {
      ValueOfZeros(3);
      assert fraction + Zeros(3) == Zeros(3);
    }
    ok := 0 < scaled <= MAX_INT64;
  }

  /** The Python check: a missing fraction is padded to "000" and added like any other. */
  method ValidateQuantityPython(value: string) returns (ok: bool)
    ensures ok <==> PythonQuantity(value)
  {
    var matched := MatchDecimal(value);
    if matched.None? {
      OutOfRangeWithoutMatch(value);
      return false;
    }
    var (whole, group) := matched.value;
    InRangeByMatch(value, whole, group);
    ScalingIsExact(whole, group);
    var fraction := group + Zeros(3 - |group|);
    var read := PythonInt(whole);
    if read.None? {
      return false;
    }
    var scaled := read.value * 1000 + Value(fraction);
    ok := 0 < scaled <= MAX_INT64;
  }

  method ValidateWholeCount(value: string) returns (ok: bool)
    ensures ok <==> WholeCountInRange(value)
  {
    if value == "" || !AllDigits(value) {
      return false;
    }
    var parsed := Value(value);
    ok := 0 < parsed <= MAX_INT64 / 1000;
  }

  method ValidateWholeCountPython(value: string) returns (ok: bool)
    ensures ok <==> PythonWholeCount(value)
  {
    if value == "" || !AllDigits(value) {
      return false;
    }
    var parsed := PythonInt(value);
    ok := parsed.Some? && 0 < parsed.value <= MAX_INT64 / 1000;
  }

  /** Every digit string is some zeros and a print, and denotes the printed number. */
  lemma {:induction false} PaddedPrint(s: string) returns (z: nat)
    requires s != "" && AllDigits(s)
    ensures s == Zeros(z) + PrintNat(Value(s))
  {
    if s[0] != '0' || |s| == 1 {
      PrintOfValue(s);
      z := 0;
      assert s == Zeros(0) + s;
    } else {
      var y := PaddedPrint(s[1..]);
      assert s == Zeros(1) + s[1..];
      LeadingZeros(1, s[1..]);
      z := y + 1;
      assert Zeros(z) == Zeros(1) + Zeros(y);
    }
  }

  lemma ExactIntegerByValue(s: string, allowZero: bool)
    ensures ExactInteger(s, allowZero)
       <==> s != "" && AllDigits(s) && Value(s) <= MAX_INT64 && (allowZero || Value(s) != 0)
  {
    if s != "" && AllDigits(s) {
      var z := PaddedPrint(s);
    }
    if z: nat, n: nat :| s == Zeros(z) + PrintNat(n) && n <= MAX_INT64 && (allowZero || n > 0) {
      PrintNatIsCanonical(n);
      LeadingZeros(z, PrintNat(n));
    }
  }

  method ValidateExactInteger(value: string, allowZero: bool) returns (ok: bool)
    ensures ok <==> ExactInteger(value, allowZero)
  {
    ExactIntegerByValue(value, allowZero);
    if value == "" || !AllDigits(value) {
      return false;
    }
    var parsed := Value(value);
    ok := !(parsed > MAX_INT64 || (!allowZero && parsed == 0));
  }

  method ValidateExactIntegerPython(value: string, allowZero: bool) returns (ok: bool)
    ensures ok <==> PythonExactInteger(value, allowZero)
  {
    ExactIntegerByValue(value, allowZero);
    if value == "" || !AllDigits(value) {
      return false;
    }
    var parsed := PythonInt(value);
    if parsed.None? {
      return false;
    }
    ok := !(parsed.value > MAX_INT64 || (parsed.value == 0 && !allowZero));
  }

  // ---- Where the two part ----

  function Pow10(n: nat): nat {
    if n == 0 then 1 else 10 * Pow10(n - 1)
  }

  lemma {:induction false} ManyDigitsAreLarge(s: string)
    requires s != "" && AllDigits(s) && s[0] != '0'
    ensures Value(s) >= Pow10(|s| - 1)
  {
    if |s| > 1 { ManyDigitsAreLarge(s[..|s| - 1]); }
  }

  lemma {:induction false} Pow10Grows(m: nat, n: nat)
    requires m <= n
    ensures Pow10(m) <= Pow10(n)
  {
    if m < n { Pow10Grows(m, n - 1); }
  }

  lemma Pow10Of19()
    ensures Pow10(19) == 10_000_000_000_000_000_000
  {
    assert Pow10(10) == 10_000_000_000;
  }

  /** A digit string in range that starts with no zero has at most 19 digits. */
  lemma FewDigits(s: string)
    requires s != "" && AllDigits(s) && s[0] != '0' && Value(s) <= MAX_INT64
    ensures |s| <= 19
  {
    ManyDigitsAreLarge(s);
    Pow10Of19();
    if |s| > 19 { Pow10Grows(19, |s| - 1); }
  }

  /** Go and Python disagree on a quantity exactly when Go accepts it with more digits before the
      point than int() reads, and then it starts with a zero that could be left out. */
  lemma QuantityVerdictsPart(s: string)
    ensures (QuantityInRange(s) <==> PythonQuantity(s)) <==> !(QuantityInRange(s) && DigitPrefix(s) > MAX_STR_DIGITS)
    ensures QuantityInRange(s) && DigitPrefix(s) > MAX_STR_DIGITS ==> |s| > 1 && s[0] == '0' && IsDigit(s[1])
  {
    if QuantityInRange(s) && DigitPrefix(s) > MAX_STR_DIGITS {
      var w, f :| DecimalForm(s, w, f) && 0.0 < 1000.0 * Denotes(w, f) <= MAX_INT64 as real;
      MatchIsForm(s, w, f);
      ScalingIsExact(w, f);
      if s[0] != '0' { FewDigits(w); }
    }
  }

  /** The family of disagreement is there: thousands of zeros in front of any quantity. */
  lemma PaddedBeyondTheLimit(w: string, f: string)
    requires w != "" && AllDigits(w) && AllDigits(f) && |f| <= 3 && QuantityInRange(Spell(w, f))
    ensures var s := Spell(Zeros(MAX_STR_DIGITS) + w, f); QuantityInRange(s) && !PythonQuantity(s)
  {
    assert f + Zeros(0) == f;
    ZerosDoNotMatter(w, f, MAX_STR_DIGITS, 0);
  }

  /** For an integer string the whole-count bound is the quantity bound, and what is accepted fits
      int64 after milli scaling. */
  lemma WholeCountIsQuantity(s: string)
    requires s != "" && AllDigits(s)
    ensures WholeCountInRange(s) <==> QuantityInRange(s)
    ensures PythonWholeCount(s) <==> PythonQuantity(s)
    ensures WholeCountInRange(s) ==> IsInt64(1000 * Value(s))
  {
    MatchIsForm(s, s, "");
    InRangeByMatch(s, s, "");
    ScalingIsExact(s, "");
    ValueOfZeros(3);
    assert "" + Zeros(3) == Zeros(3);
  }

  /** Zeros that fit the form, in front or behind, change neither the value nor the verdict; Python
      reads them only up to its limit. */
  lemma ZerosDoNotMatter(w: string, f: string, leading: nat, trailing: nat)
    requires w != "" && AllDigits(w) && AllDigits(f) && |f| + trailing <= 3
    ensures var (w', f') := (Zeros(leading) + w, f + Zeros(trailing));
            && AllDigits(w') && AllDigits(f') && Denotes(w', f') == Denotes(w, f)
            && (QuantityInRange(Spell(w', f')) <==> QuantityInRange(Spell(w, f)))
            && (PythonQuantity(Spell(w', f')) <==> QuantityInRange(Spell(w, f)) && leading + |w| <= MAX_STR_DIGITS)
  {
    var w', f' := Zeros(leading) + w, f + Zeros(trailing);
    LeadingZeros(leading, w);
    TrailingZeros(f, trailing);
    MatchIsForm(Spell(w, f), w, f);
    MatchIsForm(Spell(w', f'), w', f');
    InRangeByMatch(Spell(w, f), w, f);
    InRangeByMatch(Spell(w', f'), w', f');
  }

  function Spell(w: string, f: string): string {
    if f == "" then w else w + "." + f
  }

  lemma {:induction false} TrailingZeros(f: string, n: nat)
    requires AllDigits(f)
    ensures AllDigits(f + Zeros(n)) && FractionValue(f + Zeros(n)) == FractionValue(f)
    decreases |f| + n
  {
    var s := f + Zeros(n);
    if f != "" {
      assert s[1..] == f[1..] + Zeros(n);
      TrailingZeros(f[1..], n);
    } else if n > 0 {
      assert s[1..] == "" + Zeros(n - 1);
      TrailingZeros("", n - 1);
    }
  }
}
