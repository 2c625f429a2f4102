/** Exact signed and unsigned int64 amount strings, as both SDKs check them. */
module CanonicalInteger {
  import opened Common
  import opened Decimals

  /** big.Int.SetString with base 10: an optional sign and at least one digit. */
  function SetString(s: string): Option<int> {
    if s != "" && AllDigits(s) then Some(Value(s))
    else if |s| > 1 && s[0] == '+' && AllDigits(s[1..]) then Some(Value(s[1..]))
    else if |s| > 1 && s[0] == '-' && AllDigits(s[1..]) then Some(-Value(s[1..]))
    else None
  }

  /** The digits test of the Go SDK, an index loop. */
  method IsUnsignedCanonicalInteger(value: string) returns (ok: bool)
    ensures ok <==> Canonical(value)
  {
    if value == "0" {
      return true;
    }
    if value == "" || value[0] < '1' || value[0] > '9' {
      return false;
    }
    for i := 1 to |value|
      invariant AllDigits(value[..i])
    {
      if value[i] < '0' || value[i] > '9' {
        return false;
      }
      assert value[..i + 1] == value[..i] + [value[i]];
    }
    assert value[..|value|] == value;
    return true;
  }

  /** A canonical print of an int64, or "-0". */
  ghost predicate SignedAmount(value: string) {
    value == "-0" || exists n :: IsInt64(n) && value == PrintInt(n)
  }

  ghost predicate UnsignedAmount(value: string) {
    exists n :: 0 <= n <= MAX_INT64 && value == PrintNat(n)
  }

  /** The three conditions the Go ledger validator puts on an amount. */
  ghost predicate GoSigned(value: string) {
    && SetString(value).Some? && IsInt64(SetString(value).value)
    && (if value != "" && value[0] == '-' then |value| > 1 && Canonical(value[1..]) else Canonical(value))
  }

  ghost predicate GoUnsigned(value: string) {
    && SetString(value).Some? && IsInt64(SetString(value).value)
    && SetString(value).value >= 0 && Canonical(value)
  }

  /** Python's digit test: a first character in "123456789" and str.isdigit, which is false of "". */
  predicate PythonDigits(value: string) {
    value == "0" || ((value == "" || '1' <= value[0] <= '9') && value != "" && AllDigits(value))
  }

  predicate PythonSigned(value: string) {
    value != "" &&
    if value[0] == '-' then PythonDigits(value[1..]) && IsInt64(-Value(value[1..]))
    else PythonDigits(value) && IsInt64(Value(value))
  }

  predicate PythonUnsigned(value: string) {
    PythonDigits(value) && Value(value) <= MAX_INT64
  }

  lemma CanonicalIsPrint(s: string)
    ensures Canonical(s) <==> exists n: nat :: s == PrintNat(n)
    ensures Canonical(s) ==> AllDigits(s) && s == PrintNat(Value(s)) && s[0] != '-' && s[0] != '+'
    ensures PythonDigits(s) <==> Canonical(s)
  {
    if Canonical(s) { PrintOfValue(s); }
    if n: nat :| s == PrintNat(n) { PrintNatIsCanonical(n); }
  }

  lemma PrintIsReadBack(n: nat)
    ensures AllDigits(PrintNat(n)) && Value(PrintNat(n)) == n
    ensures PrintNat(n) != "" && PrintNat(n)[0] != '-' && PrintNat(n)[0] != '+'
  {
    PrintNatIsCanonical(n);
  }

  lemma SetStringOfDigits(t: string)
    requires t != "" && AllDigits(t)
    ensures SetString(t) == Some(Value(t)) && SetString("-" + t) == Some(-Value(t))
  {
    var s := "-" + t;
    assert s[1..] == t && s[0] == '-' && !IsDigit(s[0]);
  }

  /** Reading a print gives the number back. */
  lemma ParseAfterPrint(n: int)
    ensures SetString(PrintInt(n)) == Some(n)
  {
    var size := if n < 0 then -n else n;
    PrintIsReadBack(size);
    SetStringOfDigits(PrintNat(size));
  }

  /** The accepted signed strings are exactly the prints of int64 values plus "-0", in Go and in
      Python alike. */
  lemma SignedAmountsExactly(value: string)
    ensures GoSigned(value) <==> SignedAmount(value)
    ensures PythonSigned(value) <==> SignedAmount(value)
  {
    if SignedAmount(value) {
      SignedPrintsAreAccepted(value);
    }
    if value != "" && value[0] == '-' {
      var digits := value[1..];
      assert value == "-" + digits;
      assert !AllDigits(value) by { assert !IsDigit(value[0]); }
      CanonicalIsPrint(digits);
      if Canonical(digits) && IsInt64(-Value(digits)) {
        if Value(digits) == 0 {
          assert PrintNat(0) == "0";
        } else {
          assert value == PrintInt(-Value(digits));
        }
      }
    } else {
      CanonicalIsPrint(value);
      if Canonical(value) && IsInt64(Value(value)) {
        assert value == PrintInt(Value(value));
      }
    }
  }

  lemma SignedPrintsAreAccepted(value: string)
    requires SignedAmount(value)
    ensures GoSigned(value) && PythonSigned(value)
  {
    if value == "-0" {
      assert value[1..] == "0" == PrintNat(0);
      PrintIsReadBack(0);
      CanonicalIsPrint("0");
      assert !IsDigit(value[0]);
    } else {
      var n :| IsInt64(n) && value == PrintInt(n);
      ParseAfterPrint(n);
      if n < 0 {
        PrintIsReadBack(-n);
        CanonicalIsPrint(PrintNat(-n));
        assert value[1..] == PrintNat(-n);
      } else {
        PrintIsReadBack(n);
        CanonicalIsPrint(value);
      }
    }
  }

  /** Printing what was read is the identity on every accepted string except "-0". */
  lemma PrintAfterParse(value: string)
    requires GoSigned(value)
    ensures PrintInt(SetString(value).value) == value <==> value != "-0"
  {
    SignedAmountsExactly(value);
    if value != "-0" {
      var n :| IsInt64(n) && value == PrintInt(n);
      ParseAfterPrint(n);
    } else {
      assert value[1..] == "0" == PrintNat(0);
      PrintIsReadBack(0);
      assert !IsDigit(value[0]);
      assert SetString(value) == Some(0);
    }
  }

  lemma MinusZeroReadsZero()
    ensures SetString("-0") == Some(0)
  {
    var value := "-0";
    assert value[1..] == "0" == PrintNat(0);
    PrintIsReadBack(0);
    assert !IsDigit(value[0]);
  }

  /** Unsigned amounts are exactly the prints of 0..2^63-1. */
  lemma UnsignedAmountsExactly(value: string)
    ensures GoUnsigned(value) <==> UnsignedAmount(value)
    ensures PythonUnsigned(value) <==> UnsignedAmount(value)
  {
    CanonicalIsPrint(value);
    if UnsignedAmount(value) {
      var n :| 0 <= n <= MAX_INT64 && value == PrintNat(n);
      PrintIsReadBack(n);
    }
    hide PrintNat, Value, Canonical;
  }

  /** "-0" is a signed amount only. */
  lemma MinusZeroIsSignedOnly()
    ensures SignedAmount("-0") && !UnsignedAmount("-0")
  {
    forall n: nat ensures PrintNat(n) != "-0" {
      PrintIsReadBack(n);
    }
  }

  /** isCanonicalInteger with the two big.Int conditions, as the Go validator runs them. */
  method CheckSignedAmount(value: string) returns (ok: bool)
    ensures ok <==> SignedAmount(value)
  {
    SignedAmountsExactly(value);
    var amount := SetString(value);
    if amount.None? || !IsInt64(amount.value) {
      return false;
    }
    if value != "" && value[0] == '-' {
      ok := IsUnsignedCanonicalInteger(value[1..]);
      ok := |value| > 1 && ok;
    } else {
      ok := IsUnsignedCanonicalInteger(value);
    }
  }

  method CheckUnsignedAmount(value: string) returns (ok: bool)
    ensures ok <==> UnsignedAmount(value)
  {
    UnsignedAmountsExactly(value);
    var amount := SetString(value);
    if amount.None? || !IsInt64(amount.value) || amount.value < 0 {
      return false;
    }
    ok := IsUnsignedCanonicalInteger(value);
  }
}
