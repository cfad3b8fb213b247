/**
 * strconv.Atoi and strconv.FormatInt(_, 10) on a 64-bit platform, where
 * Go's `int` is 64 bits wide.
 */
module Strconv {
  import opened Wrappers

  const MinInt64: int := -0x8000_0000_0000_0000
  const MaxInt64: int := 0x7FFF_FFFF_FFFF_FFFF

  type Int64 = x: int | MinInt64 <= x <= MaxInt64

  predicate IsDigit(c: char)
  {
    '0' <= c <= '9'
  }

  predicate AllDigits(s: string)
  {
    forall i :: 0 <= i < |s| ==> IsDigit(s[i])
  }

  /** The value of a run of decimal digits, most significant first. */
  function DigitsValue(ds: string): nat
    requires AllDigits(ds)
  {
    if |ds| == 0 then 0
    else DigitsValue(ds[..|ds| - 1]) * 10 + (ds[|ds| - 1] as int - '0' as int)
  }

  /** What strconv.Atoi accepts: an optional sign followed by at least one ASCII digit. */
  predicate IsDecimal(s: string)
  {
    var digits := if |s| > 0 && (s[0] == '+' || s[0] == '-') then s[1..] else s;
    |digits| > 0 && AllDigits(digits)
  }

  /** The mathematical value of a string that `IsDecimal` accepts. */
  function DecimalValue(s: string): int
    requires IsDecimal(s)
  {
    if s[0] == '-' then -(DigitsValue(s[1..]) as int)
    else if s[0] == '+' then DigitsValue(s[1..])
    else DigitsValue(s)
  }

  /**
   * strconv.Atoi: `Some(n)` for an optionally signed decimal whose value fits
   * in 64 bits, `None` (Go's syntax or range error) for anything else: the empty
   * string, a lone sign, any other character (white space, `_`, `0x`), or a
   * value out of range.
   */
  function Atoi(s: string): (r: Option<Int64>)
    ensures r.Some? ==> s != "+" && s != "-"
    ensures r.Some? ==> |s| > 0 && (IsDigit(s[0]) || s[0] == '+' || s[0] == '-') && AllDigits(s[1..])
    ensures r.Some? ==> (s[0] == '-' ==> r.value <= 0) && (s[0] != '-' ==> r.value >= 0)
    ensures |s| > 0 && AllDigits(s) && DigitsValue(s) <= MaxInt64 ==> r == Some(DigitsValue(s))
  {
    if IsDecimal(s) && MinInt64 <= DecimalValue(s) <= MaxInt64 then Some(DecimalValue(s)) else None
  }

  /** A character other than a leading sign that is not a digit makes Atoi fail. */
  lemma AtoiRejectsNonDigit(s: string, k: nat)
    requires k < |s| && !IsDigit(s[k])
    requires k == 0 ==> s[0] != '+' && s[0] != '-'
    ensures Atoi(s) == None
  {
    if |s| > 0 && (s[0] == '+' || s[0] == '-') {
      assert s[1..][k - 1] == s[k];
    }
  }

  /** The empty string and a lone sign are not integers. */
  lemma AtoiRejectsEmpty()
    ensures Atoi("") == None && Atoi("+") == None && Atoi("-") == None
  {
  }

  /** Leading zeros and a plus sign are accepted: "+007" is 7, "-0" is 0. */
  lemma AtoiExamples()
    ensures Atoi("+007") == Some(7) && Atoi("-0") == Some(0) && Atoi("42") == Some(42)
  {
    assert "+007"[1..] == "007";
    assert "007"[..2] == "00" && "00"[..1] == "0" && "0"[..0] == "";
    assert "-0"[1..] == "0";
    assert "42"[..1] == "4" && "4"[..0] == "";
  }

  function DigitChar(d: int): (c: char)
    requires 0 <= d < 10
    ensures IsDigit(c) && c as int - '0' as int == d
  {
    ('0' as int + d) as char
  }

  /** The shortest decimal digits of a natural number. */
  function FormatNat(n: nat): (s: string)
    ensures |s| > 0 && AllDigits(s)
  {
    if n < 10 then [DigitChar(n)] else FormatNat(n / 10) + [DigitChar(n % 10)]
  }

  /** strconv.FormatInt(n, 10): a minus sign for negative numbers, then the digits. */
  function FormatInt(n: Int64): (s: string)
    ensures |s| > 0
    ensures IsDecimal(s)
  {
    if n < 0 then "-" + FormatNat(-(n as int)) else FormatNat(n)
  }

  lemma {:induction false} FormatNatValue(n: nat)
    ensures DigitsValue(FormatNat(n)) == n
  {
    var s := FormatNat(n);
    if n >= 10 {
      assert s[..|s| - 1] == FormatNat(n / 10);
      FormatNatValue(n / 10);
    }
  }

  /** Parsing a formatted 64-bit integer gives it back. */
  lemma FormatIntRoundTrip(n: Int64)
    ensures Atoi(FormatInt(n)) == Some(n)
  {
    FormatIntValue(n);
  }

  lemma FormatIntValue(n: Int64)
    ensures DecimalValue(FormatInt(n)) == n
  {
    var s := FormatInt(n);
    if n < 0 {
      var m: nat := -(n as int);
      FormatNatValue(m);
      assert s[1..] == FormatNat(m);
    } else {
      FormatNatValue(n);
      assert IsDigit(s[0]);
    }
  }
}
