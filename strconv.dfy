/**
 * The parts of Go's strconv package the client relies on: decimal rendering
 * of 64-bit integers (FormatInt, Itoa), ParseInt in base 10 with bit size 64,
 * and FormatBool. These are library functions of Go, modelled after their
 * documented behaviour because the properties of the client depend on them.
 */
module Strconv {
  import opened Wrappers

  const MinInt64: int := -0x8000_0000_0000_0000
  const MaxInt64: int := 0x7fff_ffff_ffff_ffff
  const MaxUint64: int := 0xffff_ffff_ffff_ffff

  /** Go's int64 (and int, which is 64 bits wide on the platforms the library targets). */
  type Int64 = x: int | MinInt64 <= x <= MaxInt64

  /** The Err field of the *strconv.NumError that ParseInt returns. */
  datatype NumError = ErrSyntax | ErrRange

  predicate IsDigit(c: char) {
    '0' <= c <= '9'
  }

  function DigitValue(c: char): (d: nat)
    requires IsDigit(c)
    ensures d < 10
  {
    (c as int) - ('0' as int)
  }

  function DigitChar(d: nat): (c: char)
    requires d < 10
    ensures IsDigit(c) && DigitValue(c) == d
  {
    (('0' as int) + d) as char
  }

  /** Decimal digits of a natural number, most significant first, without leading zeros. */
  function Digits(n: nat): (s: string)
    ensures |s| > 0
    decreases n
  {
    if n < 10 then [DigitChar(n)] else Digits(n / 10) + [DigitChar(n % 10)]
  }

  /** strconv.FormatInt(n, 10); strconv.Itoa is the same rendering. */
  function FormatInt(n: int): (s: string)
    ensures |s| > 0
  {
    if n < 0 then "-" + Digits(-n) else Digits(n)
  }

  /** strconv.FormatBool. */
  function FormatBool(b: bool): (s: string)
    ensures s == "true" || s == "false"
    ensures ParseBool(s) == b
  {
    if b then "true" else "false"
  }

  /** The inverse of FormatBool on its two outputs (a partner for the round trip, not strconv.ParseBool). */
  function ParseBool(s: string): bool {
    s == "true"
  }

  /**
   * The digit loop of strconv.ParseUint for base 10 and bit size 64, starting
   * from the accumulated value acc: a byte that is not a digit is a syntax
   * error, and an accumulated value above the uint64 maximum is a range error,
   * reported at the byte where it happens.
   */
  function ScanUint(s: string, acc: nat): Result<nat, NumError>
    decreases |s|
  {
    if s == [] then Ok(acc)
    else if !IsDigit(s[0]) then Err(ErrSyntax)
    else
      var n := acc * 10 + DigitValue(s[0]);
      if n > MaxUint64 then Err(ErrRange) else ScanUint(s[1..], n)
  }

  /** strconv.ParseUint(s, 10, 64). */
  function ParseUint(s: string): (r: Result<nat, NumError>)
    ensures r.Ok? ==> r.value <= MaxUint64
  {
    if s == [] then Err(ErrSyntax) else ScanUintMax(s, 0); ScanUint(s, 0)
  }

  /** strconv.ParseInt(s, 10, 64): an optional sign, then ParseUint, then the int64 range check. */
  function ParseInt(s: string): (r: Result<Int64, NumError>)
    ensures s == [] ==> r == Err(ErrSyntax)
  {
    if s == [] then Err(ErrSyntax)
    else
      var neg := s[0] == '-';
      var digits := if s[0] == '+' || s[0] == '-' then s[1..] else s;
      match ParseUint(digits)
      case Err(e) => Err(e)
      case Ok(u) =>
        if !neg && u > MaxInt64 then Err(ErrRange)
        else if neg && u > MaxInt64 + 1 then Err(ErrRange)
        else
          var v: Int64 := if neg then -(u as int) else u;
          Ok(v)
  }

  lemma {:induction false} ScanUintMax(s: string, acc: nat)
    requires acc <= MaxUint64
    ensures ScanUint(s, acc).Ok? ==> ScanUint(s, acc).value <= MaxUint64
    decreases |s|
  {
    if s != [] && IsDigit(s[0]) {
      var n := acc * 10 + DigitValue(s[0]);
      if n <= MaxUint64 {
        ScanUintMax(s[1..], n);
      }
    }
  }

  /** Scanning one more byte continues from the value scanned so far. */
  lemma {:induction false} ScanUintSnoc(s: string, c: char, acc: nat)
    ensures ScanUint(s + [c], acc) ==
      match ScanUint(s, acc)
      case Err(e) => Err(e)
      case Ok(v) =>
        if !IsDigit(c) then Err(ErrSyntax)
        else if v * 10 + DigitValue(c) > MaxUint64 then Err(ErrRange)
        else Ok(v * 10 + DigitValue(c))
    decreases |s|
  {
    if s == [] {
      assert [c][1..] == [];
    } else {
      assert (s + [c])[0] == s[0];
      assert (s + [c])[1..] == s[1..] + [c];
      if IsDigit(s[0]) && acc * 10 + DigitValue(s[0]) <= MaxUint64 {
        ScanUintSnoc(s[1..], c, acc * 10 + DigitValue(s[0]));
      }
    }
  }

  /** The digits of n scan back to n, or to a range error when n does not fit in 64 unsigned bits. */
  lemma {:induction false} ScanDigits(n: nat)
    ensures ScanUint(Digits(n), 0) == if n <= MaxUint64 then Ok(n) else Err(ErrRange)
    decreases n
  {
    if n < 10 {
      assert Digits(n) == [DigitChar(n)];
      assert Digits(n)[1..] == [];
    } else {
      ScanDigits(n / 10);
      ScanUintSnoc(Digits(n / 10), DigitChar(n % 10), 0);
    }
  }

  /**
   * Round trip of FormatInt through ParseInt: every int64 is recovered, and a
   * value outside the int64 range is rejected with a range error.
   */
  lemma ParseFormatInt(n: int)
    ensures ParseInt(FormatInt(n)) == if MinInt64 <= n <= MaxInt64 then Ok(n as Int64) else Err(ErrRange)
  {
    if n < 0 {
      var s := FormatInt(n);
      assert s[0] == '-' && s[1..] == Digits(-n);
      ScanDigits(-n);
    } else {
      var s := Digits(n);
      assert IsDigit(s[0]) by { DigitsAreDigits(n); }
      ScanDigits(n);
    }
  }

  lemma {:induction false} DigitsAreDigits(n: nat)
    ensures forall i :: 0 <= i < |Digits(n)| ==> IsDigit(Digits(n)[i])
    decreases n
  {
    if n >= 10 {
      DigitsAreDigits(n / 10);
    }
  }

  /** FormatInt is injective: distinct integers render differently. */
  lemma FormatIntInjective(a: Int64, b: Int64)
    requires FormatInt(a) == FormatInt(b)
    ensures a == b
  {
    ParseFormatInt(a);
    ParseFormatInt(b);
  }

  /** A rendered integer holds only digits and at most a leading minus sign. */
  lemma FormatIntChars(n: int)
    ensures forall i :: 0 <= i < |FormatInt(n)| ==> IsDigit(FormatInt(n)[i]) || (i == 0 && FormatInt(n)[i] == '-')
  {
    if n < 0 {
      DigitsAreDigits(-n);
      assert forall i :: 1 <= i < |FormatInt(n)| ==> FormatInt(n)[i] == Digits(-n)[i - 1];
    } else {
      DigitsAreDigits(n);
    }
  }
}
