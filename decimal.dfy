/** Go's 64-bit integers and the base-10 conversions the program uses:
    `strconv.ParseInt(s, 10, 0)` on a 64-bit platform, `%d` formatting, and the
    `uint64(n)` conversion of a signed value. */
module Decimal {

  const INT64_MIN: int := -0x8000_0000_0000_0000
  const INT64_MAX: int := 0x7fff_ffff_ffff_ffff
  const UINT64_MAX: int := 0xffff_ffff_ffff_ffff
  const UINT64_MODULUS: int := 0x1_0000_0000_0000_0000

  type Int64 = x: int | INT64_MIN <= x <= INT64_MAX
  type Uint64 = x: int | 0 <= x <= UINT64_MAX

  /** Go's `uint64(n)`: the two's-complement bits of `n` read as unsigned. */
  function ToUint64(n: Int64): (r: Uint64)
    ensures (r - n) % UINT64_MODULUS == 0
    ensures 0 <= n ==> r == n
    ensures n < 0 ==> r > INT64_MAX
  {
    if n < 0 then n + UINT64_MODULUS else n
  }

  predicate IsDigit(c: char) {
    '0' <= c <= '9'
  }

  function DigitValue(c: char): (d: nat)
    requires IsDigit(c)
    ensures d < 10
  {
    (c as int) - ('0' as int)
  }

  function DigitChar(d: nat): (c: char)
    requires d < 10
    ensures IsDigit(c) && DigitValue(c) == d
  {
    (('0' as int) + d) as char
  }

  /** The error kinds of strconv's `NumError`, plus "no error". */
  datatype NumError = NoError | ErrSyntax | ErrRange

  datatype Parsed = Parsed(value: int, err: NumError)

  /** The digit loop of `strconv.ParseUint(s, 10, 64)`, with `acc` the value of the
      digits already consumed: a non-digit is a syntax error; the first digit that takes
      the value past 2^64-1 is a range error with the largest value, even when a
      non-digit follows it. */
  function ParseUintFrom(s: string, acc: nat): (r: Parsed)
    requires acc <= UINT64_MAX
    ensures 0 <= r.value <= UINT64_MAX
    ensures r.err == ErrSyntax ==> r.value == 0
    ensures r.err == ErrRange ==> r.value == UINT64_MAX
    ensures r.err == NoError ==> forall i :: 0 <= i < |s| ==> IsDigit(s[i])
    ensures (forall i :: 0 <= i < |s| ==> IsDigit(s[i])) ==> r.err != ErrSyntax
    decreases |s|
  {
    if s == [] then Parsed(acc, NoError)
    else if !IsDigit(s[0]) then Parsed(0, ErrSyntax)
    else
      var next := acc * 10 + DigitValue(s[0]);
      if next > UINT64_MAX then Parsed(UINT64_MAX, ErrRange)
      else ParseUintFrom(s[1..], next)
  }

  /** The digits after an optional leading sign. */
  function Unsigned(s: string): string
    requires s != []
  {
    if s[0] == '+' || s[0] == '-' then s[1..] else s
  }

  /** `strconv.ParseInt(s, 10, 0)`: an optional sign, then ParseUint's digits; an empty
      string or sign alone is a syntax error; out-of-range values clamp to the nearest
      bound with a range error. */
  function ParseInt(s: string): (r: Parsed)
    ensures INT64_MIN <= r.value <= INT64_MAX
    ensures r.err == ErrSyntax ==> r.value == 0
    ensures r.err == ErrRange ==> s != [] && (r.value == INT64_MAX || r.value == INT64_MIN) && (r.value == INT64_MIN <==> s[0] == '-')
    ensures s == [] ==> r == Parsed(0, ErrSyntax)
    // No error exactly for an optional sign followed by at least one digit and only
    // digits, whose value is in range.
    ensures r.err == NoError ==> s != [] && Unsigned(s) != [] && forall i :: 0 <= i < |Unsigned(s)| ==> IsDigit(Unsigned(s)[i])
    ensures s != [] && Unsigned(s) != [] && (forall i :: 0 <= i < |Unsigned(s)| ==> IsDigit(Unsigned(s)[i]))
            ==> r.err != ErrSyntax
  {
    if s == [] then Parsed(0, ErrSyntax)
    else
      var neg := s[0] == '-';
      var digits := Unsigned(s);
      var u := if digits == [] then Parsed(0, ErrSyntax) else ParseUintFrom(digits, 0);
      if u.err == ErrSyntax then Parsed(0, ErrSyntax)
      else if !neg && u.value > INT64_MAX then Parsed(INT64_MAX, ErrRange)
      else if neg && u.value > -INT64_MIN then Parsed(INT64_MIN, ErrRange)
      else Parsed(if neg then -u.value else u.value, NoError)
  }

  /** The decimal digits of `n`, most significant first, without leading zeros. */
  function Digits(n: nat): (s: string)
    ensures |s| > 0 && IsDigit(s[0])
    ensures forall i :: 0 <= i < |s| ==> IsDigit(s[i])
  {
    if n < 10 then [DigitChar(n)] else Digits(n / 10) + [DigitChar(n % 10)]
  }

  /** `%d` of an integer: a minus sign for negative values, then the digits. */
  function FormatInt(n: int): (s: string)
    ensures n == 0 ==> s == "0"
    ensures |s| > 0 && (s[0] == '-' <==> n < 0)
  {
    if n < 0 then "-" + Digits(-n) else Digits(n)
  }

  lemma {:induction false} ParseUintFromConcat(a: string, b: string, acc: nat, v: nat)
    requires acc <= UINT64_MAX
    requires ParseUintFrom(a, acc) == Parsed(v, NoError)
    ensures ParseUintFrom(a + b, acc) == ParseUintFrom(b, v)
    decreases |a|
  {
    if a == [] {
      assert a + b == b;
    } else {
      var next := acc * 10 + DigitValue(a[0]);
      assert (a + b)[0] == a[0];
      assert (a + b)[1..] == a[1..] + b;
      ParseUintFromConcat(a[1..], b, next, v);
    }
  }

  lemma {:induction false} ParseUintDigits(n: nat)
    requires n <= UINT64_MAX
    ensures ParseUintFrom(Digits(n), 0) == Parsed(n, NoError)
    decreases n
  {
    if n >= 10 {
      ParseUintDigits(n / 10);
      ParseUintFromConcat(Digits(n / 10), [DigitChar(n % 10)], 0, n / 10);
    }
  }

  /** Formatting with `%d` and parsing back with ParseInt is the identity on every
      int64. */
  lemma FormatThenParse(n: Int64)
    ensures ParseInt(FormatInt(n)) == Parsed(n, NoError)
  {
    if n < 0 {
      var m: nat := -(n as int);
      ParseUintDigits(m);
      assert FormatInt(n)[1..] == Digits(m);
    } else {
      ParseUintDigits(n);
    }
  }

  /** An explicit plus sign parses like no sign at all. */
  lemma ParseIntPlusSign(n: nat)
    requires n <= INT64_MAX
    ensures ParseInt("+" + Digits(n)) == Parsed(n, NoError)
  {
    ParseUintDigits(n);
    assert Unsigned("+" + Digits(n)) == Digits(n);
  }

  /** A leading zero before unsigned digits changes neither the value nor the error. */
  lemma ParseIntLeadingZero(s: string)
    requires s != [] && s[0] != '+' && s[0] != '-'
    ensures ParseInt("0" + s) == ParseInt(s)
  {
    assert ("0" + s)[0] == '0';
    assert ("0" + s)[1..] == s;
  }

  /** `-0` is zero, without an error. */
  lemma ParseIntNegativeZero()
    ensures ParseInt("-0") == Parsed(0, NoError)
  {
    assert Unsigned("-0") == "0";
    assert ParseUintFrom("0", 0) == ParseUintFrom("", 0);
  }
}
