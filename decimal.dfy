/** Go's `strconv.Atoi` and `strconv.Itoa` on a 64-bit platform, as the memory
    cache and the login-rate store use them for attempt counters. */
module Decimal {
  import opened Wrappers

  const MaxInt64: int := 0x7FFF_FFFF_FFFF_FFFF
  const MinInt64: int := -0x8000_0000_0000_0000
  const MaxUint64: int := 0xFFFF_FFFF_FFFF_FFFF

  /** `strconv.ErrSyntax`, or `strconv.ErrRange` together with the clamped value
      that `Atoi` returns beside it. */
  datatype NumError = ErrSyntax | ErrRange(clamped: int)

  predicate IsDigit(c: char) {
    '0' <= c <= '9'
  }

  predicate AllDigits(s: string) {
    forall i :: 0 <= i < |s| ==> IsDigit(s[i])
  }

  function DigitValue(c: char): (d: nat)
    requires IsDigit(c)
    ensures d < 10
  {
    (c as int) - ('0' as int)
  }

  function DigitChar(d: nat): (c: char)
    requires d < 10
    ensures IsDigit(c) && DigitValue(c) == d
  {
    (('0' as int) + d) as char
  }

  /** Value of a digit string read left to right, starting from `acc`. */
  function ValueFrom(s: string, acc: nat): nat
    requires AllDigits(s)
    decreases |s|
  {
    if |s| == 0 then acc else ValueFrom(s[1..], acc * 10 + DigitValue(s[0]))
  }

  /** The scan of `strconv.ParseUint` in base 10: characters left to right;
      the first non-digit is a syntax error, and a range error is reported as
      soon as the accumulated value would exceed the 64-bit unsigned maximum. */
  function ScanDigits(s: string, acc: nat): Result<nat, NumError>
    requires acc <= MaxUint64
    decreases |s|
  {
    if |s| == 0 then Ok(acc)
    else if !IsDigit(s[0]) then Err(ErrSyntax)
    else if acc * 10 + DigitValue(s[0]) > MaxUint64 then Err(ErrRange(MaxUint64))
    else ScanDigits(s[1..], acc * 10 + DigitValue(s[0]))
  }

  /** `strconv.Atoi`: an optional sign, then decimal digits, within the
      64-bit signed range. */
  function Atoi(s: string): (r: Result<int, NumError>)
    ensures r.Ok? ==> MinInt64 <= r.value <= MaxInt64
    ensures r.Err? && r.error.ErrRange? ==> r.error.clamped in {MinInt64, MaxInt64}
    ensures s == [] ==> r == Err(ErrSyntax)
  {
    if |s| == 0 then Err(ErrSyntax)
    else
      var neg := s[0] == '-';
      var digits := if s[0] == '+' || s[0] == '-' then s[1..] else s;
      if |digits| == 0 then Err(ErrSyntax)
      else match ScanDigits(digits, 0)
        case Err(ErrSyntax) => Err(ErrSyntax)
        case Err(ErrRange(_)) => Err(ErrRange(if neg then MinInt64 else MaxInt64))
        case Ok(u) =>
          if !neg && u > MaxInt64 then Err(ErrRange(MaxInt64))
          else if neg && u > -MinInt64 then Err(ErrRange(MinInt64))
          else
            var v: int := u;
            Ok(if neg then -v else v)
  }

  /** The integer `strconv.Atoi` returns beside its error: the parsed value,
      0 on a syntax error, the clamped bound on a range error. */
  function AtoiValue(s: string): (n: int)
    ensures MinInt64 <= n <= MaxInt64
    ensures Atoi(s).Ok? ==> n == Atoi(s).value
    ensures Atoi(s) == Err(ErrSyntax) ==> n == 0
    ensures Atoi(s).Err? && Atoi(s).error.ErrRange? ==> n == Atoi(s).error.clamped
    ensures s == [] ==> n == 0
  {
    match Atoi(s)
    case Ok(n) => n
    case Err(ErrSyntax) => 0
    case Err(ErrRange(v)) => v
  }

  /** Decimal digits of a natural number, without leading zeros. */
  function DigitsOf(n: nat): (s: string)
    ensures |s| >= 1 && AllDigits(s)
    decreases n
  {
    if n < 10 then [DigitChar(n)] else DigitsOf(n / 10) + [DigitChar(n % 10)]
  }

  /** `strconv.Itoa`. */
  function Itoa(n: int): (s: string)
    ensures |s| >= 1
    ensures n >= 0 <==> IsDigit(s[0])
  {
    if n < 0 then "-" + DigitsOf(-n) else DigitsOf(n)
  }

  /** Go's `int` addition on a 64-bit platform wraps around. */
  function Wrap64(n: int): (r: int)
    ensures MinInt64 <= r <= MaxInt64
    ensures MinInt64 <= n <= MaxInt64 ==> r == n
  {
    (n - MinInt64) % (MaxUint64 + 1) + MinInt64
  }

  lemma {:induction false} ValueFromAppend(s: string, c: char, acc: nat)
    requires AllDigits(s) && IsDigit(c)
    ensures AllDigits(s + [c])
    ensures ValueFrom(s + [c], acc) == ValueFrom(s, acc) * 10 + DigitValue(c)
    decreases |s|
  {
    if |s| > 0 {
      assert (s + [c])[1..] == s[1..] + [c];
      ValueFromAppend(s[1..], c, acc * 10 + DigitValue(s[0]));
    }
  }

  lemma {:induction false} ValueFromAtLeast(s: string, acc: nat)
    requires AllDigits(s)
    ensures ValueFrom(s, acc) >= acc
    decreases |s|
  {
    if |s| > 0 { ValueFromAtLeast(s[1..], acc * 10 + DigitValue(s[0])); }
  }

  /** A digit string whose value fits in 64 bits scans to that value. */
  lemma {:induction false} ScanDigitsValue(s: string, acc: nat)
    requires AllDigits(s) && ValueFrom(s, acc) <= MaxUint64
    ensures acc <= MaxUint64 && ScanDigits(s, acc) == Ok(ValueFrom(s, acc))
    decreases |s|
  {
    ValueFromAtLeast(s, acc);
    if |s| > 0 {
      var next := acc * 10 + DigitValue(s[0]);
      ValueFromAtLeast(s[1..], next);
      ScanDigitsValue(s[1..], next);
    }
  }

  lemma {:induction false} ValueOfDigitsOf(n: nat)
    ensures ValueFrom(DigitsOf(n), 0) == n
    decreases n
  {
    if n >= 10 {
      ValueOfDigitsOf(n / 10);
      ValueFromAppend(DigitsOf(n / 10), DigitChar(n % 10), 0);
    }
  }

  /** Parsing the decimal text of a 64-bit integer gives the integer back:
      `strconv.Atoi(strconv.Itoa(n)) == n`. */
  lemma AtoiItoa(n: int)
    requires MinInt64 <= n <= MaxInt64
    ensures Atoi(Itoa(n)) == Ok(n)
  {
    var m: nat := if n < 0 then -n else n;
    ValueOfDigitsOf(m);
    ScanDigitsValue(DigitsOf(m), 0);
    var s := Itoa(n);
    if n < 0 {
      assert s[1..] == DigitsOf(m);
    } else {
      assert s == DigitsOf(m);
    }
  }

  lemma AtoiValueItoa(n: int)
    requires MinInt64 <= n <= MaxInt64
    ensures AtoiValue(Itoa(n)) == n
  {
    AtoiItoa(n);
  }
}
