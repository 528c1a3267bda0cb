/** Go's `time.Duration.String`, which the store uses to tell a rate-limited
    user how long to wait: "1h2m3.5s" from a second upwards, and "1.5ms",
    "2µs" or "7ns" below. */
module GoDuration {
  import opened Decimal

  const Microsecond: nat := 1_000
  const Millisecond: nat := 1_000_000
  const Second: nat := 1_000_000_000

  function Pow10(n: nat): (p: nat)
    ensures p >= 1
  {
    if n == 0 then 1 else 10 * Pow10(n - 1)
  }

  /** The `prec` lowest decimal digits of `v`, as `fmtFrac` prints them: from
      the lowest non-zero digit upwards; `printing` tells whether a lower
      digit was already printed. */
  function FracDigits(v: nat, prec: nat, printing: bool): string
    decreases prec
  {
    if prec == 0 then ""
    else
      var p := printing || v % 10 != 0;
      FracDigits(v / 10, prec - 1, p) + (if p then [DigitChar(v % 10)] else "")
  }

  /** `fmtFrac`: the fractional part of v / 10^prec without trailing zeros,
      after a '.', or nothing when it is zero. */
  function Frac(v: nat, prec: nat): string
  {
    if v % Pow10(prec) == 0 then "" else "." + FracDigits(v, prec, false)
  }

  /** `time.Duration.String` for a duration in nanoseconds. */
  function DurationString(d: int): (s: string)
    ensures |s| >= 2
    ensures s[|s| - 1] == 's'
    ensures d < 0 <==> s[0] == '-'
    ensures d == 0 ==> s == "0s"
  {
    var u: nat := if d < 0 then -d else d;
    var unsigned :=
      if u < Second then
        if u == 0 then "0s"
        else if u < Microsecond then DigitsOf(u) + "ns"
        else if u < Millisecond then DigitsOf(u / Pow10(3)) + Frac(u, 3) + "µs"
        else DigitsOf(u / Pow10(6)) + Frac(u, 6) + "ms"
      else
        var secs := u / Second;
        var minutes := secs / 60;
        var hours := minutes / 60;
        var tail := DigitsOf(secs % 60) + Frac(u, 9) + "s";
        if minutes == 0 then tail
        else if hours == 0 then DigitsOf(minutes % 60) + "m" + tail
        else DigitsOf(hours) + "h" + DigitsOf(minutes % 60) + "m" + tail;
    if d < 0 then "-" + unsigned else unsigned
  }

  lemma Pow10Nine()
    ensures Pow10(9) == Second
  {
    assert Pow10(3) == 1000;
    assert Pow10(6) == 1000 * Pow10(3);
    assert Pow10(9) == 1000 * Pow10(6);
  }

  /** A minute and a half is written with its minutes and seconds. */
  lemma MinuteAndAHalf()
    ensures DurationString(90 * Second) == "1m30s"
  {
    Pow10Nine();
    assert (90 * Second) % Pow10(9) == 0;
    assert Frac(90 * Second, 9) == "";
    assert DigitsOf(30) == "30" && DigitsOf(1) == "1";
  }

  /** w followed by k zero digits. */
  ghost function Shifted(w: nat, k: nat): nat
  {
    if k == 0 then w else 10 * Shifted(w, k - 1)
  }

  /** Below the lowest non-zero digit nothing is printed: a number whose
      last digit is non-zero, followed by k zeros, prints as that digit
      alone over k + 1 places. */
  lemma {:induction false} FracDigitsOfShiftedDigit(w: nat, k: nat)
    requires w % 10 != 0
    ensures FracDigits(Shifted(w, k), k + 1, false) == [DigitChar(w % 10)]
    decreases k
  {
    if k > 0 {
      var t := Shifted(w, k - 1);
      assert Shifted(w, k) % 10 == 0 && Shifted(w, k) / 10 == t;
      FracDigitsOfShiftedDigit(w, k - 1);
    }
  }

  /** From one second up to a minute, only seconds and their fraction are
      written. */
  lemma UnderAMinute(u: nat)
    requires Second <= u < 60 * Second
    ensures DurationString(u) == DigitsOf(u / Second) + Frac(u, 9) + "s"
  {
    assert u / Second < 60;
  }

  lemma TenthsArithmetic(secs: nat, tenth: nat)
    requires 1 <= tenth <= 9
    ensures (secs * 10 + tenth) % 10 == tenth
    ensures secs * 1_000_000_000 + tenth * 100_000_000 == 100_000_000 * (secs * 10 + tenth)
    ensures (secs * 1_000_000_000 + tenth * 100_000_000) / Second == secs
    ensures (secs * 1_000_000_000 + tenth * 100_000_000) % 1_000_000_000 != 0
  {
  }

  lemma ShiftedEight(w: nat)
    ensures Shifted(w, 8) == 100_000_000 * w
  {
    assert Shifted(w, 1) == 10 * w;
    assert Shifted(w, 2) == 100 * w;
    assert Shifted(w, 3) == 1000 * w;
    assert Shifted(w, 4) == 10_000 * w;
    assert Shifted(w, 5) == 100_000 * w;
    assert Shifted(w, 6) == 1_000_000 * w;
    assert Shifted(w, 7) == 10_000_000 * w;
  }

  /** Tenths of a second are printed as one digit after the point: the
      zeros below it are dropped. */
  lemma TenthsFraction(secs: nat, tenth: nat)
    requires 1 <= tenth <= 9
    ensures Frac(secs * 1_000_000_000 + tenth * 100_000_000, 9) == "." + [DigitChar(tenth)]
  {
    var w := secs * 10 + tenth;
    var u := secs * 1_000_000_000 + tenth * 100_000_000;
    Pow10Nine();
    ShiftedEight(w);
    TenthsArithmetic(secs, tenth);
    assert u == Shifted(w, 8);
    FracDigitsOfShiftedDigit(w, 8);
    assert FracDigits(u, 9, false) == [DigitChar(tenth)];
    assert u % Pow10(9) != 0;
  }

  /** Between one and fifty-nine seconds, a duration with tenths is written
      as the seconds, a point and the one significant digit. */
  lemma SecondsAndTenths(secs: nat, tenth: nat)
    requires 1 <= secs < 60 && 1 <= tenth <= 9
    ensures DurationString(secs * 1_000_000_000 + tenth * 100_000_000)
            == DigitsOf(secs) + "." + [DigitChar(tenth)] + "s"
  {
    var u := secs * 1_000_000_000 + tenth * 100_000_000;
    TenthsArithmetic(secs, tenth);
    TenthsFraction(secs, tenth);
    UnderAMinute(u);
    assert DigitsOf(secs) + ("." + [DigitChar(tenth)]) + "s" == DigitsOf(secs) + "." + [DigitChar(tenth)] + "s";
  }
}
