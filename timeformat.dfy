/** The `m:ss` clock shown beside the seek bar.

    A playback position in seconds is shown as whole minutes, a colon, and the
    whole seconds within the minute padded to two digits. Zero is shown as
    "0:00" by a special case. Times are media positions, so they are never
    negative; NaN is not representable here. */
module TimeFormat {

  /** Rounding toward zero, as JavaScript's `%` uses for its quotient. */
  function Trunc(x: real): (n: int)
    ensures 0.0 <= x ==> n == x.Floor
  {
    if x >= 0.0 then x.Floor else -((-x).Floor)
  }

  /** JavaScript's `%` on numbers: what is left after removing a truncated multiple of `y`. */
  function JsRem(x: real, y: real): real
    requires y != 0.0
  {
    x - y * Trunc(x / y) as real
  }

  predicate IsDigit(c: char) {
    '0' <= c <= '9'
  }

  predicate AllDigits(s: string) {
    forall i :: 0 <= i < |s| ==> IsDigit(s[i])
  }

  /** A decimal numeral as JavaScript prints a whole number: digits only, and no leading zero
      unless the number is zero itself. */
  predicate IsNumeral(s: string) {
    |s| >= 1 && AllDigits(s) && (s[0] == '0' ==> |s| == 1)
  }

  function DigitChar(d: int): (c: char)
    requires 0 <= d < 10
    ensures IsDigit(c) && c as int - '0' as int == d
  {
    ('0' as int + d) as char
  }

  /** The number a string of decimal digits denotes. */
  function DigitsValue(s: string): nat
    requires AllDigits(s)
  {
    if s == [] then 0
    else DigitsValue(s[..|s| - 1]) * 10 + (s[|s| - 1] as int - '0' as int)
  }

  /** The numeral of `n`, as `${n}` prints a whole number below 10^21. */
  function Decimal(n: nat): (s: string)
    ensures IsNumeral(s) && DigitsValue(s) == n
    ensures n < 10 <==> |s| == 1
  {
    if n < 10 then [DigitChar(n)]
    else
      var p := Decimal(n / 10);
      var s := p + [DigitChar(n % 10)];
      assert s[..|s| - 1] == p;
      assert p[0] != '0' by {
        if |p| == 1 { assert p[..0] == []; }
      }
      s
  }

  /** Every numeral is the printed form of its value, so `Decimal` and `DigitsValue`
      are inverse on numerals. */
  lemma {:induction false} NumeralRoundTrip(s: string)
    requires IsNumeral(s)
    ensures Decimal(DigitsValue(s)) == s
  {
    var n := DigitsValue(s);
    var p := s[..|s| - 1];
    if |s| == 1 {
      assert p == [];
    } else {
      assert IsNumeral(p) by {
        assert p[0] == s[0];
      }
      NumeralRoundTrip(p);
      assert n / 10 == DigitsValue(p) && n % 10 == s[|s| - 1] as int - '0' as int;
      assert s == p + [s[|s| - 1]];
    }
  }

  /** For a non-negative time the minutes are the whole seconds divided by 60 and the
      seconds field is their remainder: `Math.floor(x / 60)` and `Math.floor(x % 60)`. */
  lemma ClockFields(x: real)
    requires x >= 0.0
    ensures (x / 60.0).Floor == x.Floor / 60
    ensures JsRem(x, 60.0).Floor == x.Floor % 60
  {
    var n, q := x.Floor, (x / 60.0).Floor;
    assert 60 * q <= n < 60 * q + 60;
    assert JsRem(x, 60.0) == x - 60.0 * q as real;
    var f := (x - 60.0 * q as real).Floor;
    assert f == n - 60 * q;
  }

  /** The seconds part of the clock, `${s < 10 ? '0' : ''}${s}`: always two digits. */
  function SecondsField(s: int): (f: string)
    requires 0 <= s < 60
    ensures |f| == 2 && AllDigits(f) && DigitsValue(f) == s
    ensures f[0] == '0' <==> s < 10
  {
    var f := (if s < 10 then "0" else "") + Decimal(s);
    assert f[..1] == [f[0]];
    f
  }

  /** `formatTime(seconds)` for a non-negative time. */
  function FormatTime(seconds: real): (r: string)
    requires seconds >= 0.0
    ensures seconds == 0.0 ==> r == "0:00"
    ensures |r| >= 4 && r[|r| - 3] == ':'
    ensures IsNumeral(r[..|r| - 3]) && DigitsValue(r[..|r| - 3]) == seconds.Floor / 60
    ensures AllDigits(r[|r| - 2..]) && DigitsValue(r[|r| - 2..]) == seconds.Floor % 60
    ensures r[|r| - 2] == '0' <==> seconds.Floor % 60 < 10
  {
    if seconds == 0.0 then
      assert "0:00"[..1] == "0" && "0:00"[2..] == "00";
      "0:00"
    else
      ClockFields(seconds);
      var m := (seconds / 60.0).Floor;
      var s := JsRem(seconds, 60.0).Floor;
      var field := SecondsField(s);
      var r := Decimal(m) + ":" + field;
      assert r[..|r| - 3] == Decimal(m) && r[|r| - 2..] == field;
      r
  }
}
