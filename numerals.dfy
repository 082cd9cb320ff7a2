/**
 * Decimal numerals: `str(n)`, `f"{n:02d}"`, `int(x)` on a float and
 * `float(run)` on a run of digits and dots.
 */
module Numerals {
  import opened Wrappers
  import opened Strings

  function DigitChar(d: nat): (c: char)
    requires d < 10
    ensures IsDigit(c)
  {
    ('0' as int + d) as char
  }

  function DigitValue(c: char): (d: nat)
    requires IsDigit(c)
    ensures d < 10
  {
    c as int - '0' as int
  }

  predicate AllDigits(s: string) {
    forall i :: 0 <= i < |s| ==> IsDigit(s[i])
  }

  /** The value of a run of decimal digits (`int(s)`); the empty run is worth 0. */
  function DigitsValue(s: string): nat
    requires AllDigits(s)
    decreases |s|
  {
    if s == [] then 0 else DigitsValue(s[..|s| - 1]) * 10 + DigitValue(s[|s| - 1])
  }

  function Pow10(n: nat): (r: nat)
    ensures r >= 1
  {
    if n == 0 then 1 else 10 * Pow10(n - 1)
  }

  /** `str(n)` for a natural number. */
  function NatToString(n: nat): (s: string)
    ensures |s| >= 1 && AllDigits(s)
    decreases n
  {
    if n < 10 then [DigitChar(n)] else NatToString(n / 10) + [DigitChar(n % 10)]
  }

  /** Reading back the digits `str(n)` writes gives `n`. */
  lemma {:induction false} NatToStringRoundTrip(n: nat)
    ensures DigitsValue(NatToString(n)) == n
    decreases n
  {
    var s := NatToString(n);
    if n >= 10 {
      NatToStringRoundTrip(n / 10);
      assert s[..|s| - 1] == NatToString(n / 10);
    }
  }

  /** Leading zeros do not change the value of a digit run. */
  lemma {:induction false} LeadingZero(s: string)
    requires AllDigits(s)
    ensures AllDigits("0" + s) && DigitsValue("0" + s) == DigitsValue(s)
    decreases |s|
  {
    var t := "0" + s;
    if s != [] {
      assert t[..|t| - 1] == "0" + s[..|s| - 1];
      LeadingZero(s[..|s| - 1]);
    }
  }

  /** `f"{n:02d}"`: at least two digits, zero-padded. */
  function Pad2(n: nat): (s: string)
    ensures |s| >= 2 && AllDigits(s)
  {
    if n < 10 then "0" + NatToString(n) else NatToString(n)
  }

  /** `f"{n:02d}"` is exactly two characters below 100 and reads back as `n`. */
  lemma Pad2RoundTrip(n: nat)
    ensures DigitsValue(Pad2(n)) == n
    ensures n < 100 ==> |Pad2(n)| == 2
  {
    NatToStringRoundTrip(n);
    if n < 10 {
      LeadingZero(NatToString(n));
    } else if n < 100 {
      assert NatToString(n) == NatToString(n / 10) + [DigitChar(n % 10)];
    }
  }

  /** `int(x)` on a float: truncation toward zero. */
  function Trunc(x: real): (r: int)
    ensures 0.0 <= x ==> 0 <= r && r as real <= x < r as real + 1.0
    ensures x < 0.0 ==> r <= 0 && r as real - 1.0 < x <= r as real
  {
    if x >= 0.0 then x.Floor else -((-x).Floor)
  }

  /** `max(a, b)` */
  function Max(a: int, b: int): int {
    if a >= b then a else b
  }

  function MaxReal(a: real, b: real): real {
    if a >= b then a else b
  }

  function MinReal(a: real, b: real): real {
    if a <= b then a else b
  }

  function AbsReal(x: real): (r: real)
    ensures r >= 0.0 && (r == x || r == -x)
  {
    if x >= 0.0 then x else -x
  }

  lemma ReciprocalFloorShrinks(x: real)
    requires 0.0 < x < 1.0
    ensures 0 <= (1.0 / (10.0 * x)).Floor < (1.0 / x).Floor
  {
    var y := 1.0 / x;
    assert y > 1.0;
    assert 1.0 / (10.0 * x) == y / 10.0;
    assert (y / 10.0).Floor as real <= y / 10.0;
    assert y.Floor >= 1;
  }

  /** `x` moved `k` decimal places up. */
  function ShiftUp(x: real, k: nat): real {
    x * Pow10(k) as real
  }

  /** `x` moved `k` decimal places down. */
  function ShiftDown(x: real, k: nat): real {
    x / Pow10(k) as real
  }

  /** The number of places a positive `x` below 10 moves up to land in [1, 10). */
  function ExponentUp(x: real): (k: nat)
    requires 0.0 < x < 10.0
    ensures 1.0 <= ShiftUp(x, k) < 10.0
    decreases (1.0 / x).Floor
  {
    if x >= 1.0 then 0
    else
      ReciprocalFloorShrinks(x);
      var k := ExponentUp(10.0 * x);
      assert ShiftUp(x, k + 1) == ShiftUp(10.0 * x, k);
      k + 1
  }

  /** The number of places an `x` of at least 1 moves down to land in [1, 10). */
  function ExponentDown(x: real): (k: nat)
    requires x >= 1.0
    ensures 1.0 <= ShiftDown(x, k) < 10.0
    decreases x.Floor
  {
    if x < 10.0 then 0
    else
      var k := ExponentDown(x / 10.0);
      assert ShiftDown(x, k + 1) == ShiftDown(x / 10.0, k);
      k + 1
  }

  /** Python's `str` writes a float in positional form exactly when its size is 0 or in [1e-4, 1e16). */
  predicate PositionalFloat(x: real) {
    x == 0.0 || 0.0001 <= AbsReal(x) < 10000000000000000.0
  }

  /**
   * What `re.search(r'[\d.]+', str(x))` reads back from a float: the size of
   * `x` when `str` writes it positionally, and otherwise the mantissa of the
   * exponent form (`5e-05`, `1.5e+16`), the size scaled into [1, 10).
   */
  function FloatReadBack(x: real): (r: real)
    ensures PositionalFloat(x) ==> r == AbsReal(x)
    ensures !PositionalFloat(x) ==> 1.0 <= r < 10.0
    ensures !PositionalFloat(x) ==> exists k: nat :: r == ShiftUp(AbsReal(x), k) || r == ShiftDown(AbsReal(x), k)
  {
    var a := AbsReal(x);
    if PositionalFloat(x) then a
    else if a < 1.0 then
      ShiftUp(a, ExponentUp(a))
    else
      ShiftDown(a, ExponentDown(a))
  }
  /** The digits `0` and `00005` around a point are worth 5e-05. */
  lemma FiveHundredThousandths()
    ensures AllDigits("0") && AllDigits("00005")
    ensures DecimalValue("0", "00005") == 0.00005
  {
    assert DigitsValue("5") == 5;
    LeadingZero("5");
    assert "0" + "5" == "05";
    LeadingZero("05");
    assert "0" + "05" == "005";
    LeadingZero("005");
    assert "0" + "005" == "0005";
    LeadingZero("0005");
    assert "0" + "0005" == "00005";
    assert DigitsValue("00005") == 5;
    assert DigitsValue("0") == 0;
    assert Pow10(5) == 100000;
  }

  /** `str(5e-05)` is `5e-05`, which reads back as 5. */
  lemma FiveMillionthsReadBack()
    ensures FloatReadBack(0.00005) == 5.0
  {
    assert ExponentUp(5.0) == 0;
    assert ExponentUp(0.5) == 1;
    assert ExponentUp(0.05) == 2;
    assert ExponentUp(0.005) == 3;
    assert ExponentUp(0.0005) == 4;
    assert ExponentUp(0.00005) == 5;
    assert Pow10(5) == 100000;
  }


  /** A run of digits and dots, as `[\d.]+` matches. */
  predicate IsDecimalRun(s: string) {
    |s| >= 1 && forall i :: 0 <= i < |s| ==> IsDigit(s[i]) || s[i] == '.'
  }

  /** The value of `i` digits, a point and `f` digits. */
  function DecimalValue(i: string, f: string): real
    requires AllDigits(i) && AllDigits(f)
  {
    DigitsValue(i) as real + DigitsValue(f) as real / Pow10(|f|) as real
  }

  /**
   * `float(run)` for a run of digits and dots: a value when there is at most
   * one point and at least one digit, and `None` where Python raises
   * `ValueError` (two points, or a lone point).
   */
  function ParseDecimalRun(run: string): (r: Option<real>)
    requires IsDecimalRun(run)
    ensures r.Some? ==> r.value >= 0.0
    ensures r.Some? <==> CountChar(run, '.') <= 1 && run != "."
  {
    var parts := SplitOn(run, '.');
    SplitJoin(run, '.');
    if |parts| == 1 then
      assert parts[0] == run;
      Some(DigitsValue(run) as real)
    else if |parts| == 2 then
      assert run == parts[0] + "." + parts[1];
      assert AllDigits(parts[0]) by {
        forall k | 0 <= k < |parts[0]| ensures IsDigit(parts[0][k]) {
          assert parts[0][k] == run[k];
        }
      }
      assert AllDigits(parts[1]) by {
        forall k | 0 <= k < |parts[1]| ensures IsDigit(parts[1][k]) {
          assert parts[1][k] == run[|parts[0]| + 1 + k];
        }
      }
      if parts[0] == "" && parts[1] == "" then None
      else Some(DecimalValue(parts[0], parts[1]))
    else
      None
  }

  /** `float(str(n))` gives back `n`. */
  lemma ParseNatString(n: nat)
    ensures IsDecimalRun(NatToString(n))
    ensures ParseDecimalRun(NatToString(n)) == Some(n as real)
  {
    var s := NatToString(n);
    NoPointInDigits(s);
    NatToStringRoundTrip(n);
    assert SplitOn(s, '.') == [s] by {
      assert |SplitOn(s, '.')| == 1;
      SplitJoin(s, '.');
    }
  }

  lemma {:induction false} NoPointInDigits(s: string)
    requires AllDigits(s)
    ensures CountChar(s, '.') == 0
    decreases |s|
  {
    if s != [] {
      NoPointInDigits(s[1..]);
    }
  }

  /** The longest prefix of `s` made of digits (what a greedy `\d+` / `\d*` takes). */
  function DigitPrefix(s: string): (d: string)
    ensures d <= s && AllDigits(d)
    ensures |d| == |s| || !IsDigit(s[|d|])
    decreases |s|
  {
    if s != [] && IsDigit(s[0]) then [s[0]] + DigitPrefix(s[1..]) else []
  }

  // Ring laws of real arithmetic, stated once so that proofs can name the instance they need.

  lemma Distribute(a: real, b: real, c: real)
    ensures (a + b) * c == a * c + b * c
  {
  }

  lemma Distribute2(f: real, x: real, y: real)
    ensures f * x + f * y == f * (x + y)
  {
  }

  lemma Associate(a: real, b: real, c: real)
    ensures (a * b) * c == a * (b * c)
  {
  }
}
