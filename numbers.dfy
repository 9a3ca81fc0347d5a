/** Exact real-number replacements for the numpy helpers the drivers use:
    `abs`, `clip`, and the decade range `10 ** ceil(log10(|x|))`. */
module Numbers {

  function Abs(x: real): (r: real)
    ensures r >= 0.0
    ensures r == x || r == -x
  {
    if x < 0.0 then -x else x
  }

  function Min(x: real, y: real): (r: real)
    ensures r <= x && r <= y
    ensures r == x || r == y
  {
    if x <= y then x else y
  }

  /** numpy.clip(x, lo, hi) on a scalar: min(max(x, lo), hi). */
  function Clamp(x: real, lo: real, hi: real): (r: real)
    requires lo <= hi
    ensures lo <= r <= hi
    ensures lo <= x <= hi ==> r == x
    ensures x < lo ==> r == lo
    ensures hi < x ==> r == hi
  {
    if x < lo then lo else if hi < x then hi else x
  }

  lemma MulMonotone(a: real, b: real, c: real)
    requires a <= b && c >= 0.0
    ensures a * c <= b * c
  {
  }

  lemma MulStrict(a: real, b: real, c: real)
    requires a < b && c > 0.0
    ensures a * c < b * c
  {
  }

  lemma MulCancel(x: real, y: real, c: real)
    requires c > 0.0 && x * c <= y * c
    ensures x <= y
  {
  }

  lemma MulCancelStrict(x: real, y: real, c: real)
    requires c > 0.0 && x * c < y * c
    ensures x < y
  {
  }

  /** 10 raised to an integer power, exactly. */
  function Pow10(e: int): (r: real)
    ensures r > 0.0
    decreases if e < 0 then -e else e
  {
    if e == 0 then 1.0
    else if e > 0 then 10.0 * Pow10(e - 1)
    else Pow10(e + 1) / 10.0
  }

  lemma Pow10Succ(e: int)
    ensures Pow10(e + 1) == 10.0 * Pow10(e)
  {
  }

  lemma {:induction false} Pow10Increasing(i: int, j: int)
    requires i < j
    ensures Pow10(i) < Pow10(j)
    decreases j - i
  {
    Pow10Succ(i);
    if i + 1 < j {
      Pow10Increasing(i + 1, j);
    }
  }

  lemma Pow10Monotone(i: int, j: int)
    requires i <= j
    ensures Pow10(i) <= Pow10(j)
  {
    if i < j {
      Pow10Increasing(i, j);
    }
  }

  /** Three decades are a factor of a thousand. */
  lemma Pow10Shift3(e: int)
    ensures Pow10(e + 3) == 1000.0 * Pow10(e)
  {
    Pow10Succ(e);
    Pow10Succ(e + 1);
    Pow10Succ(e + 2);
  }

  /** Twelve decades are a factor of 10^12. */
  lemma Pow10Shift12(e: int)
    ensures Pow10(e + 12) == 1000000000000.0 * Pow10(e)
  {
    Pow10Shift3(e);
    Pow10Shift3(e + 3);
    Pow10Shift3(e + 6);
    Pow10Shift3(e + 9);
  }

  /** Powers of ten are ordered as their exponents. */
  lemma Pow10LessIff(i: int, j: int)
    ensures Pow10(i) < Pow10(j) <==> i < j
  {
    if i < j {
      Pow10Increasing(i, j);
    } else {
      Pow10Monotone(j, i);
    }
  }

  /** Pow10(-k) is the reciprocal of Pow10(k). */
  lemma {:induction false} Pow10Reciprocal(k: int)
    requires k >= 0
    ensures Pow10(-k) == 1.0 / Pow10(k)
  {
    if k > 0 {
      Pow10Reciprocal(k - 1);
      Pow10Succ(-k);
      Pow10Succ(k - 1);
    }
  }

  lemma InverseAntitone(p: real, y: real)
    requires 0.0 < p <= y
    ensures 1.0 / y <= 1.0 / p
  {
    assert (1.0 / y) * y == 1.0;
    assert (1.0 / p) * p == 1.0;
    assert (1.0 / y) * p <= (1.0 / y) * y;
  }

  lemma InverseStrictlyAntitone(p: real, y: real)
    requires 0.0 < y < p
    ensures 1.0 / p < 1.0 / y
  {
    assert (1.0 / y) * y == 1.0;
    assert (1.0 / p) * p == 1.0;
    assert (1.0 / p) * y < (1.0 / p) * p;
  }

  /** The largest k with 10^k <= y, for y >= 1. */
  function FloorLog10(y: real): (k: nat)
    requires y >= 1.0
    ensures Pow10(k) <= y < Pow10(k + 1)
    decreases y.Floor
  {
    if y < 10.0 then 0 else 1 + FloorLog10(y / 10.0)
  }

  /** The smallest k with x <= 10^k, for x > 1. */
  function CeilLog10Above(x: real): (k: nat)
    requires x > 1.0
    ensures k >= 1
    ensures Pow10(k - 1) < x <= Pow10(k)
    decreases x.Floor
  {
    if x <= 10.0 then 1 else 1 + CeilLog10Above(x / 10.0)
  }

  /** The decade of a positive x: the smallest integer e with x <= 10^e,
      which is ceil(log10(x)). */
  function Decade(x: real): (e: int)
    requires x > 0.0
    ensures Pow10(e - 1) < x <= Pow10(e)
  {
    if x > 1.0 then CeilLog10Above(x)
    else
      var y := 1.0 / x;
      var k: int := FloorLog10(y);
      DecadeBelowOne(x, y, k);
      -k
  }

  lemma DecadeBelowOne(x: real, y: real, k: int)
    requires k >= 0
    requires 0.0 < x <= 1.0 && y == 1.0 / x
    requires Pow10(k) <= y < Pow10(k + 1)
    ensures Pow10(-k - 1) < x <= Pow10(-k)
  {
    Pow10Reciprocal(k);
    Pow10Reciprocal(k + 1);
    assert x == 1.0 / y;
    InverseAntitone(Pow10(k), y);
    InverseStrictlyAntitone(Pow10(k + 1), y);
  }

  /** The decade of x is the only e with 10^(e-1) < x <= 10^e. */
  lemma DecadeUnique(x: real, e: int)
    requires x > 0.0
    requires Pow10(e - 1) < x <= Pow10(e)
    ensures Decade(x) == e
  {
    var d := Decade(x);
    if d < e {
      Pow10Monotone(d, e - 1);
    } else if e < d {
      Pow10Monotone(e, d - 1);
    }
  }

  /** The range the Keithley selects for a nonzero value: 10^ceil(log10|x|). */
  function DecadeRange(x: real): real
    requires x != 0.0
  {
    Pow10(Decade(Abs(x)))
  }

  /** The decade range is the smallest integer power of ten that is at least |x|,
      and it is less than ten times |x|. */
  lemma DecadeRangeIsLeast(x: real, k: int)
    requires x != 0.0
    ensures DecadeRange(x) >= Abs(x)
    ensures DecadeRange(x) < 10.0 * Abs(x)
    ensures Pow10(k) >= Abs(x) ==> Pow10(k) >= DecadeRange(x)
  {
    var e := Decade(Abs(x));
    Pow10Succ(e - 1);
    if Pow10(k) >= Abs(x) && k < e {
      Pow10Monotone(k, e - 1);
    }
    if Pow10(k) >= Abs(x) {
      Pow10Monotone(e, k);
    }
  }
}
