/** The ramp the Keithley 2400 driver walks when it changes its source value
    with the output on: `np.linspace(start, stop, 1 + nSteps)[1:]` with
    `nSteps = int(np.floor(abs(start - stop) / step))`. */
module Ramp {
  import opened Results
  import opened Numbers

  /** `np.linspace(start, stop, n + 1)[1:]`: n equally spaced points after start. */
  function Linspace(start: real, stop: real, n: nat): (r: seq<real>)
    ensures |r| == n
  {
    if n == 0 then []
    else seq(n, k requires 0 <= k < n => start + (k + 1) as real * (stop - start) / n as real)
  }

  /** `int(np.floor(abs(start - stop) / step))`. */
  function StepCount(start: real, stop: real, step: real): int
    requires step != 0.0
  {
    (Abs(start - stop) / step).Floor
  }

  /** The values the ramp passes to the source, or the exception it raises
      before the first of them. A zero step divides by zero: with a plain
      Python number as start that raises ZeroDivisionError, but with the numpy
      float `_configCurrent` stores (numpyStart) it gives inf, or nan when
      start == stop, and `int` then raises OverflowError, or ValueError. A
      negative step whose count is below -1 asks linspace for a negative
      number of samples. */
  function RampPoints(start: real, stop: real, step: real, numpyStart: bool): (r: Result<seq<real>>)
    ensures step > 0.0 ==> r.Ok? && |r.value| == StepCount(start, stop, step)
    ensures step == 0.0 && !numpyStart ==> r == Err(ZeroDivisionError)
    ensures step == 0.0 && numpyStart ==> r == Err(if start == stop then ValueError else OverflowError)
    ensures step < 0.0 ==> (r.Ok? <==> StepCount(start, stop, step) >= -1)
    ensures step < 0.0 && r.Ok? ==> r.value == []
    ensures r.Err? ==> step <= 0.0
  {
    if step == 0.0 then
      if !numpyStart then Err(ZeroDivisionError)
      else if start == stop then Err(ValueError)
      else Err(OverflowError)
    else
      var n := StepCount(start, stop, step);
      if n < -1 then Err(ValueError)
      else if n <= 0 then Ok([])
      else Ok(Linspace(start, stop, n))
  }

  /** The last point of a non-empty linspace is exactly the target. */
  lemma LinspaceEndsAtStop(start: real, stop: real, n: nat)
    requires n > 0
    ensures Linspace(start, stop, n)[n - 1] == stop
  {
    var d := stop - start;
    assert (n as real) * d / (n as real) == d;
  }

  /** Consecutive points, and the first point after start, are one spacing apart. */
  lemma LinspaceSpacing(start: real, stop: real, n: nat, k: nat)
    requires k < n
    ensures var r := Linspace(start, stop, n);
      r[k] - (if k == 0 then start else r[k - 1]) == (stop - start) / n as real
  {
    var r := Linspace(start, stop, n);
    var d := (stop - start) / n as real;
    assert r[k] == start + (k + 1) as real * d;
    if k > 0 {
      assert r[k - 1] == start + k as real * d;
    }
  }

  /** Point k is start plus k + 1 spacings. */
  lemma LinspaceAt(start: real, stop: real, n: nat, k: nat)
    requires k < n
    ensures Linspace(start, stop, n)[k] == start + (k + 1) as real * ((stop - start) / n as real)
  {
  }

  /** A ramp towards a larger target strictly increases, towards a smaller one
      strictly decreases. */
  lemma LinspaceMonotone(start: real, stop: real, n: nat, i: nat, j: nat)
    requires i < j < n
    ensures var r := Linspace(start, stop, n);
      (start < stop ==> r[i] < r[j]) && (stop < start ==> r[j] < r[i])
  {
    var d := (stop - start) / n as real;
    LinspaceAt(start, stop, n, i);
    LinspaceAt(start, stop, n, j);
    var r := Linspace(start, stop, n);
    assert r[j] - r[i] == (j - i) as real * d;
    if start < stop {
      assert d > 0.0;
    }
    if stop < start {
      assert d < 0.0;
    }
  }

  /** Every point lies between start (excluded) and stop (included). */
  lemma LinspaceBetween(start: real, stop: real, n: nat, k: nat)
    requires k < n
    ensures var x := Linspace(start, stop, n)[k];
      (start <= stop ==> start <= x <= stop) && (stop <= start ==> stop <= x <= start)
  {
    var d := (stop - start) / n as real;
    LinspaceAt(start, stop, n, k);
    var t := (k + 1) as real;
    assert t <= n as real;
    assert (n as real) * d == stop - start;
    if start <= stop {
      assert d >= 0.0;
      assert t * d <= (n as real) * d;
    } else {
      assert d <= 0.0;
      assert t * d >= (n as real) * d;
    }
  }

  /** floor(a / step) steps fit into a, one more does not. */
  lemma FloorDivisionBounds(a: real, step: real)
    requires step > 0.0
    ensures var n := (a / step).Floor as real;
      n * step <= a < (n + 1.0) * step
  {
    var q := a / step;
    var n := q.Floor as real;
    var m := n + 1.0;
    assert q * step == a;
    MulMonotone(n, q, step);
    MulStrict(q, m, step);
    var lo, hi := n * step, m * step;
    assert lo <= a < hi;
  }

  /** n steps that fit into a, where n + 1 do not, are each at least one step
      and less than two. */
  lemma SpacingFromCount(a: real, n: real, step: real)
    requires n >= 1.0 && step > 0.0
    requires n * step <= a < (n + 1.0) * step
    ensures step <= a / n < 2.0 * step
  {
    var s := a / n;
    assert s * n == a;
    assert step * n <= s * n;
    MulCancel(step, s, n);
    MulMonotone(n + 1.0, 2.0 * n, step);
    assert s * n < (2.0 * step) * n;
    MulCancelStrict(s, 2.0 * step, n);
  }

  /** Each ramp step is at least the configured step and less than twice it. */
  lemma RampSpacingBounds(start: real, stop: real, step: real)
    requires step > 0.0
    requires StepCount(start, stop, step) > 0
    ensures var n := StepCount(start, stop, step) as real;
      step <= Abs(stop - start) / n < 2.0 * step
  {
    var a := Abs(start - stop);
    assert Abs(stop - start) == a;
    FloorDivisionBounds(a, step);
    SpacingFromCount(a, StepCount(start, stop, step) as real, step);
  }

  /** A quotient of a smaller non-negative number lies in [0, 1). */
  lemma QuotientBelowOne(a: real, s: real)
    requires 0.0 <= a < s
    ensures 0.0 <= a / s < 1.0
  {
    var q := a / s;
    assert q * s == a;
    if q >= 1.0 {
      MulMonotone(1.0, q, s);
    }
    if q < 0.0 {
      MulStrict(q, 0.0, s);
    }
  }

  /** A change smaller than the step ramps through no point at all. */
  lemma RampBelowStep(start: real, stop: real, step: real, numpyStart: bool)
    requires step > 0.0
    requires Abs(start - stop) < step
    ensures RampPoints(start, stop, step, numpyStart) == Ok([])
  {
    QuotientBelowOne(Abs(start - stop), step);
    assert StepCount(start, stop, step) == 0;
  }

  /** The number of ramp points is floor(|start - stop| / step), and when there
      are any, the last one is the target. */
  lemma RampReachesTarget(start: real, stop: real, step: real, numpyStart: bool)
    requires step > 0.0
    ensures RampPoints(start, stop, step, numpyStart).Ok?
    ensures var pts := RampPoints(start, stop, step, numpyStart).value;
      |pts| == StepCount(start, stop, step) && (|pts| > 0 ==> pts[|pts| - 1] == stop)
  {
    var n := StepCount(start, stop, step);
    if n > 0 {
      LinspaceEndsAtStop(start, stop, n);
    }
  }
}
