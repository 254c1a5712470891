/** The validation helpers of analises/plots_analise.py. The identified first-order model
    is replayed over a recorded step response with a bias taken from the recording's
    baseline and the target floored at zero, and a reference step is located in a
    setpoint column so that a window around it can be cut out. */
module Validation {
  import opened Outcomes
  import opened Series
  import opened PlantId

  /** The static gain K the validation figure uses (plots_analise.py:34). */
  const GAIN: real := 0.0406

  /** Number of leading samples averaged for the baseline (plots_analise.py:39-40). */
  const BASELINE: nat := 50

  /** A setpoint jump larger than this marks the reference step (plots_analise.py:82). */
  const STEP_THRESHOLD: real := 0.1

  /** Samples kept before and after the step: 0.5 s and 1.5 s at 10 ms (plots_analise.py:87-88). */
  const PRE_STEP: nat := 50
  const POST_STEP: nat := 150

  // ---------------------------------------------------------------------------
  // Baseline bias (plots_analise.py:39-41)
  // ---------------------------------------------------------------------------

  /** Length of numpy's slice s[:50] of a series of n samples. */
  function BaselineLength(n: nat): (m: nat)
    ensures m <= n && m <= BASELINE
    ensures m == n || m == BASELINE
  {
    if n < BASELINE then n else BASELINE
  }

  /** C = mean(y[:50]) - K * mean(u[:50]). An empty recording has no baseline (numpy
      returns NaN) and gives None. */
  function BaselineBias(u: seq<real>, y: seq<real>, gain: real): (c: Option<real>)
    requires |y| == |u|
    ensures c.None? <==> |u| == 0
  {
    if |u| == 0 then None
    else
      var m := BaselineLength(|u|);
      Some(BiasThrough(MeanRange(u, 0, m), MeanRange(y, 0, m), gain))
  }

  /** The bias of the line of slope gain through the point (uBase, yBase). */
  function BiasThrough(uBase: real, yBase: real, gain: real): real
  {
    yBase - gain * uBase
  }

  /** The bias puts the baseline point (mean duty, mean voltage) on the model line. */
  lemma BaselineOnModelLine(u: seq<real>, y: seq<real>, gain: real)
    requires |y| == |u| > 0
    ensures var m := BaselineLength(|u|);
            gain * MeanRange(u, 0, m) + BaselineBias(u, y, gain).value == MeanRange(y, 0, m)
  {
  }

  /** When the baseline samples lie on y = gain * u + c0, the bias is exactly c0. */
  lemma BaselineRecoversBias(u: seq<real>, y: seq<real>, gain: real, c0: real)
    requires |y| == |u| > 0
    requires forall j :: 0 <= j < BaselineLength(|u|) ==> y[j] == gain * u[j] + c0
    ensures BaselineBias(u, y, gain) == Some(c0)
  {
    OffsetOfAffine(y, u, BaselineLength(|u|), gain, c0);
  }

  lemma OffsetOfAffine(y: seq<real>, u: seq<real>, m: nat, gain: real, c0: real)
    requires 0 < m <= |y| == |u|
    requires forall j :: 0 <= j < m ==> y[j] == gain * u[j] + c0
    ensures BiasThrough(MeanRange(u, 0, m), MeanRange(y, 0, m), gain) == c0
  {
    MeanOfAffine(y, u, 0, m, gain, c0);
  }

  // ---------------------------------------------------------------------------
  // Simulation with the target floored at zero (plots_analise.py:44-51)
  // ---------------------------------------------------------------------------

  /** The target K * u[j] + C, raised to 0 where it is negative: the larger of the two. */
  function FlooredTargets(u: seq<real>, gain: real, bias: real): (t: seq<real>)
    ensures |t| == |u|
    ensures forall j :: 0 <= j < |u| ==>
              t[j] >= 0.0 && t[j] >= gain * u[j] + bias && (t[j] == 0.0 || t[j] == gain * u[j] + bias)
  {
    seq(|u|, j requires 0 <= j < |u| => var target := gain * u[j] + bias; if target < 0.0 then 0.0 else target)
  }

  /** The simulation loop of plots_analise.py:45-51 for a given alpha = exp(-Ts / tau). */
  method SimulateFloored(y: seq<real>, u: seq<real>, gain: real, bias: real, alpha: real) returns (ySim: seq<real>)
    requires |y| == |u| > 0
    ensures |ySim| == |y|
    ensures IsFirstOrderResponse(ySim, y[0], FlooredTargets(u, gain, bias), alpha)
  {
    ghost var targets := FlooredTargets(u, gain, bias);
    var trace := new real[|y|];
    trace[0] := y[0];
    for k := 1 to |y|
      invariant IsFirstOrderResponse(trace[..k], y[0], targets, alpha)
    {
      var target := gain * u[k - 1] + bias;
      if target < 0.0 {
        target := 0.0;
      }
      var next := alpha * trace[k - 1] + (1.0 - alpha) * target;
      ExtendFirstOrder(trace[..k], y[0], targets, alpha, next);
      trace[k] := next;
      assert trace[..k + 1] == trace[..k] + [next];
    }
    assert trace[..] == trace[..|y|];
    ySim := trace[..];
  }

  /** The first figure of plots_analise.py:39-51: the bias from the baseline with the fixed
      gain, then the floored simulation. An empty recording, on which numpy's y[0] raises,
      gives None. */
  method ValidationTrace(u: seq<real>, y: seq<real>, alpha: real) returns (r: Option<seq<real>>)
    requires |y| == |u|
    ensures r.None? <==> |y| == 0
    ensures r.Some? ==> |r.value| == |y|
    ensures r.Some? ==> IsFirstOrderResponse(r.value, y[0], FlooredTargets(u, GAIN, BaselineBias(u, y, GAIN).value), alpha)
  {
    if |y| == 0 {
      return None;
    }
    var c := BaselineBias(u, y, GAIN);
    var ySim := SimulateFloored(y, u, GAIN, c.value, alpha);
    r := Some(ySim);
  }

  /** With 0 < alpha < 1 and a non-negative first sample, the floored simulation never goes
      negative: each step is a convex combination of non-negative values. */
  lemma FlooredTraceNonNegative(ys: seq<real>, y0: real, u: seq<real>, gain: real, bias: real, alpha: real)
    requires 0.0 < alpha < 1.0 && y0 >= 0.0
    requires IsFirstOrderResponse(ys, y0, FlooredTargets(u, gain, bias), alpha)
    ensures forall k :: 0 <= k < |ys| ==> ys[k] >= 0.0
  {
    forall k | 0 <= k < |ys|
      ensures ys[k] >= 0.0
    {
      FirstOrderStaysAbove(ys, y0, FlooredTargets(u, gain, bias), alpha, 0.0, k);
    }
  }

  /** Where the model line never goes negative the floor does nothing, and the validation
      simulation is the identification simulation of model.py:75-89. */
  lemma FlooredAgreesWithLine(ys: seq<real>, y0: real, u: seq<real>, gain: real, bias: real, alpha: real)
    requires forall j :: 0 <= j < |u| ==> gain * u[j] + bias >= 0.0
    ensures FlooredTargets(u, gain, bias) == Line(u, gain, bias)
    ensures IsFirstOrderResponse(ys, y0, FlooredTargets(u, gain, bias), alpha)
            <==> IsFirstOrderResponse(ys, y0, Line(u, gain, bias), alpha)
  {
    LineSamples(u, gain, bias);
  }

  /** Where the model line is negative the floored simulation differs from the unfloored one:
      from any sample k - 1 where the two traces agree and the target u[k - 1] puts the model
      line below zero, the next samples differ. */
  lemma FloorChangesStep(y0: real, u: seq<real>, gain: real, bias: real, alpha: real,
                         a: seq<real>, b: seq<real>, k: nat)
    requires IsFirstOrderResponse(a, y0, FlooredTargets(u, gain, bias), alpha)
    requires IsFirstOrderResponse(b, y0, Line(u, gain, bias), alpha)
    requires alpha != 1.0 && 0 < k < |a| && k < |b|
    requires a[k - 1] == b[k - 1] && gain * u[k - 1] + bias < 0.0
    ensures a[k] != b[k]
  {
    LineSamples(u, gain, bias);
    assert FirstOrderStep(a, FlooredTargets(u, gain, bias), alpha, k);
    assert FirstOrderStep(b, Line(u, gain, bias), alpha, k);
    DifferentTargets(alpha, a[k - 1], 0.0, gain * u[k - 1] + bias, a[k], b[k]);
  }

  lemma DifferentTargets(alpha: real, p: real, t1: real, t2: real, r1: real, r2: real)
    requires alpha != 1.0 && t1 != t2
    requires r1 == alpha * p + (1.0 - alpha) * t1 && r2 == alpha * p + (1.0 - alpha) * t2
    ensures r1 != r2
  {
    assert r1 - r2 == (1.0 - alpha) * (t1 - t2);
    if r1 == r2 {
      ProductZero(1.0 - alpha, t1 - t2);
    }
  }

  lemma ProductZero(a: real, b: real)
    requires a * b == 0.0
    ensures a == 0.0 || b == 0.0
  {
    if a != 0.0 && b != 0.0 {
      if (a > 0.0) == (b > 0.0) {
        if a > 0.0 {
          ProductPositive(a, b, a * b);
        } else {
          ProductPositive(-a, -b, a * b);
        }
      } else {
        if a > 0.0 {
          ProductPositive(a, -b, -(a * b));
        } else {
          ProductPositive(-a, b, -(a * b));
        }
      }
    }
  }

  // ---------------------------------------------------------------------------
  // Step detection and windowing in get_data (plots_analise.py:79-95)
  // ---------------------------------------------------------------------------

  function Abs(x: real): real
  {
    if x < 0.0 then -x else x
  }

  /** The setpoint jumps by more than the threshold between samples k and k + 1. */
  predicate IsStep(sp: seq<real>, k: nat)
    requires k + 1 < |sp|
  {
    Abs(sp[k + 1] - sp[k]) > STEP_THRESHOLD
  }

  /** The first entry of `np.where(np.abs(np.diff(sp)) > 0.1)[0]` at or after from. */
  function FirstStepFrom(sp: seq<real>, from: nat): (r: Option<nat>)
    ensures r.None? <==> forall k :: from <= k < |sp| - 1 ==> !IsStep(sp, k)
    ensures r.Some? ==> from <= r.value && r.value + 1 < |sp| && IsStep(sp, r.value) &&
                        forall k :: from <= k < r.value ==> !IsStep(sp, k)
    decreases |sp| - from
  {
    if from + 1 >= |sp| then None
    else if IsStep(sp, from) then Some(from)
    else FirstStepFrom(sp, from + 1)
  }

  /** The index of the first setpoint step, or None if there is none. */
  function FirstStep(sp: seq<real>): (r: Option<nat>)
    ensures r.None? <==> forall k :: 0 <= k < |sp| - 1 ==> !IsStep(sp, k)
    ensures r.Some? ==> r.value + 1 < |sp| && IsStep(sp, r.value) &&
                        forall k :: 0 <= k < r.value ==> !IsStep(sp, k)
  {
    FirstStepFrom(sp, 0)
  }

  /** The half-open window [start, end) of a recording of n samples kept around the step at idx. */
  datatype Window = Window(start: nat, end: nat)

  /** start = max(0, idx - 50), end = min(n, idx + 150). */
  function StepWindow(idx: nat, n: nat): (w: Window)
    requires idx < n
    ensures w.start <= idx < w.end <= n
    ensures w.end - w.start <= PRE_STEP + POST_STEP
    ensures idx - w.start == PRE_STEP || w.start == 0
    ensures w.end - idx == POST_STEP || w.end == n
    ensures idx >= PRE_STEP ==> w.start == idx - PRE_STEP
    ensures idx + POST_STEP <= n ==> w.end == idx + POST_STEP
  {
    Window(if idx < PRE_STEP then 0 else idx - PRE_STEP,
           if n < idx + POST_STEP then n else idx + POST_STEP)
  }

  /** The time, voltage, duty and setpoint columns cut to the window around the step. */
  datatype StepData = StepData(t: seq<real>, y: seq<real>, u: seq<real>, sp: seq<real>)

  /** Why `get_data` raises: the re-zeroing reads sample PRE_STEP of a window that is
      not that long. */
  datatype DataError = WindowTooShort

  /** Every sample of ts minus the sample at position PRE_STEP (`t - t[50]`). */
  function Rezero(ts: seq<real>): (r: seq<real>)
    requires PRE_STEP < |ts|
    ensures |r| == |ts| && r[PRE_STEP] == 0.0
    ensures forall i :: 0 <= i < |ts| ==> r[i] + ts[PRE_STEP] == ts[i]
  {
    seq(|ts|, i requires 0 <= i < |ts| => ts[i] - ts[PRE_STEP])
  }

  /** `get_data`: Ok(None) when the setpoint never jumps; Err when the cut window is too
      short for the time re-zeroing, which happens exactly when the recording itself has
      no more than PRE_STEP samples; otherwise the four columns cut to the window around
      the first jump, with the time column re-zeroed at window position PRE_STEP. */
  function GetData(t: seq<real>, sp: seq<real>, y: seq<real>, u: seq<real>)
    : (r: Result<Option<StepData>, DataError>)
    requires |t| == |y| == |u| == |sp|
    ensures r == Ok(None) <==> forall k :: 0 <= k < |sp| - 1 ==> !IsStep(sp, k)
    ensures r.Err? <==> FirstStep(sp).Some? && |sp| <= PRE_STEP
    ensures r.Ok? && r.value.Some? ==>
              var d := r.value.value;
              |d.t| == |d.y| == |d.u| == |d.sp| && PRE_STEP < |d.sp| <= PRE_STEP + POST_STEP &&
              d.t[PRE_STEP] == 0.0
  {
    match FirstStep(sp)
    case None => Ok(None)
    case Some(idx) =>
      var w := StepWindow(idx, |sp|);
      if w.end - w.start <= PRE_STEP then Err(WindowTooShort)
      else
        Ok(Some(StepData(Rezero(t[w.start..w.end]), y[w.start..w.end],
                         u[w.start..w.end], sp[w.start..w.end])))
  }

  /** The window holds the step: the first jump of the setpoint is also a jump of the cut
      setpoint column, at its offset within the window, and no jump precedes it there. */
  lemma WindowHoldsFirstStep(t: seq<real>, sp: seq<real>, y: seq<real>, u: seq<real>)
    requires |t| == |y| == |u| == |sp| && FirstStep(sp).Some? && PRE_STEP < |sp|
    ensures GetData(t, sp, y, u).Ok? && GetData(t, sp, y, u).value.Some?
    ensures var idx := FirstStep(sp).value;
            var w := StepWindow(idx, |sp|);
            var seg := GetData(t, sp, y, u).value.value.sp;
            idx + 1 < w.end && IsStep(seg, idx - w.start) &&
            forall k :: 0 <= k < idx - w.start ==> !IsStep(seg, k)
  {
    var idx := FirstStep(sp).value;
    var w := StepWindow(idx, |sp|);
    var seg := GetData(t, sp, y, u).value.value.sp;
    assert seg == sp[w.start..w.end];
    assert seg[idx - w.start] == sp[idx] && seg[idx - w.start + 1] == sp[idx + 1];
    forall k | 0 <= k < idx - w.start
      ensures !IsStep(seg, k)
    {
      assert seg[k] == sp[w.start + k] && seg[k + 1] == sp[w.start + k + 1];
      assert !IsStep(sp, w.start + k);
    }
  }

  /** The re-zeroed time is zero at the step exactly when the step lies at least PRE_STEP
      samples into the recording; a step nearer the start is not at time zero when the
      times strictly increase. */
  lemma TimeZeroAtStep(t: seq<real>, sp: seq<real>, y: seq<real>, u: seq<real>)
    requires |t| == |y| == |u| == |sp| && FirstStep(sp).Some? && PRE_STEP < |sp|
    requires forall i, j :: 0 <= i < j < |t| ==> t[i] < t[j]
    ensures var idx := FirstStep(sp).value;
            var d := GetData(t, sp, y, u).value.value;
            var w := StepWindow(idx, |sp|);
            d.t[idx - w.start] == 0.0 <==> idx >= PRE_STEP
  {
    var idx := FirstStep(sp).value;
    var w := StepWindow(idx, |sp|);
    var d := GetData(t, sp, y, u).value.value;
    var ts := t[w.start..w.end];
    assert d.t == Rezero(ts);
    assert d.t[idx - w.start] + ts[PRE_STEP] == ts[idx - w.start];
    if idx < PRE_STEP {
      assert ts[idx - w.start] == t[idx] && ts[PRE_STEP] == t[PRE_STEP];
    }
  }
}
