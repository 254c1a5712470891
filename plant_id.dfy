/** The plant identification pipeline of analises/model.py. The duty staircase is cut
    into plateaus, and each plateau is averaged over its settled second half. Incremental
    gains between adjacent plateaus give the static gain K, and the plateau offsets give
    the bias C. The first-order and ARX models are then replayed over the duty input and
    scored with the fit percentage. */
module PlantId {
  import opened Outcomes
  import opened Series

  // ---------------------------------------------------------------------------
  // Plateau segmentation (model.py:33-35)
  // ---------------------------------------------------------------------------

  /** numpy's `diff(u, prepend=u[0])`: entry j is u[j] minus its predecessor, and entry 0
      compares u[0] with itself. */
  function PrependDiff(u: seq<real>): (d: seq<real>)
    requires |u| > 0
    ensures |d| == |u| && d[0] == 0.0
    ensures forall j :: 0 < j < |u| ==> u[j - 1] + d[j] == u[j]
  {
    seq(|u|, j requires 0 <= j < |u| => u[j] - (if j == 0 then u[0] else u[j - 1]))
  }

  /** `np.where(d != 0)[0]` restricted to the indices from `from` on, in ascending order. */
  function NonZeroFrom(d: seq<real>, from: nat): seq<nat>
    decreases |d| - from
  {
    if from >= |d| then []
    else (if d[from] != 0.0 then [from] else []) + NonZeroFrom(d, from + 1)
  }

  predicate Increasing(b: seq<nat>)
  {
    forall p, q :: 0 <= p < q < |b| ==> b[p] < b[q]
  }

  /** b cuts [0, n) into non-empty half-open plateaus [b[i], b[i + 1]). */
  predicate IsPartition(b: seq<nat>, n: nat)
  {
    |b| >= 2 && b[0] == 0 && b[|b| - 1] == n && Increasing(b)
  }

  lemma {:induction false} NonZeroFromSpec(d: seq<real>, from: nat)
    requires from <= |d|
    ensures Increasing(NonZeroFrom(d, from))
    ensures forall k :: k in NonZeroFrom(d, from) ==> from <= k < |d|
    ensures forall k :: from <= k < |d| ==> (k in NonZeroFrom(d, from) <==> d[k] != 0.0)
    decreases |d| - from
  {
    if from < |d| {
      NonZeroFromSpec(d, from + 1);
      var rest := NonZeroFrom(d, from + 1);
      var head: seq<nat> := if d[from] != 0.0 then [from] else [];
      var all := head + rest;
      assert NonZeroFrom(d, from) == all;
      assert forall k :: k in all <==> k in head || k in rest;
      forall p, q | 0 <= p < q < |all|
        ensures all[p] < all[q]
      {
        if |head| == 1 && p == 0 {
          assert all[q] == rest[q - 1] && rest[q - 1] in rest;
        } else {
          assert all[p] == rest[p - |head|] && all[q] == rest[q - |head|];
        }
      }
    }
  }

  /** The plateau boundaries: 0, every index where the duty differs from the sample
      before it, and len(u). They are strictly increasing, so no plateau is empty. */
  function Boundaries(u: seq<real>): (b: seq<nat>)
    requires |u| > 0
    ensures IsPartition(b, |u|)
    ensures forall k :: 0 < k < |u| ==> (k in b <==> u[k] != u[k - 1])
  {
    var d := PrependDiff(u);
    NonZeroFromSpec(d, 0);
    var changes := NonZeroFrom(d, 0);
    assert 0 !in changes;
    Bracketed(changes, |u|);
    assert forall k :: k in [0] + changes + [|u|] <==> k == 0 || k in changes || k == |u|;
    [0] + changes + [|u|]
  }

  /** Strictly increasing indices inside (0, n), bracketed by 0 and n, stay strictly increasing. */
  lemma Bracketed(c: seq<nat>, n: nat)
    requires n > 0 && Increasing(c) && forall k :: k in c ==> 0 < k < n
    ensures Increasing([0] + c + [n])
  {
    var b := [0] + c + [n];
    forall p, q | 0 <= p < q < |b|
      ensures b[p] < b[q]
    {
      if q == |b| - 1 {
        assert b[0] == 0 && b[q] == n;
        if p > 0 {
          assert b[p] == c[p - 1] && c[p - 1] in c;
        }
      } else if p == 0 {
        assert b[q] == c[q - 1] && c[q - 1] in c;
      } else {
        assert b[p] == c[p - 1] && b[q] == c[q - 1];
      }
    }
  }

  /** A sample strictly inside a plateau is not a boundary. */
  lemma InsidePlateau(b: seq<nat>, i: nat, j: nat)
    requires Increasing(b) && i + 1 < |b| && b[i] < j < b[i + 1]
    ensures j !in b
  {
    forall m | 0 <= m < |b|
      ensures b[m] != j
    {
      if m < i {
        assert b[m] < b[i];
      } else if m > i + 1 {
        assert b[i + 1] < b[m];
      }
    }
  }

  lemma {:induction false} ConstantUpTo(u: seq<real>, i: nat, j: nat)
    requires |u| > 0 && i + 1 < |Boundaries(u)|
    requires Boundaries(u)[i] <= j < Boundaries(u)[i + 1]
    ensures u[j] == u[Boundaries(u)[i]]
    decreases j
  {
    var b := Boundaries(u);
    if j > b[i] {
      ConstantUpTo(u, i, j - 1);
      InsidePlateau(b, i, j);
      assert b[i + 1] <= b[|b| - 1];
    }
  }

  /** Inside each plateau [b[i], b[i + 1]) the duty keeps the value it has at b[i]. */
  lemma PlateauIsConstant(u: seq<real>, i: nat)
    requires |u| > 0 && i + 1 < |Boundaries(u)|
    ensures forall j :: Boundaries(u)[i] <= j < Boundaries(u)[i + 1] ==> u[j] == u[Boundaries(u)[i]]
  {
    forall j | Boundaries(u)[i] <= j < Boundaries(u)[i + 1] {
      ConstantUpTo(u, i, j);
    }
  }

  /** Two adjacent plateaus never hold the same duty. */
  lemma AdjacentPlateausDiffer(u: seq<real>, i: nat)
    requires |u| > 0 && i + 2 < |Boundaries(u)|
    ensures u[Boundaries(u)[i + 1]] != u[Boundaries(u)[i]]
  {
    var b := Boundaries(u);
    assert b[i] < b[i + 1] < b[|b| - 1];
    ConstantUpTo(u, i, b[i + 1] - 1);
  }

  /** A duty column with a single plateau is constant, and conversely. */
  lemma SinglePlateauIffConstant(u: seq<real>)
    requires |u| > 0
    ensures |Boundaries(u)| == 2 <==> Constant(u, u[0])
  {
    var b := Boundaries(u);
    if |b| == 2 {
      PlateauIsConstant(u, 0);
    } else {
      assert 0 < b[1] < |u|;
      assert b[1] in b;
      assert u[b[1]] != u[b[1] - 1];
      assert !(u[b[1]] == u[0] && u[b[1] - 1] == u[0]);
    }
  }

  /** Boundaries([5, 5, 5, 8, 8, 2, 2]) == [0, 3, 5, 7]. */
  lemma StaircaseExample()
    ensures Boundaries([5.0, 5.0, 5.0, 8.0, 8.0, 2.0, 2.0]) == [0, 3, 5, 7]
  {
    var u := [5.0, 5.0, 5.0, 8.0, 8.0, 2.0, 2.0];
    var d := PrependDiff(u);
    assert d == [0.0, 0.0, 0.0, 3.0, 0.0, -6.0, 0.0];
    assert NonZeroFrom(d, 6) == [];
    assert NonZeroFrom(d, 5) == [5];
    assert NonZeroFrom(d, 4) == [5];
    assert NonZeroFrom(d, 3) == [3, 5];
    assert NonZeroFrom(d, 2) == [3, 5];
    assert NonZeroFrom(d, 1) == [3, 5];
    assert NonZeroFrom(d, 0) == [3, 5];
  }

  // ---------------------------------------------------------------------------
  // Plateau averages (model.py:37-54)
  // ---------------------------------------------------------------------------

  /** model.py:47: the first sample of the settled second half of [lo, hi); the kept half
      is as long as the discarded one or one sample longer. */
  function Midpoint(lo: nat, hi: nat): (m: nat)
    requires lo < hi
    ensures lo <= m < hi
    ensures m - lo <= hi - m <= m - lo + 1
  {
    lo + (hi - lo) / 2
  }

  /** Mean of s over the settled second half [Midpoint(lo, hi), hi) of a plateau. */
  function SettledMean(s: seq<real>, lo: nat, hi: nat): real
    requires lo < hi <= |s|
  {
    MeanRange(s, Midpoint(lo, hi), hi)
  }

  function SettledMeans(s: seq<real>, b: seq<nat>): (r: seq<real>)
    requires IsPartition(b, |s|)
    ensures |r| == |b| - 1
  {
    seq(|b| - 1, i requires 0 <= i < |b| - 1 => SettledMean(s, b[i], b[i + 1]))
  }

  /** The loop of model.py:42-53: one settled duty mean and one settled voltage mean per
      plateau of the partition b. */
  method PlateauMeans(u: seq<real>, y: seq<real>, b: seq<nat>) returns (meansU: seq<real>, meansY: seq<real>)
    requires |y| == |u| && IsPartition(b, |u|)
    ensures meansU == SettledMeans(u, b) && meansY == SettledMeans(y, b)
  {
    meansU, meansY := [], [];
    var i := 0;
    while i < |b| - 1
      invariant 0 <= i <= |b| - 1
      invariant meansU == SettledMeans(u, b)[..i]
      invariant meansY == SettledMeans(y, b)[..i]
    {
      var start, end := b[i], b[i + 1];
      assert start < end <= b[|b| - 1];
      PrefixStep(SettledMeans(u, b), i);
      PrefixStep(SettledMeans(y, b), i);
      meansU := meansU + [SettledMean(u, start, end)];
      meansY := meansY + [SettledMean(y, start, end)];
      i := i + 1;
    }
    assert SettledMeans(u, b)[..i] == SettledMeans(u, b);
    assert SettledMeans(y, b)[..i] == SettledMeans(y, b);
  }

  lemma PrefixStep(m: seq<real>, i: nat)
    requires i < |m|
    ensures m[..i + 1] == m[..i] + [m[i]]
  {
  }

  /** The duty level held on each plateau of u. */
  function Levels(u: seq<real>): (l: seq<real>)
    requires |u| > 0
    ensures |l| == |Boundaries(u)| - 1
  {
    var b := Boundaries(u);
    seq(|b| - 1, i requires 0 <= i < |b| - 1 => u[b[i]])
  }

  /** Adjacent plateau levels always differ. */
  lemma LevelsChange(u: seq<real>)
    requires |u| > 0
    ensures forall k :: 0 <= k < |Levels(u)| - 1 ==> Levels(u)[k + 1] != Levels(u)[k]
  {
    forall k | 0 <= k < |Levels(u)| - 1
      ensures Levels(u)[k + 1] != Levels(u)[k]
    {
      AdjacentPlateausDiffer(u, k);
    }
  }

  lemma SettledMeanIsLevel(u: seq<real>, i: nat)
    requires |u| > 0 && i + 1 < |Boundaries(u)|
    ensures SettledMean(u, Boundaries(u)[i], Boundaries(u)[i + 1]) == u[Boundaries(u)[i]]
  {
    var b := Boundaries(u);
    var m := Midpoint(b[i], b[i + 1]);
    PlateauIsConstant(u, i);
    MeanOfConstant(u, m, b[i + 1], u[b[i]]);
  }

  /** The settled duty mean of each plateau is the duty level held on that plateau. */
  lemma SettledMeansAreLevels(u: seq<real>)
    requires |u| > 0
    ensures SettledMeans(u, Boundaries(u)) == Levels(u)
  {
    forall i | 0 <= i < |Boundaries(u)| - 1
      ensures SettledMeans(u, Boundaries(u))[i] == Levels(u)[i]
    {
      SettledMeanIsLevel(u, i);
    }
  }
  // ---------------------------------------------------------------------------
  // Static gain and bias (model.py:56-67)
  // ---------------------------------------------------------------------------

  /** The gains Δy/Δu of the first n adjacent pairs of plateau means, skipping pairs whose
      duty means are equal (the `abs(delta_u) > 0` test of model.py:61). */
  function PairGains(mu: seq<real>, my: seq<real>, n: nat): (g: seq<real>)
    requires |mu| == |my| && (n == 0 || n < |mu|)
    ensures |g| <= n
  {
    if n == 0 then []
    else
      var deltaU := mu[n] - mu[n - 1];
      var deltaY := my[n] - my[n - 1];
      PairGains(mu, my, n - 1) + (if deltaU != 0.0 then [deltaY / deltaU] else [])
  }

  /** The gains of all adjacent pairs: at most one per pair. */
  function Gains(mu: seq<real>, my: seq<real>): (g: seq<real>)
    requires |mu| == |my|
    ensures |mu| > 0 ==> |g| <= |mu| - 1
  {
    PairGains(mu, my, if |mu| == 0 then 0 else |mu| - 1)
  }

  lemma {:induction false} NoGainsIffFlat(mu: seq<real>, my: seq<real>, n: nat)
    requires |mu| == |my| && (n == 0 || n < |mu|)
    ensures |PairGains(mu, my, n)| == 0 <==> forall k :: 0 <= k < n ==> mu[k + 1] == mu[k]
  {
    if n > 0 {
      NoGainsIffFlat(mu, my, n - 1);
    }
  }

  /** The loop of model.py:57-62. */
  method IncrementalGains(meansU: seq<real>, meansY: seq<real>) returns (gains: seq<real>)
    requires |meansU| == |meansY|
    ensures gains == Gains(meansU, meansY)
  {
    gains := [];
    var i := 0;
    while i < |meansU| - 1
      invariant 0 <= i && (|meansU| == 0 ==> i == 0) && (|meansU| > 0 ==> i <= |meansU| - 1)
      invariant gains == PairGains(meansU, meansY, i)
    {
      var deltaY := meansY[i + 1] - meansY[i];
      var deltaU := meansU[i + 1] - meansU[i];
      if deltaU != 0.0 {
        gains := gains + [deltaY / deltaU];
      }
      i := i + 1;
    }
  }

  /** When no two adjacent duty means are equal, every pair contributes exactly its gain. */
  lemma {:induction false} GainsOfDistinctPairs(mu: seq<real>, my: seq<real>, n: nat)
    requires |mu| == |my| && (n == 0 || n < |mu|)
    requires forall k :: 0 <= k < n ==> mu[k + 1] != mu[k]
    ensures |PairGains(mu, my, n)| == n
    ensures forall k :: 0 <= k < n ==> PairGains(mu, my, n)[k] == (my[k + 1] - my[k]) / (mu[k + 1] - mu[k])
  {
    if n > 0 {
      GainsOfDistinctPairs(mu, my, n - 1);
      assert mu[n] != mu[n - 1];
    }
  }

  /** model.py:66: the offset y - K * u of each plateau. */
  function Offsets(my: seq<real>, mu: seq<real>, k: real): (c: seq<real>)
    requires |my| == |mu|
    ensures |c| == |my|
    ensures forall i :: 0 <= i < |my| ==> c[i] + k * mu[i] == my[i]
  {
    seq(|my|, i requires 0 <= i < |my| => my[i] - k * mu[i])
  }

  /** The static part of a first-order model: y = gain * u + bias in steady state. */
  datatype StaticModel = StaticModel(gain: real, bias: real)

  /** EmptySeries: the duty column is empty, so `u[0]` in model.py:33 raises.
      NoGainEstimate: no adjacent plateaus differ, so `np.mean([])` in model.py:64 is NaN. */
  datatype IdentError = EmptySeries | NoGainEstimate

  /** K as the mean of the incremental gains and C as the mean offset, from the plateau
      means mu (duty) and my (voltage). */
  function StaticFromMeans(mu: seq<real>, my: seq<real>): (r: Result<StaticModel, IdentError>)
    requires |mu| == |my| > 0
    ensures r.Err? <==> forall k :: 0 <= k < |mu| - 1 ==> mu[k + 1] == mu[k]
    ensures r.Err? ==> r.error == NoGainEstimate
  {
    NoGainsIffFlat(mu, my, |mu| - 1);
    var g := Gains(mu, my);
    if |g| == 0 then Err(NoGainEstimate)
    else
      var k := Mean(g);
      Ok(StaticModel(k, Mean(Offsets(my, mu, k))))
  }

  /** Steady-state identification as a function of the duty and voltage columns. */
  function StaticEstimate(u: seq<real>, y: seq<real>): (r: Result<StaticModel, IdentError>)
    requires |y| == |u|
    ensures r == Err(EmptySeries) <==> |u| == 0
  {
    if |u| == 0 then Err(EmptySeries)
    else
      var b := Boundaries(u);
      StaticFromMeans(SettledMeans(u, b), SettledMeans(y, b))
  }

  /** model.py:33-67 step by step: segment, average each plateau, collect the gains and
      average them into K, then average the offsets into C. */
  method StaticEstimateSteps(u: seq<real>, y: seq<real>) returns (r: Result<StaticModel, IdentError>)
    requires |y| == |u|
    ensures r == StaticEstimate(u, y)
  {
    if |u| == 0 {
      return Err(EmptySeries);
    }
    var boundaries := Boundaries(u);
    var meansU, meansY := PlateauMeans(u, y, boundaries);
    var gains := IncrementalGains(meansU, meansY);
    if |gains| == 0 {
      return Err(NoGainEstimate);
    }
    var gain := Mean(gains);
    var offsets := Offsets(meansY, meansU, gain);
    r := Ok(StaticModel(gain, Mean(offsets)));
  }


  /** Every adjacent pair of plateaus yields one gain: there is one gain fewer than there
      are plateaus, and gain k is the voltage step over the duty step between plateaus
      k and k + 1. */
  lemma EveryPlateauStepGivesGain(u: seq<real>, my: seq<real>)
    requires |u| > 0 && |my| == |Levels(u)|
    ensures var l := Levels(u);
            var g := Gains(l, my);
            |g| == |l| - 1 &&
            forall k :: 0 <= k < |g| ==> l[k + 1] != l[k] && g[k] == (my[k + 1] - my[k]) / (l[k + 1] - l[k])
  {
    var l := Levels(u);
    LevelsChange(u);
    DistinctGains(l, my);
  }

  /** Gains of a series of means whose adjacent duty means all differ. */
  lemma DistinctGains(mu: seq<real>, my: seq<real>)
    requires |mu| == |my| > 0
    requires forall k :: 0 <= k < |mu| - 1 ==> mu[k + 1] != mu[k]
    ensures var g := Gains(mu, my);
            |g| == |mu| - 1 &&
            forall k :: 0 <= k < |g| ==> mu[k + 1] != mu[k] && g[k] == (my[k + 1] - my[k]) / (mu[k + 1] - mu[k])
  {
    GainsOfDistinctPairs(mu, my, |mu| - 1);
  }

  /** StaticEstimate reads the duty means as the plateau levels. */
  lemma StaticEstimateOnLevels(u: seq<real>, y: seq<real>)
    requires |y| == |u| > 0
    ensures StaticEstimate(u, y) == StaticFromMeans(Levels(u), SettledMeans(y, Boundaries(u)))
  {
    SettledMeansAreLevels(u);
  }

  /** Identification fails exactly when the duty column is empty or holds a single value. */
  lemma StaticEstimateFails(u: seq<real>, y: seq<real>)
    requires |y| == |u|
    ensures |u| == 0 ==> StaticEstimate(u, y) == Err(EmptySeries)
    ensures |u| > 0 ==> (StaticEstimate(u, y) == Err(NoGainEstimate) <==> Constant(u, u[0]))
    ensures |u| > 0 ==> (StaticEstimate(u, y).Ok? <==> !Constant(u, u[0]))
  {
    if |u| > 0 {
      SinglePlateauIffConstant(u);
      SettledMeansAreLevels(u);
      LevelsChange(u);
      GainsOfDistinctPairs(Levels(u), SettledMeans(y, Boundaries(u)), |Levels(u)| - 1);
    }
  }

  /** C is the mean plateau voltage minus K times the mean plateau duty. */
  lemma BiasFromMeans(mu: seq<real>, my: seq<real>)
    requires |mu| == |my| > 0 && StaticFromMeans(mu, my).Ok?
    ensures StaticFromMeans(mu, my).value.bias == Mean(my) - StaticFromMeans(mu, my).value.gain * Mean(mu)
  {
    var k := Mean(Gains(mu, my));
    MeanOfDifference(Offsets(my, mu, k), my, mu, k);
  }

  /** The line y = k0 * x + c0 sampled at every x: noise-free steady-state voltages. */
  function Line(x: seq<real>, k0: real, c0: real): (y: seq<real>)
    ensures |y| == |x|
  {
    seq(|x|, j requires 0 <= j < |x| => k0 * x[j] + c0)
  }

  /** Points on a line with distinct adjacent abscissae all give the line's slope as gain. */
  lemma {:induction false} GainsOfLine(mu: seq<real>, my: seq<real>, n: nat, k0: real, c0: real)
    requires |mu| == |my| && (n == 0 || n < |mu|)
    requires forall k :: 0 <= k < n ==> mu[k + 1] != mu[k]
    requires forall i :: 0 <= i < |mu| ==> my[i] == k0 * mu[i] + c0
    ensures |PairGains(mu, my, n)| == n && Constant(PairGains(mu, my, n), k0)
  {
    if n > 0 {
      GainsOfLine(mu, my, n - 1, k0, c0);
      SlopeOfLine(mu[n - 1], mu[n], my[n - 1], my[n], k0, c0);
    }
  }

  lemma LineSamples(x: seq<real>, k0: real, c0: real)
    ensures forall j :: 0 <= j < |x| ==> Line(x, k0, c0)[j] == k0 * x[j] + c0
  {
  }

  lemma SlopeOfLine(u1: real, u2: real, y1: real, y2: real, k0: real, c0: real)
    requires u2 != u1 && y1 == k0 * u1 + c0 && y2 == k0 * u2 + c0
    ensures (y2 - y1) / (u2 - u1) == k0
  {
    assert y2 - y1 == k0 * (u2 - u1);
  }

  /** Plateau means on a line, with at least two plateaus and adjacent duty means distinct,
      give back K = k0 and C = c0. */
  lemma StaticFromLine(mu: seq<real>, k0: real, c0: real)
    requires |mu| >= 2
    requires forall k :: 0 <= k < |mu| - 1 ==> mu[k + 1] != mu[k]
    ensures StaticFromMeans(mu, Line(mu, k0, c0)) == Ok(StaticModel(k0, c0))
  {
    var my := Line(mu, k0, c0);
    LineSamples(mu, k0, c0);
    GainsOfLine(mu, my, |mu| - 1, k0, c0);
    MeanOfConstant(Gains(mu, my), 0, |Gains(mu, my)|, k0);
    var offsets := Offsets(my, mu, k0);
    assert Constant(offsets, c0);
    MeanOfConstant(offsets, 0, |offsets|, c0);
  }

  /** When every voltage sample lies on y = k0 * u + c0, so does any settled mean pair. */
  lemma SettledMeanOfLine(u: seq<real>, lo: nat, hi: nat, k0: real, c0: real)
    requires lo < hi <= |u|
    ensures SettledMean(Line(u, k0, c0), lo, hi) == k0 * SettledMean(u, lo, hi) + c0
  {
    MeanOfAffine(Line(u, k0, c0), u, Midpoint(lo, hi), hi, k0, c0);
  }

  /** Averaging plateaus commutes with the line: the settled voltage means of noise-free data
      lie on the same line, against the settled duty means, for any partition b. */
  lemma SettledMeansOfLine(u: seq<real>, b: seq<nat>, k0: real, c0: real)
    requires IsPartition(b, |u|)
    ensures SettledMeans(Line(u, k0, c0), b) == Line(SettledMeans(u, b), k0, c0)
  {
    forall i | 0 <= i < |b| - 1
      ensures SettledMeans(Line(u, k0, c0), b)[i] == Line(SettledMeans(u, b), k0, c0)[i]
    {
      SettledMeanOfLineAt(u, b, i, k0, c0);
    }
  }

  lemma SettledMeanOfLineAt(u: seq<real>, b: seq<nat>, i: nat, k0: real, c0: real)
    requires IsPartition(b, |u|) && i < |b| - 1
    ensures SettledMeans(Line(u, k0, c0), b)[i] == Line(SettledMeans(u, b), k0, c0)[i]
  {
    assert b[i] < b[i + 1] <= b[|b| - 1];
    SettledMeanOfLine(u, b[i], b[i + 1], k0, c0);
    assert SettledMeans(Line(u, k0, c0), b)[i] == SettledMean(Line(u, k0, c0), b[i], b[i + 1]);
    assert Line(SettledMeans(u, b), k0, c0)[i] == k0 * SettledMeans(u, b)[i] + c0;
  }

  /** On noise-free steady-state data with at least two duty levels, the estimate recovers
      exactly K = k0 and C = c0. */
  lemma StaticEstimateRecoversLine(u: seq<real>, k0: real, c0: real)
    requires |u| > 0 && !Constant(u, u[0])
    ensures StaticEstimate(u, Line(u, k0, c0)) == Ok(StaticModel(k0, c0))
  {
    var b := Boundaries(u);
    SinglePlateauIffConstant(u);
    SettledMeansAreLevels(u);
    LevelsChange(u);
    SettledMeansOfLine(u, b, k0, c0);
    StaticFromLine(Levels(u), k0, c0);
  }

  // ---------------------------------------------------------------------------
  // First-order simulation (model.py:75-89)
  // ---------------------------------------------------------------------------

  /** Step k of the first-order recursion y[k] = alpha * y[k - 1] + (1 - alpha) * target[k - 1]:
      the response moves from its previous value towards the previous target. */
  predicate FirstOrderStep(ys: seq<real>, targets: seq<real>, alpha: real, k: nat)
    requires 0 < k < |ys| <= |targets| + 1
  {
    ys[k] == alpha * ys[k - 1] + (1.0 - alpha) * targets[k - 1]
  }

  /** ys starts at y0 and follows the first-order recursion driven by targets. */
  predicate IsFirstOrderResponse(ys: seq<real>, y0: real, targets: seq<real>, alpha: real)
  {
    0 < |ys| <= |targets| + 1 && ys[0] == y0 &&
    forall k :: 0 < k < |ys| ==> FirstOrderStep(ys, targets, alpha, k)
  }

  /** One more step keeps a first-order response a first-order response. */
  lemma ExtendFirstOrder(ys: seq<real>, y0: real, targets: seq<real>, alpha: real, v: real)
    requires IsFirstOrderResponse(ys, y0, targets, alpha) && |ys| <= |targets|
    requires v == alpha * ys[|ys| - 1] + (1.0 - alpha) * targets[|ys| - 1]
    ensures IsFirstOrderResponse(ys + [v], y0, targets, alpha)
  {
    var zs := ys + [v];
    forall k | 0 < k < |zs|
      ensures FirstOrderStep(zs, targets, alpha, k)
    {
      if k < |ys| {
        assert FirstOrderStep(ys, targets, alpha, k);
      }
    }
  }

  /** `simular_fopdt_otimizacao` of model.py:75-89 for a given alpha = exp(-Ts / tau): the
      trace has one sample per voltage sample, starts at y[0] and is driven by the target
      K * u[k - 1] + C. */
  method SimulateFirstOrder(y: seq<real>, u: seq<real>, model: StaticModel, alpha: real) returns (ySim: seq<real>)
    requires |y| == |u| > 0
    ensures |ySim| == |y|
    ensures IsFirstOrderResponse(ySim, y[0], Line(u, model.gain, model.bias), alpha)
  {
    ghost var targets := Line(u, model.gain, model.bias);
    LineSamples(u, model.gain, model.bias);
    var trace := new real[|y|];
    trace[0] := y[0];
    for k := 1 to |y|
      invariant IsFirstOrderResponse(trace[..k], y[0], targets, alpha)
    {
      var target := model.gain * u[k - 1] + model.bias;
      var next := alpha * trace[k - 1] + (1.0 - alpha) * target;
      ExtendFirstOrder(trace[..k], y[0], targets, alpha, next);
      trace[k] := next;
      assert trace[..k + 1] == trace[..k] + [next];
    }
    assert trace[..] == trace[..|y|];
    ySim := trace[..];
  }

  /** The recursion determines the response: two responses from the same start driven by
      the same targets agree on their common length. Data generated by the recursion are
      therefore reproduced exactly by the simulation. */
  lemma {:induction false} FirstOrderUnique(ys: seq<real>, zs: seq<real>, y0: real, targets: seq<real>, alpha: real, n: nat)
    requires IsFirstOrderResponse(ys, y0, targets, alpha) && IsFirstOrderResponse(zs, y0, targets, alpha)
    requires n < |ys| && n < |zs|
    ensures ys[..n + 1] == zs[..n + 1]
  {
    if n > 0 {
      FirstOrderUnique(ys, zs, y0, targets, alpha, n - 1);
      assert ys[n - 1] == ys[..n][n - 1] && zs[n - 1] == zs[..n][n - 1];
      assert ys[n - 1] == zs[n - 1];
      assert FirstOrderStep(ys, targets, alpha, n) && FirstOrderStep(zs, targets, alpha, n);
      assert ys[n] == zs[n];
      assert ys[..n + 1] == ys[..n] + [ys[n]] && zs[..n + 1] == zs[..n] + [zs[n]];
    } else {
      assert ys[..1] == [y0] == zs[..1];
    }
  }

  /** x lies between a and b, in either order; strictly when a and b differ. */
  predicate Between(x: real, a: real, b: real)
  {
    (a <= b ==> a <= x <= b) && (b <= a ==> b <= x <= a) && (a != b ==> x != a && x != b)
  }

  /** With 0 < alpha < 1 each step of the response lands strictly between the previous
      response value and the previous target (or on them when they coincide). */
  lemma FirstOrderStepBetween(ys: seq<real>, y0: real, targets: seq<real>, alpha: real, k: nat)
    requires 0.0 < alpha < 1.0 && IsFirstOrderResponse(ys, y0, targets, alpha) && 0 < k < |ys|
    ensures Between(ys[k], ys[k - 1], targets[k - 1])
  {
    assert FirstOrderStep(ys, targets, alpha, k);
    ConvexCombination(alpha, ys[k - 1], targets[k - 1], ys[k]);
  }

  lemma ConvexCombination(alpha: real, p: real, t: real, r: real)
    requires 0.0 < alpha < 1.0 && r == alpha * p + (1.0 - alpha) * t
    ensures Between(r, p, t)
  {
    assert r - p == (1.0 - alpha) * (t - p);
    assert t - r == alpha * (t - p);
    if p < t {
      ProductPositive(1.0 - alpha, t - p, r - p);
      ProductPositive(alpha, t - p, t - r);
    } else if t < p {
      ProductPositive(1.0 - alpha, p - t, p - r);
      ProductPositive(alpha, p - t, r - t);
    }
  }

  /** A response that starts at or above lo, driven by targets at or above lo, stays at or
      above lo. */
  lemma {:induction false} FirstOrderStaysAbove(ys: seq<real>, y0: real, targets: seq<real>, alpha: real, lo: real, k: nat)
    requires 0.0 < alpha < 1.0 && IsFirstOrderResponse(ys, y0, targets, alpha) && k < |ys|
    requires y0 >= lo && forall j :: 0 <= j < |targets| ==> targets[j] >= lo
    ensures ys[k] >= lo
  {
    if k > 0 {
      FirstOrderStaysAbove(ys, y0, targets, alpha, lo, k - 1);
      FirstOrderStepBetween(ys, y0, targets, alpha, k);
    }
  }

  /** A response that starts on a constant target stays there: the target is the steady
      state of the recursion. */
  lemma {:induction false} FirstOrderAtRest(ys: seq<real>, y0: real, targets: seq<real>, alpha: real, k: nat)
    requires IsFirstOrderResponse(ys, y0, targets, alpha) && k < |ys|
    requires forall j :: 0 <= j < |targets| ==> targets[j] == y0
    ensures ys[k] == y0
  {
    if k > 0 {
      FirstOrderAtRest(ys, y0, targets, alpha, k - 1);
      assert FirstOrderStep(ys, targets, alpha, k);
      assert alpha * y0 + (1.0 - alpha) * y0 == y0;
    }
  }

  // ---------------------------------------------------------------------------
  // ARX simulation (model.py:128-132)
  // ---------------------------------------------------------------------------

  /** The discrete ARX model y[k] = a * y[k - 1] + b * u[k - 1] + d; the coefficients come
      from a least-squares fit that is not part of this model. */
  datatype ArxModel = ArxModel(a: real, b: real, d: real)

  predicate ArxStep(ys: seq<real>, u: seq<real>, arx: ArxModel, k: nat)
    requires 0 < k < |ys| <= |u| + 1
  {
    ys[k] == arx.a * ys[k - 1] + arx.b * u[k - 1] + arx.d
  }

  /** ys starts at y0 and follows the ARX recursion driven by u. */
  predicate IsArxResponse(ys: seq<real>, y0: real, u: seq<real>, arx: ArxModel)
  {
    0 < |ys| <= |u| + 1 && ys[0] == y0 &&
    forall k :: 0 < k < |ys| ==> ArxStep(ys, u, arx, k)
  }

  lemma ExtendArx(ys: seq<real>, y0: real, u: seq<real>, arx: ArxModel, v: real)
    requires IsArxResponse(ys, y0, u, arx) && |ys| <= |u|
    requires v == arx.a * ys[|ys| - 1] + arx.b * u[|ys| - 1] + arx.d
    ensures IsArxResponse(ys + [v], y0, u, arx)
  {
    var zs := ys + [v];
    forall k | 0 < k < |zs|
      ensures ArxStep(zs, u, arx, k)
    {
      if k < |ys| {
        assert ArxStep(ys, u, arx, k);
      }
    }
  }

  /** The loop of model.py:128-132: y_arx starts at y[0] and follows the ARX recursion. */
  method SimulateArx(y: seq<real>, u: seq<real>, arx: ArxModel) returns (yArx: seq<real>)
    requires |y| == |u| > 0
    ensures |yArx| == |y|
    ensures IsArxResponse(yArx, y[0], u, arx)
  {
    var trace := new real[|y|];
    trace[0] := y[0];
    for k := 1 to |y|
      invariant IsArxResponse(trace[..k], y[0], u, arx)
    {
      var next := arx.a * trace[k - 1] + arx.b * u[k - 1] + arx.d;
      ExtendArx(trace[..k], y[0], u, arx, next);
      trace[k] := next;
      assert trace[..k + 1] == trace[..k] + [next];
    }
    assert trace[..] == trace[..|y|];
    yArx := trace[..];
  }

  /** The ARX recursion determines its response. */
  lemma {:induction false} ArxUnique(ys: seq<real>, zs: seq<real>, y0: real, u: seq<real>, arx: ArxModel, n: nat)
    requires IsArxResponse(ys, y0, u, arx) && IsArxResponse(zs, y0, u, arx)
    requires n < |ys| && n < |zs|
    ensures ys[..n + 1] == zs[..n + 1]
  {
    if n > 0 {
      ArxUnique(ys, zs, y0, u, arx, n - 1);
      assert ys[n - 1] == ys[..n][n - 1] && zs[n - 1] == zs[..n][n - 1];
      assert ys[n - 1] == zs[n - 1];
      assert ArxStep(ys, u, arx, n) && ArxStep(zs, u, arx, n);
      assert ys[n] == zs[n];
      assert ys[..n + 1] == ys[..n] + [ys[n]] && zs[..n + 1] == zs[..n] + [zs[n]];
    } else {
      assert ys[..1] == [y0] == zs[..1];
    }
  }

  /** The ARX coefficients that express the first-order model with pole alpha: the comment
      at model.py:119-121 reads the ARX model as H(z) = b / (z - a). */
  function ArxOfFirstOrder(model: StaticModel, alpha: real): ArxModel
  {
    ArxModel(alpha, (1.0 - alpha) * model.gain, (1.0 - alpha) * model.bias)
  }

  /** The first-order model is the ARX model with a = alpha, b = (1 - alpha) * K and
      d = (1 - alpha) * C: a trace is a response of one exactly when it is a response of
      the other. */
  lemma FirstOrderIsArx(ys: seq<real>, y0: real, u: seq<real>, model: StaticModel, alpha: real)
    ensures IsFirstOrderResponse(ys, y0, Line(u, model.gain, model.bias), alpha)
            <==> IsArxResponse(ys, y0, u, ArxOfFirstOrder(model, alpha))
  {
    var targets := Line(u, model.gain, model.bias);
    var arx := ArxOfFirstOrder(model, alpha);
    LineSamples(u, model.gain, model.bias);
    if 0 < |ys| <= |u| + 1 {
      forall k | 0 < k < |ys|
        ensures FirstOrderStep(ys, targets, alpha, k) <==> ArxStep(ys, u, arx, k)
      {
        assert (1.0 - alpha) * (model.gain * u[k - 1] + model.bias)
               == ((1.0 - alpha) * model.gain) * u[k - 1] + (1.0 - alpha) * model.bias;
      }
    }
  }

  // ---------------------------------------------------------------------------
  // Fit score (model.py:135-138)
  // ---------------------------------------------------------------------------

  /** y_real - y_model. */
  function Residual(y: seq<real>, ym: seq<real>): (r: seq<real>)
    requires |ym| == |y|
    ensures |r| == |y|
  {
    seq(|y|, i requires 0 <= i < |y| => y[i] - ym[i])
  }

  /** y_real - mean(y_real). */
  function Deviation(y: seq<real>): (r: seq<real>)
    requires |y| > 0
    ensures |r| == |y|
  {
    var m := Mean(y);
    seq(|y|, i requires 0 <= i < |y| => y[i] - m)
  }

  /** n is the Euclidean norm of v: its non-negative square root of the sum of squares. */
  predicate IsNorm(n: real, v: seq<real>)
  {
    n >= 0.0 && n * n == SumSq(v)
  }

  /** `calc_fit`: 100 * (1 - |y - ym| / |y - mean(y)|), with the two norms num and den
      given. A zero denominator, where numpy returns NaN or -inf, gives None. */
  function CalcFit(y: seq<real>, ym: seq<real>, num: real, den: real): (r: Option<real>)
    requires |ym| == |y| > 0 && IsNorm(num, Residual(y, ym)) && IsNorm(den, Deviation(y))
    ensures r.None? <==> Constant(y, y[0])
    ensures r.Some? ==> r.value <= 100.0 && (r.value == 100.0 <==> ym == y)
  {
    NormZero(den, Deviation(y));
    DeviationZero(y);
    NormZero(num, Residual(y, ym));
    ResidualZero(y, ym);
    if den == 0.0 then None
    else
      var fit := 100.0 * (1.0 - num / den);
      FitBound(num, den, fit);
      Some(fit)
  }


  /** A norm is zero exactly when every entry of the vector is zero. */
  lemma NormZero(n: real, v: seq<real>)
    requires IsNorm(n, v)
    ensures n == 0.0 <==> Constant(v, 0.0)
  {
    SumSqZero(v);
    if n != 0.0 {
      ProductPositive(n, n, SumSq(v));
    }
  }

  /** Every sample equals the mean exactly when the series is constant. */
  lemma DeviationZero(y: seq<real>)
    requires |y| > 0
    ensures Constant(Deviation(y), 0.0) <==> Constant(y, y[0])
  {
    var dev := Deviation(y);
    if Constant(y, y[0]) {
      MeanOfConstant(y, 0, |y|, y[0]);
    }
    if Constant(dev, 0.0) {
      forall i | 0 <= i < |y|
        ensures y[i] == y[0]
      {
        assert dev[i] == 0.0 && dev[0] == 0.0;
      }
    }
  }

  lemma ResidualZero(y: seq<real>, ym: seq<real>)
    requires |ym| == |y|
    ensures Constant(Residual(y, ym), 0.0) <==> ym == y
  {
    var r := Residual(y, ym);
    if Constant(r, 0.0) {
      forall i | 0 <= i < |y|
        ensures ym[i] == y[i]
      {
        assert r[i] == 0.0;
      }
    }
  }

  lemma FitBound(num: real, den: real, fit: real)
    requires num >= 0.0 && den > 0.0 && fit == 100.0 * (1.0 - num / den)
    ensures fit <= 100.0 && (fit == 100.0 <==> num == 0.0)
  {
    var q := num / den;
    assert q * den == num;
    if num > 0.0 {
      assert q > 0.0;
    }
  }

  /** A model that predicts the mean everywhere scores 0 %. */
  lemma CalcFitOfMean(y: seq<real>, num: real, den: real)
    requires |y| > 0 && !Constant(y, y[0])
    requires IsNorm(num, Residual(y, seq(|y|, i => Mean(y)))) && IsNorm(den, Deviation(y))
    ensures CalcFit(y, seq(|y|, i => Mean(y)), num, den) == Some(0.0)
  {
    assert Residual(y, seq(|y|, i => Mean(y))) == Deviation(y);
    assert CalcFit(y, seq(|y|, i => Mean(y)), num, den).Some?;
    EqualRoots(num, den, SumSq(Deviation(y)));
  }

  lemma EqualRoots(a: real, b: real, s: real)
    requires a >= 0.0 && b > 0.0 && a * a == s && b * b == s
    ensures a / b == 1.0
  {
    if a < b {
      ProductLess(a, b);
    } else if b < a {
      ProductLess(b, a);
    }
  }

  /** 0 <= a < b gives a * a < b * b. */
  lemma ProductLess(a: real, b: real)
    requires 0.0 <= a < b
    ensures a * a < b * b
  {
    assert b * b - a * a == (b - a) * (b + a);
    ProductPositive(b - a, b + a, b * b - a * a);
  }
}
