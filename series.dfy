/** Optional values: a computation that the original program lets end in NaN or an
    exception returns None or an error here instead. */
module Outcomes {

  datatype Option<+T> = None | Some(value: T)

  datatype Result<+T, +E> = Ok(value: T) | Err(error: E)
}

/** Sums, means and sums of squares of real-valued series, as numpy's `sum`, `mean`
    and squared `norm` compute them over exact reals. */
module Series {

  /** s[lo] + ... + s[hi - 1], numpy's `sum(s[lo:hi])`. */
  function SumRange(s: seq<real>, lo: nat, hi: nat): real
    requires lo <= hi <= |s|
    decreases hi - lo
  {
    if lo == hi then 0.0 else SumRange(s, lo, hi - 1) + s[hi - 1]
  }

  /** numpy's `mean(s[lo:hi])`; numpy returns NaN for an empty range, so callers must rule
      it out. */
  function MeanRange(s: seq<real>, lo: nat, hi: nat): real
    requires lo < hi <= |s|
  {
    SumRange(s, lo, hi) / ((hi - lo) as real)
  }

  function Sum(s: seq<real>): real
  {
    SumRange(s, 0, |s|)
  }

  /** Arithmetic mean of a non-empty series. */
  function Mean(s: seq<real>): real
    requires |s| > 0
  {
    MeanRange(s, 0, |s|)
  }

  function SumSq(s: seq<real>): real
    decreases |s|
  {
    if |s| == 0 then 0.0 else SumSq(s[..|s| - 1]) + Square(s[|s| - 1])
  }

  function Square(x: real): real
  {
    x * x
  }

  predicate Constant(s: seq<real>, c: real)
  {
    forall i :: 0 <= i < |s| ==> s[i] == c
  }

  /** A range whose samples all equal c sums to its length times c. */
  lemma {:induction false} SumOfConstant(s: seq<real>, lo: nat, hi: nat, c: real)
    requires lo <= hi <= |s|
    requires forall i :: lo <= i < hi ==> s[i] == c
    ensures SumRange(s, lo, hi) == ((hi - lo) as real) * c
    decreases hi - lo
  {
    if lo < hi {
      SumOfConstant(s, lo, hi - 1, c);
    }
  }

  /** The mean of a range whose samples all equal c is c. */
  lemma MeanOfConstant(s: seq<real>, lo: nat, hi: nat, c: real)
    requires lo < hi <= |s|
    requires forall i :: lo <= i < hi ==> s[i] == c
    ensures MeanRange(s, lo, hi) == c
  {
    SumOfConstant(s, lo, hi, c);
    assert SumRange(s, lo, hi) / ((hi - lo) as real) == c;
  }

  /** Sums commute with a pointwise affine map z[i] = k * x[i] + m. */
  lemma {:induction false} SumOfAffine(z: seq<real>, x: seq<real>, lo: nat, hi: nat, k: real, m: real)
    requires lo <= hi <= |z| == |x|
    requires forall i :: lo <= i < hi ==> z[i] == k * x[i] + m
    ensures SumRange(z, lo, hi) == k * SumRange(x, lo, hi) + ((hi - lo) as real) * m
    decreases hi - lo
  {
    if lo < hi {
      SumOfAffine(z, x, lo, hi - 1, k, m);
      assert SumRange(z, lo, hi - 1) + z[hi - 1] == k * (SumRange(x, lo, hi - 1) + x[hi - 1]) + ((hi - 1 - lo) as real + 1.0) * m;
    }
  }

  /** Means commute with a pointwise affine map. */
  lemma MeanOfAffine(z: seq<real>, x: seq<real>, lo: nat, hi: nat, k: real, m: real)
    requires lo < hi <= |z| == |x|
    requires forall i :: lo <= i < hi ==> z[i] == k * x[i] + m
    ensures MeanRange(z, lo, hi) == k * MeanRange(x, lo, hi) + m
  {
    SumOfAffine(z, x, lo, hi, k, m);
    assert SumRange(z, lo, hi) / ((hi - lo) as real) == k * (SumRange(x, lo, hi) / ((hi - lo) as real)) + m;
  }

  /** Means are linear: z[i] = x[i] - k * y[i] gives Mean(z) = Mean(x) - k * Mean(y). */
  lemma MeanOfDifference(z: seq<real>, x: seq<real>, y: seq<real>, k: real)
    requires |z| == |x| == |y| > 0
    requires forall i :: 0 <= i < |z| ==> z[i] == x[i] - k * y[i]
    ensures Mean(z) == Mean(x) - k * Mean(y)
  {
    SumOfDifference(z, x, y, |z|, k);
    assert Sum(z) / (|z| as real) == Sum(x) / (|z| as real) - k * (Sum(y) / (|z| as real));
  }

  /** Sums are linear: z[i] = x[i] - k * y[i] on [0, hi) gives the same relation of the sums. */
  lemma {:induction false} SumOfDifference(z: seq<real>, x: seq<real>, y: seq<real>, hi: nat, k: real)
    requires hi <= |z| == |x| == |y|
    requires forall i :: 0 <= i < hi ==> z[i] == x[i] - k * y[i]
    ensures SumRange(z, 0, hi) == SumRange(x, 0, hi) - k * SumRange(y, 0, hi)
  {
    if hi > 0 {
      SumOfDifference(z, x, y, hi - 1, k);
      assert SumRange(z, 0, hi - 1) + z[hi - 1] == (SumRange(x, 0, hi - 1) + x[hi - 1]) - k * (SumRange(y, 0, hi - 1) + y[hi - 1]);
    }
  }

  lemma SquareNonNegative(x: real)
    ensures Square(x) >= 0.0
  {
  }

  lemma SquarePositive(x: real)
    requires x != 0.0
    ensures Square(x) > 0.0
  {
    if x > 0.0 {
      ProductPositive(x, x, Square(x));
    } else {
      ProductPositive(-x, -x, Square(x));
    }
  }

  /** The product is passed as its own parameter p: the solver proves the sign of a
      product of two named factors more reliably than that of a square term. */
  lemma ProductPositive(a: real, b: real, p: real)
    requires a > 0.0 && b > 0.0 && p == a * b
    ensures p > 0.0
  {
  }

  /** A sum of squares is never negative and is zero exactly when every sample is zero. */
  lemma {:induction false} SumSqZero(s: seq<real>)
    ensures SumSq(s) >= 0.0
    ensures SumSq(s) == 0.0 <==> Constant(s, 0.0)
  {
    if |s| > 0 {
      var n := |s|;
      var init := s[..n - 1];
      SumSqZero(init);
      assert SumSq(s) == SumSq(init) + Square(s[n - 1]);
      SquareNonNegative(s[n - 1]);
      if s[n - 1] != 0.0 {
        SquarePositive(s[n - 1]);
        assert !Constant(s, 0.0) by {
          assert s[n - 1] != 0.0;
        }
      } else {
        assert Constant(s, 0.0) <==> Constant(init, 0.0) by {
          assert forall i :: 0 <= i < n - 1 ==> init[i] == s[i];
        }
      }
    }
  }
}
