/** The statistics a probe derives from its list of elapsed-time samples:
    running total, extremes, mean, and the Bessel-corrected sum of squares
    from which the sample standard deviation is taken. Samples are real
    numbers; floating-point rounding is not modelled. */
module SampleStats {

  /** Running total, accumulated left to right as `m_TotalValue += x` does. */
  function Sum(s: seq<real>): real {
    if s == [] then 0.0 else Sum(s[..|s| - 1]) + s[|s| - 1]
  }

  function Min(a: real, b: real): real { if a <= b then a else b }
  function Max(a: real, b: real): real { if a >= b then a else b }

  /** Smallest sample, folded from the left. */
  function MinOf(s: seq<real>): real
    requires s != []
  {
    if |s| == 1 then s[0] else Min(MinOf(s[..|s| - 1]), s[|s| - 1])
  }

  /** Largest sample, folded from the left. */
  function MaxOf(s: seq<real>): real
    requires s != []
  {
    if |s| == 1 then s[0] else Max(MaxOf(s[..|s| - 1]), s[|s| - 1])
  }

  /** Arithmetic mean, zero for no samples. */
  function Mean(s: seq<real>): real {
    if s == [] then 0.0 else Sum(s) / (|s| as real)
  }

  /** Sum of squared deviations from `m` (the inner product of the
      difference vector with itself). */
  function SumOfSquares(s: seq<real>, m: real): real {
    if s == [] then 0.0 else SumOfSquares(s[..|s| - 1], m) + (s[|s| - 1] - m) * (s[|s| - 1] - m)
  }

  /** Bessel-corrected sample variance; zero when there are fewer than two samples. */
  function Variance(s: seq<real>): real {
    if |s| <= 1 then 0.0 else SumOfSquares(s, Mean(s)) / ((|s| - 1) as real)
  }

  predicate AllNonNegative(s: seq<real>) {
    forall i :: 0 <= i < |s| ==> s[i] >= 0.0
  }

  // ---------------------------------------------------------------------
  // Properties
  // ---------------------------------------------------------------------

  /** Appending a sample adds it to the total. */
  lemma SumAppend(s: seq<real>, x: real)
    ensures Sum(s + [x]) == Sum(s) + x
  {
    assert (s + [x])[..|s|] == s;
  }

  /** Appending a sample folds it into the extremes. */
  lemma ExtremesAppend(s: seq<real>, x: real)
    requires s != []
    ensures MinOf(s + [x]) == Min(MinOf(s), x)
    ensures MaxOf(s + [x]) == Max(MaxOf(s), x)
  {
    assert (s + [x])[..|s|] == s;
  }

  /** MinOf is a sample, and no sample is smaller. */
  lemma {:induction false} MinOfIsLeast(s: seq<real>)
    requires s != []
    ensures exists i :: 0 <= i < |s| && s[i] == MinOf(s)
    ensures forall i :: 0 <= i < |s| ==> MinOf(s) <= s[i]
  {
    if |s| == 1 {
      assert s[0] == MinOf(s);
    } else {
      var init := s[..|s| - 1];
      MinOfIsLeast(init);
      var i :| 0 <= i < |init| && init[i] == MinOf(init);
      if MinOf(init) <= s[|s| - 1] {
        assert s[i] == MinOf(s);
      } else {
        assert s[|s| - 1] == MinOf(s);
      }
      forall j | 0 <= j < |s| ensures MinOf(s) <= s[j] {
        if j < |s| - 1 { assert s[j] == init[j]; }
      }
    }
  }

  /** MaxOf is a sample, and no sample is larger. */
  lemma {:induction false} MaxOfIsGreatest(s: seq<real>)
    requires s != []
    ensures exists i :: 0 <= i < |s| && s[i] == MaxOf(s)
    ensures forall i :: 0 <= i < |s| ==> s[i] <= MaxOf(s)
  {
    if |s| == 1 {
      assert s[0] == MaxOf(s);
    } else {
      var init := s[..|s| - 1];
      MaxOfIsGreatest(init);
      var i :| 0 <= i < |init| && init[i] == MaxOf(init);
      if MaxOf(init) >= s[|s| - 1] {
        assert s[i] == MaxOf(s);
      } else {
        assert s[|s| - 1] == MaxOf(s);
      }
      forall j | 0 <= j < |s| ensures s[j] <= MaxOf(s) {
        if j < |s| - 1 { assert s[j] == init[j]; }
      }
    }
  }

  /** A lower bound of every sample bounds the total from below, n times over;
      an upper bound bounds it from above. */
  lemma {:induction false} SumBetweenBounds(s: seq<real>, lo: real, hi: real)
    requires forall i :: 0 <= i < |s| ==> lo <= s[i] <= hi
    ensures (|s| as real) * lo <= Sum(s) <= (|s| as real) * hi
  {
    if s != [] {
      var init := s[..|s| - 1];
      SumBetweenBounds(init, lo, hi);
      assert (|s| as real) * lo == (|init| as real) * lo + lo;
      assert (|s| as real) * hi == (|init| as real) * hi + hi;
    }
  }

  /** With non-negative samples the total is at least each sample. */
  lemma {:induction false} SumDominatesSamples(s: seq<real>)
    requires AllNonNegative(s)
    ensures Sum(s) >= 0.0
    ensures forall i :: 0 <= i < |s| ==> s[i] <= Sum(s)
  {
    if s != [] {
      var init := s[..|s| - 1];
      assert AllNonNegative(init);
      SumDominatesSamples(init);
      forall i | 0 <= i < |s| ensures s[i] <= Sum(s) {
        if i < |s| - 1 { assert s[i] == init[i]; }
      }
    }
  }

  /** Dividing a total bounded by n*lo and n*hi by n > 0 gives a value in [lo, hi]. */
  lemma QuotientBetween(total: real, n: real, lo: real, hi: real)
    requires n > 0.0 && n * lo <= total <= n * hi
    ensures lo <= total / n <= hi
  {
    assert (total / n) * n == total;
  }

  /** Bounds on every sample bound the mean. */
  lemma MeanBetweenBounds(s: seq<real>, lo: real, hi: real)
    requires s != []
    requires forall i :: 0 <= i < |s| ==> lo <= s[i] <= hi
    ensures lo <= Mean(s) <= hi
  {
    SumBetweenBounds(s, lo, hi);
    QuotientBetween(Sum(s), |s| as real, lo, hi);
  }

  /** The mean lies between the extremes. */
  lemma MeanBetweenExtremes(s: seq<real>)
    requires s != []
    ensures MinOf(s) <= Mean(s) <= MaxOf(s)
  {
    MinOfIsLeast(s);
    MaxOfIsGreatest(s);
    MeanBetweenBounds(s, MinOf(s), MaxOf(s));
  }

  /** The summary statistics a benchmark report checks for elapsed times:
      0 <= minimum <= mean <= maximum <= total. */
  lemma ReportOrdering(s: seq<real>)
    requires s != [] && AllNonNegative(s)
    ensures 0.0 <= MinOf(s) <= Mean(s) <= MaxOf(s) <= Sum(s)
  {
    MinOfIsLeast(s);
    MaxOfIsGreatest(s);
    MeanBetweenExtremes(s);
    SumDominatesSamples(s);
  }

  lemma {:induction false} SumOfSquaresNonNegative(s: seq<real>, m: real)
    ensures SumOfSquares(s, m) >= 0.0
  {
    if s != [] {
      SumOfSquaresNonNegative(s[..|s| - 1], m);
      var d := s[|s| - 1] - m;
      assert d * d >= 0.0;
    }
  }

  /** The variance is never negative, so its square root is defined. */
  lemma VarianceNonNegative(s: seq<real>)
    ensures Variance(s) >= 0.0
  {
    SumOfSquaresNonNegative(s, Mean(s));
  }

  /** Identical readings have no spread: their mean is the common value and
      every deviation from it is zero. */
  lemma ConstantReadingsHaveZeroVariance(s: seq<real>, x: real)
    requires forall i :: 0 <= i < |s| ==> s[i] == x
    ensures s != [] ==> Mean(s) == x
    ensures Variance(s) == 0.0
  {
    if s != [] {
      MeanBetweenBounds(s, x, x);
    }
    SumOfSquaresAtCommonValue(s, x);
  }

  lemma {:induction false} SumOfSquaresAtCommonValue(s: seq<real>, x: real)
    requires forall i :: 0 <= i < |s| ==> s[i] == x
    ensures SumOfSquares(s, x) == 0.0
  {
    if s != [] {
      SumOfSquaresAtCommonValue(s[..|s| - 1], x);
    }
  }
}
