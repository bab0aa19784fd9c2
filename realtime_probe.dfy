/** The stand-alone wall-clock probe of the benchmark utilities
    (HighPriorityRealTimeProbe): start/stop counters, a running total, the
    extremes and the full list of elapsed times, from which Evaluate derives
    the mean and the spread. The clock reading is the parameter `now`. */
module RealTimeProbes {
  import opened Outcomes
  import opened SampleStats

  /** What Evaluate computes as the C++ code is written: None stands for the
      NaN that a floating-point 0/0 produces. */
  datatype RawEvaluation = RawEvaluation(mean: Option<real>, variance: Option<real>)

  /** The fields of one probe. The standard deviation field holds the
      variance (the square root is not modelled). */
  datatype ProbeState = ProbeState(
    nameOfProbe: string,
    nameOfTargetClass: string,
    typeString: string,
    unitString: string,
    startValue: real,
    totalValue: real,
    minValue: real,
    maxValue: real,
    meanValue: real,
    standardDeviation: real,
    numberOfStarts: nat,
    numberOfStops: nat,
    numberOfIteration: nat,
    elapsedTimeList: seq<real>)
  {
    /** The measurement invariant every operation below keeps: stops never
        outrun starts, one sample per completed stop, the total is their sum
        and the extremes are those of the samples (zero before the first). */
    predicate Consistent() {
      && numberOfStops <= numberOfStarts
      && |elapsedTimeList| == numberOfStops
      && totalValue == Sum(elapsedTimeList)
      && (elapsedTimeList == [] ==> minValue == 0.0 && maxValue == 0.0)
      && (elapsedTimeList != [] ==> minValue == MinOf(elapsedTimeList) && maxValue == MaxOf(elapsedTimeList))
    }

    /** Every numeric field is zero and no sample is kept. */
    predicate IsZeroed() {
      && startValue == 0.0 && totalValue == 0.0 && minValue == 0.0 && maxValue == 0.0
      && meanValue == 0.0 && standardDeviation == 0.0
      && numberOfStarts == 0 && numberOfStops == 0 && numberOfIteration == 0
      && elapsedTimeList == []
    }

    function ResetProbeData(): ProbeState {
      ProbeState(nameOfProbe, nameOfTargetClass, typeString, unitString,
                 0.0, 0.0, 0.0, 0.0, 0.0, 0.0, 0, 0, 0, [])
    }

    /** Reset also clears the target name and the type and unit labels,
        but keeps the probe's own name. */
    function Reset(): ProbeState {
      this.(nameOfTargetClass := "", typeString := "", unitString := "").ResetProbeData()
    }

    function Start(now: real): ProbeState {
      this.(numberOfStarts := numberOfStarts + 1, startValue := now)
    }

    /** The first sample (no stop counted yet) sets both extremes; later
        samples are folded in. */
    function UpdateMinMax(value: real): ProbeState {
      if numberOfStops == 0 then this.(minValue := value, maxValue := value)
      else this.(minValue := if minValue > value then value else minValue,
                 maxValue := if maxValue < value then value else maxValue)
    }

    /** An unmatched stop does nothing; otherwise the elapsed time is
        recorded, folded into the extremes and added to the total. */
    function Stop(now: real): ProbeState {
      if numberOfStops == numberOfStarts then this
      else
        var elapsed := now - startValue;
        var q := this.(elapsedTimeList := elapsedTimeList + [elapsed]).UpdateMinMax(elapsed);
        q.(totalValue := q.totalValue + elapsed, numberOfStops := q.numberOfStops + 1)
    }

    /** Records `value` as a completed measurement without touching the clock. */
    function TestPut(value: real): ProbeState {
      var q := this.(elapsedTimeList := elapsedTimeList + [value]).UpdateMinMax(value);
      q.(totalValue := q.totalValue + value,
         numberOfStarts := q.numberOfStarts + 1, numberOfStops := q.numberOfStops + 1)
    }

    /** True iff the iteration count agrees with both counters. */
    function CheckValidation(): bool {
      numberOfIteration == numberOfStarts && numberOfIteration == numberOfStops
    }

    /** Evaluate as written: the mean divides by the sample count and the
        variance by the count minus one, with no guard. */
    function EvaluateAsWritten(): RawEvaluation {
      var n := |elapsedTimeList|;
      if n == 0 then
        // 0/0 for the mean; the empty inner product over -1 is (minus) zero
        RawEvaluation(None, Some(0.0))
      else
        var mean := totalValue / (n as real);
        RawEvaluation(Some(mean),
                      if n == 1 then None
                      else Some(SumOfSquares(elapsedTimeList, mean) / ((n - 1) as real)))
    }

    /** Evaluate with the guards of ResourceExpandedProbe: a zero mean for no
        samples and a zero spread for fewer than two. Returns the updated
        probe and the result of CheckValidation on it. */
    function Evaluate(): (ProbeState, bool) {
      var n := |elapsedTimeList|;
      var mean := if n == 0 then 0.0 else totalValue / (n as real);
      var sd := if n <= 1 then 0.0 else SumOfSquares(elapsedTimeList, mean) / ((n - 1) as real);
      var q := this.(numberOfIteration := n, meanValue := mean, standardDeviation := sd);
      (q, q.CheckValidation())
    }
  }

  /** A newly constructed probe: everything zero, labelled "Time" in "sec". */
  function New(): (p: ProbeState)
    ensures p.Consistent() && p.IsZeroed()
  {
    ProbeState("", "", "Time", "sec", 0.0, 0.0, 0.0, 0.0, 0.0, 0.0, 0, 0, 0, [])
  }

  // ---------------------------------------------------------------------
  // Lemmas about the probe's operations
  // ---------------------------------------------------------------------

  /** Reset zeroes every numeric field, clears the labels and keeps the
      name, whatever state the probe was in; a second Reset changes nothing. */
  lemma ResetZeroes(p: ProbeState)
    ensures p.Reset().IsZeroed() && p.Reset().Consistent()
    ensures p.ResetProbeData().IsZeroed() && p.ResetProbeData().Consistent()
    ensures p.ResetProbeData().typeString == p.typeString && p.ResetProbeData().unitString == p.unitString
    ensures p.Reset().typeString == "" && p.Reset().unitString == "" && p.Reset().nameOfTargetClass == ""
    ensures p.Reset().nameOfProbe == p.nameOfProbe
    ensures p.Reset().Reset() == p.Reset()
  {
  }

  /** Start counts one start, records the clock and changes nothing else. */
  lemma StartPreserves(p: ProbeState, now: real)
    requires p.Consistent()
    ensures p.Start(now).Consistent()
    ensures p.Start(now).numberOfStarts == p.numberOfStarts + 1 && p.Start(now).startValue == now
    ensures p.Start(now).(numberOfStarts := p.numberOfStarts, startValue := p.startValue) == p
  {
  }

  /** A stop with no outstanding start leaves the probe unchanged. */
  lemma UnmatchedStopIsNoOp(p: ProbeState, now: real)
    requires p.numberOfStops == p.numberOfStarts
    ensures p.Stop(now) == p
  {
  }

  /** Folding one more sample into the extremes keeps them the extremes
      of the list that includes it. */
  lemma RecordPreserves(p: ProbeState, value: real)
    requires p.Consistent()
    ensures var q := p.(elapsedTimeList := p.elapsedTimeList + [value]).UpdateMinMax(value);
            && q.elapsedTimeList == p.elapsedTimeList + [value]
            && q.minValue == MinOf(p.elapsedTimeList + [value])
            && q.maxValue == MaxOf(p.elapsedTimeList + [value])
  {
    var s := p.elapsedTimeList;
    if s == [] {
      assert s + [value] == [value];
    } else {
      ExtremesAppend(s, value);
    }
  }

  /** A matched stop appends exactly one sample `now - startValue`, adds it to
      the total and counts one stop; the invariant is kept. */
  lemma StopPreserves(p: ProbeState, now: real)
    requires p.Consistent()
    ensures p.Stop(now).Consistent()
    ensures p.numberOfStops < p.numberOfStarts ==>
      && p.Stop(now).elapsedTimeList == p.elapsedTimeList + [now - p.startValue]
      && p.Stop(now).totalValue == p.totalValue + (now - p.startValue)
      && p.Stop(now).numberOfStops == p.numberOfStops + 1
      && p.Stop(now).numberOfStarts == p.numberOfStarts
  {
    if p.numberOfStops < p.numberOfStarts {
      RecordPreserves(p, now - p.startValue);
      SumAppend(p.elapsedTimeList, now - p.startValue);
    }
  }

  /** TestPut records a sample and counts a start and a stop together, so the
      difference between starts and stops is kept. */
  lemma TestPutPreserves(p: ProbeState, value: real)
    requires p.Consistent()
    ensures p.TestPut(value).Consistent()
    ensures p.TestPut(value).elapsedTimeList == p.elapsedTimeList + [value]
    ensures p.TestPut(value).numberOfStarts - p.TestPut(value).numberOfStops
            == p.numberOfStarts - p.numberOfStops
  {
    RecordPreserves(p, value);
    SumAppend(p.elapsedTimeList, value);
  }

  /** Once a sample exists, the minimum and maximum fields are samples and
      bound every sample. */
  lemma ExtremesAreSamples(p: ProbeState)
    requires p.Consistent() && p.numberOfStops > 0
    ensures exists i :: 0 <= i < |p.elapsedTimeList| && p.elapsedTimeList[i] == p.minValue
    ensures exists i :: 0 <= i < |p.elapsedTimeList| && p.elapsedTimeList[i] == p.maxValue
    ensures forall i :: 0 <= i < |p.elapsedTimeList| ==> p.minValue <= p.elapsedTimeList[i] <= p.maxValue
  {
    MinOfIsLeast(p.elapsedTimeList);
    MaxOfIsGreatest(p.elapsedTimeList);
  }

  /** With a monotonic clock (the reading at a stop is not earlier than the
      one at the matching start) every recorded sample is non-negative. */
  lemma MonotonicClockGivesNonNegativeSamples(p: ProbeState, now: real)
    requires p.Consistent() && AllNonNegative(p.elapsedTimeList) && now >= p.startValue
    ensures AllNonNegative(p.Stop(now).elapsedTimeList)
  {
    StopPreserves(p, now);
  }

  /** Evaluate refreshes the iteration count from the sample list, so on a
      consistent probe it reports valid exactly when every start was matched;
      the mean and spread it stores are those of the samples. */
  lemma EvaluateValidIffBalanced(p: ProbeState)
    requires p.Consistent()
    ensures p.Evaluate().1 <==> p.numberOfStarts == p.numberOfStops
    ensures p.Evaluate().0.numberOfIteration == p.numberOfStops
    ensures p.Evaluate().0.meanValue == Mean(p.elapsedTimeList)
    ensures p.Evaluate().0.standardDeviation == Variance(p.elapsedTimeList)
    ensures p.Evaluate().0.standardDeviation >= 0.0
  {
    VarianceNonNegative(p.elapsedTimeList);
  }

  /** With non-negative samples, the figures a benchmark report checks after
      Evaluate are ordered: 0 <= min <= mean <= max <= total. */
  lemma EvaluatedFiguresOrdered(p: ProbeState)
    requires p.Consistent() && p.numberOfStops > 0 && AllNonNegative(p.elapsedTimeList)
    ensures var q := p.Evaluate().0;
      0.0 <= q.minValue <= q.meanValue <= q.maxValue <= q.totalValue
  {
    ReportOrdering(p.elapsedTimeList);
  }

  /** The unguarded Evaluate divides zero by zero for a single sample: its
      spread is not a number, where the guarded version gives 0. With two or
      more samples the two agree. */
  lemma EvaluateOneSampleIsNaN(p: ProbeState)
    requires p.Consistent() && p.numberOfStops == 1
    ensures p.EvaluateAsWritten().variance == None
    ensures p.Evaluate().0.standardDeviation == 0.0
  {
  }

  lemma EvaluateAsWrittenAgreesFromTwoSamples(p: ProbeState)
    requires p.Consistent() && p.numberOfStops >= 2
    ensures p.EvaluateAsWritten() == RawEvaluation(Some(p.Evaluate().0.meanValue), Some(p.Evaluate().0.standardDeviation))
  {
  }

  // ---------------------------------------------------------------------
  // The probe object
  // ---------------------------------------------------------------------

  class HighPriorityRealTimeProbe {
    var nameOfProbe: string
    var nameOfTargetClass: string
    var typeString: string
    var unitString: string
    var startValue: real
    var totalValue: real
    var minValue: real
    var maxValue: real
    var meanValue: real
    var standardDeviation: real
    var numberOfStarts: nat
    var numberOfStops: nat
    var numberOfIteration: nat
    var elapsedTimeList: seq<real>

    /** The probe's fields as a value. */
    function State(): ProbeState
      reads this
    {
      ProbeState(nameOfProbe, nameOfTargetClass, typeString, unitString, startValue, totalValue,
                 minValue, maxValue, meanValue, standardDeviation,
                 numberOfStarts, numberOfStops, numberOfIteration, elapsedTimeList)
    }

    constructor ()
      ensures State() == New()
    {
      // Reset() on the fresh object, then the labels
      nameOfProbe, nameOfTargetClass := "", "";
      totalValue, startValue, minValue, maxValue := 0.0, 0.0, 0.0, 0.0;
      meanValue, standardDeviation := 0.0, 0.0;
      numberOfStarts, numberOfStops, numberOfIteration := 0, 0, 0;
      elapsedTimeList := [];
      typeString := "Time";
      unitString := "sec";
    }

    method SetNameOfTarget(name: string)
      modifies this
      ensures State() == old(State()).(nameOfTargetClass := name)
    {
      nameOfTargetClass := name;
    }

    method SetNameOfProbe(name: string)
      modifies this
      ensures State() == old(State()).(nameOfProbe := name)
    {
      nameOfProbe := name;
    }

    method Reset()
      modifies this
      ensures State() == old(State()).Reset()
    {
      nameOfTargetClass := "";
      typeString := "";
      unitString := "";
      ResetProbeData();
    }

    method ResetProbeData()
      modifies this
      ensures State() == old(State()).ResetProbeData()
    {
      ZeroTimeValues();
      ZeroCounts();
    }

    /** The first group of ResetProbeData: the six time values. */
    method ZeroTimeValues()
      modifies this`totalValue, this`startValue, this`minValue, this`maxValue,
               this`meanValue, this`standardDeviation
      ensures totalValue == 0.0 && startValue == 0.0 && minValue == 0.0 && maxValue == 0.0
      ensures meanValue == 0.0 && standardDeviation == 0.0
    {
      totalValue, startValue, minValue, maxValue := 0.0, 0.0, 0.0, 0.0;
      meanValue, standardDeviation := 0.0, 0.0;
    }

    /** The second group: the three counters and the list of samples. */
    method ZeroCounts()
      modifies this`numberOfStarts, this`numberOfStops, this`numberOfIteration, this`elapsedTimeList
      ensures numberOfStarts == 0 && numberOfStops == 0 && numberOfIteration == 0
      ensures elapsedTimeList == []
    {
      numberOfStarts, numberOfStops, numberOfIteration := 0, 0, 0;
      elapsedTimeList := [];
    }

    method Start(now: real)
      modifies this
      ensures State() == old(State()).Start(now)
    {
      numberOfStarts := numberOfStarts + 1;
      startValue := now;
    }

    method Stop(now: real)
      modifies this
      ensures State() == old(State()).Stop(now)
    {
      if numberOfStops == numberOfStarts {
        return;
      }
      var elapsed := now - startValue;
      elapsedTimeList := elapsedTimeList + [elapsed];
      UpdatekMinMaxValue(elapsed);
      totalValue := totalValue + elapsed;
      numberOfStops := numberOfStops + 1;
    }

    method TestPut(value: real)
      modifies this
      ensures State() == old(State()).TestPut(value)
    {
      elapsedTimeList := elapsedTimeList + [value];
      UpdatekMinMaxValue(value);
      totalValue := totalValue + value;
      numberOfStarts := numberOfStarts + 1;
      numberOfStops := numberOfStops + 1;
    }

    method UpdatekMinMaxValue(value: real)
      modifies this
      ensures State() == old(State()).UpdateMinMax(value)
    {
      if numberOfStops == 0 {
        minValue := value;
        maxValue := value;
      } else {
        minValue := if minValue > value then value else minValue;
        maxValue := if maxValue < value then value else maxValue;
      }
    }

    /** One pass over the samples for the sum of squared deviations from the
        mean, then the spread over n - 1 (guarded, see EvaluateOneSampleIsNaN). */
    method Evaluate() returns (valid: bool)
      modifies this
      ensures State() == old(State()).Evaluate().0
      ensures valid == old(State()).Evaluate().1
    {
      var n := |elapsedTimeList|;
      numberOfIteration := n;
      meanValue := if n == 0 then 0.0 else totalValue / (n as real);
      var squares := 0.0;
      var i := 0;
      while i < n
        invariant 0 <= i <= n
        invariant squares == SumOfSquares(elapsedTimeList[..i], meanValue)
      {
        assert elapsedTimeList[..i + 1][..i] == elapsedTimeList[..i];
        squares := squares + (elapsedTimeList[i] - meanValue) * (elapsedTimeList[i] - meanValue);
        i := i + 1;
      }
      assert elapsedTimeList[..n] == elapsedTimeList;
      standardDeviation := if n <= 1 then 0.0 else squares / ((n - 1) as real);
      valid := CheckValidation();
    }

    function CheckValidation(): (valid: bool)
      reads this
      ensures valid <==> State().CheckValidation()
    {
      numberOfIteration == numberOfStarts && numberOfIteration == numberOfStops
    }
  }
}
