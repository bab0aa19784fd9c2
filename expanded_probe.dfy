/** ResourceExpandedProbe: a ResourceProbe2 that also keeps every elapsed
    reading, the extremes, the thread count at the last start, and derives
    the mean and the sample spread from the readings. The global default
    thread count is the parameter `threads`. */
module ExpandedProbes {
  import opened SampleStats
  import ResourceProbes

  /** The standard deviation field holds the variance (no square root). */
  datatype ExpandedState = ExpandedState(
    base: ResourceProbes.Probe2State,
    nameOfProbe: string,
    minimumValue: real,
    maximumValue: real,
    meanValue: real,
    standardDeviation: real,
    numberOfIteration: nat,
    numberOfThread: nat,
    probeValueList: seq<real>)
  {
    /** The measurement invariant: stops never outrun starts, one reading per
        stop, the iteration count is the number of readings, the total is
        their sum and the extremes are theirs (zero before the first). */
    predicate Valid() {
      && base.numberOfStops <= base.numberOfStarts
      && |probeValueList| == base.numberOfStops
      && numberOfIteration == |probeValueList|
      && base.totalValue == Sum(probeValueList)
      && (probeValueList == [] ==> minimumValue == 0.0 && maximumValue == 0.0)
      && (probeValueList != [] ==> minimumValue == MinOf(probeValueList) && maximumValue == MaxOf(probeValueList))
    }

    /** The base counters and every own numeric field back to zero, the list
        emptied; the name and the labels stay. */
    function Reset(): ExpandedState {
      this.(base := base.Reset(), minimumValue := 0.0, maximumValue := 0.0,
            meanValue := 0.0, standardDeviation := 0.0,
            numberOfIteration := 0, numberOfThread := 0, probeValueList := [])
    }

    function SetNameOfProbe(name: string): ExpandedState {
      this.(nameOfProbe := name)
    }

    function Start(now: real, threads: nat): ExpandedState {
      this.(base := base.(numberOfStarts := base.numberOfStarts + 1, startValue := now),
            numberOfThread := threads)
    }

    function UpdateMinMax(value: real): ExpandedState {
      if base.numberOfStops == 0 then this.(minimumValue := value, maximumValue := value)
      else this.(minimumValue := if minimumValue > value then value else minimumValue,
                 maximumValue := if maximumValue < value then value else maximumValue)
    }

    /** An unmatched stop changes nothing (the clock reading is discarded). */
    function Stop(now: real): ExpandedState {
      var value := now - base.startValue;
      if base.numberOfStops == base.numberOfStarts then this
      else
        var q := UpdateMinMax(value);
        q.(base := q.base.(totalValue := q.base.totalValue + value,
                           numberOfStops := q.base.numberOfStops + 1),
           probeValueList := q.probeValueList + [value],
           numberOfIteration := |q.probeValueList| + 1)
    }

    /** Zero while no iteration is recorded, otherwise the total over the
        number of readings. (The second guard only matters outside Valid,
        where the C++ division would not be by a positive count.) */
    function GetMean(): real {
      if numberOfIteration > 0 && probeValueList != [] then
        base.totalValue / (|probeValueList| as real)
      else 0.0
    }

    /** Caches the mean, then the sum of squared deviations over one less than
        the number of readings; zero for fewer than two readings. Returns the
        updated probe and the value. */
    function GetStandardDeviation(): (ExpandedState, real) {
      var mean := GetMean();
      var n := |probeValueList|;
      var sd := if n - 1 <= 0 then 0.0 else SumOfSquares(probeValueList, mean) / ((n - 1) as real);
      (this.(meanValue := mean, standardDeviation := sd), sd)
    }

    function CheckValidation(): bool {
      numberOfIteration == base.numberOfStarts && numberOfIteration == base.numberOfStops
    }
  }

  /** The probe the constructor builds: labels from the arguments, unnamed,
      everything else zero. */
  function New(typeString: string, unitString: string): (p: ExpandedState)
    ensures p.Valid() && p.CheckValidation()
    ensures p.base.typeString == typeString && p.base.unitString == unitString
  {
    ExpandedState(ResourceProbes.New(typeString, unitString), "", 0.0, 0.0, 0.0, 0.0, 0, 0, [])
  }

  // ---------------------------------------------------------------------
  // Lemmas
  // ---------------------------------------------------------------------

  /** Right after Reset the probe is valid and passes CheckValidation (all
      counters are zero), whatever state it was in. */
  lemma ResetValidates(p: ExpandedState)
    ensures p.Reset().Valid() && p.Reset().CheckValidation()
    ensures p.Reset() == New(p.base.typeString, p.base.unitString).(nameOfProbe := p.nameOfProbe)
  {
  }

  /** Start counts one start, records the clock and the thread count, and
      keeps the invariant. */
  lemma StartPreserves(p: ExpandedState, now: real, threads: nat)
    requires p.Valid()
    ensures p.Start(now, threads).Valid()
    ensures p.Start(now, threads).base.numberOfStarts == p.base.numberOfStarts + 1
    ensures p.Start(now, threads).base.startValue == now && p.Start(now, threads).numberOfThread == threads
  {
  }

  /** A stop with no outstanding start leaves every field unchanged. */
  lemma UnmatchedStopIsNoOp(p: ExpandedState, now: real)
    requires p.base.numberOfStops == p.base.numberOfStarts
    ensures p.Stop(now) == p
  {
  }

  /** A matched stop appends one reading `now - start`, adds it to the total,
      counts one stop and keeps the invariant. */
  lemma StopPreserves(p: ExpandedState, now: real)
    requires p.Valid()
    ensures p.Stop(now).Valid()
    ensures p.base.numberOfStops < p.base.numberOfStarts ==>
      && p.Stop(now).probeValueList == p.probeValueList + [now - p.base.startValue]
      && p.Stop(now).base.totalValue == p.base.totalValue + (now - p.base.startValue)
      && p.Stop(now).base.numberOfStops == p.base.numberOfStops + 1
      && p.Stop(now).base.numberOfStarts == p.base.numberOfStarts
  {
    if p.base.numberOfStops < p.base.numberOfStarts {
      var value := now - p.base.startValue;
      var s := p.probeValueList;
      if s == [] {
        assert s + [value] == [value];
      } else {
        ExtremesAppend(s, value);
      }
      SumAppend(s, value);
    }
  }

  /** On a valid probe GetMean is the sample mean and the spread is the
      sample variance, which is never negative and is zero below two readings. */
  lemma StatisticsOfReadings(p: ExpandedState)
    requires p.Valid()
    ensures p.GetMean() == Mean(p.probeValueList)
    ensures p.GetStandardDeviation().1 == Variance(p.probeValueList)
    ensures p.GetStandardDeviation().1 >= 0.0
    ensures p.GetStandardDeviation().0.meanValue == p.GetMean()
    ensures |p.probeValueList| <= 1 ==> p.GetStandardDeviation().1 == 0.0
  {
    VarianceNonNegative(p.probeValueList);
  }

  /** On a valid probe CheckValidation holds exactly when every start was
      matched by a stop. */
  lemma CheckValidationIffBalanced(p: ExpandedState)
    requires p.Valid()
    ensures p.CheckValidation() <==> p.base.numberOfStarts == p.base.numberOfStops
  {
  }

  /** With non-negative readings the reported figures are ordered:
      0 <= min <= mean <= max <= total. */
  lemma ReportedFiguresOrdered(p: ExpandedState)
    requires p.Valid() && p.base.numberOfStops > 0 && AllNonNegative(p.probeValueList)
    ensures 0.0 <= p.minimumValue <= p.GetMean() <= p.maximumValue <= p.base.totalValue
  {
    ReportOrdering(p.probeValueList);
  }

  /** On a valid probe with readings, the extreme fields are readings and
      bound every reading. */
  lemma ExtremesAreReadings(p: ExpandedState)
    ensures p.Valid() && p.probeValueList != [] ==>
      && (exists i :: 0 <= i < |p.probeValueList| && p.probeValueList[i] == p.minimumValue)
      && (exists i :: 0 <= i < |p.probeValueList| && p.probeValueList[i] == p.maximumValue)
      && forall i :: 0 <= i < |p.probeValueList| ==> p.minimumValue <= p.probeValueList[i] <= p.maximumValue
  {
    if p.Valid() && p.probeValueList != [] {
      MinOfIsLeast(p.probeValueList);
      MaxOfIsGreatest(p.probeValueList);
    }
  }

  /** With a monotonic clock every reading is non-negative. */
  lemma MonotonicClockGivesNonNegativeReadings(p: ExpandedState, now: real)
    requires p.Valid() && AllNonNegative(p.probeValueList) && now >= p.base.startValue
    ensures AllNonNegative(p.Stop(now).probeValueList)
  {
    StopPreserves(p, now);
  }

  // ---------------------------------------------------------------------
  // The probe object; `base` is the ResourceProbe2 part of the object.
  // ---------------------------------------------------------------------

  class ResourceExpandedProbe {
    const base: ResourceProbes.ResourceProbe2
    var nameOfProbe: string
    var minimumValue: real
    var maximumValue: real
    var meanValue: real
    var standardDeviation: real
    var numberOfIteration: nat
    var numberOfThread: nat
    var probeValueList: seq<real>

    function State(): ExpandedState
      reads this, base
    {
      ExpandedState(base.State(), nameOfProbe, minimumValue, maximumValue, meanValue,
                    standardDeviation, numberOfIteration, numberOfThread, probeValueList)
    }

    constructor (typeString: string, unitString: string)
      ensures State() == New(typeString, unitString)
      ensures fresh(base)
    {
      base := new ResourceProbes.ResourceProbe2(typeString, unitString);
      nameOfProbe := "";
      minimumValue, maximumValue, meanValue, standardDeviation := 0.0, 0.0, 0.0, 0.0;
      numberOfIteration, numberOfThread := 0, 0;
      probeValueList := [];
    }

    method SetNameOfProbe(name: string)
      modifies this
      ensures State() == old(State()).SetNameOfProbe(name)
    {
      nameOfProbe := name;
    }

    method Reset()
      modifies this, base
      ensures State() == old(State()).Reset()
    {
      base.Reset();
      minimumValue := 0.0;
      maximumValue := 0.0;
      meanValue := 0.0;
      standardDeviation := 0.0;
      numberOfIteration := 0;
      numberOfThread := 0;
      probeValueList := [];
    }

    method Start(now: real, threads: nat)
      modifies this, base
      ensures State() == old(State()).Start(now, threads)
    {
      base.IncreaseNumberOfStarts(1);
      numberOfThread := threads;
      base.SetStartValue(now);
    }

    method Stop(now: real)
      modifies this, base
      ensures State() == old(State()).Stop(now)
    {
      var value := now - base.startValue;
      if base.numberOfStops == base.numberOfStarts {
        return;
      }
      UpdatekMinimumMaximumMeasuredValue(value);
      base.SetTotalValue(base.totalValue + value);
      probeValueList := probeValueList + [value];
      base.IncreaseNumberOfStops(1);
      numberOfIteration := |probeValueList|;
    }

    method UpdatekMinimumMaximumMeasuredValue(value: real)
      modifies this
      ensures State() == old(State()).UpdateMinMax(value)
    {
      if base.numberOfStops == 0 {
        minimumValue := value;
        maximumValue := value;
      } else {
        minimumValue := if minimumValue > value then value else minimumValue;
        maximumValue := if maximumValue < value then value else maximumValue;
      }
    }

    /** The stored minimum: on a valid probe with readings, the least
        reading (see ExtremesAreReadings); 0 before the first reading. */
    function GetMinimum(): (m: real)
      reads this, base
      ensures m == minimumValue
      ensures State().Valid() && probeValueList != [] ==>
        && m == MinOf(probeValueList)
        && (exists i :: 0 <= i < |probeValueList| && probeValueList[i] == m)
        && forall i :: 0 <= i < |probeValueList| ==> m <= probeValueList[i]
      ensures State().Valid() && probeValueList == [] ==> m == 0.0
    {
      ExtremesAreReadings(State());
      minimumValue
    }

    /** The stored maximum: on a valid probe with readings, the greatest
        reading; 0 before the first reading. */
    function GetMaximum(): (m: real)
      reads this, base
      ensures m == maximumValue
      ensures State().Valid() && probeValueList != [] ==>
        && m == MaxOf(probeValueList)
        && (exists i :: 0 <= i < |probeValueList| && probeValueList[i] == m)
        && forall i :: 0 <= i < |probeValueList| ==> probeValueList[i] <= m
      ensures State().Valid() && probeValueList == [] ==> m == 0.0
    {
      ExtremesAreReadings(State());
      maximumValue
    }

    function GetMean(): (mean: real)
      reads this, base
      ensures mean == State().GetMean()
      ensures State().Valid() ==> mean == Mean(probeValueList)
    {
      if numberOfIteration > 0 && probeValueList != [] then
        base.totalValue / (|probeValueList| as real)
      else 0.0
    }

    /** One pass over the readings for the sum of squared deviations. */
    method GetStandardDeviation() returns (sd: real)
      modifies this
      ensures State() == old(State()).GetStandardDeviation().0
      ensures sd == old(State()).GetStandardDeviation().1
    {
      meanValue := GetMean();
      var squares := 0.0;
      var i := 0;
      while i < |probeValueList|
        invariant 0 <= i <= |probeValueList|
        invariant squares == SumOfSquares(probeValueList[..i], meanValue)
      {
        assert probeValueList[..i + 1][..i] == probeValueList[..i];
        squares := squares + (probeValueList[i] - meanValue) * (probeValueList[i] - meanValue);
        i := i + 1;
      }
      assert probeValueList[..|probeValueList|] == probeValueList;
      var sz := |probeValueList| - 1;
      if sz <= 0 {
        standardDeviation := 0.0;
      } else {
        standardDeviation := squares / (sz as real);
      }
      sd := standardDeviation;
    }

    function CheckValidation(): (valid: bool)
      reads this, base
      ensures valid == State().CheckValidation()
      ensures State().Valid() ==> (valid <==> base.numberOfStarts == base.numberOfStops)
    {
      numberOfIteration == base.numberOfStarts && numberOfIteration == base.numberOfStops
    }
  }
}
