/** ResourceProbe2: the plain accumulator under the expanded probe. It counts
    starts and stops and sums the elapsed readings of the injected clock. */
module ResourceProbes {

  datatype Probe2State = Probe2State(
    typeString: string,
    unitString: string,
    startValue: real,
    totalValue: real,
    numberOfStarts: nat,
    numberOfStops: nat)
  {
    /** Counters and values back to zero; the labels stay. */
    function Reset(): Probe2State {
      this.(startValue := 0.0, totalValue := 0.0, numberOfStarts := 0, numberOfStops := 0)
    }

    function Start(now: real): Probe2State {
      this.(numberOfStarts := numberOfStarts + 1, startValue := now)
    }

    /** An unmatched stop does nothing; otherwise the elapsed reading is added. */
    function Stop(now: real): Probe2State {
      if numberOfStops == numberOfStarts then this
      else this.(totalValue := totalValue + (now - startValue), numberOfStops := numberOfStops + 1)
    }

    /** Zero until the first stop, then the total over the number of stops. */
    function GetMean(): (mean: real)
      ensures numberOfStops == 0 ==> mean == 0.0
      ensures numberOfStops > 0 ==> mean * (numberOfStops as real) == totalValue
    {
      if numberOfStops == 0 then 0.0 else totalValue / (numberOfStops as real)
    }
  }

  /** A probe as built by the constructor: labels from the arguments, the rest zero. */
  function New(typeString: string, unitString: string): (p: Probe2State)
    ensures p.typeString == typeString && p.unitString == unitString
    ensures p.Reset() == p
  {
    Probe2State(typeString, unitString, 0.0, 0.0, 0, 0)
  }

  /** Reset zeroes the counters whatever their values and never touches the labels. */
  lemma ResetZeroes(p: Probe2State)
    ensures p.Reset() == New(p.typeString, p.unitString)
    ensures p.Reset().GetMean() == 0.0
  {
  }

  /** Start and a matched Stop keep stops <= starts; a stop with no outstanding
      start changes nothing; a matched stop adds exactly one elapsed reading. */
  lemma StartStopKeepOrder(p: Probe2State, now: real)
    requires p.numberOfStops <= p.numberOfStarts
    ensures p.Start(now).numberOfStops <= p.Start(now).numberOfStarts
    ensures p.Stop(now).numberOfStops <= p.Stop(now).numberOfStarts
    ensures p.numberOfStops == p.numberOfStarts ==> p.Stop(now) == p
    ensures p.numberOfStops < p.numberOfStarts ==>
      p.Stop(now).totalValue == p.totalValue + (now - p.startValue) &&
      p.Stop(now).numberOfStops == p.numberOfStops + 1
  {
  }

  /** One complete start/stop cycle on a fresh probe yields that cycle's
      elapsed reading as the mean. */
  lemma SingleCycleMean(typeString: string, unitString: string, t0: real, t1: real)
    ensures New(typeString, unitString).Start(t0).Stop(t1).GetMean() == t1 - t0
  {
  }

  class ResourceProbe2 {
    var typeString: string
    var unitString: string
    var startValue: real
    var totalValue: real
    var numberOfStarts: nat
    var numberOfStops: nat

    function State(): Probe2State
      reads this
    {
      Probe2State(typeString, unitString, startValue, totalValue, numberOfStarts, numberOfStops)
    }

    constructor (typeString: string, unitString: string)
      ensures State() == New(typeString, unitString)
    {
      this.typeString := typeString;
      this.unitString := unitString;
      totalValue, startValue := 0.0, 0.0;
      numberOfStarts, numberOfStops := 0, 0;
    }

    method Reset()
      modifies this
      ensures State() == old(State()).Reset()
    {
      totalValue := 0.0;
      startValue := 0.0;
      numberOfStarts := 0;
      numberOfStops := 0;
    }

    method Start(now: real)
      modifies this
      ensures State() == old(State()).Start(now)
    {
      numberOfStarts := numberOfStarts + 1;
      startValue := now;
    }

    method Stop(now: real)
      modifies this
      ensures State() == old(State()).Stop(now)
    {
      if numberOfStops == numberOfStarts {
        return;
      }
      totalValue := totalValue + (now - startValue);
      numberOfStops := numberOfStops + 1;
    }

    /** Adds `val` (1 at the usual call sites) to the start counter only. */
    method IncreaseNumberOfStarts(val: nat)
      modifies this
      ensures State() == old(State()).(numberOfStarts := old(numberOfStarts) + val)
    {
      numberOfStarts := numberOfStarts + val;
    }

    method IncreaseNumberOfStops(val: nat)
      modifies this
      ensures State() == old(State()).(numberOfStops := old(numberOfStops) + val)
    {
      numberOfStops := numberOfStops + val;
    }

    method SetStartValue(value: real)
      modifies this
      ensures State() == old(State()).(startValue := value)
    {
      startValue := value;
    }

    method SetTotalValue(value: real)
      modifies this
      ensures State() == old(State()).(totalValue := value)
    {
      totalValue := value;
    }

    function GetMean(): (mean: real)
      reads this
      ensures mean == State().GetMean()
    {
      if numberOfStops == 0 then 0.0 else totalValue / (numberOfStops as real)
    }
  }
}
