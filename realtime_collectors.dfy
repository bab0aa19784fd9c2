/** The two collectors of the benchmark utilities that keep
    HighPriorityRealTimeProbe values by name: the thread-aware one
    (HighPriorityRealTimeProbesCollector, keys rewritten by ThreadNaming) and
    the plain one (HighPriorityRealTimeProbeCollector, raw keys). Lookups
    that throw in the C++ code return NoSuchProbe / Missing here. */
module RealTimeCollectors {
  import opened Outcomes
  import Text
  import opened ThreadNaming
  import opened RealTimeProbes

  type ProbeList = map<string, ProbeState>

  /** CheckHighPriorityRealTimeProbeWithName: whether the key is present,
      together with a copy of the stored probe. */
  function Check(m: ProbeList, key: string): (r: Option<ProbeState>)
    ensures r.Some? <==> key in m
    ensures r.Some? ==> r.value == m[key]
  {
    if key in m then Some(m[key]) else None
  }

  /** The probe a collector inserts for a new key: a fresh probe named by the key. */
  function Created(key: string): (p: ProbeState)
    ensures p.Consistent() && p.IsZeroed() && p.nameOfProbe == key
  {
    New().(nameOfProbe := key)
  }

  /** Start as the C++ code is written: for a present key the copy returned
      by Check is started and dropped, so the map is unchanged. */
  function StartAsWritten(m: ProbeList, key: string, now: real): ProbeList {
    match Check(m, key)
    case Some(copy) => var _ := copy.Start(now); m
    case None => m[key := Created(key).Start(now)]
  }

  /** Start as evidently intended (and as the collector base does it): the
      stored entry, created if absent, is started in place. */
  function StartStored(m: ProbeList, key: string, now: real): ProbeList {
    var p := if key in m then m[key] else Created(key);
    m[key := p.Start(now)]
  }

  function StopIn(m: ProbeList, key: string, now: real): Result<ProbeList> {
    if key !in m then NoSuchProbe(key) else Ok(m[key := m[key].Stop(now)])
  }

  function ResetIn(m: ProbeList, key: string): Result<ProbeList> {
    if key !in m then NoSuchProbe(key) else Ok(m[key := m[key].Reset()])
  }

  function ResetAll(m: ProbeList): (r: ProbeList)
    ensures r.Keys == m.Keys
    ensures forall k :: k in r ==> r[k] == m[k].Reset()
  {
    map k | k in m :: m[k].Reset()
  }

  /** The conjunction of CheckValidation over every stored probe. */
  predicate AllValidated(m: ProbeList) {
    forall k :: k in m ==> m[k].CheckValidation()
  }

  datatype Statistic = NumberOfStarts | NumberOfStops | Total | Min | Max | Mean | StandardDeviation

  /** What each per-name getter reads from the stored probe. */
  function StatisticOf(p: ProbeState, s: Statistic): real {
    match s
    case NumberOfStarts => p.numberOfStarts as real
    case NumberOfStops => p.numberOfStops as real
    case Total => p.totalValue
    case Min => p.minValue
    case Max => p.maxValue
    case Mean => p.meanValue
    case StandardDeviation => p.standardDeviation
  }

  /** The state of every probe a collector holds: consistent, named by its
      key, and never evaluated (the collectors have no path to Evaluate). */
  predicate Unevaluated(m: ProbeList) {
    forall k :: k in m ==>
      && m[k].Consistent()
      && m[k].nameOfProbe == k
      && m[k].numberOfIteration == 0
      && m[k].meanValue == 0.0
      && m[k].standardDeviation == 0.0
  }

  // ---------------------------------------------------------------------
  // Lemmas
  // ---------------------------------------------------------------------

  /** Start as written never changes a present entry. */
  lemma StartAsWrittenIgnoresPresentKey(m: ProbeList, key: string, now: real)
    requires key in m
    ensures StartAsWritten(m, key, now) == m
    ensures StartStored(m, key, now)[key].numberOfStarts == m[key].numberOfStarts + 1
  {
  }

  /** For a new key the two versions agree: the probe is inserted under its
      key, named by it, with exactly one start. */
  lemma StartNewKeyAgrees(m: ProbeList, key: string, now: real)
    requires key !in m
    ensures StartAsWritten(m, key, now) == StartStored(m, key, now)
    ensures StartAsWritten(m, key, now)[key].numberOfStarts == 1
    ensures StartAsWritten(m, key, now)[key].nameOfProbe == key
  {
  }

  /** Every operation keeps the collector invariant. */
  lemma OperationsKeepUnevaluated(m: ProbeList, key: string, now: real)
    requires Unevaluated(m)
    ensures Unevaluated(StartAsWritten(m, key, now))
    ensures Unevaluated(StartStored(m, key, now))
    ensures StopIn(m, key, now).Ok? ==> Unevaluated(StopIn(m, key, now).value)
    ensures Unevaluated(ResetAll(m))
    ensures ResetIn(m, key).Ok? ==> Unevaluated(ResetIn(m, key).value)
  {
    if key in m {
      StartPreserves(m[key], now);
      StopPreserves(m[key], now);
      ResetZeroes(m[key]);
    }
    forall k | k in m
      ensures ResetAll(m)[k].Consistent()
    {
      ResetZeroes(m[k]);
    }
  }

  /** Because no stored probe is ever evaluated, the per-name validation of a
      collector holds exactly for probes that were never started, and the
      mean and spread getters report zero. */
  lemma CollectorValidationMeansNeverStarted(m: ProbeList, key: string)
    requires Unevaluated(m) && key in m
    ensures m[key].CheckValidation() <==> m[key].numberOfStarts == 0
    ensures StatisticOf(m[key], Mean) == 0.0 && StatisticOf(m[key], StandardDeviation) == 0.0
  {
  }

  /** As written, a second measurement cycle on the same name is lost: the
      restart is applied to a copy and the following stop is unmatched, so
      one reading remains. */
  lemma {:induction false} RestartIsLostAsWritten(m: ProbeList, key: string, t0: real, t1: real, t2: real, t3: real)
    requires key !in m
    ensures var m1 := StartAsWritten(m, key, t0);
      StopIn(m1, key, t1).Ok? &&
      var m2 := StartAsWritten(StopIn(m1, key, t1).value, key, t2);
      StopIn(m2, key, t3).Ok? &&
      var p := StopIn(m2, key, t3).value[key];
      p.elapsedTimeList == [t1 - t0] && p.numberOfStarts == 1 && p.numberOfStops == 1
  {
    var m1 := StartAsWritten(m, key, t0);
    var p1 := m1[key].Stop(t1);
    assert p1.numberOfStarts == p1.numberOfStops == 1;
    StartAsWrittenIgnoresPresentKey(m1[key := p1], key, t2);
    UnmatchedStopIsNoOp(p1, t3);
  }

  /** Corrected, each start/stop cycle on a name adds its reading. */
  lemma {:induction false} RestartAccumulates(m: ProbeList, key: string, t0: real, t1: real, t2: real, t3: real)
    requires key !in m
    ensures var m1 := StartStored(m, key, t0);
      StopIn(m1, key, t1).Ok? &&
      var m2 := StartStored(StopIn(m1, key, t1).value, key, t2);
      StopIn(m2, key, t3).Ok? &&
      var p := StopIn(m2, key, t3).value[key];
      p.elapsedTimeList == [t1 - t0, t3 - t2] && p.numberOfStarts == 2 && p.numberOfStops == 2
  {
    var p0 := Created(key);
    var p1 := p0.Start(t0);
    StartPreserves(p0, t0);
    StopPreserves(p1, t1);
    var p2 := p1.Stop(t1).Start(t2);
    StartPreserves(p1.Stop(t1), t2);
    StopPreserves(p2, t3);
  }

  /** With thread naming on, Reset(name) looks up the raw name and fails
      even right after Start(name) stored the probe under its suffixed key. */
  lemma ResetByRawNameFails(m: ProbeList, name: string, threads: nat, now: real)
    requires name !in m
    ensures ResetIn(StartStored(m, EffectiveName(name, threads, true), now), name).NoSuchProbe?
    ensures ResetIn(StartAsWritten(m, EffectiveName(name, threads, true), now), name).NoSuchProbe?
  {
    SuffixedKeyIsNeverRawName(name, threads);
  }

  /** With thread naming on, measuring a name at one thread count leaves
      the entry for the same name at any other count untouched. */
  lemma ThreadCountsKeptApart(m: ProbeList, name: string, t1: nat, t2: nat, now: real)
    requires t1 != t2
    ensures var other := EffectiveName(name, t2, true);
      other in m ==> StartStored(m, EffectiveName(name, t1, true), now)[other] == m[other]
    ensures var other := EffectiveName(name, t2, true);
      other in m && EffectiveName(name, t1, true) in m ==>
        StopIn(m, EffectiveName(name, t1, true), now).value[other] == m[other]
  {
    if EffectiveName(name, t1, true) == EffectiveName(name, t2, true) {
      DistinctThreadCountsGiveDistinctKeys(name, t1, t2);
    }
  }

  // ---------------------------------------------------------------------
  // HighPriorityRealTimeProbesCollector (thread-aware keys)
  // ---------------------------------------------------------------------

  class HighPriorityRealTimeProbesCollector {
    var probeList: ProbeList
    var updateProbeNameWithNumOfThreads: bool

    /** Thread naming is on and the map is empty. */
    constructor ()
      ensures probeList == map[] && updateProbeNameWithNumOfThreads
    {
      probeList := map[];
      updateProbeNameWithNumOfThreads := true;
    }

    method EnableUpdatingProbeNameWithNumOfThreads(updateProbeName: bool)
      modifies this
      ensures updateProbeNameWithNumOfThreads == updateProbeName && probeList == old(probeList)
    {
      updateProbeNameWithNumOfThreads := updateProbeName;
    }

    function UpdateProbeNameWithNumOfThreads(name: string, threads: nat): (key: string)
      reads this
      ensures key == EffectiveName(name, threads, updateProbeNameWithNumOfThreads)
    {
      EffectiveName(name, threads, updateProbeNameWithNumOfThreads)
    }

    /** Starts the stored probe under the effective key (the corrected
        behaviour; see StartAsWritten for the code as written). */
    method Start(name: string, now: real, threads: nat)
      modifies this
      ensures probeList == StartStored(old(probeList), EffectiveName(name, threads, updateProbeNameWithNumOfThreads), now)
      ensures updateProbeNameWithNumOfThreads == old(updateProbeNameWithNumOfThreads)
    {
      var key := UpdateProbeNameWithNumOfThreads(name, threads);
      match Check(probeList, key)
      case Some(stored) =>
        probeList := probeList[key := stored.Start(now)];
      case None =>
        var probe := New();
        probe := probe.(nameOfProbe := key);
        probeList := probeList[key := probe];
        probeList := probeList[key := probeList[key].Start(now)];
    }

    method Stop(name: string, now: real, threads: nat) returns (status: Status)
      modifies this
      ensures var key := EffectiveName(name, threads, updateProbeNameWithNumOfThreads);
        match StopIn(old(probeList), key, now)
        case Ok(m) => status == Done && probeList == m
        case NoSuchProbe(k) => status == Missing(k) && probeList == old(probeList)
      ensures updateProbeNameWithNumOfThreads == old(updateProbeNameWithNumOfThreads)
    {
      var key := UpdateProbeNameWithNumOfThreads(name, threads);
      match FindByName(probeList, key)
      case NoSuchProbe(k) =>
        status := Missing(k);
      case Ok(p) =>
        probeList := probeList[key := p.Stop(now)];
        status := Done;
    }

    /** Reset(name) looks up the name as given, without the thread suffix. */
    method Reset(name: string) returns (status: Status)
      modifies this
      ensures match ResetIn(old(probeList), name)
        case Ok(m) => status == Done && probeList == m
        case NoSuchProbe(k) => status == Missing(k) && probeList == old(probeList)
      ensures updateProbeNameWithNumOfThreads == old(updateProbeNameWithNumOfThreads)
    {
      match FindByName(probeList, name)
      case NoSuchProbe(k) =>
        status := Missing(k);
      case Ok(p) =>
        probeList := probeList[name := p.Reset()];
        status := Done;
    }

    /** Reset() walks the map and resets every entry in place; the order of
        the walk does not matter. */
    method ResetAllProbes()
      modifies this
      ensures probeList == ResetAll(old(probeList))
      ensures updateProbeNameWithNumOfThreads == old(updateProbeNameWithNumOfThreads)
    {
      var m := probeList;
      var pending := probeList.Keys;
      while pending != {}
        invariant m.Keys == old(probeList).Keys && pending <= m.Keys
        invariant forall k :: k in m ==> m[k] == if k in pending then old(probeList)[k] else old(probeList)[k].Reset()
        decreases |pending|
      {
        var k :| k in pending;
        m := m[k := m[k].Reset()];
        pending := pending - {k};
      }
      probeList := m;
    }

    /** CheckValidation() folds `&&` over every entry; true for no entries. */
    method CheckValidationAll() returns (valid: bool)
      ensures valid <==> AllValidated(probeList)
    {
      var keys := Text.SortedKeys(probeList.Keys);
      valid := true;
      var i := 0;
      while i < |keys|
        invariant 0 <= i <= |keys|
        invariant valid <==> forall j :: 0 <= j < i ==> probeList[keys[j]].CheckValidation()
      {
        valid := valid && probeList[keys[i]].CheckValidation();
        i := i + 1;
      }
      assert forall k :: k in probeList ==> exists j :: 0 <= j < |keys| && keys[j] == k;
    }

    /** GetNumberOfStarts, GetNumberOfStops, GetTotal, GetMin, GetMax,
        GetMean and GetStandardDeviation by effective key. */
    function GetStatistic(name: string, threads: nat, s: Statistic): (r: Result<real>)
      reads this
      ensures var key := EffectiveName(name, threads, updateProbeNameWithNumOfThreads);
        && (r.Ok? <==> key in probeList)
        && (r.Ok? ==> r.value == StatisticOf(probeList[key], s))
    {
      match FindByName(probeList, UpdateProbeNameWithNumOfThreads(name, threads))
      case Ok(p) => Ok(StatisticOf(p, s))
      case NoSuchProbe(k) => NoSuchProbe(k)
    }

    function CheckValidation(name: string, threads: nat): (r: Result<bool>)
      reads this
      ensures var key := EffectiveName(name, threads, updateProbeNameWithNumOfThreads);
        && (r.Ok? <==> key in probeList)
        && (r.Ok? ==> r.value == probeList[key].CheckValidation())
    {
      match FindByName(probeList, UpdateProbeNameWithNumOfThreads(name, threads))
      case Ok(p) => Ok(p.CheckValidation())
      case NoSuchProbe(k) => NoSuchProbe(k)
    }
  }

  // ---------------------------------------------------------------------
  // HighPriorityRealTimeProbeCollector (raw keys)
  // ---------------------------------------------------------------------

  class HighPriorityRealTimeProbeCollector {
    var probeList: ProbeList

    constructor ()
      ensures probeList == map[]
    {
      probeList := map[];
    }

    /** Starts the stored probe under the name as given (the corrected
        behaviour; see StartAsWritten for the code as written). */
    method Start(name: string, now: real)
      modifies this
      ensures probeList == StartStored(old(probeList), name, now)
    {
      match Check(probeList, name)
      case Some(stored) =>
        probeList := probeList[name := stored.Start(now)];
      case None =>
        var probe := New().Start(now);
        probe := probe.(nameOfProbe := name);
        probeList := probeList[name := probe];
    }

    method Stop(name: string, now: real) returns (status: Status)
      modifies this
      ensures match StopIn(old(probeList), name, now)
        case Ok(m) => status == Done && probeList == m
        case NoSuchProbe(k) => status == Missing(k) && probeList == old(probeList)
    {
      match FindByName(probeList, name)
      case NoSuchProbe(k) =>
        status := Missing(k);
      case Ok(p) =>
        probeList := probeList[name := p.Stop(now)];
        status := Done;
    }

    method Reset(name: string) returns (status: Status)
      modifies this
      ensures match ResetIn(old(probeList), name)
        case Ok(m) => status == Done && probeList == m
        case NoSuchProbe(k) => status == Missing(k) && probeList == old(probeList)
    {
      match FindByName(probeList, name)
      case NoSuchProbe(k) =>
        status := Missing(k);
      case Ok(p) =>
        probeList := probeList[name := p.Reset()];
        status := Done;
    }

    function GetStatistic(name: string, s: Statistic): (r: Result<real>)
      reads this
      ensures r.Ok? <==> name in probeList
      ensures r.Ok? ==> r.value == StatisticOf(probeList[name], s)
    {
      match FindByName(probeList, name)
      case Ok(p) => Ok(StatisticOf(p, s))
      case NoSuchProbe(k) => NoSuchProbe(k)
    }

    function CheckValidation(name: string): (r: Result<bool>)
      reads this
      ensures r.Ok? <==> name in probeList
      ensures r.Ok? ==> r.value == probeList[name].CheckValidation()
    {
      match FindByName(probeList, name)
      case Ok(p) => Ok(p.CheckValidation())
      case NoSuchProbe(k) => NoSuchProbe(k)
    }
  }
}
