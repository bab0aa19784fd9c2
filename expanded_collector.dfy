/** ResourceExpandedProbesCollector: the collector base over expanded probes,
    with the thread-count naming rule applied to every name it is given.
    `base` is the collector-base part of the object. */
module ExpandedCollectors {
  import opened Outcomes
  import opened ThreadNaming
  import opened ProbeCollectors

  class ResourceExpandedProbesCollector {
    const base: ProbesCollectorBase
    var updateProbeNameWithNumOfThreads: bool

    /** The map is cleared and thread naming is off. */
    constructor ()
      ensures fresh(base)
      ensures base.probes == map[] && !updateProbeNameWithNumOfThreads
    {
      base := new ProbesCollectorBase();
      updateProbeNameWithNumOfThreads := false;
      new;
      base.Clear();
    }

    method EnableUpdatingProbeNameWithNumOfThreads(updateProbeName: bool)
      modifies this
      ensures updateProbeNameWithNumOfThreads == updateProbeName
    {
      updateProbeNameWithNumOfThreads := updateProbeName;
    }

    function UpdateProbeNameWithNumOfThreads(name: string, threads: nat): (key: string)
      reads this
      ensures key == EffectiveName(name, threads, updateProbeNameWithNumOfThreads)
    {
      EffectiveName(name, threads, updateProbeNameWithNumOfThreads)
    }

    /** Starts the probe under the effective name and names it by that name,
        so the key of every entry stays the name of its probe. */
    method Start(name: string, now: real, threads: nat)
      modifies base
      ensures var key := EffectiveName(name, threads, updateProbeNameWithNumOfThreads);
        base.probes == StartIn(old(base.probes), key, now, threads)
      ensures KeysAreNames(old(base.probes)) && AllValid(old(base.probes)) ==>
        KeysAreNames(base.probes) && AllValid(base.probes)
    {
      var updatedName := UpdateProbeNameWithNumOfThreads(name, threads);
      base.Start(updatedName, now, threads);
      base.probes := base.probes[updatedName := base.probes[updatedName].SetNameOfProbe(updatedName)];
      if KeysAreNames(old(base.probes)) && AllValid(old(base.probes)) {
        StartInProperties(old(base.probes), updatedName, now, threads);
      }
    }

    /** Stops the probe under the same effective name Start used. */
    method Stop(name: string, now: real, threads: nat) returns (status: Status)
      modifies base
      ensures var key := EffectiveName(name, threads, updateProbeNameWithNumOfThreads);
        match StopIn(old(base.probes), key, now)
        case Ok(m) => status == Done && base.probes == m
        case NoSuchProbe(k) => status == Missing(k) && base.probes == old(base.probes)
    {
      status := base.Stop(UpdateProbeNameWithNumOfThreads(name, threads), now);
    }

    /** The probe stored under the effective name, or failure. */
    function FindProbeWithName(name: string, threads: nat): (r: Result<Probe>)
      reads this, base
      ensures var key := EffectiveName(name, threads, updateProbeNameWithNumOfThreads);
        && (r.Ok? <==> key in base.probes)
        && (r.Ok? ==> r.value == base.probes[key])
        && (r.Ok? && KeysAreNames(base.probes) ==> r.value.nameOfProbe == key)
    {
      base.GetProbe(UpdateProbeNameWithNumOfThreads(name, threads))
    }
  }

  /** A Start followed by a Stop of the same name, under the same flag and
      thread count, finds the probe Start created and records its reading. */
  lemma StartThenStopUseSameKey(m: ProbeMap, name: string, enabled: bool, threads: nat, t0: real, t1: real)
    requires AllValid(m)
    ensures var key := EffectiveName(name, threads, enabled);
      StopIn(StartIn(m, key, t0, threads), key, t1).Ok? &&
      StopIn(StartIn(m, key, t0, threads), key, t1).value[key].probeValueList
        == (if key in m then m[key].probeValueList else []) + [t1 - t0]
  {
    StartThenStopRecords(m, EffectiveName(name, threads, enabled), t0, t1, threads);
  }
}
