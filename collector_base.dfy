/** LOCAL_ResourceProbesCollectorBase: probes kept by name in an ordered map.
    Start creates the named probe on first use; Stop and lookups fail on an
    unknown name; the reports walk the map in key order. The probe type is
    the expanded probe; what each probe writes about itself is kept
    symbolic as a report piece. */
module ProbeCollectors {
  import opened Outcomes
  import opened Text
  import ExpandedProbes

  type Probe = ExpandedProbes.ExpandedState
  type ProbeMap = map<string, Probe>

  /** The probe `m_Probes[id]` default-constructs for a new name. */
  function FreshProbe(): (p: Probe)
    ensures p.Valid() && p.base.numberOfStarts == 0 && p.probeValueList == []
  {
    ExpandedProbes.New("Time", "sec")
  }

  /** Every key is the name of the probe stored under it. */
  predicate KeysAreNames(m: ProbeMap) {
    forall k :: k in m ==> m[k].nameOfProbe == k
  }

  /** Every stored probe keeps the measurement invariant. */
  predicate AllValid(m: ProbeMap) {
    forall k :: k in m ==> m[k].Valid()
  }

  /** Start(id): the stored entry (created if absent) is named `id` and started in place. */
  function StartIn(m: ProbeMap, id: string, now: real, threads: nat): ProbeMap {
    var p := if id in m then m[id] else FreshProbe();
    m[id := p.SetNameOfProbe(id).Start(now, threads)]
  }

  /** Stop(id): fails on an unknown name, otherwise stops that entry only. */
  function StopIn(m: ProbeMap, id: string, now: real): Result<ProbeMap> {
    if id !in m then NoSuchProbe(id) else Ok(m[id := m[id].Stop(now)])
  }

  /** Start keeps every other entry, stores a started probe named `id`, and
      keeps both map invariants. */
  lemma StartInProperties(m: ProbeMap, id: string, now: real, threads: nat)
    requires KeysAreNames(m) && AllValid(m)
    ensures var m' := StartIn(m, id, now, threads);
      && m'.Keys == m.Keys + {id}
      && (forall k :: k in m && k != id ==> m'[k] == m[k])
      && KeysAreNames(m') && AllValid(m')
      && m'[id].base.numberOfStarts == (if id in m then m[id].base.numberOfStarts else 0) + 1
      && m'[id].base.startValue == now
  {
    var p := if id in m then m[id] else FreshProbe();
    ExpandedProbes.StartPreserves(p.SetNameOfProbe(id), now, threads);
  }

  /** Stop on an unknown name fails and changes nothing; on a known name it
      changes that entry only and keeps both map invariants. */
  lemma StopInProperties(m: ProbeMap, id: string, now: real)
    requires KeysAreNames(m) && AllValid(m)
    ensures StopIn(m, id, now).Ok? <==> id in m
    ensures StopIn(m, id, now).Ok? ==>
      var m' := StopIn(m, id, now).value;
      && m'.Keys == m.Keys
      && (forall k :: k in m && k != id ==> m'[k] == m[k])
      && m'[id] == m[id].Stop(now)
      && KeysAreNames(m') && AllValid(m')
  {
    if id in m {
      ExpandedProbes.StopPreserves(m[id], now);
    }
  }

  /** After Clear, a Start creates a fresh probe: one start, no stop, no reading. */
  lemma StartAfterClearIsFresh(id: string, now: real, threads: nat)
    ensures var m := StartIn(map[], id, now, threads);
      && m.Keys == {id}
      && m[id].nameOfProbe == id
      && m[id].base.numberOfStarts == 1 && m[id].base.numberOfStops == 0
      && m[id].probeValueList == [] && m[id].base.totalValue == 0.0
  {
  }

  /** A Stop right after a Start of the same name succeeds and records one
      reading of `t1 - t0` for that name. */
  lemma StartThenStopRecords(m: ProbeMap, id: string, t0: real, t1: real, threads: nat)
    requires AllValid(m)
    ensures StopIn(StartIn(m, id, t0, threads), id, t1).Ok?
    ensures var p := StopIn(StartIn(m, id, t0, threads), id, t1).value[id];
      p.probeValueList == (if id in m then m[id].probeValueList else []) + [t1 - t0]
  {
    var p := if id in m then m[id] else FreshProbe();
    var q := p.SetNameOfProbe(id).Start(t0, threads);
    ExpandedProbes.StartPreserves(p.SetNameOfProbe(id), t0, threads);
    ExpandedProbes.StopPreserves(q, t1);
  }

  // ---------------------------------------------------------------------
  // Reports
  // ---------------------------------------------------------------------

  datatype ReportKind = Summary | Expanded

  /** One unit of report output: literal text (end of line written "\n"),
      or what a probe writes about itself. */
  datatype Piece =
    | Literal(text: string)
    | ProbeReport(kind: ReportKind, probe: Probe, printSystemInfo: bool, printReportHead: bool, useTabs: bool)
    | ProbeJSON(probe: Probe)
    | SystemInformationJSON(probe: Probe)

  const NoProbesMessage: string := "No probes have been created\n"
  const NoProbesJSON: string := "{ \"Status\": \"No probes have been created\" }\n"
  const JSONOpen: string := "{\n"
  const JSONSystemLabel: string := "  \"SystemInformation\": "
  const JSONSeparator: string := ",\n"
  const JSONProbesLabel: string := "  \"Probes\": [\n"
  const JSONClose: string := "\n  ]\n}\n"

  /** The probes in the order the map visits them. */
  function Ordered(m: ProbeMap): (keys: seq<string>)
    ensures |keys| == |m| && StrictlySorted(keys)
    ensures forall k :: k in keys <==> k in m
  {
    SortedKeys(m.Keys)
  }

  /** The per-probe lines of Report/ExpandedReport: the caller's system
      information and header flags go to the first probe only. */
  function ReportEntries(keys: seq<string>, m: ProbeMap, kind: ReportKind,
                         printSystemInfo: bool, printReportHead: bool, useTabs: bool): seq<Piece>
    requires forall k :: k in keys ==> k in m
  {
    if keys == [] then []
    else [ProbeReport(kind, m[keys[0]], printSystemInfo, printReportHead, useTabs)]
         + ReportEntries(keys[1..], m, kind, false, false, useTabs)
  }

  function ReportPieces(m: ProbeMap, kind: ReportKind,
                        printSystemInfo: bool, printReportHead: bool, useTabs: bool): seq<Piece>
  {
    if |m| == 0 then [Literal(NoProbesMessage)]
    else ReportEntries(Ordered(m), m, kind, printSystemInfo, printReportHead, useTabs)
  }

  /** Entry i of the report is probe i in key order; only entry 0 carries
      the caller's flags, every later one has both switched off. */
  lemma {:induction false} ReportEntriesAt(keys: seq<string>, m: ProbeMap, kind: ReportKind,
                                           printSystemInfo: bool, printReportHead: bool, useTabs: bool)
    requires forall k :: k in keys ==> k in m
    ensures var r := ReportEntries(keys, m, kind, printSystemInfo, printReportHead, useTabs);
      && |r| == |keys|
      && forall i :: 0 <= i < |keys| ==>
           r[i] == ProbeReport(kind, m[keys[i]], i == 0 && printSystemInfo, i == 0 && printReportHead, useTabs)
  {
    if keys != [] {
      var rest := ReportEntries(keys[1..], m, kind, false, false, useTabs);
      ReportEntriesAt(keys[1..], m, kind, false, false, useTabs);
      var r := ReportEntries(keys, m, kind, printSystemInfo, printReportHead, useTabs);
      assert r == [ProbeReport(kind, m[keys[0]], printSystemInfo, printReportHead, useTabs)] + rest;
      forall i | 0 < i < |keys|
        ensures r[i] == ProbeReport(kind, m[keys[i]], false, false, useTabs)
      {
        assert r[i] == rest[i - 1];
        assert keys[1..][i - 1] == keys[i];
      }
    }
  }

  /** The JSON probe entries: n entries and n - 1 separators between them. */
  function JSONEntries(keys: seq<string>, m: ProbeMap): seq<Piece>
    requires forall k :: k in keys ==> k in m
  {
    if keys == [] then []
    else if |keys| == 1 then [ProbeJSON(m[keys[0]])]
    else JSONEntries(keys[..|keys| - 1], m) + [Literal(JSONSeparator), ProbeJSON(m[keys[|keys| - 1]])]
  }

  /** Taking one more key appends one entry, after a separator unless it is the first. */
  lemma JSONEntriesExtend(keys: seq<string>, i: nat, m: ProbeMap)
    requires forall k :: k in keys ==> k in m
    requires i < |keys|
    ensures JSONEntries(keys[..i + 1], m)
            == JSONEntries(keys[..i], m) + (if i == 0 then [] else [Literal(JSONSeparator)]) + [ProbeJSON(m[keys[i]])]
  {
    assert keys[..i + 1][..i] == keys[..i];
  }

  /** Everything before the first entry: the opening brace, the system
      block of the first probe when asked for, and the "Probes" label. */
  function JSONHeader(first: Probe, printSystemInfo: bool): (r: seq<Piece>)
    ensures |r| == if printSystemInfo then 5 else 2
    ensures r[0] == Literal(JSONOpen) && r[|r| - 1] == Literal(JSONProbesLabel)
    ensures printSystemInfo ==> r[2] == SystemInformationJSON(first)
  {
    [Literal(JSONOpen)]
    + (if printSystemInfo then [Literal(JSONSystemLabel), SystemInformationJSON(first), Literal(JSONSeparator)] else [])
    + [Literal(JSONProbesLabel)]
  }

  function JSONPieces(m: ProbeMap, printSystemInfo: bool): seq<Piece> {
    if |m| == 0 then [Literal(NoProbesJSON)]
    else
      var keys := Ordered(m);
      JSONHeader(m[keys[0]], printSystemInfo) + JSONEntries(keys, m) + [Literal(JSONClose)]
  }

  /** For n >= 1 probes the entries hold 2n - 1 pieces: probe j at position
      2j and a separator at every odd position. */
  lemma {:induction false} JSONEntriesShape(keys: seq<string>, m: ProbeMap)
    requires forall k :: k in keys ==> k in m
    requires keys != []
    ensures var r := JSONEntries(keys, m);
      && |r| == 2 * |keys| - 1
      && (forall j :: 0 <= j < |keys| ==> r[2 * j] == ProbeJSON(m[keys[j]]))
      && (forall j :: 0 <= j < |keys| - 1 ==> r[2 * j + 1] == Literal(JSONSeparator))
  {
    if |keys| > 1 {
      var init := keys[..|keys| - 1];
      JSONEntriesShape(init, m);
      var r := JSONEntries(keys, m);
      var r0 := JSONEntries(init, m);
      assert r == r0 + [Literal(JSONSeparator), ProbeJSON(m[keys[|keys| - 1]])];
      forall j | 0 <= j < |keys|
        ensures r[2 * j] == ProbeJSON(m[keys[j]])
      {
        if j < |keys| - 1 {
          assert r[2 * j] == r0[2 * j];
          assert init[j] == keys[j];
        }
      }
      forall j | 0 <= j < |keys| - 1
        ensures r[2 * j + 1] == Literal(JSONSeparator)
      {
        if j < |keys| - 2 {
          assert r[2 * j + 1] == r0[2 * j + 1];
        }
      }
    }
  }

  /** The whole JSON document for n >= 1 probes: the opening brace, the
      optional system block taken from the first probe, the "Probes" label,
      the entries, and the closing lines, in that order. */
  lemma JSONDocumentShape(m: ProbeMap, printSystemInfo: bool)
    requires |m| > 0
    ensures var r := JSONPieces(m, printSystemInfo);
      var head := if printSystemInfo then 5 else 2;
      && |r| == head + 2 * |m|
      && r[0] == Literal(JSONOpen)
      && r[head - 1] == Literal(JSONProbesLabel)
      && r[|r| - 1] == Literal(JSONClose)
      && (printSystemInfo ==> r[2] == SystemInformationJSON(m[Ordered(m)[0]]))
      && (forall j :: 0 <= j < |m| ==> r[head + 2 * j] == ProbeJSON(m[Ordered(m)[j]]))
  {
    var keys := Ordered(m);
    var h := JSONHeader(m[keys[0]], printSystemInfo);
    var r := h + JSONEntries(keys, m) + [Literal(JSONClose)];
    assert JSONPieces(m, printSystemInfo) == r;
    JSONFramed(h, keys, m);
    assert r[0] == h[0] && r[|h| - 1] == h[|h| - 1];
    assert printSystemInfo ==> r[2] == h[2];
  }

  /** The entries sit after the header, two pieces apart, and the closing
      piece comes last. */
  lemma JSONFramed(header: seq<Piece>, keys: seq<string>, m: ProbeMap)
    requires forall k :: k in keys ==> k in m
    requires keys != []
    ensures var r := header + JSONEntries(keys, m) + [Literal(JSONClose)];
      && |r| == |header| + 2 * |keys|
      && r[..|header|] == header
      && r[|r| - 1] == Literal(JSONClose)
      && (forall j :: 0 <= j < |keys| ==> r[|header| + 2 * j] == ProbeJSON(m[keys[j]]))
  {
    JSONEntriesShape(keys, m);
    var e := JSONEntries(keys, m);
    var r := header + e + [Literal(JSONClose)];
    assert r[..|header|] == header;
    forall j | 0 <= j < |keys|
      ensures r[|header| + 2 * j] == ProbeJSON(m[keys[j]])
    {
      assert r[|header| + 2 * j] == e[2 * j];
    }
  }

  function NamedReportPieces(m: ProbeMap, name: string, kind: ReportKind,
                             printSystemInfo: bool, printReportHead: bool, useTabs: bool): seq<Piece> {
    if name !in m then [Literal("The probe \"" + name + "\" does not exist. It's report is not available\n")]
    else [ProbeReport(kind, m[name], printSystemInfo, printReportHead, useTabs)]
  }

  function NamedJSONPieces(m: ProbeMap, name: string): seq<Piece> {
    if name !in m then [Literal("  { \"ProbeName\": \"" + name + "\", \"Status\": \"Does not exist!\" }\n")]
    else [ProbeJSON(m[name])]
  }

  /** The named reports never fail: an unknown name yields one literal
      status line and no probe output; a known one yields exactly that
      probe's output with the caller's flags. */
  lemma NamedReportsNeverFail(m: ProbeMap, name: string, kind: ReportKind,
                              printSystemInfo: bool, printReportHead: bool, useTabs: bool)
    ensures |NamedReportPieces(m, name, kind, printSystemInfo, printReportHead, useTabs)| == 1
    ensures |NamedJSONPieces(m, name)| == 1
    ensures NamedReportPieces(m, name, kind, printSystemInfo, printReportHead, useTabs)[0].Literal? <==> name !in m
    ensures NamedJSONPieces(m, name)[0].Literal? <==> name !in m
    ensures name in m ==> NamedReportPieces(m, name, kind, printSystemInfo, printReportHead, useTabs)[0]
                          == ProbeReport(kind, m[name], printSystemInfo, printReportHead, useTabs)
  {
  }

  // ---------------------------------------------------------------------
  // The collector object
  // ---------------------------------------------------------------------

  class ProbesCollectorBase {
    var probes: ProbeMap

    constructor ()
      ensures probes == map[]
    {
      probes := map[];
    }

    method Start(id: string, now: real, threads: nat)
      modifies this
      ensures probes == StartIn(old(probes), id, now, threads)
    {
      if id !in probes {
        probes := probes[id := FreshProbe()];
      }
      probes := probes[id := probes[id].SetNameOfProbe(id)];
      probes := probes[id := probes[id].Start(now, threads)];
    }

    method Stop(id: string, now: real) returns (status: Status)
      modifies this
      ensures StopIn(old(probes), id, now).Ok? ==> status == Done && probes == StopIn(old(probes), id, now).value
      ensures !StopIn(old(probes), id, now).Ok? ==> status == Missing(id) && probes == old(probes)
    {
      if id !in probes {
        return Missing(id);
      }
      probes := probes[id := probes[id].Stop(now)];
      status := Done;
    }

    /** The stored probe, or failure naming it (the C++ code throws). */
    function GetProbe(id: string): (r: Result<Probe>)
      reads this
      ensures r.Ok? <==> id in probes
      ensures r.Ok? ==> r.value == probes[id]
      ensures !r.Ok? ==> r == NoSuchProbe(id)
    {
      FindByName(probes, id)
    }

    method Clear()
      modifies this
      ensures probes == map[]
    {
      probes := map[];
    }

    /** Report and ExpandedReport over every probe in key order; the flag
        firstProbe hands the caller's switches to the first probe only. */
    method Report(kind: ReportKind, printSystemInfo: bool, printReportHead: bool, useTabs: bool)
      returns (out: seq<Piece>)
      ensures out == ReportPieces(probes, kind, printSystemInfo, printReportHead, useTabs)
    {
      var keys := Ordered(probes);
      if |keys| == 0 {
        return [Literal(NoProbesMessage)];
      }
      out := ReportLoop(keys, kind, printSystemInfo, printReportHead, useTabs);
    }

    /** The loop of Report over the keys in order: only the first probe is
        reported with the caller's flags, every later one with both off. */
    method ReportLoop(keys: seq<string>, kind: ReportKind,
                      printSystemInfo: bool, printReportHead: bool, useTabs: bool)
      returns (out: seq<Piece>)
      requires forall k :: k in keys ==> k in probes
      ensures out == ReportEntries(keys, probes, kind, printSystemInfo, printReportHead, useTabs)
    {
      out := [];
      var firstProbe := true;
      var i := 0;
      while i < |keys|
        invariant 0 <= i <= |keys|
        invariant firstProbe <==> i == 0
        invariant |out| == i
        invariant forall j :: 0 <= j < i ==>
          out[j] == ProbeReport(kind, probes[keys[j]], j == 0 && printSystemInfo, j == 0 && printReportHead, useTabs)
      {
        if firstProbe {
          out := out + [ProbeReport(kind, probes[keys[i]], printSystemInfo, printReportHead, useTabs)];
          firstProbe := false;
        } else {
          out := out + [ProbeReport(kind, probes[keys[i]], false, false, useTabs)];
        }
        i := i + 1;
      }
      ReportEntriesAt(keys, probes, kind, printSystemInfo, printReportHead, useTabs);
    }

    method NamedReport(name: string, kind: ReportKind, printSystemInfo: bool, printReportHead: bool, useTabs: bool)
      returns (out: seq<Piece>)
      ensures out == NamedReportPieces(probes, name, kind, printSystemInfo, printReportHead, useTabs)
    {
      if name !in probes {
        return [Literal("The probe \"" + name + "\" does not exist. It's report is not available\n")];
      }
      out := [ProbeReport(kind, probes[name], printSystemInfo, printReportHead, useTabs)];
    }

    method JSONReport(printSystemInfo: bool) returns (out: seq<Piece>)
      ensures out == JSONPieces(probes, printSystemInfo)
    {
      var keys := Ordered(probes);
      if |keys| == 0 {
        return [Literal(NoProbesJSON)];
      }
      var first := probes[keys[0]];
      out := [Literal(JSONOpen)];
      if printSystemInfo {
        out := out + [Literal(JSONSystemLabel), SystemInformationJSON(first), Literal(JSONSeparator)];
      }
      out := out + [Literal(JSONProbesLabel)];
      assert out == JSONHeader(first, printSystemInfo);
      var entries := JSONEntryLoop(keys);
      out := out + entries + [Literal(JSONClose)];
    }

    /** The loop of JSONReport over the keys in order: a separator before
        every entry except the first. */
    method JSONEntryLoop(keys: seq<string>) returns (entries: seq<Piece>)
      requires forall k :: k in keys ==> k in probes
      ensures entries == JSONEntries(keys, probes)
    {
      entries := [];
      var firstProbe := true;
      var i := 0;
      while i < |keys|
        invariant 0 <= i <= |keys|
        invariant firstProbe <==> i == 0
        invariant entries == JSONEntries(keys[..i], probes)
      {
        JSONEntriesExtend(keys, i, probes);
        if firstProbe {
          entries := entries + [ProbeJSON(probes[keys[i]])];
          firstProbe := false;
        } else {
          entries := entries + [Literal(JSONSeparator), ProbeJSON(probes[keys[i]])];
        }
        i := i + 1;
      }
      assert keys[..|keys|] == keys;
    }

    method NamedJSONReport(name: string) returns (out: seq<Piece>)
      ensures out == NamedJSONPieces(probes, name)
    {
      if name !in probes {
        return [Literal("  { \"ProbeName\": \"" + name + "\", \"Status\": \"Does not exist!\" }\n")];
      }
      out := [ProbeJSON(probes[name])];
    }
  }
}
