/** The helpers benchmarks use to name and write their timing files: the
    git-hash guess, the first-occurrence replacement that stamps a file name
    with it, and the choice between a JSON and a tabbed text timings file.
    The environment variable and the build information are parameters. */
module BenchmarkingUtilities {
  import opened Outcomes
  import opened Text
  import ProbeCollectors

  const DefaultHash: string := "HASHNOTEXPOSED"
  const EnvSuffix: string := "_ENV"

  /** PerformanceGuessGitHash. `envSha` is ITK_MANUAL_BUILD_INFO.GIT_CONFIG_SHA1
      from the environment's JSON when present; `buildSha` is the build
      information's GIT_CONFIG_SHA1 when the build provides it. */
  function GuessGitHash(envSha: Option<string>, buildSha: Option<string>): (hash: string)
    ensures |hash| > 1
    ensures buildSha.Some? && |buildSha.value| > 1 ==> hash == buildSha.value
    ensures !(buildSha.Some? && |buildSha.value| > 1) ==>
      (envSha.Some? ==> hash == envSha.value + EnvSuffix) && (envSha.None? ==> hash == DefaultHash)
  {
    var guess := if envSha.Some? then envSha.value + EnvSuffix else DefaultHash;
    if buildSha.Some? && |buildSha.value| > 1 then buildSha.value else guess
  }

  /** The text that replaces the found value: "_" + replacement + "_" + hash. */
  function Marker(replaceValue: string, hash: string): string {
    "_" + replaceValue + "_" + hash
  }

  /** ReplaceOccurrence: the first occurrence of `findValue` gives way to the
      marker; everything before and after it is kept. No occurrence, no change. */
  function ReplaceOccurrence(str: string, findValue: string, replaceValue: string, hash: string): (r: string)
    ensures Find(str, findValue).None? ==> r == str
    ensures Find(str, findValue).Some? ==>
      var i := Find(str, findValue).value;
      && |r| == |str| - |findValue| + |replaceValue| + |hash| + 2
      && r[..i] == str[..i]
      && r[i..i + |replaceValue| + |hash| + 2] == Marker(replaceValue, hash)
      && r[i + |replaceValue| + |hash| + 2..] == str[i + |findValue|..]
  {
    match Find(str, findValue)
    case None => str
    case Some(index) => str[..index] + Marker(replaceValue, hash) + str[index + |findValue|..]
  }

  /** Only the first occurrence is replaced: an earlier index never holds the
      found value, and a later occurrence in the kept suffix stays as it was. */
  lemma ReplaceOccurrenceFirstOnly(str: string, findValue: string, replaceValue: string, hash: string, j: nat)
    requires Find(str, findValue).Some?
    requires var i := Find(str, findValue).value; i + |findValue| <= j && OccursAt(str, findValue, j)
    ensures var i := Find(str, findValue).value;
      var shift := |replaceValue| + |hash| + 2 - |findValue|;
      OccursAt(ReplaceOccurrence(str, findValue, replaceValue, hash), findValue, j + shift)
  {
    var i := Find(str, findValue).value;
    var r := ReplaceOccurrence(str, findValue, replaceValue, hash);
    var k := i + |replaceValue| + |hash| + 2;
    var shift := |replaceValue| + |hash| + 2 - |findValue|;
    assert r[k..] == str[i + |findValue|..];
    assert r[j + shift..j + shift + |findValue|] == r[k..][j - (i + |findValue|)..j - (i + |findValue|) + |findValue|];
  }

  // ---------------------------------------------------------------------
  // WriteExpandedReport
  // ---------------------------------------------------------------------

  const JsonExtension: string := ".json"

  /** The branch WriteExpandedReport takes as written: the position returned
      by find(".json") is used as a truth value, so every position but 0
      (including "not found") selects JSON. */
  function WritesJsonAsWritten(timingsFileName: string): bool {
    Find(timingsFileName, JsonExtension) != Some(0)
  }

  /** The evidently intended branch: JSON exactly when ".json" occurs in the name. */
  function WritesJson(timingsFileName: string): bool {
    Find(timingsFileName, JsonExtension).Some?
  }

  /** As written, the text branch is taken only for names that start with ".json". */
  lemma WritesJsonAsWrittenIffNotLeading(timingsFileName: string)
    ensures WritesJsonAsWritten(timingsFileName) <==> !OccursAt(timingsFileName, JsonExtension, 0)
  {
    var r := Find(timingsFileName, JsonExtension);
    if OccursAt(timingsFileName, JsonExtension, 0) {
      assert r.Some?;
    }
  }

  /** Corrected, the JSON branch is taken exactly when ".json" occurs. */
  lemma WritesJsonIffOccurs(timingsFileName: string)
    ensures WritesJson(timingsFileName) <==> exists i :: OccursAt(timingsFileName, JsonExtension, i)
  {
  }

  /** A plain text file name: written as JSON by the code as written, as text once corrected. */
  lemma TextFileNameWrittenAsJson()
    ensures WritesJsonAsWritten("timings.txt")
    ensures !WritesJson("timings.txt")
  {
    var s := "timings.txt";
    assert forall i :: 0 <= i <= |s| - |JsonExtension| ==> s[i] != JsonExtension[0];
    NoOccurrenceWithoutLeadingChar(s, JsonExtension);
  }

  /** The two files WriteExpandedReport produces: the summary report on the
      console with the caller's flags, and the timings file, either the JSON
      report or the expanded report with the system information switched
      off and the header and tabs switched on. */
  datatype Written = Written(console: seq<ProbeCollectors.Piece>, timingsFile: seq<ProbeCollectors.Piece>)

  function WriteExpandedReport(probes: ProbeCollectors.ProbeMap, timingsFileName: string,
                               printSystemInfo: bool, printReportHead: bool, useTabs: bool): (w: Written)
    ensures w.console == ProbeCollectors.ReportPieces(probes, ProbeCollectors.Summary, printSystemInfo, printReportHead, useTabs)
    ensures WritesJson(timingsFileName) ==> w.timingsFile == ProbeCollectors.JSONPieces(probes, printSystemInfo)
    ensures !WritesJson(timingsFileName) ==>
      w.timingsFile == ProbeCollectors.ReportPieces(probes, ProbeCollectors.Expanded, false, true, true)
  {
    var console := ProbeCollectors.ReportPieces(probes, ProbeCollectors.Summary, printSystemInfo, printReportHead, useTabs);
    if WritesJson(timingsFileName) then Written(console, ProbeCollectors.JSONPieces(probes, printSystemInfo))
    else Written(console, ProbeCollectors.ReportPieces(probes, ProbeCollectors.Expanded, false, true, true))
  }

  /** WriteExpandedReport as the C++ code is written: the timings file is
      chosen by WritesJsonAsWritten. */
  function WriteExpandedReportAsWritten(probes: ProbeCollectors.ProbeMap, timingsFileName: string,
                                        printSystemInfo: bool, printReportHead: bool, useTabs: bool): (w: Written)
    ensures w.console == ProbeCollectors.ReportPieces(probes, ProbeCollectors.Summary, printSystemInfo, printReportHead, useTabs)
    ensures !OccursAt(timingsFileName, JsonExtension, 0) ==> w.timingsFile == ProbeCollectors.JSONPieces(probes, printSystemInfo)
    ensures OccursAt(timingsFileName, JsonExtension, 0) ==>
      w.timingsFile == ProbeCollectors.ReportPieces(probes, ProbeCollectors.Expanded, false, true, true)
  {
    WritesJsonAsWrittenIffNotLeading(timingsFileName);
    var console := ProbeCollectors.ReportPieces(probes, ProbeCollectors.Summary, printSystemInfo, printReportHead, useTabs);
    if WritesJsonAsWritten(timingsFileName) then Written(console, ProbeCollectors.JSONPieces(probes, printSystemInfo))
    else Written(console, ProbeCollectors.ReportPieces(probes, ProbeCollectors.Expanded, false, true, true))
  }

  /** Where the two versions part: both print the same console report; a name
      without ".json" gets JSON as written and text once corrected; a name
      that starts with ".json" gets text as written and JSON once corrected;
      every other name gets the same files from both. */
  lemma TimingsFileBranches(probes: ProbeCollectors.ProbeMap, timingsFileName: string,
                            printSystemInfo: bool, printReportHead: bool, useTabs: bool)
    ensures var w := WriteExpandedReport(probes, timingsFileName, printSystemInfo, printReportHead, useTabs);
      var a := WriteExpandedReportAsWritten(probes, timingsFileName, printSystemInfo, printReportHead, useTabs);
      && a.console == w.console
      && (!WritesJson(timingsFileName) ==>
            a.timingsFile == ProbeCollectors.JSONPieces(probes, printSystemInfo) &&
            w.timingsFile == ProbeCollectors.ReportPieces(probes, ProbeCollectors.Expanded, false, true, true))
      && (OccursAt(timingsFileName, JsonExtension, 0) ==>
            a.timingsFile == ProbeCollectors.ReportPieces(probes, ProbeCollectors.Expanded, false, true, true) &&
            w.timingsFile == ProbeCollectors.JSONPieces(probes, printSystemInfo))
      && (WritesJson(timingsFileName) && !OccursAt(timingsFileName, JsonExtension, 0) ==> a == w)
  {
    var r := Find(timingsFileName, JsonExtension);
    if OccursAt(timingsFileName, JsonExtension, 0) {
      assert r.Some?;
    } else if r.None? {
      assert !OccursAt(timingsFileName, JsonExtension, 0);
    }
  }

  /** The layout of the timings file for a non-empty collector. A JSON file
      opens with the brace, closes with the closing lines, and lists probe j
      in key order at every second piece after the header. A text file holds
      one expanded report per probe in key order, with the header only on
      the first, tabs throughout and the system information never. */
  lemma TimingsFileLayout(probes: ProbeCollectors.ProbeMap, timingsFileName: string,
                          printSystemInfo: bool, printReportHead: bool, useTabs: bool)
    requires |probes| > 0
    ensures var f := WriteExpandedReport(probes, timingsFileName, printSystemInfo, printReportHead, useTabs).timingsFile;
      var keys := ProbeCollectors.Ordered(probes);
      var head := if printSystemInfo then 5 else 2;
      WritesJson(timingsFileName) ==>
        && |f| == head + 2 * |probes|
        && f[0] == ProbeCollectors.Literal(ProbeCollectors.JSONOpen)
        && f[|f| - 1] == ProbeCollectors.Literal(ProbeCollectors.JSONClose)
        && forall j :: 0 <= j < |probes| ==> f[head + 2 * j] == ProbeCollectors.ProbeJSON(probes[keys[j]])
    ensures var f := WriteExpandedReport(probes, timingsFileName, printSystemInfo, printReportHead, useTabs).timingsFile;
      var keys := ProbeCollectors.Ordered(probes);
      !WritesJson(timingsFileName) ==>
        && |f| == |probes|
        && forall j :: 0 <= j < |probes| ==>
             f[j] == ProbeCollectors.ProbeReport(ProbeCollectors.Expanded, probes[keys[j]], false, j == 0, true)
  {
    var keys := ProbeCollectors.Ordered(probes);
    if WritesJson(timingsFileName) {
      ProbeCollectors.JSONDocumentShape(probes, printSystemInfo);
    } else {
      ProbeCollectors.ReportEntriesAt(keys, probes, ProbeCollectors.Expanded, false, true, true);
    }
  }
}
