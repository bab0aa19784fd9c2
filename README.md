# ITK performance benchmarking: probes, collectors and argument helpers

A Dafny model of the measurement engine that the ITK performance benchmarks
use.

- **Probes.** A probe counts starts and stops, and records the elapsed time of
  every matched start/stop pair. From those readings it keeps the total and the
  extremes, and derives the mean and the spread. Three probes are modelled:
  - `HighPriorityRealTimeProbe` (module `RealTimeProbes`);
  - `ResourceProbe2` (module `ResourceProbes`);
  - `ResourceExpandedProbe` (module `ExpandedProbes`).
- **Collectors.** A collector keeps probes by name in an ordered map. Four are
  modelled:
  - the local collector base with its text and JSON reports (`ProbeCollectors`);
  - the expanded-probe collector (`ExpandedCollectors`);
  - the two real-time collectors (`RealTimeCollectors`).
  With "update probe name with number of threads" switched on, the
  thread-aware collectors key each probe by `name_Th_<threads>` (module
  `ThreadNaming`).
- **Benchmark utilities.** `BenchmarkingUtilities` covers three helpers:
  - the git-hash guess;
  - the first-occurrence replacement that stamps the hash into a timings file
    name;
  - the choice between a JSON and a tabbed text timings file.
- **Resampling benchmark arguments.** `ResampleArguments` holds the parameter
  record and the validation and adjustment of the command-line arguments.

Each probe is a value datatype whose member functions are the specification.
Beside it is a class with the same fields. The class's methods update those
fields in place and are proved to leave `State()` equal to the specification
function applied to the old state. The measurement invariant (`Consistent` /
`Valid`) is proved to be kept by every operation. The statistics are proved
about the sample list: `Sum`, `MinOf`, `MaxOf`, `Mean`, `Variance` in
`SampleStats`. Collectors are maps from keys to probe values. Report output is
a sequence of symbolic `Piece`s in key order (`Text.SortedKeys`, byte-wise
lexicographic like `std::map<std::string, …>`).

The model replaces these parts of the environment with parameters:
- the clock: a parameter `now`;
- the global default thread count: a parameter `threads`;
- the environment variable and the build information of the git-hash guess:
  optional strings.

Lookups that throw in C++ return `NoSuchProbe` (a `Result`) or `Missing` (a
`Status`). The C++ "standard deviation" fields are modelled as the variance,
because the square root is left out.

## Model

| member | source | states |
|---|---|---|
| Outcomes.FindByName | Benchmarks/Utilities/itkHighPriorityRealTimeProbesCollector.cxx:380-391 | the probe stored under the key iff the key is present, else failure naming the key where the C++ code throws; shared by every collector lookup |
| Text.Find | src/PerformanceBenchmarkingUtilities.cxx:100 | `std::string::find`: some position iff the pattern occurs anywhere, and then the least such position |
| Text.NatToStringInjective | PerformanceBenchmarks/include/itkResourceExpandedProbesCollector.hxx:240-254 | distinct thread counts print as distinct decimal strings, so the suffix of the key tells them apart |
| Text.SortedKeys | include/LOCAL_itkResourceProbesCollectorBase.hxx:73-102 | the order the map is visited in: strictly increasing, exactly the keys of the map, each once |
| Text.StrictlySortedDistinct | include/LOCAL_itkResourceProbesCollectorBase.hxx:73-102 | a strictly ordered key sequence visits no key twice |
| SampleStats.MinOfIsLeast | PerformanceBenchmarks/include/itkResourceExpandedProbe.hxx:286-298 | the running minimum is one of the readings and no reading is below it |
| SampleStats.MaxOfIsGreatest | PerformanceBenchmarks/include/itkResourceExpandedProbe.hxx:286-298 | the running maximum is one of the readings and no reading is above it |
| SampleStats.SumDominatesSamples | PerformanceBenchmarks/include/itkResourceExpandedProbe.hxx:97-111 | with non-negative readings the total is non-negative and at least every single reading |
| SampleStats.MeanBetweenExtremes | PerformanceBenchmarks/include/itkResourceExpandedProbe.hxx:135-140 | the mean of a non-empty list lies between its minimum and maximum |
| SampleStats.ReportOrdering | PerformanceBenchmarks/include/itkResourceExpandedProbe.hxx:117-140 | with non-negative readings: 0 <= minimum <= mean <= maximum <= total |
| SampleStats.VarianceNonNegative | PerformanceBenchmarks/include/itkResourceExpandedProbe.hxx:146-172 | the sum of squared deviations over n - 1 is never negative |
| SampleStats.ConstantReadingsHaveZeroVariance | PerformanceBenchmarks/include/itkResourceExpandedProbe.hxx:146-172 | identical readings have their common value as mean and zero spread |
| RealTimeProbes.New | Benchmarks/Utilities/itkHighPriorityRealTimeProbe.cxx:27-34 | a constructed probe is zeroed, keeps the invariant, and is labelled Time/sec |
| RealTimeProbes.ResetZeroes | Benchmarks/Utilities/itkHighPriorityRealTimeProbe.cxx:52-78 | Reset and ResetProbeData zero every count, time value and the sample list from any state and restore the invariant; Reset clears the target and labels but keeps the probe name; ResetProbeData keeps the labels; Reset is idempotent |
| RealTimeProbes.StartPreserves | Benchmarks/Utilities/itkHighPriorityRealTimeProbe.cxx:107-111 | Start counts one start, records the clock, changes nothing else and keeps the invariant |
| RealTimeProbes.UnmatchedStopIsNoOp | Benchmarks/Utilities/itkHighPriorityRealTimeProbe.cxx:116-128 | a stop with no outstanding start leaves the probe unchanged |
| RealTimeProbes.RecordPreserves | Benchmarks/Utilities/itkHighPriorityRealTimeProbe.cxx:219-231 | folding a new sample into the extremes gives the minimum and maximum of the extended sample list |
| RealTimeProbes.StopPreserves | Benchmarks/Utilities/itkHighPriorityRealTimeProbe.cxx:116-128 | a matched stop appends exactly `now - start`, adds it to the total, counts one stop, and keeps the invariant |
| RealTimeProbes.TestPutPreserves | Benchmarks/Utilities/itkHighPriorityRealTimeProbe.cxx:206-214 | TestPut records the value as a sample, counts a start and a stop together and keeps the invariant |
| RealTimeProbes.ExtremesAreSamples | Benchmarks/Utilities/itkHighPriorityRealTimeProbe.cxx:219-231 | once a sample exists the minimum and maximum fields are samples and bound all samples |
| RealTimeProbes.MonotonicClockGivesNonNegativeSamples | Benchmarks/Utilities/itkHighPriorityRealTimeProbe.cxx:116-128 | with a clock that does not run backwards every recorded sample is non-negative |
| RealTimeProbes.EvaluateValidIffBalanced | Benchmarks/Utilities/itkHighPriorityRealTimeProbe.cxx:133-149 | Evaluate reports valid exactly when every start was matched; the stored mean and spread are the sample mean and variance, the spread is non-negative |
| RealTimeProbes.EvaluatedFiguresOrdered | Benchmarks/Utilities/itkHighPriorityRealTimeProbe.cxx:133-149 | after Evaluate, with non-negative samples: 0 <= min <= mean <= max <= total |
| RealTimeProbes.EvaluateOneSampleIsNaN | Benchmarks/Utilities/itkHighPriorityRealTimeProbe.cxx:133-149 | with one sample the unguarded spread is 0/0 (not a number) while the guarded one is 0 |
| RealTimeProbes.EvaluateAsWrittenAgreesFromTwoSamples | Benchmarks/Utilities/itkHighPriorityRealTimeProbe.cxx:133-149 | from two samples on, the guarded Evaluate computes what the code as written computes |
| RealTimeProbes.HighPriorityRealTimeProbe.constructor | Benchmarks/Utilities/itkHighPriorityRealTimeProbe.cxx:27-34 | the object's fields equal the zeroed Time/sec probe |
| RealTimeProbes.HighPriorityRealTimeProbe.SetNameOfTarget | Benchmarks/Utilities/itkHighPriorityRealTimeProbe.cxx:44-47 | only the target name changes |
| RealTimeProbes.HighPriorityRealTimeProbe.SetNameOfProbe | Benchmarks/Utilities/itkHighPriorityRealTimeProbe.h:63 | only the probe name changes |
| RealTimeProbes.HighPriorityRealTimeProbe.Reset | Benchmarks/Utilities/itkHighPriorityRealTimeProbe.cxx:52-59 | the fields become the reset state (see ResetZeroes) |
| RealTimeProbes.HighPriorityRealTimeProbe.ResetProbeData | Benchmarks/Utilities/itkHighPriorityRealTimeProbe.cxx:64-78 | the fields become the zeroed data with names and labels kept |
| RealTimeProbes.HighPriorityRealTimeProbe.ZeroTimeValues | Benchmarks/Utilities/itkHighPriorityRealTimeProbe.cxx:66-71 | the six time values are zero and no other field is touched |
| RealTimeProbes.HighPriorityRealTimeProbe.ZeroCounts | Benchmarks/Utilities/itkHighPriorityRealTimeProbe.cxx:73-77 | the three counters are zero, the sample list is empty and no other field is touched |
| RealTimeProbes.HighPriorityRealTimeProbe.Start | Benchmarks/Utilities/itkHighPriorityRealTimeProbe.cxx:107-111 | the fields become the started state (see StartPreserves) |
| RealTimeProbes.HighPriorityRealTimeProbe.Stop | Benchmarks/Utilities/itkHighPriorityRealTimeProbe.cxx:116-128 | the fields become the stopped state, including the early return on an unmatched stop (see StopPreserves) |
| RealTimeProbes.HighPriorityRealTimeProbe.TestPut | Benchmarks/Utilities/itkHighPriorityRealTimeProbe.cxx:206-214 | the fields become the state with the value recorded (see TestPutPreserves) |
| RealTimeProbes.HighPriorityRealTimeProbe.UpdatekMinMaxValue | Benchmarks/Utilities/itkHighPriorityRealTimeProbe.cxx:219-231 | the first sample sets both extremes, later samples are folded in (see RecordPreserves) |
| RealTimeProbes.HighPriorityRealTimeProbe.Evaluate | Benchmarks/Utilities/itkHighPriorityRealTimeProbe.cxx:133-149 | the loop over the samples leaves the fields and the result equal to the guarded Evaluate (see EvaluateValidIffBalanced) |
| RealTimeProbes.HighPriorityRealTimeProbe.CheckValidation | Benchmarks/Utilities/itkHighPriorityRealTimeProbe.cxx:236-244 | true iff the iteration count equals both the start and the stop count |
| ResourceProbes.Probe2State.GetMean | PerformanceBenchmarks/include/itkResourceProbe2.hxx:182-192 | zero before the first stop, otherwise the value whose product with the stop count is the total |
| ResourceProbes.New | PerformanceBenchmarks/include/itkResourceProbe2.hxx:39-43 | a constructed probe carries the given labels and is already in its reset state |
| ResourceProbes.ResetZeroes | PerformanceBenchmarks/include/itkResourceProbe2.hxx:55-61 | Reset from any state gives the constructed probe with the same labels, whose mean is zero |
| ResourceProbes.StartStopKeepOrder | PerformanceBenchmarks/include/itkResourceProbe2.hxx:85-104 | Start and Stop keep stops <= starts; an unmatched stop changes nothing; a matched stop adds exactly one elapsed reading |
| ResourceProbes.SingleCycleMean | PerformanceBenchmarks/include/itkResourceProbe2.hxx:85-104 | one start/stop cycle on a fresh probe has that cycle's elapsed time as its mean |
| ResourceProbes.ResourceProbe2.constructor | PerformanceBenchmarks/include/itkResourceProbe2.hxx:39-43 | the fields equal the constructed probe with the given labels |
| ResourceProbes.ResourceProbe2.Reset | PerformanceBenchmarks/include/itkResourceProbe2.hxx:55-61 | the fields become the reset state (see ResetZeroes) |
| ResourceProbes.ResourceProbe2.Start | PerformanceBenchmarks/include/itkResourceProbe2.hxx:85-89 | the fields become the started state |
| ResourceProbes.ResourceProbe2.Stop | PerformanceBenchmarks/include/itkResourceProbe2.hxx:96-104 | the fields become the stopped state, an unmatched stop changing nothing (see StartStopKeepOrder) |
| ResourceProbes.ResourceProbe2.IncreaseNumberOfStarts | PerformanceBenchmarks/include/itkResourceProbe2.hxx:137-140 | only the start counter grows, by the given amount |
| ResourceProbes.ResourceProbe2.IncreaseNumberOfStops | PerformanceBenchmarks/include/itkResourceProbe2.hxx:146-149 | only the stop counter grows, by the given amount |
| ResourceProbes.ResourceProbe2.SetStartValue | PerformanceBenchmarks/include/itkResourceProbe2.hxx:164-167 | only the start value changes |
| ResourceProbes.ResourceProbe2.SetTotalValue | PerformanceBenchmarks/include/itkResourceProbe2.hxx:173-176 | only the total changes |
| ResourceProbes.ResourceProbe2.GetMean | PerformanceBenchmarks/include/itkResourceProbe2.hxx:182-192 | the object's mean is the mean of its state (see Probe2State.GetMean) |
| ExpandedProbes.New | PerformanceBenchmarks/include/itkResourceExpandedProbe.hxx:33-38 | a constructed probe carries the given labels, keeps the invariant and passes CheckValidation |
| ExpandedProbes.ResetValidates | PerformanceBenchmarks/include/itkResourceExpandedProbe.hxx:68-79 | Reset from any state gives the constructed probe with the same labels and name, valid and passing CheckValidation |
| ExpandedProbes.StartPreserves | PerformanceBenchmarks/include/itkResourceExpandedProbe.hxx:85-90 | Start counts one start, records the clock and the thread count and keeps the invariant |
| ExpandedProbes.UnmatchedStopIsNoOp | PerformanceBenchmarks/include/itkResourceExpandedProbe.hxx:97-111 | a stop with no outstanding start changes nothing |
| ExpandedProbes.StopPreserves | PerformanceBenchmarks/include/itkResourceExpandedProbe.hxx:97-111 | a matched stop appends exactly one reading `now - start`, adds it to the total, counts one stop and keeps the invariant |
| ExpandedProbes.StatisticsOfReadings | PerformanceBenchmarks/include/itkResourceExpandedProbe.hxx:135-172 | on a valid probe GetMean is the sample mean and GetStandardDeviation the sample variance: non-negative, zero below two readings, with the mean cached |
| ExpandedProbes.CheckValidationIffBalanced | PerformanceBenchmarks/include/itkResourceExpandedProbe.hxx:178-186 | on a valid probe CheckValidation holds exactly when starts equal stops |
| ExpandedProbes.ReportedFiguresOrdered | PerformanceBenchmarks/include/itkResourceExpandedProbe.hxx:117-140 | with non-negative readings: 0 <= minimum <= mean <= maximum <= total |
| ExpandedProbes.MonotonicClockGivesNonNegativeReadings | PerformanceBenchmarks/include/itkResourceExpandedProbe.hxx:97-111 | with a clock that does not run backwards every reading is non-negative |
| ExpandedProbes.ExtremesAreReadings | PerformanceBenchmarks/include/itkResourceExpandedProbe.hxx:286-298 | on a valid probe with readings, the minimum and maximum fields are readings and bound every reading |
| ExpandedProbes.ResourceExpandedProbe.constructor | PerformanceBenchmarks/include/itkResourceExpandedProbe.hxx:33-38 | the fields equal the constructed probe with the given labels |
| ExpandedProbes.ResourceExpandedProbe.SetNameOfProbe | PerformanceBenchmarks/include/itkResourceExpandedProbe.hxx:50-53 | only the name changes |
| ExpandedProbes.ResourceExpandedProbe.Reset | PerformanceBenchmarks/include/itkResourceExpandedProbe.hxx:68-79 | the fields, including the base probe's, become the reset state (see ResetValidates) |
| ExpandedProbes.ResourceExpandedProbe.Start | PerformanceBenchmarks/include/itkResourceExpandedProbe.hxx:85-90 | the fields become the started state (see StartPreserves) |
| ExpandedProbes.ResourceExpandedProbe.Stop | PerformanceBenchmarks/include/itkResourceExpandedProbe.hxx:97-111 | the fields become the stopped state (see StopPreserves) |
| ExpandedProbes.ResourceExpandedProbe.UpdatekMinimumMaximumMeasuredValue | PerformanceBenchmarks/include/itkResourceExpandedProbe.hxx:286-298 | the first reading sets both extremes, later readings are folded in |
| ExpandedProbes.ResourceExpandedProbe.GetMinimum | PerformanceBenchmarks/include/itkResourceExpandedProbe.hxx:117-120 | the stored minimum; on a valid probe with readings it is the least reading (one of them, and none below it); on a valid probe without readings it is 0 |
| ExpandedProbes.ResourceExpandedProbe.GetMaximum | PerformanceBenchmarks/include/itkResourceExpandedProbe.hxx:126-129 | the stored maximum; on a valid probe with readings it is the greatest reading (one of them, and none above it); on a valid probe without readings it is 0 |
| ExpandedProbes.ResourceExpandedProbe.GetMean | PerformanceBenchmarks/include/itkResourceExpandedProbe.hxx:135-140 | on a valid probe, the sample mean of the readings |
| ExpandedProbes.ResourceExpandedProbe.GetStandardDeviation | PerformanceBenchmarks/include/itkResourceExpandedProbe.hxx:146-172 | the loop leaves the fields and the result equal to the specification (see StatisticsOfReadings) |
| ExpandedProbes.ResourceExpandedProbe.CheckValidation | PerformanceBenchmarks/include/itkResourceExpandedProbe.hxx:178-186 | on a valid probe, true exactly when starts equal stops |
| ThreadNaming.EffectiveName | PerformanceBenchmarks/include/itkResourceExpandedProbesCollector.hxx:240-254 | with naming off the key is the name; with it on the key starts with the name and is strictly longer than name plus separator |
| ThreadNaming.DistinctThreadCountsGiveDistinctKeys | Benchmarks/Utilities/itkHighPriorityRealTimeProbesCollector.cxx:361-375 | with naming on, two thread counts give the same key only if they are equal |
| ThreadNaming.SuffixedKeyIsNeverRawName | Benchmarks/Utilities/itkHighPriorityRealTimeProbesCollector.cxx:361-375 | with naming on the key never equals the raw name |
| ProbeCollectors.FreshProbe | include/LOCAL_itkResourceProbesCollectorBase.hxx:32-37 | the probe created for a new name is valid, never started and holds no readings |
| ProbeCollectors.StartInProperties | include/LOCAL_itkResourceProbesCollectorBase.hxx:32-37 | Start keeps every other entry, stores a started probe named by the key (created if absent) and keeps the collector invariants |
| ProbeCollectors.StopInProperties | include/LOCAL_itkResourceProbesCollectorBase.hxx:42-53 | Stop succeeds iff the name is present, then stops that entry only and keeps the invariants |
| ProbeCollectors.StartAfterClearIsFresh | include/LOCAL_itkResourceProbesCollectorBase.hxx:32-37 | after Clear a Start creates a probe with one start, no stop and no reading |
| ProbeCollectors.StartThenStopRecords | include/LOCAL_itkResourceProbesCollectorBase.hxx:32-53 | a Stop right after a Start of the same name succeeds and records that cycle's reading |
| ProbeCollectors.Ordered | include/LOCAL_itkResourceProbesCollectorBase.hxx:87-101 | every probe once, in strictly increasing key order |
| ProbeCollectors.ReportEntriesAt | include/LOCAL_itkResourceProbesCollectorBase.hxx:73-102 | report entry i is probe i in key order; only entry 0 carries the system information and the header |
| ProbeCollectors.JSONEntriesExtend | include/LOCAL_itkResourceProbesCollectorBase.hxx:202-217 | one more key appends that probe's entry, after a separator unless it is the first |
| ProbeCollectors.JSONHeader | include/LOCAL_itkResourceProbesCollectorBase.hxx:194-201 | the document opens with the brace and ends its header with the probes label; the system information, when asked for, is the first probe's |
| ProbeCollectors.JSONEntriesShape | include/LOCAL_itkResourceProbesCollectorBase.hxx:202-217 | n probes give 2n - 1 pieces: probe j at 2j, separators in between |
| ProbeCollectors.JSONDocumentShape | include/LOCAL_itkResourceProbesCollectorBase.hxx:183-219 | the whole document opens with the brace, closes with the closing lines, and lists every probe in key order at every second piece after the header |
| ProbeCollectors.JSONFramed | include/LOCAL_itkResourceProbesCollectorBase.hxx:183-219 | the header is kept as a prefix, entries follow two pieces apart, and the closing piece is last |
| ProbeCollectors.NamedReportsNeverFail | include/LOCAL_itkResourceProbesCollectorBase.hxx:107-236 | the named reports print one piece: the probe's report if present, else a "does not exist" line |
| ProbeCollectors.ProbesCollectorBase.constructor | include/LOCAL_itkResourceProbesCollectorBase.h:104 | the map is empty |
| ProbeCollectors.ProbesCollectorBase.Start | include/LOCAL_itkResourceProbesCollectorBase.hxx:32-37 | the map becomes the started map (see StartInProperties) |
| ProbeCollectors.ProbesCollectorBase.Stop | include/LOCAL_itkResourceProbesCollectorBase.hxx:42-53 | Done with the stopped map for a known name, Missing with the map unchanged otherwise |
| ProbeCollectors.ProbesCollectorBase.GetProbe | include/LOCAL_itkResourceProbesCollectorBase.hxx:58-68 | the stored probe iff the name is present, else failure naming it |
| ProbeCollectors.ProbesCollectorBase.Clear | include/LOCAL_itkResourceProbesCollectorBase.hxx:240-243 | the map is empty |
| ProbeCollectors.ProbesCollectorBase.Report | include/LOCAL_itkResourceProbesCollectorBase.hxx:73-102 | the output is the report over all probes in key order (see ReportEntriesAt); ExpandedReport is the same with kind Expanded |
| ProbeCollectors.ProbesCollectorBase.ReportLoop | include/LOCAL_itkResourceProbesCollectorBase.hxx:87-101 | the loop's output equals the report entries for the keys, the first-probe flag switched off after the first |
| ProbeCollectors.ProbesCollectorBase.NamedReport | include/LOCAL_itkResourceProbesCollectorBase.hxx:107-123 | the output is the named report (see NamedReportsNeverFail) |
| ProbeCollectors.ProbesCollectorBase.JSONReport | include/LOCAL_itkResourceProbesCollectorBase.hxx:183-219 | the output is the JSON document (see JSONDocumentShape) |
| ProbeCollectors.ProbesCollectorBase.JSONEntryLoop | include/LOCAL_itkResourceProbesCollectorBase.hxx:202-217 | the loop's output equals the JSON entries for the keys (see JSONEntriesShape) |
| ProbeCollectors.ProbesCollectorBase.NamedJSONReport | include/LOCAL_itkResourceProbesCollectorBase.hxx:224-236 | the output is the named JSON entry (see NamedReportsNeverFail) |
| ExpandedCollectors.ResourceExpandedProbesCollector.constructor | PerformanceBenchmarks/include/itkResourceExpandedProbesCollector.hxx:29-34 | the map is empty and thread naming is off |
| ExpandedCollectors.ResourceExpandedProbesCollector.EnableUpdatingProbeNameWithNumOfThreads | PerformanceBenchmarks/include/itkResourceExpandedProbesCollector.hxx:231-234 | only the naming flag changes |
| ExpandedCollectors.ResourceExpandedProbesCollector.UpdateProbeNameWithNumOfThreads | PerformanceBenchmarks/include/itkResourceExpandedProbesCollector.hxx:240-254 | the effective key for the current flag (see EffectiveName) |
| ExpandedCollectors.ResourceExpandedProbesCollector.Start | PerformanceBenchmarks/include/itkResourceExpandedProbesCollector.hxx:47-52 | the probe under the effective key is started and named by that key; other entries and the invariants are kept |
| ExpandedCollectors.ResourceExpandedProbesCollector.Stop | PerformanceBenchmarks/include/itkResourceExpandedProbesCollector.hxx:58-62 | the base Stop applied to the effective key |
| ExpandedCollectors.ResourceExpandedProbesCollector.FindProbeWithName | PerformanceBenchmarks/include/itkResourceExpandedProbesCollector.hxx:260-273 | the probe under the effective key iff present, else failure |
| ExpandedCollectors.StartThenStopUseSameKey | PerformanceBenchmarks/include/itkResourceExpandedProbesCollector.hxx:47-62 | a Start then a Stop of the same name under the same flag and thread count meet the same entry, and the Stop succeeds and records the reading |
| RealTimeCollectors.Check | Benchmarks/Utilities/itkHighPriorityRealTimeProbesCollector.cxx:395-407 | present iff the key is stored, with a copy of that probe |
| RealTimeCollectors.Created | Benchmarks/Utilities/itkHighPriorityRealTimeProbesCollector.cxx:118-132 | a new entry is a zeroed, consistent probe named by its key |
| RealTimeCollectors.ResetAll | Benchmarks/Utilities/itkHighPriorityRealTimeProbesCollector.cxx:72-81 | same keys, every entry reset |
| RealTimeCollectors.StartAsWrittenIgnoresPresentKey | Benchmarks/Utilities/itkHighPriorityRealTimeProbesCollector.cxx:118-132 | as written, Start on a present key leaves the map unchanged, where the corrected Start adds one start |
| RealTimeCollectors.StartNewKeyAgrees | Benchmarks/Utilities/itkHighPriorityRealTimeProbesCollector.cxx:118-132 | for a new key both versions insert a probe named by the key with one start |
| RealTimeCollectors.OperationsKeepUnevaluated | Benchmarks/Utilities/itkHighPriorityRealTimeProbesCollector.cxx:64-140 | Start (both versions), Stop, Reset(name) and Reset() keep every entry consistent, named by its key and never evaluated |
| RealTimeCollectors.CollectorValidationMeansNeverStarted | Benchmarks/Utilities/itkHighPriorityRealTimeProbesCollector.cxx:208-212 | since no entry is ever evaluated, a probe validates exactly when it was never started, and the mean and spread getters read zero |
| RealTimeCollectors.RestartIsLostAsWritten | Benchmarks/Utilities/itkHighPriorityRealTimeProbesCollector.cxx:118-140 | as written, two start/stop cycles on one name keep only the first reading |
| RealTimeCollectors.RestartAccumulates | Benchmarks/Utilities/itkHighPriorityRealTimeProbesCollector.cxx:118-140 | corrected, two cycles on one name keep both readings, two starts and two stops |
| RealTimeCollectors.ResetByRawNameFails | Benchmarks/Utilities/itkHighPriorityRealTimeProbesCollector.cxx:64-67 | with naming on, Reset(name) fails even right after Start(name), because the entry sits under the suffixed key |
| RealTimeCollectors.ThreadCountsKeptApart | Benchmarks/Utilities/itkHighPriorityRealTimeProbesCollector.cxx:361-375 | with naming on, measuring a name at one thread count leaves the entry at any other count untouched |
| RealTimeCollectors.HighPriorityRealTimeProbesCollector.constructor | Benchmarks/Utilities/itkHighPriorityRealTimeProbesCollector.cxx:29-38 | the map is empty and thread naming is on |
| RealTimeCollectors.HighPriorityRealTimeProbesCollector.EnableUpdatingProbeNameWithNumOfThreads | Benchmarks/Utilities/itkHighPriorityRealTimeProbesCollector.cxx:353-356 | only the naming flag changes |
| RealTimeCollectors.HighPriorityRealTimeProbesCollector.UpdateProbeNameWithNumOfThreads | Benchmarks/Utilities/itkHighPriorityRealTimeProbesCollector.cxx:361-375 | the effective key for the current flag |
| RealTimeCollectors.HighPriorityRealTimeProbesCollector.Start | Benchmarks/Utilities/itkHighPriorityRealTimeProbesCollector.cxx:118-132 | the corrected Start on the effective key (see RestartAccumulates) |
| RealTimeCollectors.HighPriorityRealTimeProbesCollector.Stop | Benchmarks/Utilities/itkHighPriorityRealTimeProbesCollector.cxx:137-140 | Done with that entry stopped for a present effective key, Missing with the map unchanged otherwise |
| RealTimeCollectors.HighPriorityRealTimeProbesCollector.Reset | Benchmarks/Utilities/itkHighPriorityRealTimeProbesCollector.cxx:64-67 | Done with the entry reset for a present raw name, Missing with the map unchanged otherwise |
| RealTimeCollectors.HighPriorityRealTimeProbesCollector.ResetAllProbes | Benchmarks/Utilities/itkHighPriorityRealTimeProbesCollector.cxx:72-81 | the loop leaves every entry reset and the keys unchanged |
| RealTimeCollectors.HighPriorityRealTimeProbesCollector.CheckValidationAll | Benchmarks/Utilities/itkHighPriorityRealTimeProbesCollector.cxx:217-229 | true iff every stored probe validates (true for an empty map) |
| RealTimeCollectors.HighPriorityRealTimeProbesCollector.GetStatistic | Benchmarks/Utilities/itkHighPriorityRealTimeProbesCollector.cxx:143-203 | each getter reads its figure from the probe under the effective key, failing iff that key is absent |
| RealTimeCollectors.HighPriorityRealTimeProbesCollector.CheckValidation | Benchmarks/Utilities/itkHighPriorityRealTimeProbesCollector.cxx:208-212 | the stored probe's validation under the effective key, failing iff absent |
| RealTimeCollectors.HighPriorityRealTimeProbeCollector.constructor | Benchmarks/Utilities/itkHighPriorityRealTimeProbeCollector.cxx:29-37 | the map is empty |
| RealTimeCollectors.HighPriorityRealTimeProbeCollector.Start | Benchmarks/Utilities/itkHighPriorityRealTimeProbeCollector.cxx:103-116 | the corrected Start on the raw name |
| RealTimeCollectors.HighPriorityRealTimeProbeCollector.Stop | Benchmarks/Utilities/itkHighPriorityRealTimeProbeCollector.cxx:121-124 | Done with that entry stopped for a present name, Missing with the map unchanged otherwise |
| RealTimeCollectors.HighPriorityRealTimeProbeCollector.Reset | Benchmarks/Utilities/itkHighPriorityRealTimeProbeCollector.cxx:63-66 | Done with that entry reset for a present name, Missing with the map unchanged otherwise |
| RealTimeCollectors.HighPriorityRealTimeProbeCollector.GetStatistic | Benchmarks/Utilities/itkHighPriorityRealTimeProbeCollector.cxx:127-180 | each getter reads its figure from the stored probe, failing iff the name is absent |
| RealTimeCollectors.HighPriorityRealTimeProbeCollector.CheckValidation | Benchmarks/Utilities/itkHighPriorityRealTimeProbeCollector.cxx:185-188 | the stored probe's validation, failing iff the name is absent |
| BenchmarkingUtilities.GuessGitHash | src/PerformanceBenchmarkingUtilities.cxx:59-83 | the build's hash when it has more than one character, else the environment's hash with "_ENV", else "HASHNOTEXPOSED"; never shorter than two characters |
| BenchmarkingUtilities.ReplaceOccurrence | src/PerformanceBenchmarkingUtilities.cxx:95-109 | no occurrence, no change; otherwise the text before the first occurrence and after it are kept and "_" + replacement + "_" + hash stands in its place |
| BenchmarkingUtilities.ReplaceOccurrenceFirstOnly | src/PerformanceBenchmarkingUtilities.cxx:95-109 | a later occurrence of the found value survives the replacement, shifted by the change in length |
| BenchmarkingUtilities.WritesJsonAsWrittenIffNotLeading | src/PerformanceBenchmarkingUtilities.cxx:116 | as written, JSON is chosen for every timings file name except one that starts with ".json" |
| BenchmarkingUtilities.WritesJsonIffOccurs | src/PerformanceBenchmarkingUtilities.cxx:116 | corrected, JSON is chosen exactly when ".json" occurs in the name |
| BenchmarkingUtilities.TextFileNameWrittenAsJson | src/PerformanceBenchmarkingUtilities.cxx:116 | "timings.txt" is written as JSON by the code as written and as text once corrected |
| BenchmarkingUtilities.WriteExpandedReport | src/PerformanceBenchmarkingUtilities.cxx:111-130 | the console gets the summary report with the caller's flags; the timings file is the JSON document when the name contains ".json" (corrected branch), else the expanded report with system information off and header and tabs on |
| BenchmarkingUtilities.WriteExpandedReportAsWritten | src/PerformanceBenchmarkingUtilities.cxx:111-130 | as written: the same console report; the timings file is JSON unless the name starts with ".json", in which case it is the expanded text report |
| BenchmarkingUtilities.TimingsFileBranches | src/PerformanceBenchmarkingUtilities.cxx:116 | the two versions print the same console report and differ exactly on names without ".json" (JSON as written, text corrected) and names starting with ".json" (text as written, JSON corrected) |
| BenchmarkingUtilities.TimingsFileLayout | src/PerformanceBenchmarkingUtilities.cxx:111-130 | a JSON timings file is the framed document with every probe in key order; a text one holds one expanded report per probe in key order, header only on the first, tabs on, system information off |
| ResampleArguments.Parameters.constructor | examples/Filtering/ResampleBenchmark.cxx:224-257 | the benchmark's default arguments, which pass every check of ValidateArguments |
| ResampleArguments.IsStringInVector | examples/Filtering/ResampleBenchmark.cxx:132-136 | true iff some element equals the string |
| ResampleArguments.AreAllStringsInVector | examples/Filtering/ResampleBenchmark.cxx:138-147 | true iff every argument is an allowed string (true for none) |
| ResampleArguments.ReplaceUnderscoreWithSpace | examples/Filtering/ResampleBenchmark.cxx:149-159 | same length; only the first '_' becomes ' '; a string without '_' is unchanged |
| ResampleArguments.UnderscoreAbsent | examples/Filtering/ResampleBenchmark.cxx:149-159 | when find("_") fails the string holds no '_' |
| ResampleArguments.FirstUnderscore | examples/Filtering/ResampleBenchmark.cxx:149-159 | find("_") returns a '_' with none before it |
| ResampleArguments.HasNotSupportedTransform1D | examples/Filtering/ResampleBenchmark.cxx:764-781 | true iff the dimension is 1 and some transform exists only in 2-D and 3-D |
| ResampleArguments.ValidateArguments | examples/Filtering/ResampleBenchmark.cxx:784-862 | true iff every check of the benchmark passes (positive sizes, no input file beside sizes, positive iterations, known interpolator, extrapolator, transforms and precision) |
| ResampleArguments.AdjustedTransforms | examples/Filtering/ResampleBenchmark.cxx:1093-1105 | the list is never empty afterwards, a given list is kept, and more than one transform forces the composite flag |
| ResampleArguments.AdjustIdempotentAndSafe | examples/Filtering/ResampleBenchmark.cxx:1093-1105 | adjusting twice equals adjusting once, and adjusting keeps accepted arguments accepted |
| ResampleArguments.AdjustTransformParameters | examples/Filtering/ResampleBenchmark.cxx:1093-1105 | the transforms and the composite flag become the adjusted pair; every other parameter is unchanged |

## Left out

- Time sources: the high-priority real-time clock, process priority and the
  clock reading itself. The clock is the parameter `now`, and the global
  thread count is the parameter `threads`.
- System information: PrintSystemInformation and the jsonxx object of the
  system information. Both stay symbolic `Piece`s.
- Report text: the column layout (`std::setw`), the report head lines,
  AnalysisReport, and the report functions of the expanded collector
  (Report, ExpandedReportAll, the named ExpandedReport, AnalysisReportAll and
  the named AnalysisReport). The text of each probe's line stays symbolic as
  `Piece`.
- Floating point: the square root (the spread fields hold the variance), and
  IEEE rounding, overflow and NaN. Values are exact reals. NaN appears only as
  `None` in `RealTimeProbes.RawEvaluation`.
- Integer width: the 64-bit wrap-around of the counters is not modelled (they
  are unbounded naturals).
- GuessGitHash: the JSON parsing of the environment, and
  DecorateWithBuildInformation. The two hashes are given as optional strings.
- PerfDateStamp and file output: WriteExpandedReport returns the two
  sequences of pieces instead of writing them to a console and a file.
- Benchmark drivers: the image filters, the command-line parsing and the
  Python scripts.
- SetNumberOfThreads of the expanded probe and the collectors' overall-probe
  name setters. They only store a value the model passes as a parameter.
- GetType, GetUnit and GetInstantValue are not modelled.
- The real-time probe's getters: its GetMin, GetMax and SetNameOfProbe are
  declared in its header without a matching definition in
  itkHighPriorityRealTimeProbe.cxx. They are modelled by their evident
  meaning: read or write the field.
- Probe type of the collector bases: ITK's ResourceProbe and ITK's
  ResourceProbesCollectorBase are not part of this model. Both collector
  bases are modelled by `ProbeCollectors` over the expanded-probe state. In
  C++ the local base is instantiated with the HighPriorityRealTimeProbe of
  include/itkHighPriorityRealTimeProbe.h (derived from ITK's ResourceProbe),
  and ResourceExpandedProbesCollector derives from ITK's
  ResourceProbesCollectorBase, not from the local base.
- Overloaded names: `Reset()` and `CheckValidation()` of
  HighPriorityRealTimeProbesCollector are named `ResetAllProbes` and
  `CheckValidationAll`, because Dafny has no overloading.
- Iteration order: ResetAllProbes visits entries in an unspecified order. The map
  iteration order does not matter for its result.
- The real-time collector classes use the corrected Start and the probe class
  uses the guarded Evaluate. The code as written is modelled by
  `RealTimeCollectors.StartAsWritten` and `RealTimeProbes.EvaluateAsWritten`
  (see Findings).
- ExpandedCollectors.ResourceExpandedProbesCollector.FindProbeWithName: for a
  missing name the C++ code raises an exception (`itkGenericExceptionMacro`).
  The failure result stands for it. The bare `return;` after the macro and the
  iterator returned in place of the probe are not modelled.
- BenchmarkingUtilities.WriteExpandedReport: branches on the corrected
  `WritesJson` (Findings row 3). The code as written is
  `BenchmarkingUtilities.WriteExpandedReportAsWritten`.
- ResourceProbes.ResourceProbe2.IncreaseNumberOfStarts and
  IncreaseNumberOfStops: the C++ default argument `val = 1` is not modelled.
  The model's callers pass 1 explicitly, as the C++ callers get it by default.
- ExpandedProbes.ExpandedState.GetMean: it also checks that the reading list
  is non-empty before dividing. This matters only outside `Valid`, where the
  C++ division could be by zero. On a valid probe the two agree.

## Findings

| source | as written | input that shows it | evidently intended | confidence | as-written member | corrected member |
|---|---|---|---|---|---|---|
| Benchmarks/Utilities/itkHighPriorityRealTimeProbesCollector.cxx:118-132 | Start on a name already present starts the copy returned by the check, and the stored probe is untouched (the same holds in itkHighPriorityRealTimeProbeCollector.cxx:103-116) | Start("a"), Stop("a"), Start("a"), Stop("a"): the second stop finds no outstanding start, so one reading remains | the stored probe is started, as in the collector base, so every cycle adds a reading | not executed | RealTimeCollectors.RestartIsLostAsWritten | RealTimeCollectors.RestartAccumulates |
| Benchmarks/Utilities/itkHighPriorityRealTimeProbe.cxx:133-149 | Evaluate divides by the sample count minus one with no guard | one start/stop cycle, then Evaluate: the spread is 0/0, not a number | a zero spread below two samples, as ResourceExpandedProbe guards it | not executed | RealTimeProbes.EvaluateOneSampleIsNaN | RealTimeProbes.EvaluateValidIffBalanced |
| src/PerformanceBenchmarkingUtilities.cxx:116 | the position returned by find(".json") is used as a truth value | "timings.txt": find gives npos, which is true, so JSON is written | JSON exactly when ".json" occurs in the name | not executed | BenchmarkingUtilities.TextFileNameWrittenAsJson | BenchmarkingUtilities.WritesJsonIffOccurs |
