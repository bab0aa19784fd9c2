/** The key-rewriting rule shared by the thread-aware collectors: with the
    rule switched on, a probe name is suffixed with "_Th_" and the decimal
    global thread count, so runs at different thread counts are kept apart. */
module ThreadNaming {
  import opened Text

  const Separator: string := "_Th_"

  function EffectiveName(name: string, threads: nat, enabled: bool): (key: string)
    ensures !enabled ==> key == name
    ensures enabled ==> |key| > |name| + |Separator| && key[..|name|] == name
  {
    if enabled then name + Separator + NatToString(threads) else name
  }

  /** For one base name, two thread counts give the same key only if they
      are the same count: statistics at different counts stay independent. */
  lemma DistinctThreadCountsGiveDistinctKeys(name: string, t1: nat, t2: nat)
    requires EffectiveName(name, t1, true) == EffectiveName(name, t2, true)
    ensures t1 == t2
  {
    var k1 := EffectiveName(name, t1, true);
    var k2 := EffectiveName(name, t2, true);
    var n := |name| + |Separator|;
    assert k1[n..] == NatToString(t1);
    assert k2[n..] == NatToString(t2);
    NatToStringInjective(t1, t2);
  }

  /** With the rule on, the key is never the raw name, so a lookup by the raw
      name cannot find an entry stored under its suffixed key. */
  lemma SuffixedKeyIsNeverRawName(name: string, threads: nat)
    ensures EffectiveName(name, threads, true) != name
  {
  }
}
