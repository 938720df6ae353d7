/** What `build_rocksdb` learns from the target triple by substring tests:
    the operating-system branch it takes, and whether jemalloc may be used. */
module Target {
  import opened Text

  /** The branch of the `if target.contains(..)` chain a target falls into. */
  datatype OsFamily =
    | Ios | MacOs | Android | Aix | Linux | DragonFly | FreeBsd | NetBsd | OpenBsd | Windows
    | Unknown

  /** The chain as the build script writes it: first matching test wins. */
  function Classify(target: string): OsFamily
  {
    if Contains(target, "apple-ios") then Ios
    else if Contains(target, "darwin") then MacOs
    else if Contains(target, "android") then Android
    else if Contains(target, "aix") then Aix
    else if Contains(target, "linux") then Linux
    else if Contains(target, "dragonfly") then DragonFly
    else if Contains(target, "freebsd") then FreeBsd
    else if Contains(target, "netbsd") then NetBsd
    else if Contains(target, "openbsd") then OpenBsd
    else if Contains(target, "windows") then Windows
    else Unknown
  }

  /** The same priority order as an explicit table of (pattern, family). */
  const OsPatterns: seq<(string, OsFamily)> := [
    ("apple-ios", Ios), ("darwin", MacOs), ("android", Android), ("aix", Aix),
    ("linux", Linux), ("dragonfly", DragonFly), ("freebsd", FreeBsd),
    ("netbsd", NetBsd), ("openbsd", OpenBsd), ("windows", Windows)]

  /** The if-chain and the priority table agree on every target. */
  lemma ClassifyIsFirstMatch(target: string)
    ensures Classify(target) == FirstMatch(OsPatterns, target, Unknown)
  {
    var t := OsPatterns;
    FirstMatchStep(t, target, Unknown, 0);
    FirstMatchStep(t, target, Unknown, 1);
    FirstMatchStep(t, target, Unknown, 2);
    FirstMatchStep(t, target, Unknown, 3);
    FirstMatchStep(t, target, Unknown, 4);
    assert t[0..] == t;
    if !Contains(target, "apple-ios") && !Contains(target, "darwin") && !Contains(target, "android")
       && !Contains(target, "aix") && !Contains(target, "linux") {
      ClassifyTail(target);
    }
  }

  /** The second half of the chain, for a target that matched none of the
      first five patterns. */
  lemma ClassifyTail(target: string)
    requires !Contains(target, "apple-ios") && !Contains(target, "darwin") && !Contains(target, "android")
    requires !Contains(target, "aix") && !Contains(target, "linux")
    ensures Classify(target) == FirstMatch(OsPatterns[5..], target, Unknown)
  {
    var t := OsPatterns;
    FirstMatchStep(t, target, Unknown, 5);
    FirstMatchStep(t, target, Unknown, 6);
    FirstMatchStep(t, target, Unknown, 7);
    FirstMatchStep(t, target, Unknown, 8);
    FirstMatchStep(t, target, Unknown, 9);
    assert t[10..] == [];
  }

  /** Priority: a target is put in a family exactly when it contains that
      family's pattern and none of the patterns ranked before it; it is
      `Unknown` exactly when it contains none of them. */
  lemma ClassifyPriority(target: string)
    ensures Classify(target) == Unknown <==> NoneBefore(OsPatterns, target, |OsPatterns|)
    ensures Classify(target) != Unknown ==>
      exists k :: 0 <= k < |OsPatterns| && OsPatterns[k].1 == Classify(target) &&
        Contains(target, OsPatterns[k].0) && NoneBefore(OsPatterns, target, k)
  {
    ClassifyIsFirstMatch(target);
    FirstMatchIsEarliest(OsPatterns, target, Unknown);
  }

  /** `NO_JEMALLOC_TARGETS`: jemalloc-sys builds a prefixed jemalloc on these,
      which cannot be linked together with RocksDB. */
  const NoJemallocTargets: seq<string> := ["android", "dragonfly", "musl", "darwin"]

  /** `NO_JEMALLOC_TARGETS.iter().all(|i| !target.contains(i))`. */
  predicate JemallocAllowed(target: string)
  {
    forall k :: 0 <= k < |NoJemallocTargets| ==> !Contains(target, NoJemallocTargets[k])
  }
}
