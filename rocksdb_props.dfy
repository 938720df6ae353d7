/** What the configuration `build_rocksdb` hands to the compiler promises:
    one operating-system marker, the jemalloc and large-file gates, the SIMD
    flags, the toolchain flags, the compilation units and the link lines. */
module RocksdbProperties {
  import opened Wrappers
  import opened Text
  import opened Cargo
  import opened CcBuild
  import opened Target
  import opened Linking
  import opened Sources
  import opened Rocksdb

  // ---------------------------------------------------------------------
  // Operating-system marker

  /** The operating-system marker defines all start with `OS_`; no other
      define of the build does. */
  predicate IsOsMarker(name: string)
  {
    |name| >= 3 && name[0] == 'O' && name[1] == 'S' && name[2] == '_'
  }

  /** The marker each family defines; iOS shares the macOS marker. */
  function MarkerOf(family: OsFamily): Option<string>
  {
    match family
    case Ios => Some("OS_MACOSX")
    case MacOs => Some("OS_MACOSX")
    case Android => Some("OS_ANDROID")
    case Aix => Some("OS_AIX")
    case Linux => Some("OS_LINUX")
    case DragonFly => Some("OS_DRAGONFLYBSD")
    case FreeBsd => Some("OS_FREEBSD")
    case NetBsd => Some("OS_NETBSD")
    case OpenBsd => Some("OS_OPENBSD")
    case Windows => Some("OS_WIN")
    case Unknown => None
  }

  /** The defines with a value that an operating-system branch can add. */
  const BranchValued: set<Define> := {
    DefVal("PLATFORM", "IOS"), DefVal("_FILE_OFFSET_BITS", "32"),
    DefVal("_POSIX_C_SOURCE", "1"), DefVal("_WIN32_WINNT", "_WIN32_WINNT_VISTA")}

  /** A branch keeps what came before and adds its family's marker, some of
      the defines of `BranchValued`, and bare defines that are not markers. */
  predicate BranchShape(before: seq<Define>, after: seq<Define>, family: OsFamily)
  {
    && (forall d :: d in before ==> d in after)
    && (forall d :: d in after ==>
          d in before || d in BranchValued ||
          (d.value.None? && (IsOsMarker(d.name) ==> MarkerOf(family) == Some(d.name))))
    && (MarkerOf(family).Some? ==> Def(MarkerOf(family).value) in after)
  }

  lemma PosixDefinesShape(acc: seq<Define>, family: OsFamily)
    requires family in {MacOs, Aix, DragonFly, FreeBsd, NetBsd, OpenBsd, Android, Linux}
    ensures BranchShape(acc, PosixDefines(acc, MarkerOf(family).value), family)
  {
    assert !IsOsMarker("ROCKSDB_PLATFORM_POSIX") && !IsOsMarker("ROCKSDB_LIB_IO_POSIX");
  }

  lemma IosDefinesShape(acc: seq<Define>)
    ensures BranchShape(acc, IosDefines(acc), Ios)
  {
    assert !IsOsMarker("IOS_CROSS_COMPILE") && !IsOsMarker("NIOSTATS_CONTEXT");
    assert !IsOsMarker("NPERF_CONTEXT") && !IsOsMarker("ROCKSDB_PLATFORM_POSIX") && !IsOsMarker("ROCKSDB_LIB_IO_POSIX");
  }

  /** Appending a define a branch may add keeps the branch's shape. */
  lemma ShapeExtend(before: seq<Define>, after: seq<Define>, family: OsFamily, d: Define)
    requires BranchShape(before, after, family)
    requires d in BranchValued || (d.value.None? && !IsOsMarker(d.name))
    ensures BranchShape(before, after + [d], family)
  {
  }

  lemma WindowsDefinesShape(acc: seq<Define>, target: string)
    ensures BranchShape(acc, WindowsDefines(acc, target), Windows)
  {
    var w := acc + [Def("DWIN32")] + [Def("OS_WIN")];
    assert BranchShape(acc, w, Windows) by {
      assert !IsOsMarker("DWIN32");
    }
    ShapeExtend(acc, w, Windows, Def("_MBCS"));
    w := w + [Def("_MBCS")];
    ShapeExtend(acc, w, Windows, Def("WIN64"));
    w := w + [Def("WIN64")];
    ShapeExtend(acc, w, Windows, Def("NOMINMAX"));
    w := w + [Def("NOMINMAX")];
    ShapeExtend(acc, w, Windows, Def("ROCKSDB_WINDOWS_UTF8_FILENAMES"));
    w := w + [Def("ROCKSDB_WINDOWS_UTF8_FILENAMES")];
    if target == "x86_64-pc-windows-gnu" {
      ShapeExtend(acc, w, Windows, DefVal("_POSIX_C_SOURCE", "1"));
      ShapeExtend(acc, w + [DefVal("_POSIX_C_SOURCE", "1")], Windows, DefVal("_WIN32_WINNT", "_WIN32_WINNT_VISTA"));
    }
  }

  /** Whatever the family, the branch keeps what came before, adds its own
      marker, and adds no other marker. */
  lemma BranchDefinesShape(acc: seq<Define>, family: OsFamily, target: string)
    ensures BranchShape(acc, BranchDefines(acc, family, target), family)
  {
    match family
    case Ios => IosDefinesShape(acc);
    case Linux =>
      PosixDefinesShape(acc, family);
      assert !IsOsMarker("ROCKSDB_SCHED_GETCPU_PRESENT");
    case Windows => WindowsDefinesShape(acc, target);
    case Unknown =>
    case _ => PosixDefinesShape(acc, family);
  }

  /** Only the Linux branch adds `ROCKSDB_SCHED_GETCPU_PRESENT`. */
  lemma BranchDefinesSched(acc: seq<Define>, family: OsFamily, target: string)
    ensures Def("ROCKSDB_SCHED_GETCPU_PRESENT") in BranchDefines(acc, family, target) <==>
      Def("ROCKSDB_SCHED_GETCPU_PRESENT") in acc || family == Linux
  {
    var x := Def("ROCKSDB_SCHED_GETCPU_PRESENT");
    match family
    case Ios =>
      assert !IsOsMarker("IOS_CROSS_COMPILE") && !IsOsMarker("NIOSTATS_CONTEXT") && !IsOsMarker("NPERF_CONTEXT");
    case Windows =>
      WindowsAddsOnlyWindows(acc, target, x);
    case Unknown =>
    case Linux =>
      assert BranchDefines(acc, family, target)[|PosixDefines(acc, "OS_LINUX")|] == x;
    case Android =>
      PosixAddsNoSched(acc, "OS_ANDROID");
    case _ =>
      PosixAddsNoSched(acc, MarkerOf(family).value);
  }

  lemma PosixAddsNoSched(acc: seq<Define>, marker: string)
    requires IsOsMarker(marker)
    ensures Def("ROCKSDB_SCHED_GETCPU_PRESENT") in PosixDefines(acc, marker) <==>
      Def("ROCKSDB_SCHED_GETCPU_PRESENT") in acc
  {
    assert Def("ROCKSDB_SCHED_GETCPU_PRESENT") != Def(marker);
  }

  /** The Windows branch adds only Windows defines and the MinGW pair. */
  lemma WindowsAddsOnlyWindows(acc: seq<Define>, target: string, x: Define)
    requires x.value.None? && x !in WindowsBare && x != Def("OS_WIN")
    ensures x in WindowsDefines(acc, target) <==> x in acc
  {
    var w := [Def("DWIN32")] + [Def("OS_WIN")] + [Def("_MBCS")] + [Def("WIN64")]
             + [Def("NOMINMAX")] + [Def("ROCKSDB_WINDOWS_UTF8_FILENAMES")];
    assert x !in w;
    var mingw := [DefVal("_POSIX_C_SOURCE", "1")] + [DefVal("_WIN32_WINNT", "_WIN32_WINNT_VISTA")];
    if target == "x86_64-pc-windows-gnu" {
      assert WindowsDefines(acc, target) == acc + w + mingw;
    } else {
      assert WindowsDefines(acc, target) == acc + w;
    }
  }

  /** Every branch but Windows and the unknown one adds the two POSIX port
      defines. */
  lemma BranchDefinesPosix(acc: seq<Define>, family: OsFamily, target: string, d: Define)
    requires d in {Def("ROCKSDB_PLATFORM_POSIX"), Def("ROCKSDB_LIB_IO_POSIX")}
    ensures d in BranchDefines(acc, family, target) <==> d in acc || family !in {Windows, Unknown}
  {
    match family
    case Ios =>
      assert IosDefines(acc)[|acc| + 5..] == [Def("ROCKSDB_PLATFORM_POSIX"), Def("ROCKSDB_LIB_IO_POSIX")];
    case Android =>
      PosixAddsPosix(acc, "OS_ANDROID", d);
    case Linux =>
      PosixAddsPosix(acc, "OS_LINUX", d);
    case Windows =>
      WindowsAddsNoPosix(acc, target, d);
    case Unknown =>
    case _ =>
      PosixAddsPosix(acc, MarkerOf(family).value, d);
  }

  lemma PosixAddsPosix(acc: seq<Define>, marker: string, d: Define)
    requires d in {Def("ROCKSDB_PLATFORM_POSIX"), Def("ROCKSDB_LIB_IO_POSIX")}
    ensures d in PosixDefines(acc, marker)
  {
    assert PosixDefines(acc, marker)[|acc| + 1..] == [Def("ROCKSDB_PLATFORM_POSIX"), Def("ROCKSDB_LIB_IO_POSIX")];
  }

  /** The Windows branch adds neither POSIX port define. */
  lemma WindowsAddsNoPosix(acc: seq<Define>, target: string, d: Define)
    requires d in {Def("ROCKSDB_PLATFORM_POSIX"), Def("ROCKSDB_LIB_IO_POSIX")}
    ensures d in WindowsDefines(acc, target) <==> d in acc
  {
    var w := [Def("DWIN32")] + [Def("OS_WIN")] + [Def("_MBCS")] + [Def("WIN64")]
             + [Def("NOMINMAX")] + [Def("ROCKSDB_WINDOWS_UTF8_FILENAMES")];
    assert d !in w;
    assert d !in [DefVal("_POSIX_C_SOURCE", "1")] + [DefVal("_WIN32_WINNT", "_WIN32_WINNT_VISTA")];
    if target == "x86_64-pc-windows-gnu" {
      assert WindowsDefines(acc, target) == acc + w + ([DefVal("_POSIX_C_SOURCE", "1")] + [DefVal("_WIN32_WINNT", "_WIN32_WINNT_VISTA")]);
    } else {
      assert WindowsDefines(acc, target) == acc + w;
    }
  }


  /** The Windows defines without a value; only the Windows branch adds them. */
  const WindowsBare: set<Define> := {
    Def("DWIN32"), Def("_MBCS"), Def("WIN64"), Def("NOMINMAX"), Def("ROCKSDB_WINDOWS_UTF8_FILENAMES")}

  /** No Windows define is an operating-system marker or a POSIX port define. */
  lemma WindowsBareIsNotPosix(d: Define)
    requires d in WindowsBare
    ensures d.value.None? && !IsOsMarker(d.name)
    ensures d !in {Def("ROCKSDB_PLATFORM_POSIX"), Def("ROCKSDB_LIB_IO_POSIX"), Def("ROCKSDB_SCHED_GETCPU_PRESENT")}
  {
  }

  /** A POSIX branch adds none of the Windows defines. */
  lemma PosixAddsNoWindowsBare(acc: seq<Define>, marker: string, d: Define)
    requires IsOsMarker(marker) && d in WindowsBare
    ensures d in PosixDefines(acc, marker) <==> d in acc
  {
    WindowsBareIsNotPosix(d);
    assert d != Def(marker);
  }

  /** The iOS branch adds none of the Windows defines. */
  lemma IosAddsNoWindowsBare(acc: seq<Define>, d: Define)
    requires d in WindowsBare
    ensures d in IosDefines(acc) <==> d in acc
  {
    WindowsBareIsNotPosix(d);
    assert !IsOsMarker("IOS_CROSS_COMPILE") && !IsOsMarker("NIOSTATS_CONTEXT") && !IsOsMarker("NPERF_CONTEXT");
  }

  /** The Windows branch adds every one of them. */
  lemma WindowsAddsWindowsBare(acc: seq<Define>, target: string, d: Define)
    requires d in WindowsBare
    ensures d in WindowsDefines(acc, target)
  {
    var w := acc + [Def("DWIN32")] + [Def("OS_WIN")] + [Def("_MBCS")] + [Def("WIN64")]
             + [Def("NOMINMAX")] + [Def("ROCKSDB_WINDOWS_UTF8_FILENAMES")];
    assert d in w;
  }

  lemma BranchDefinesWindows(acc: seq<Define>, family: OsFamily, target: string, d: Define)
    requires d in WindowsBare
    ensures d in BranchDefines(acc, family, target) <==> d in acc || family == Windows
  {
    match family
    case Ios => IosAddsNoWindowsBare(acc, d);
    case MacOs => PosixAddsNoWindowsBare(acc, "OS_MACOSX", d);
    case Android => PosixAddsNoWindowsBare(acc, "OS_ANDROID", d);
    case Aix => PosixAddsNoWindowsBare(acc, "OS_AIX", d);
    case Linux =>
      PosixAddsNoWindowsBare(acc, "OS_LINUX", d);
      WindowsBareIsNotPosix(d);
    case DragonFly => PosixAddsNoWindowsBare(acc, "OS_DRAGONFLYBSD", d);
    case FreeBsd => PosixAddsNoWindowsBare(acc, "OS_FREEBSD", d);
    case NetBsd => PosixAddsNoWindowsBare(acc, "OS_NETBSD", d);
    case OpenBsd => PosixAddsNoWindowsBare(acc, "OS_OPENBSD", d);
    case Windows => WindowsAddsWindowsBare(acc, target, d);
    case Unknown =>
  }


  /** Only the Android branch adds `_FILE_OFFSET_BITS=32`, and only for the
      one 32-bit ARM target. */
  lemma BranchDefinesOffset32(acc: seq<Define>, family: OsFamily, target: string)
    ensures DefVal("_FILE_OFFSET_BITS", "32") in BranchDefines(acc, family, target) <==>
      DefVal("_FILE_OFFSET_BITS", "32") in acc || (family == Android && target == Armv7Android)
  {
    match family
    case Ios =>
    case Windows =>
    case _ =>
  }

  /** The codec defines, in the order the build script adds them. */
  const CodecDefines: seq<(string, string)> := [
    ("snappy", "SNAPPY"), ("lz4", "LZ4"), ("zstd", "ZSTD"), ("zlib", "ZLIB"), ("bzip2", "BZIP2"),
    ("rtti", "USE_RTTI")]

  const CodecNames: set<string> := {"SNAPPY", "LZ4", "ZSTD", "ZLIB", "BZIP2", "USE_RTTI"}

  /** The codec step keeps what came before and adds only `NAME=1` defines
      of codecs. */
  lemma CompressionDefinesAdds(acc: seq<Define>, features: set<string>)
    ensures forall d :: d in acc ==> d in CompressionDefines(acc, features)
    ensures forall d :: d in CompressionDefines(acc, features) ==>
      d in acc || (d.value == Some("1") && d.name in CodecNames)
  {
  }

  lemma AppendIfOne<T>(acc: seq<T>, cond: bool, y: T, x: T)
    ensures x in AppendIf(acc, cond, [y]) <==> x in acc || (cond && x == y)
  {
  }

  /** Each codec's define is added exactly when its feature is on. */
  lemma CompressionDefinesCodec(acc: seq<Define>, features: set<string>, k: int)
    requires 0 <= k < |CodecDefines|
    ensures DefVal(CodecDefines[k].1, "1") in CompressionDefines(acc, features) <==>
      DefVal(CodecDefines[k].1, "1") in acc || CodecDefines[k].0 in features
  {
    var x := DefVal(CodecDefines[k].1, "1");
    var d1 := AppendIf(acc, "snappy" in features, [DefVal("SNAPPY", "1")]);
    var d2 := AppendIf(d1, "lz4" in features, [DefVal("LZ4", "1")]);
    var d3 := AppendIf(d2, "zstd" in features, [DefVal("ZSTD", "1")]);
    var d4 := AppendIf(d3, "zlib" in features, [DefVal("ZLIB", "1")]);
    var d5 := AppendIf(d4, "bzip2" in features, [DefVal("BZIP2", "1")]);
    AppendIfOne(acc, "snappy" in features, DefVal("SNAPPY", "1"), x);
    AppendIfOne(d1, "lz4" in features, DefVal("LZ4", "1"), x);
    AppendIfOne(d2, "zstd" in features, DefVal("ZSTD", "1"), x);
    AppendIfOne(d3, "zlib" in features, DefVal("ZLIB", "1"), x);
    AppendIfOne(d4, "bzip2" in features, DefVal("BZIP2", "1"), x);
    AppendIfOne(d5, "rtti" in features, DefVal("USE_RTTI", "1"), x);
    if k == 0 {
      assert CodecDefines[k] == ("snappy", "SNAPPY");
    } else if k == 1 {
      assert CodecDefines[k] == ("lz4", "LZ4");
    } else if k == 2 {
      assert CodecDefines[k] == ("zstd", "ZSTD");
    } else if k == 3 {
      assert CodecDefines[k] == ("zlib", "ZLIB");
    } else if k == 4 {
      assert CodecDefines[k] == ("bzip2", "BZIP2");
    } else {
      assert CodecDefines[k] == ("rtti", "USE_RTTI");
    }
  }

  /** The jemalloc step adds its two defines exactly when jemalloc is used. */
  lemma JemallocDefinesAdds(acc: seq<Define>, target: string, features: set<string>)
    ensures forall d :: d in JemallocDefines(acc, target, features) <==>
      d in acc ||
      (UsesJemalloc(target, features) && d in {DefVal("ROCKSDB_JEMALLOC", "1"), DefVal("JEMALLOC_NO_DEMANGLE", "1")})
  {
  }

  /** The io-uring and large-file steps add their defines exactly when their
      conditions hold. */
  lemma LateDefinesAdds(acc: seq<Define>, inp: Inputs, target: string)
    ensures var width := Var(inp.env, "CARGO_CFG_TARGET_POINTER_WIDTH");
      forall d :: d in LargeFileDefines(IoUringDefines(acc, target, inp.features), target, width) <==>
        d in acc ||
        ("io-uring" in inp.features && Contains(target, "linux") && d == DefVal("ROCKSDB_IOURING_PRESENT", "1")) ||
        (target != Armv7Android && width.Some? && width.value != "64" &&
         d in {DefVal("_FILE_OFFSET_BITS", "64"), DefVal("_LARGEFILE64_SOURCE", "1")})
  {
  }

  /** The defines carry the marker of the first family the target names,
      as a bare define, and no other marker: a target naming both `linux`
      and `android` is built as Android only, and a target naming no family
      gets no marker. */
  lemma OneOsMarker(inp: Inputs, target: string)
    ensures forall d :: d in RocksdbDefines(inp, target) && IsOsMarker(d.name) ==>
      d.value.None? && MarkerOf(Classify(target)) == Some(d.name)
    ensures MarkerOf(Classify(target)).Some? ==>
      Def(MarkerOf(Classify(target)).value) in RocksdbDefines(inp, target)
  {
    PlatformDefinesMarker(inp, target);
    LateDefinesAdds(PlatformDefines(inp, target), inp, target);
    assert !IsOsMarker("ROCKSDB_IOURING_PRESENT") && !IsOsMarker("_LARGEFILE64_SOURCE");
    assert !IsOsMarker("_FILE_OFFSET_BITS");
  }

  /** The same, for the defines up to the jemalloc step. */
  lemma PlatformDefinesMarker(inp: Inputs, target: string)
    ensures forall d :: d in PlatformDefines(inp, target) && IsOsMarker(d.name) ==>
      d.value.None? && MarkerOf(Classify(target)) == Some(d.name)
    ensures MarkerOf(Classify(target)).Some? ==>
      Def(MarkerOf(Classify(target)).value) in PlatformDefines(inp, target)
  {
    var d1 := CompressionDefines([], inp.features) + [DefVal("NDEBUG", "1")];
    EarlyDefinesHaveNoMarker(inp.features);
    BranchDefinesShape(d1, Classify(target), target);
    var d2 := OsDefines(d1, target) + [Def("ROCKSDB_SUPPORT_THREAD_LOCAL")];
    JemallocDefinesAdds(d2, target, inp.features);
    assert !IsOsMarker("ROCKSDB_SUPPORT_THREAD_LOCAL");
    assert !IsOsMarker("PLATFORM") && !IsOsMarker("_FILE_OFFSET_BITS");
    assert !IsOsMarker("_POSIX_C_SOURCE") && !IsOsMarker("_WIN32_WINNT");
    assert !IsOsMarker("ROCKSDB_JEMALLOC") && !IsOsMarker("JEMALLOC_NO_DEMANGLE");
  }

  /** The codec and `NDEBUG` defines hold no marker. */
  lemma EarlyDefinesHaveNoMarker(features: set<string>)
    ensures forall d :: d in CompressionDefines([], features) + [DefVal("NDEBUG", "1")] ==> !IsOsMarker(d.name)
  {
    CompressionDefinesAdds([], features);
    assert forall n :: n in CodecNames ==> !IsOsMarker(n);
    assert !IsOsMarker("NDEBUG");
  }

  /** The defines before the branch, and every define the steps after it add,
      carry a value; so a define without one (other than
      `ROCKSDB_SUPPORT_THREAD_LOCAL`) is in the final list exactly when the
      branch adds it. */
  lemma BareDefineFromBranch(inp: Inputs, target: string, d: Define)
    requires d.value.None? && d != Def("ROCKSDB_SUPPORT_THREAD_LOCAL")
    ensures var d1 := CompressionDefines([], inp.features) + [DefVal("NDEBUG", "1")];
      d !in d1 && (d in RocksdbDefines(inp, target) <==> d in BranchDefines(d1, Classify(target), target))
  {
    var d1 := CompressionDefines([], inp.features) + [DefVal("NDEBUG", "1")];
    CompressionDefinesAdds([], inp.features);
    var d2 := OsDefines(d1, target) + [Def("ROCKSDB_SUPPORT_THREAD_LOCAL")];
    JemallocDefinesAdds(d2, target, inp.features);
    LateDefinesAdds(PlatformDefines(inp, target), inp, target);
  }

  /** `ROCKSDB_SCHED_GETCPU_PRESENT` is defined exactly on Linux targets. */
  lemma SchedGetcpuOnLinux(inp: Inputs, target: string)
    ensures Def("ROCKSDB_SCHED_GETCPU_PRESENT") in RocksdbDefines(inp, target) <==> Classify(target) == Linux
  {
    var d1 := CompressionDefines([], inp.features) + [DefVal("NDEBUG", "1")];
    BareDefineFromBranch(inp, target, Def("ROCKSDB_SCHED_GETCPU_PRESENT"));
    BranchDefinesSched(d1, Classify(target), target);
  }

  /** `ROCKSDB_PLATFORM_POSIX` and `ROCKSDB_LIB_IO_POSIX` are defined exactly
      for the targets of a POSIX branch: every recognised family but Windows. */
  lemma PosixPortDefines(inp: Inputs, target: string, d: Define)
    requires d in {Def("ROCKSDB_PLATFORM_POSIX"), Def("ROCKSDB_LIB_IO_POSIX")}
    ensures d in RocksdbDefines(inp, target) <==> Classify(target) !in {Windows, Unknown}
  {
    var d1 := CompressionDefines([], inp.features) + [DefVal("NDEBUG", "1")];
    BareDefineFromBranch(inp, target, d);
    BranchDefinesPosix(d1, Classify(target), target, d);
  }

  /** `DWIN32`, `_MBCS`, `WIN64`, `NOMINMAX` and
      `ROCKSDB_WINDOWS_UTF8_FILENAMES` are defined exactly for Windows targets. */
  lemma WindowsBareDefines(inp: Inputs, target: string, d: Define)
    requires d in WindowsBare
    ensures d in RocksdbDefines(inp, target) <==> Classify(target) == Windows
  {
    WindowsBareIsNotPosix(d);
    var d1 := CompressionDefines([], inp.features) + [DefVal("NDEBUG", "1")];
    BareDefineFromBranch(inp, target, d);
    BranchDefinesWindows(d1, Classify(target), target, d);
  }

  /** A define that carries a value and that no branch, codec or the
      `NDEBUG` step adds is in the final list exactly when the jemalloc or
      late steps add it. */
  lemma LateValuedDefine(inp: Inputs, target: string, d: Define)
    requires d.value.Some? && d !in BranchValued && d.name !in CodecNames && d.name != "NDEBUG"
    ensures d in RocksdbDefines(inp, target) <==>
      (UsesJemalloc(target, inp.features) && d in {DefVal("ROCKSDB_JEMALLOC", "1"), DefVal("JEMALLOC_NO_DEMANGLE", "1")}) ||
      ("io-uring" in inp.features && Contains(target, "linux") && d == DefVal("ROCKSDB_IOURING_PRESENT", "1")) ||
      (var width := Var(inp.env, "CARGO_CFG_TARGET_POINTER_WIDTH");
       target != Armv7Android && width.Some? && width.value != "64" &&
       d in {DefVal("_FILE_OFFSET_BITS", "64"), DefVal("_LARGEFILE64_SOURCE", "1")})
  {
    var d1 := CompressionDefines([], inp.features) + [DefVal("NDEBUG", "1")];
    CompressionDefinesAdds([], inp.features);
    BranchDefinesShape(d1, Classify(target), target);
    var d2 := OsDefines(d1, target) + [Def("ROCKSDB_SUPPORT_THREAD_LOCAL")];
    assert d !in d2;
    JemallocDefinesAdds(d2, target, inp.features);
    LateDefinesAdds(PlatformDefines(inp, target), inp, target);
  }

  /** jemalloc is configured exactly when the feature is on and the target
      names none of `android`, `dragonfly`, `musl` and `darwin`. */
  lemma JemallocGate(inp: Inputs, target: string)
    ensures var uses := "jemalloc" in inp.features && !Contains(target, "android") &&
                        !Contains(target, "dragonfly") && !Contains(target, "musl") && !Contains(target, "darwin");
      && (DefVal("ROCKSDB_JEMALLOC", "1") in RocksdbDefines(inp, target) <==> uses)
      && (DefVal("JEMALLOC_NO_DEMANGLE", "1") in RocksdbDefines(inp, target) <==> uses)
  {
    LateValuedDefine(inp, target, DefVal("ROCKSDB_JEMALLOC", "1"));
    LateValuedDefine(inp, target, DefVal("JEMALLOC_NO_DEMANGLE", "1"));
    var t := NoJemallocTargets;
    assert t[0] == "android" && t[1] == "dragonfly" && t[2] == "musl" && t[3] == "darwin";
  }

  /** The 64-bit file-offset defines appear exactly when the pointer width
      is known and not 64, on every target but the 32-bit ARM Android one. */
  lemma LargeFileGate(inp: Inputs, target: string)
    ensures var width := Var(inp.env, "CARGO_CFG_TARGET_POINTER_WIDTH");
      var large := target != Armv7Android && width.Some? && width.value != "64";
      && (DefVal("_FILE_OFFSET_BITS", "64") in RocksdbDefines(inp, target) <==> large)
      && (DefVal("_LARGEFILE64_SOURCE", "1") in RocksdbDefines(inp, target) <==> large)
  {
    LateValuedDefine(inp, target, DefVal("_FILE_OFFSET_BITS", "64"));
    LateValuedDefine(inp, target, DefVal("_LARGEFILE64_SOURCE", "1"));
  }

  /** `ROCKSDB_IOURING_PRESENT` appears exactly for the feature on Linux. */
  lemma IoUringGate(inp: Inputs, target: string)
    ensures DefVal("ROCKSDB_IOURING_PRESENT", "1") in RocksdbDefines(inp, target) <==>
      "io-uring" in inp.features && Contains(target, "linux")
  {
    LateValuedDefine(inp, target, DefVal("ROCKSDB_IOURING_PRESENT", "1"));
  }

  /** `armv7-linux-androideabi` falls in the Android branch. */
  lemma Armv7IsAndroid()
    ensures Classify(Armv7Android) == Android
  {
    NotContainsChar(Armv7Android, "apple-ios", 'p');
    NotContainsChar(Armv7Android, "darwin", 'w');
    assert OccursAt(Armv7Android, "android", 12);
  }

  /** `_FILE_OFFSET_BITS=32` is defined for the 32-bit ARM Android target
      and no other. */
  lemma Offset32OnlyArmv7(inp: Inputs, target: string)
    ensures DefVal("_FILE_OFFSET_BITS", "32") in RocksdbDefines(inp, target) <==> target == Armv7Android
  {
    var d1 := CompressionDefines([], inp.features) + [DefVal("NDEBUG", "1")];
    CompressionDefinesAdds([], inp.features);
    BranchDefinesOffset32(d1, Classify(target), target);
    var d2 := OsDefines(d1, target) + [Def("ROCKSDB_SUPPORT_THREAD_LOCAL")];
    JemallocDefinesAdds(d2, target, inp.features);
    LateDefinesAdds(PlatformDefines(inp, target), inp, target);
    Armv7IsAndroid();
  }

  /** A define that carries a value and that neither a branch nor a later
      step adds is in the final list exactly when the codec or `NDEBUG`
      steps put it there. */
  lemma EarlyValuedDefine(inp: Inputs, target: string, d: Define)
    requires d.value.Some? && d !in BranchValued
    requires d !in {DefVal("ROCKSDB_JEMALLOC", "1"), DefVal("JEMALLOC_NO_DEMANGLE", "1"),
                    DefVal("ROCKSDB_IOURING_PRESENT", "1"), DefVal("_FILE_OFFSET_BITS", "64"),
                    DefVal("_LARGEFILE64_SOURCE", "1")}
    ensures d in RocksdbDefines(inp, target) <==>
      d in CompressionDefines([], inp.features) + [DefVal("NDEBUG", "1")]
  {
    var d1 := CompressionDefines([], inp.features) + [DefVal("NDEBUG", "1")];
    BranchDefinesShape(d1, Classify(target), target);
    var d2 := OsDefines(d1, target) + [Def("ROCKSDB_SUPPORT_THREAD_LOCAL")];
    JemallocDefinesAdds(d2, target, inp.features);
    LateDefinesAdds(PlatformDefines(inp, target), inp, target);
  }

  /** Each codec's `NAME=1` is defined exactly when its feature is on. */
  lemma CodecDefined(inp: Inputs, target: string, k: int)
    requires 0 <= k < |CodecDefines|
    ensures DefVal(CodecDefines[k].1, "1") in RocksdbDefines(inp, target) <==> CodecDefines[k].0 in inp.features
  {
    var d := DefVal(CodecDefines[k].1, "1");
    assert CodecDefines[k].1 in CodecNames;
    EarlyValuedDefine(inp, target, d);
    CompressionDefinesCodec([], inp.features, k);
  }

  // ---------------------------------------------------------------------
  // x86_64 instruction-set flags

  /** Whether a table entry's flag is requested: its token is one of the
      comma-separated entries, and PCLMUL is never requested on Android. */
  predicate Selected(entry: (string, string), tokens: seq<string>, android: bool)
  {
    entry.0 in tokens && !(android && entry.0 == "pclmulqdq")
  }

  /** The flags of `table`'s selected entries, appended to `acc` in table
      order. */
  function SimdFlagsFrom(acc: seq<Flag>, table: seq<(string, string)>, tokens: seq<string>, android: bool): seq<Flag>
    decreases |table|
  {
    if |table| == 0 then acc
    else SimdFlagsFrom(AppendIf(acc, Selected(table[0], tokens, android), [IfSupported(table[0].1)]),
                       table[1..], tokens, android)
  }

  lemma SimdFlagsStep(acc: seq<Flag>, table: seq<(string, string)>, tokens: seq<string>, android: bool, k: nat)
    requires k < |table|
    ensures SimdFlagsFrom(acc, table[k..], tokens, android) ==
      SimdFlagsFrom(AppendIf(acc, Selected(table[k], tokens, android), [IfSupported(table[k].1)]),
                    table[k + 1..], tokens, android)
  {
    assert table[k..][0] == table[k] && table[k..][1..] == table[k + 1..];
  }

  /** The build script's seven `if` blocks are the table walked in order. */
  lemma TargetFeatureFlagsFollowTable(acc: seq<Flag>, target: string, targetFeature: Option<string>)
    ensures TargetFeatureFlags(acc, target, targetFeature) ==
      if Contains(target, "x86_64") && targetFeature.Some? then
        SimdFlagsFrom(acc, SimdTable, Split(targetFeature.value, ','), Contains(target, "android"))
      else acc
  {
    if Contains(target, "x86_64") && targetFeature.Some? {
      var t, fs, android := SimdTable, Split(targetFeature.value, ','), Contains(target, "android");
      assert t[0..] == t;
      var a1 := AppendIf(acc, "sse2" in fs, [IfSupported("-msse2")]);
      SimdFlagsStep(acc, t, fs, android, 0);
      var a2 := AppendIf(a1, "sse4.1" in fs, [IfSupported("-msse4.1")]);
      SimdFlagsStep(a1, t, fs, android, 1);
      var a3 := AppendIf(a2, "sse4.2" in fs, [IfSupported("-msse4.2")]);
      SimdFlagsStep(a2, t, fs, android, 2);
      var a4 := AppendIf(a3, "avx2" in fs, [IfSupported("-mavx2")]);
      SimdFlagsStep(a3, t, fs, android, 3);
      var a5 := AppendIf(a4, "bmi1" in fs, [IfSupported("-mbmi")]);
      SimdFlagsStep(a4, t, fs, android, 4);
      var a6 := AppendIf(a5, "lzcnt" in fs, [IfSupported("-mlzcnt")]);
      SimdFlagsStep(a5, t, fs, android, 5);
      SimdFlagsStep(a6, t, fs, android, 6);
      assert t[7..] == [];
    }
  }

  /** Walking the table keeps `acc` in front and adds exactly the flags of
      the selected entries. */
  lemma {:induction false} SimdFlagsFromMembers(acc: seq<Flag>, table: seq<(string, string)>, tokens: seq<string>,
                                                android: bool, f: Flag)
    ensures |SimdFlagsFrom(acc, table, tokens, android)| >= |acc|
    ensures SimdFlagsFrom(acc, table, tokens, android)[..|acc|] == acc
    ensures f in SimdFlagsFrom(acc, table, tokens, android) <==>
      f in acc || exists k :: 0 <= k < |table| && Selected(table[k], tokens, android) && f == IfSupported(table[k].1)
    decreases |table|
  {
    if |table| > 0 {
      var next := AppendIf(acc, Selected(table[0], tokens, android), [IfSupported(table[0].1)]);
      SimdFlagsFromMembers(next, table[1..], tokens, android, f);
      var r := SimdFlagsFrom(acc, table, tokens, android);
      assert r[..|acc|] == next[..|acc|];
      if f in r && f !in acc {
        if f in next {
          assert Selected(table[0], tokens, android) && f == IfSupported(table[0].1);
        } else {
          var k :| 0 <= k < |table[1..]| && Selected(table[1..][k], tokens, android) && f == IfSupported(table[1..][k].1);
          assert table[1..][k] == table[k + 1];
        }
      }
      if exists k :: 0 <= k < |table| && Selected(table[k], tokens, android) && f == IfSupported(table[k].1) {
        var k :| 0 <= k < |table| && Selected(table[k], tokens, android) && f == IfSupported(table[k].1);
        if k > 0 {
          assert table[1..][k - 1] == table[k];
        }
      }
    }
  }

  /** The warnings the build script passes to every compiler but MSVC. */
  const GccWarnings: seq<string> := [
    "-Wsign-compare", "-Wshadow", "-Wno-unused-parameter", "-Wno-unused-variable",
    "-Woverloaded-virtual", "-Wnon-virtual-dtor", "-Wno-missing-field-initializers",
    "-Wno-strict-aliasing", "-Wno-invalid-offsetof"]

  /** `config.flag(a)` for each `a`, in order. */
  function Unconditional(args: seq<string>): (r: seq<Flag>)
    ensures |r| == |args|
    ensures forall i :: 0 <= i < |args| ==> r[i] == Always(args[i])
  {
    seq(|args|, i requires 0 <= i < |args| => Always(args[i]))
  }

  /** After the platform flags come the toolchain's language and warning
      flags (MSVC: exception model and C++20; otherwise the C++ standard and
      the nine warnings), then the probed `-std=c++20`, then, off Windows,
      the forced `<cstdint>` include. */
  lemma RocksdbFlagsShape(inp: Inputs, target: string)
    ensures RocksdbFlags(inp, target) ==
      PlatformFlags(inp, target)
      + (if Contains(target, "msvc") then Unconditional(["-EHsc", "-std:c++20"])
         else Unconditional([CxxStandard] + GccWarnings))
      + [IfSupported("-std=c++20")]
      + (if !Contains(target, "windows") then Unconditional(["-include", "cstdint"]) else [])
  {
    var p := PlatformFlags(inp, target);
    if Contains(target, "msvc") {
      assert ToolchainFlags(p, target) == p + Unconditional(["-EHsc", "-std:c++20"]);
    } else {
      var u := Unconditional([CxxStandard] + GccWarnings);
      assert ToolchainFlags(p, target) == p + u;
    }
  }

  /** The only flag probed after the platform flags is `-std=c++20`. */
  lemma ProbedFlagsArePlatformOrStd(inp: Inputs, target: string, a: string)
    ensures IfSupported(a) in RocksdbFlags(inp, target) <==>
      IfSupported(a) in PlatformFlags(inp, target) || a == "-std=c++20"
  {
    RocksdbFlagsShape(inp, target);
  }

  /** Entry `k`'s flag comes out of the walk exactly when it was already in
      `acc` or the entry is selected, provided no two entries share a flag. */
  lemma SimdEntryMember(acc: seq<Flag>, table: seq<(string, string)>, tokens: seq<string>, android: bool, k: int)
    requires 0 <= k < |table|
    requires forall i, j :: 0 <= i < j < |table| ==> table[i].1 != table[j].1
    ensures IfSupported(table[k].1) in SimdFlagsFrom(acc, table, tokens, android) <==>
      IfSupported(table[k].1) in acc || Selected(table[k], tokens, android)
  {
    SimdFlagsFromMembers(acc, table, tokens, android, IfSupported(table[k].1));
  }

  lemma SimdTableFlagsDistinct()
    ensures forall i, j :: 0 <= i < j < |SimdTable| ==> SimdTable[i].1 != SimdTable[j].1
  {
    assert SimdTable[1].1[7] != SimdTable[2].1[7];
  }

  /** Each instruction-set flag is requested by the platform flags exactly
      when the target is x86_64, `CARGO_CFG_TARGET_FEATURE` is set, its
      token is one of the comma-separated entries, and, for PCLMUL, the
      target is not Android. */
  lemma PlatformSimdFlag(inp: Inputs, target: string, k: int)
    requires 0 <= k < |SimdTable|
    ensures var tf := Var(inp.env, "CARGO_CFG_TARGET_FEATURE");
      IfSupported(SimdTable[k].1) in PlatformFlags(inp, target) <==>
        Contains(target, "x86_64") && tf.Some? && SimdTable[k].0 in Split(tf.value, ',') &&
        (SimdTable[k].0 == "pclmulqdq" ==> !Contains(target, "android"))
  {
    var f1 := AppendIf([SysrootFlag], "lto" in inp.features, [Always("-flto")]);
    assert IfSupported(SimdTable[k].1) !in f1;
    TargetFeatureSimdFlag(f1, target, Var(inp.env, "CARGO_CFG_TARGET_FEATURE"), k);
  }

  /** The instruction-set step adds entry `k`'s flag exactly under its
      condition. */
  lemma TargetFeatureSimdFlag(acc: seq<Flag>, target: string, tf: Option<string>, k: int)
    requires 0 <= k < |SimdTable|
    requires IfSupported(SimdTable[k].1) !in acc
    ensures IfSupported(SimdTable[k].1) in TargetFeatureFlags(acc, target, tf) <==>
      Contains(target, "x86_64") && tf.Some? && SimdTable[k].0 in Split(tf.value, ',') &&
      (SimdTable[k].0 == "pclmulqdq" ==> !Contains(target, "android"))
  {
    TargetFeatureFlagsFollowTable(acc, target, tf);
    if Contains(target, "x86_64") && tf.Some? {
      SimdTableFlagsDistinct();
      SimdEntryMember(acc, SimdTable, Split(tf.value, ','), Contains(target, "android"), k);
    }
  }

  /** Each instruction-set flag is requested exactly when the target is
      x86_64, `CARGO_CFG_TARGET_FEATURE` is set, its token is one of the
      comma-separated entries, and, for PCLMUL, the target is not Android.
      An unset variable requests none of them and is not an error. */
  lemma SimdFlag(inp: Inputs, target: string, k: int)
    requires 0 <= k < |SimdTable|
    ensures var tf := Var(inp.env, "CARGO_CFG_TARGET_FEATURE");
      IfSupported(SimdTable[k].1) in RocksdbFlags(inp, target) <==>
        Contains(target, "x86_64") && tf.Some? && SimdTable[k].0 in Split(tf.value, ',') &&
        (SimdTable[k].0 == "pclmulqdq" ==> !Contains(target, "android"))
  {
    PlatformSimdFlag(inp, target, k);
    ProbedFlagsArePlatformOrStd(inp, target, SimdTable[k].1);
  }

  // ---------------------------------------------------------------------
  // Compilation units

  /** Every file compiled is a `rocksdb/`-prefixed entry of the source list
      as the build script rewrites it, and then the crate's own
      `build_version.cc`, last; the submodule's version file is never
      compiled. */
  lemma RocksdbFilesShape(inp: Inputs, target: string, x: string)
    ensures var files := RocksdbFiles(inp, target);
      && |files| >= 1 && files[|files| - 1] == LocalBuildVersion
      && "rocksdb/" + BuildVersion !in files
      && ("rocksdb/" + x in files <==>
            x in RocksdbSources(ParseSourceList(inp.sourceList), target, "jemalloc" in inp.features))
  {
    var master, jemalloc := ParseSourceList(inp.sourceList), "jemalloc" in inp.features;
    var lib := RocksdbSources(master, target, jemalloc);
    var files := RocksdbFiles(inp, target);
    if Classify(target) == Windows {
      WindowsSourceSet(master, target, jemalloc);
    } else {
      NonWindowsSources(master, target, jemalloc);
    }
    assert ("rocksdb/" + x)[0] != LocalBuildVersion[0];
    assert ("rocksdb/" + BuildVersion)[0] != LocalBuildVersion[0];
    forall y | "rocksdb/" + y in Prefixed(lib) ensures y in lib {
      var i :| 0 <= i < |lib| && Prefixed(lib)[i] == "rocksdb/" + y;
      assert ("rocksdb/" + y)[8..] == y && ("rocksdb/" + lib[i])[8..] == lib[i];
    }
    if x in lib {
      var i :| 0 <= i < |lib| && lib[i] == x;
      assert files[i] == "rocksdb/" + x;
    }
  }

  // ---------------------------------------------------------------------
  // Printed directives

  /** `build_rocksdb` prints its banner, then, on a Windows target whose
      third triple segment is `windows`, the two system libraries, then, on
      64-bit RISC-V, `libatomic`; nothing else. */
  lemma RocksdbDirectivesShape(inp: Inputs)
    requires "TARGET" in inp.env
    ensures var target := inp.env["TARGET"];
      RocksdbDirectives(inp) ==
        [Warning("Executing build_rocksdb function.")]
        + (if Classify(target) == Windows && Get(Split(target, '-'), 2) == Some("windows")
           then [LinkLib(Some(Dylib), "rpcrt4"), LinkLib(Some(Dylib), "shlwapi")] else [])
        + (if Contains(target, "riscv64gc") then [LinkLib(None, "atomic")] else [])
  {
    var target := inp.env["TARGET"];
    var a, b := Link("rpcrt4", false, inp.env), Link("shlwapi", false, inp.env);
    if Get(Split(target, '-'), 2) == Some("windows") {
      assert a.value == [LinkLib(Some(Dylib), "rpcrt4")];
      assert b.value == [LinkLib(Some(Dylib), "shlwapi")];
    }
  }

  // ---------------------------------------------------------------------
  // Checks that stop the build

  /** `armv7-linux-androideabi` is the one target that builds without
      `CARGO_CFG_TARGET_POINTER_WIDTH`: only the LTO and io-uring checks can
      stop it, and the io-uring check applies since the triple names Linux. */
  lemma Armv7NeedsNoPointerWidth(inp: Inputs)
    requires Var(inp.env, "TARGET") == Some(Armv7Android)
    ensures RocksdbBuild(inp).Ok? <==>
      !("lto" in inp.features && !inp.isClang) && !("io-uring" in inp.features && !inp.liburingFound)
  {
    assert OccursAt(Armv7Android, "linux", 6);
  }

  /** Every other target needs the pointer width once the LTO and io-uring
      checks pass. */
  lemma OtherTargetsNeedPointerWidth(inp: Inputs)
    requires "TARGET" in inp.env && inp.env["TARGET"] != Armv7Android
    requires "CARGO_CFG_TARGET_POINTER_WIDTH" !in inp.env
    ensures RocksdbBuild(inp).Panic?
  {
  }

  /** `build_rocksdb` succeeds exactly when `TARGET` is set and none of its
      three checks fails; when several fail, the first in source order (LTO,
      then io-uring, then the pointer width) names the panic. A success
      compiles C++ into `librocksdb.a`. */
  lemma RocksdbBuildSucceeds(inp: Inputs)
    ensures var r, target := RocksdbBuild(inp), Var(inp.env, "TARGET");
      && (r.Ok? <==>
            target.Some? &&
            !("lto" in inp.features && !inp.isClang) &&
            !("io-uring" in inp.features && Contains(target.value, "linux") && !inp.liburingFound) &&
            (target.value == Armv7Android || "CARGO_CFG_TARGET_POINTER_WIDTH" in inp.env))
      && (target.None? ==> r == Panic("TARGET is not set"))
      && (target.Some? && "lto" in inp.features && !inp.isClang ==> r == Panic(LtoMessage))
      && (target.Some? && !("lto" in inp.features && !inp.isClang) &&
          "io-uring" in inp.features && Contains(target.value, "linux") && !inp.liburingFound ==>
            r == Panic(IoUringMessage))
      && (r.Ok? ==> r.value.plan.cpp && r.value.plan.archive == Some("librocksdb.a"))
  {
  }

  /** The lines a successful `build_rocksdb` prints. */
  lemma RocksdbBuildPrints(inp: Inputs)
    ensures RocksdbBuild(inp).Ok? ==>
      "TARGET" in inp.env && RocksdbBuild(inp).value.out == RocksdbDirectives(inp)
  {
  }

  /** The only libraries a bundled build links are the Windows system
      libraries and `libatomic`. */
  lemma BundledBuildLinks(inp: Inputs)
    requires "TARGET" in inp.env
    ensures forall d :: d in RocksdbDirectives(inp) && d.LinkLib? ==> d.name in {"rpcrt4", "shlwapi", "atomic"}
  {
    RocksdbDirectivesShape(inp);
  }
}
