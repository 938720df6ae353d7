/** `build_rocksdb`: the configuration handed to the C++ compiler when the
    bundled RocksDB sources are built. The functions below say what each part
    of the configuration is; `BuildRocksdb` builds it step by step on a `Build`
    object, as the build script does, and is proved to produce exactly that. */
module Rocksdb {
  import opened Wrappers
  import opened Text
  import opened Cargo
  import opened CcBuild
  import opened Target
  import opened Linking
  import opened Sources

  /** What `build_rocksdb` reads besides the environment. The compiler probe
      (`is_like_clang`) and the `pkg-config` probe for liburing are outside
      the model and enter as their answers. */
  datatype Inputs = Inputs(
    env: Env,
    features: set<string>,
    sourceList: string,    // the text of rocksdb_lib_sources.txt
    isClang: bool,
    liburingFound: bool)

  datatype Output = Output(plan: BuildPlan, out: seq<Directive>)

  const NixGlibcDev := "/nix/store/gf3wh0x0rzb1dkx0wx1jvmipydwfzzd5-glibc-2.40-66-dev"
  const NixGccPath := "/nix/store/82kmz7r96navanrc2fgckh2bamiqrgsw-gcc-14.3.0"
  const GccCxxInclude := NixGccPath + "/include/c++/14.3.0/"

  /** `cxx_standard()`. */
  const CxxStandard := "-std=c++20"

  /** The one target whose large-file setting is fixed by its own branch. */
  const Armv7Android := "armv7-linux-androideabi"

  const LtoMessage := "LTO is only supported with clang. Either disable the `lto` feature or set `CC=/usr/bin/clang CXX=/usr/bin/clang++` environment variables."
  const IoUringMessage := "The io-uring feature was requested but the library is not available"

  /** Each x86_64 target-feature token and the flag it asks for. */
  const SimdTable: seq<(string, string)> := [
    ("sse2", "-msse2"), ("sse4.1", "-msse4.1"), ("sse4.2", "-msse4.2"), ("avx2", "-mavx2"),
    ("bmi1", "-mbmi"), ("lzcnt", "-mlzcnt"), ("pclmulqdq", "-mpclmul")]

  function Def(name: string): Define { Define(name, None) }
  function DefVal(name: string, value: string): Define { Define(name, Some(value)) }

  /** `include(path)` when the environment variable is set. */
  function IncludeFromEnv(env: Env, name: string): seq<string>
  {
    match Var(env, name)
    case Some(path) => [path]
    case None => []
  }

  /** `Path::new(root).join("include")`. */
  function JoinInclude(root: string): string
  {
    if root == "" then "include"
    else if root[|root| - 1] == '/' then root + "include"
    else root + "/include"
  }

  // ---------------------------------------------------------------------
  // The configuration, step by step. Each function takes what the earlier
  // steps have put in one of the `Build`'s sequences and returns it with this
  // step's entries appended, in the order the build script appends them.

  function BaseIncludes(): seq<string>
  {
    ["rocksdb/include/", "rocksdb/", NixGlibcDev + "/include", GccCxxInclude,
     "rocksdb/third-party/gtest-1.8.1/fused-src/"]
  }

  const SysrootFlag := Always("--sysroot=" + NixGlibcDev)

  /** The include directories of the compression codecs. */
  function CompressionIncludes(acc: seq<string>, features: set<string>, env: Env): seq<string>
  {
    var i1 := AppendIf(acc, "snappy" in features, ["snappy/"]);
    var i2 := AppendIf(i1, "lz4" in features, IncludeFromEnv(env, "DEP_LZ4_INCLUDE"));
    var i3 := AppendIf(i2, "zstd" in features, IncludeFromEnv(env, "DEP_ZSTD_INCLUDE"));
    var i4 := AppendIf(i3, "zlib" in features, IncludeFromEnv(env, "DEP_Z_INCLUDE"));
    AppendIf(i4, "bzip2" in features, IncludeFromEnv(env, "DEP_BZIP2_INCLUDE"))
  }

  /** One `NAME=1` define per enabled codec, and `USE_RTTI=1`. */
  function CompressionDefines(acc: seq<Define>, features: set<string>): seq<Define>
  {
    var d1 := AppendIf(acc, "snappy" in features, [DefVal("SNAPPY", "1")]);
    var d2 := AppendIf(d1, "lz4" in features, [DefVal("LZ4", "1")]);
    var d3 := AppendIf(d2, "zstd" in features, [DefVal("ZSTD", "1")]);
    var d4 := AppendIf(d3, "zlib" in features, [DefVal("ZLIB", "1")]);
    var d5 := AppendIf(d4, "bzip2" in features, [DefVal("BZIP2", "1")]);
    AppendIf(d5, "rtti" in features, [DefVal("USE_RTTI", "1")])
  }

  /** The x86_64 instruction-set flags, each requested through
      `flag_if_supported` when its token is one of the comma-separated
      entries of `CARGO_CFG_TARGET_FEATURE`. */
  function TargetFeatureFlags(acc: seq<Flag>, target: string, targetFeature: Option<string>): seq<Flag>
  {
    if Contains(target, "x86_64") && targetFeature.Some? then
      var fs := Split(targetFeature.value, ',');
      var f1 := AppendIf(acc, "sse2" in fs, [IfSupported("-msse2")]);
      var f2 := AppendIf(f1, "sse4.1" in fs, [IfSupported("-msse4.1")]);
      var f3 := AppendIf(f2, "sse4.2" in fs, [IfSupported("-msse4.2")]);
      var f4 := AppendIf(f3, "avx2" in fs, [IfSupported("-mavx2")]);
      var f5 := AppendIf(f4, "bmi1" in fs, [IfSupported("-mbmi")]);
      var f6 := AppendIf(f5, "lzcnt" in fs, [IfSupported("-mlzcnt")]);
      AppendIf(f6, !Contains(target, "android") && "pclmulqdq" in fs, [IfSupported("-mpclmul")])
    else acc
  }

  /** A POSIX platform's marker define, then the two POSIX port defines. */
  function PosixDefines(acc: seq<Define>, marker: string): seq<Define>
  {
    acc + [Def(marker)] + [Def("ROCKSDB_PLATFORM_POSIX")] + [Def("ROCKSDB_LIB_IO_POSIX")]
  }

  function IosDefines(acc: seq<Define>): seq<Define>
  {
    acc + [Def("OS_MACOSX")] + [Def("IOS_CROSS_COMPILE")] + [DefVal("PLATFORM", "IOS")]
    + [Def("NIOSTATS_CONTEXT")] + [Def("NPERF_CONTEXT")]
    + [Def("ROCKSDB_PLATFORM_POSIX")] + [Def("ROCKSDB_LIB_IO_POSIX")]
  }

  /** The Windows defines; MinGW on x86_64 also gets the `localtime_r`
      wrapper and the Vista headers. */
  function WindowsDefines(acc: seq<Define>, target: string): seq<Define>
  {
    var w := acc + [Def("DWIN32")] + [Def("OS_WIN")] + [Def("_MBCS")] + [Def("WIN64")]
             + [Def("NOMINMAX")] + [Def("ROCKSDB_WINDOWS_UTF8_FILENAMES")];
    if target == "x86_64-pc-windows-gnu" then
      w + [DefVal("_POSIX_C_SOURCE", "1")] + [DefVal("_WIN32_WINNT", "_WIN32_WINNT_VISTA")]
    else w
  }

  /** The defines of one operating-system branch. */
  function BranchDefines(acc: seq<Define>, family: OsFamily, target: string): seq<Define>
  {
    match family
    case Ios => IosDefines(acc)
    case MacOs => PosixDefines(acc, "OS_MACOSX")
    case Android =>
      AppendIf(PosixDefines(acc, "OS_ANDROID"), target == Armv7Android, [DefVal("_FILE_OFFSET_BITS", "32")])
    case Aix => PosixDefines(acc, "OS_AIX")
    case Linux => PosixDefines(acc, "OS_LINUX") + [Def("ROCKSDB_SCHED_GETCPU_PRESENT")]
    case DragonFly => PosixDefines(acc, "OS_DRAGONFLYBSD")
    case FreeBsd => PosixDefines(acc, "OS_FREEBSD")
    case NetBsd => PosixDefines(acc, "OS_NETBSD")
    case OpenBsd => PosixDefines(acc, "OS_OPENBSD")
    case Windows => WindowsDefines(acc, target)
    case Unknown => acc
  }

  /** The defines of the operating-system branch the target falls into. */
  function OsDefines(acc: seq<Define>, target: string): seq<Define>
  {
    BranchDefines(acc, Classify(target), target)
  }

  /** The system libraries the Windows branch links dynamically. */
  function OsLinks(env: Env): seq<Directive>
    requires "TARGET" in env
  {
    if Classify(env["TARGET"]) == Windows then
      Link("rpcrt4", false, env).value + Link("shlwapi", false, env).value
    else []
  }

  predicate UsesJemalloc(target: string, features: set<string>)
  {
    "jemalloc" in features && JemallocAllowed(target)
  }

  function JemallocDefines(acc: seq<Define>, target: string, features: set<string>): seq<Define>
  {
    if UsesJemalloc(target, features) then
      acc + [DefVal("ROCKSDB_JEMALLOC", "1")] + [DefVal("JEMALLOC_NO_DEMANGLE", "1")]
    else acc
  }

  function JemallocIncludes(acc: seq<string>, target: string, features: set<string>, env: Env): seq<string>
  {
    if UsesJemalloc(target, features) && "DEP_JEMALLOC_ROOT" in env then
      acc + [JoinInclude(env["DEP_JEMALLOC_ROOT"])]
    else acc
  }

  function IoUringDefines(acc: seq<Define>, target: string, features: set<string>): seq<Define>
  {
    AppendIf(acc, "io-uring" in features && Contains(target, "linux"), [DefVal("ROCKSDB_IOURING_PRESENT", "1")])
  }

  /** The large-file defines for a pointer width other than 64. The exempt
      target never reads the width: the comparison with it short-circuits. */
  function LargeFileDefines(acc: seq<Define>, target: string, pointerWidth: Option<string>): seq<Define>
  {
    if target != Armv7Android && pointerWidth.Some? && pointerWidth.value != "64" then
      acc + [DefVal("_FILE_OFFSET_BITS", "64")] + [DefVal("_LARGEFILE64_SOURCE", "1")]
    else acc
  }

  /** MSVC's exception-model and standard flags, or the standard and the
      warning flags RocksDB's own CMake build uses with GCC and Clang. */
  function ToolchainFlags(acc: seq<Flag>, target: string): seq<Flag>
  {
    if Contains(target, "msvc") then acc + [Always("-EHsc")] + [Always("-std:c++20")]
    else
      acc + [Always(CxxStandard)] + [Always("-Wsign-compare")] + [Always("-Wshadow")]
      + [Always("-Wno-unused-parameter")] + [Always("-Wno-unused-variable")]
      + [Always("-Woverloaded-virtual")] + [Always("-Wnon-virtual-dtor")]
      + [Always("-Wno-missing-field-initializers")] + [Always("-Wno-strict-aliasing")]
      + [Always("-Wno-invalid-offsetof")]
  }

  /** The forced `<cstdint>` include, on every target but Windows. */
  function CstdintFlags(acc: seq<Flag>, target: string): seq<Flag>
  {
    if !Contains(target, "windows") then acc + [Always("-include")] + [Always("cstdint")] else acc
  }

  /** `config.file(format!("rocksdb/{file}"))` for each file. */
  function Prefixed(files: seq<string>): (r: seq<string>)
    ensures |r| == |files|
    ensures forall i :: 0 <= i < |files| ==> r[i] == "rocksdb/" + files[i]
  {
    seq(|files|, i requires 0 <= i < |files| => "rocksdb/" + files[i])
  }

  function RocksdbIncludes(inp: Inputs, target: string): seq<string>
  {
    var i1 := CompressionIncludes(BaseIncludes(), inp.features, inp.env);
    JemallocIncludes(i1 + ["."], target, inp.features, inp.env)
  }

  /** The defines up to the jemalloc step. */
  function PlatformDefines(inp: Inputs, target: string): seq<Define>
  {
    var d1 := CompressionDefines([], inp.features) + [DefVal("NDEBUG", "1")];
    var d2 := OsDefines(d1, target) + [Def("ROCKSDB_SUPPORT_THREAD_LOCAL")];
    JemallocDefines(d2, target, inp.features)
  }

  function RocksdbDefines(inp: Inputs, target: string): seq<Define>
  {
    var d3 := IoUringDefines(PlatformDefines(inp, target), target, inp.features);
    LargeFileDefines(d3, target, Var(inp.env, "CARGO_CFG_TARGET_POINTER_WIDTH"))
  }

  /** The flags up to the target-feature step. */
  function PlatformFlags(inp: Inputs, target: string): seq<Flag>
  {
    var f1 := AppendIf([SysrootFlag], "lto" in inp.features, [Always("-flto")]);
    TargetFeatureFlags(f1, target, Var(inp.env, "CARGO_CFG_TARGET_FEATURE"))
  }

  function RocksdbFlags(inp: Inputs, target: string): seq<Flag>
  {
    CstdintFlags(ToolchainFlags(PlatformFlags(inp, target), target) + [IfSupported("-std=c++20")], target)
  }

  function RocksdbFiles(inp: Inputs, target: string): seq<string>
  {
    Prefixed(RocksdbSources(ParseSourceList(inp.sourceList), target, "jemalloc" in inp.features))
    + [LocalBuildVersion]
  }

  /** The whole configuration, for a run that does not panic. */
  function RocksdbPlan(inp: Inputs, target: string): BuildPlan
  {
    BuildPlan(
      includes := RocksdbIncludes(inp, target),
      defines := RocksdbDefines(inp, target),
      flags := RocksdbFlags(inp, target),
      files := RocksdbFiles(inp, target),
      cpp := true,
      staticCrt := if Contains(target, "msvc") && "mt_static" in inp.features then Some(true) else None,
      extraWarnings := None,
      archive := Some("librocksdb.a"))
  }

  /** The `cargo:` lines `build_rocksdb` prints. */
  function RocksdbDirectives(inp: Inputs): seq<Directive>
    requires "TARGET" in inp.env
  {
    AppendIf([Warning("Executing build_rocksdb function.")] + OsLinks(inp.env),
             Contains(inp.env["TARGET"], "riscv64gc"), [LinkLib(None, "atomic")])
  }

  /** `build_rocksdb()`: the configuration and printed lines, or the panic
      that stops it. */
  function RocksdbBuild(inp: Inputs): Result<Output>
  {
    match Var(inp.env, "TARGET")
    case None => Panic("TARGET is not set")
    case Some(target) =>
      if "lto" in inp.features && !inp.isClang then Panic(LtoMessage)
      else if "io-uring" in inp.features && Contains(target, "linux") && !inp.liburingFound then
        Panic(IoUringMessage)
      else if target != Armv7Android && "CARGO_CFG_TARGET_POINTER_WIDTH" !in inp.env then
        Panic("CARGO_CFG_TARGET_POINTER_WIDTH is not set")
      else Ok(Output(RocksdbPlan(inp, target), RocksdbDirectives(inp)))
  }

  // ---------------------------------------------------------------------
  // The build script's steps on a `Build` object

  method AddBaseIncludes(config: Build)
    modifies config`includes
    ensures config.includes == old(config.includes) + BaseIncludes()
  {
    config.Include("rocksdb/include/");
    config.Include("rocksdb/");
    config.Include(NixGlibcDev + "/include");
    config.Include(GccCxxInclude);
    config.Include("rocksdb/third-party/gtest-1.8.1/fused-src/");
  }

  /** One codec: its define, and its include directory when the codec's
      `DEP_*_INCLUDE` variable is set. */
  method ConfigureCodec(config: Build, features: set<string>, feature: string, name: string,
                        includeVar: string, env: Env)
    modifies config`includes, config`defines
    ensures config.includes == AppendIf(old(config.includes), feature in features, IncludeFromEnv(env, includeVar))
    ensures config.defines == AppendIf(old(config.defines), feature in features, [DefVal(name, "1")])
  {
    if feature in features {
      config.AddDefine(name, Some("1"));
      if includeVar in env {
        config.Include(env[includeVar]);
      }
    }
  }

  method ConfigureSnappy(config: Build, features: set<string>)
    modifies config`includes, config`defines
    ensures config.includes == AppendIf(old(config.includes), "snappy" in features, ["snappy/"])
    ensures config.defines == AppendIf(old(config.defines), "snappy" in features, [DefVal("SNAPPY", "1")])
  {
    if "snappy" in features {
      config.AddDefine("SNAPPY", Some("1"));
      config.Include("snappy/");
    }
  }

  method ConfigureRtti(config: Build, features: set<string>)
    modifies config`defines
    ensures config.defines == AppendIf(old(config.defines), "rtti" in features, [DefVal("USE_RTTI", "1")])
  {
    if "rtti" in features {
      config.AddDefine("USE_RTTI", Some("1"));
    }
  }

  /** The compression codecs and RTTI. */
  method ConfigureCompression(config: Build, features: set<string>, env: Env)
    modifies config`includes, config`defines
    ensures config.includes == CompressionIncludes(old(config.includes), features, env)
    ensures config.defines == CompressionDefines(old(config.defines), features)
  {
    ConfigureSnappy(config, features);
    ConfigureCodec(config, features, "lz4", "LZ4", "DEP_LZ4_INCLUDE", env);
    ConfigureCodec(config, features, "zstd", "ZSTD", "DEP_ZSTD_INCLUDE", env);
    ConfigureCodec(config, features, "zlib", "ZLIB", "DEP_Z_INCLUDE", env);
    ConfigureCodec(config, features, "bzip2", "BZIP2", "DEP_BZIP2_INCLUDE", env);
    ConfigureRtti(config, features);
  }

  /** `if cond { config.flag_if_supported(arg); }` */
  method FlagIfSupportedWhen(config: Build, cond: bool, arg: string)
    modifies config`flags
    ensures config.flags == AppendIf(old(config.flags), cond, [IfSupported(arg)])
  {
    if cond {
      config.FlagIfSupported(arg);
    }
  }

  method ConfigureTargetFeatures(config: Build, target: string, targetFeature: Option<string>)
    modifies config`flags
    ensures config.flags == TargetFeatureFlags(old(config.flags), target, targetFeature)
  {
    if Contains(target, "x86_64") && targetFeature.Some? {
      var fs := Split(targetFeature.value, ',');
      FlagIfSupportedWhen(config, "sse2" in fs, "-msse2");
      FlagIfSupportedWhen(config, "sse4.1" in fs, "-msse4.1");
      FlagIfSupportedWhen(config, "sse4.2" in fs, "-msse4.2");
      FlagIfSupportedWhen(config, "avx2" in fs, "-mavx2");
      FlagIfSupportedWhen(config, "bmi1" in fs, "-mbmi");
      FlagIfSupportedWhen(config, "lzcnt" in fs, "-mlzcnt");
      FlagIfSupportedWhen(config, !Contains(target, "android") && "pclmulqdq" in fs, "-mpclmul");
    }
  }

  method DefinePosixPlatform(config: Build, marker: string)
    modifies config`defines
    ensures config.defines == PosixDefines(old(config.defines), marker)
  {
    config.AddDefine(marker, None);
    config.AddDefine("ROCKSDB_PLATFORM_POSIX", None);
    config.AddDefine("ROCKSDB_LIB_IO_POSIX", None);
  }

  method ConfigureIos(config: Build)
    modifies config`defines
    ensures config.defines == IosDefines(old(config.defines))
  {
    config.AddDefine("OS_MACOSX", None);
    config.AddDefine("IOS_CROSS_COMPILE", None);
    config.AddDefine("PLATFORM", Some("IOS"));
    config.AddDefine("NIOSTATS_CONTEXT", None);
    config.AddDefine("NPERF_CONTEXT", None);
    config.AddDefine("ROCKSDB_PLATFORM_POSIX", None);
    config.AddDefine("ROCKSDB_LIB_IO_POSIX", None);
  }

  method ConfigureAndroid(config: Build, target: string)
    modifies config`defines
    ensures config.defines ==
      AppendIf(PosixDefines(old(config.defines), "OS_ANDROID"), target == Armv7Android, [DefVal("_FILE_OFFSET_BITS", "32")])
  {
    DefinePosixPlatform(config, "OS_ANDROID");
    if target == Armv7Android {
      config.AddDefine("_FILE_OFFSET_BITS", Some("32"));
    }
  }

  method ConfigureLinux(config: Build)
    modifies config`defines
    ensures config.defines == PosixDefines(old(config.defines), "OS_LINUX") + [Def("ROCKSDB_SCHED_GETCPU_PRESENT")]
  {
    DefinePosixPlatform(config, "OS_LINUX");
    config.AddDefine("ROCKSDB_SCHED_GETCPU_PRESENT", None);
  }

  /** The Windows branch: the system libraries, the defines, and the swap of
      the POSIX sources for the Windows ones. */
  method ConfigureWindows(config: Build, env: Env, libSources: seq<string>, jemalloc: bool)
    returns (sources: seq<string>, links: seq<Directive>)
    requires "TARGET" in env
    modifies config`defines
    ensures config.defines == WindowsDefines(old(config.defines), env["TARGET"])
    ensures links == Link("rpcrt4", false, env).value + Link("shlwapi", false, env).value
    ensures sources == WindowsPort(libSources, jemalloc)
  {
    var rpcrt4 := Link("rpcrt4", false, env);
    var shlwapi := Link("shlwapi", false, env);
    links := rpcrt4.value + shlwapi.value;
    config.AddDefine("DWIN32", None);
    config.AddDefine("OS_WIN", None);
    config.AddDefine("_MBCS", None);
    config.AddDefine("WIN64", None);
    config.AddDefine("NOMINMAX", None);
    config.AddDefine("ROCKSDB_WINDOWS_UTF8_FILENAMES", None);
    if env["TARGET"] == "x86_64-pc-windows-gnu" {
      config.AddDefine("_POSIX_C_SOURCE", Some("1"));
      config.AddDefine("_WIN32_WINNT", Some("_WIN32_WINNT_VISTA"));
    }
    sources := FilterOut(libSources, PosixSources);
    sources := sources + WindowsSources;
    if jemalloc {
      sources := sources + [WinJemalloc];
    }
  }

  /** The operating-system branch, chosen by the first family name the
      target contains. */
  method ConfigureOs(config: Build, env: Env, libSources: seq<string>, jemalloc: bool)
    returns (sources: seq<string>, links: seq<Directive>)
    requires "TARGET" in env
    modifies config`defines
    ensures config.defines == OsDefines(old(config.defines), env["TARGET"])
    ensures links == OsLinks(env)
    ensures sources == if Classify(env["TARGET"]) == Windows then WindowsPort(libSources, jemalloc) else libSources
  {
    var target := env["TARGET"];
    sources, links := libSources, [];
    if Contains(target, "apple-ios") {
      ConfigureIos(config);
    } else if Contains(target, "darwin") {
      DefinePosixPlatform(config, "OS_MACOSX");
    } else if Contains(target, "android") {
      ConfigureAndroid(config, target);
    } else if Contains(target, "aix") {
      DefinePosixPlatform(config, "OS_AIX");
    } else if Contains(target, "linux") {
      ConfigureLinux(config);
    } else if Contains(target, "dragonfly") {
      DefinePosixPlatform(config, "OS_DRAGONFLYBSD");
    } else if Contains(target, "freebsd") {
      DefinePosixPlatform(config, "OS_FREEBSD");
    } else if Contains(target, "netbsd") {
      DefinePosixPlatform(config, "OS_NETBSD");
    } else if Contains(target, "openbsd") {
      DefinePosixPlatform(config, "OS_OPENBSD");
    } else if Contains(target, "windows") {
      sources, links := ConfigureWindows(config, env, libSources, jemalloc);
    }
  }

  /** The jemalloc allocator, on the targets that allow it. */
  method ConfigureJemalloc(config: Build, target: string, features: set<string>, env: Env)
    modifies config`includes, config`defines
    ensures config.includes == JemallocIncludes(old(config.includes), target, features, env)
    ensures config.defines == JemallocDefines(old(config.defines), target, features)
  {
    if "jemalloc" in features && JemallocAllowed(target) {
      config.AddDefine("ROCKSDB_JEMALLOC", Some("1"));
      config.AddDefine("JEMALLOC_NO_DEMANGLE", Some("1"));
      if "DEP_JEMALLOC_ROOT" in env {
        config.Include(JoinInclude(env["DEP_JEMALLOC_ROOT"]));
      }
    }
  }

  /** MSVC or GCC/Clang flags, and the static C runtime on request. */
  method ConfigureToolchain(config: Build, target: string, features: set<string>)
    modifies config`flags, config`staticCrt
    ensures config.flags == ToolchainFlags(old(config.flags), target)
    ensures config.staticCrt ==
      if Contains(target, "msvc") && "mt_static" in features then Some(true) else old(config.staticCrt)
  {
    if Contains(target, "msvc") {
      if "mt_static" in features {
        config.StaticCrt(true);
      }
      config.AddFlag("-EHsc");
      config.AddFlag("-std:c++20");
    } else {
      config.AddFlag(CxxStandard);
      config.AddFlag("-Wsign-compare");
      config.AddFlag("-Wshadow");
      config.AddFlag("-Wno-unused-parameter");
      config.AddFlag("-Wno-unused-variable");
      config.AddFlag("-Woverloaded-virtual");
      config.AddFlag("-Wnon-virtual-dtor");
      config.AddFlag("-Wno-missing-field-initializers");
      config.AddFlag("-Wno-strict-aliasing");
      config.AddFlag("-Wno-invalid-offsetof");
    }
  }

  /** One compilation unit per source, under `rocksdb/`, in order. */
  method AddSourceFiles(config: Build, libSources: seq<string>)
    modifies config`files
    ensures config.files == old(config.files) + Prefixed(libSources)
  {
    for i := 0 to |libSources|
      invariant config.files == old(config.files) + Prefixed(libSources[..i])
    {
      config.File("rocksdb/" + libSources[i]);
    }
    assert libSources[..|libSources|] == libSources;
  }

  /** `-flto` when the `lto` feature is on. The build script then panics
      unless the compiler is Clang. */
  method AddLtoFlag(config: Build, features: set<string>)
    modifies config`flags
    ensures config.flags == AppendIf(old(config.flags), "lto" in features, [Always("-flto")])
  {
    if "lto" in features {
      config.AddFlag("-flto");
    }
  }

  /** `ROCKSDB_IOURING_PRESENT` on Linux with the `io-uring` feature, once
      `liburing` has been found. */
  method ConfigureIoUring(config: Build, target: string, features: set<string>)
    modifies config`defines
    ensures config.defines == IoUringDefines(old(config.defines), target, features)
  {
    if "io-uring" in features && Contains(target, "linux") {
      config.AddDefine("ROCKSDB_IOURING_PRESENT", Some("1"));
    }
  }

  /** The large-file defines, once the pointer width is known wherever it
      is read. */
  method ConfigureLargeFile(config: Build, target: string, pointerWidth: Option<string>)
    requires target != Armv7Android ==> pointerWidth.Some?
    modifies config`defines
    ensures config.defines == LargeFileDefines(old(config.defines), target, pointerWidth)
  {
    if target != Armv7Android && pointerWidth.value != "64" {
      config.AddDefine("_FILE_OFFSET_BITS", Some("64"));
      config.AddDefine("_LARGEFILE64_SOURCE", Some("1"));
    }
  }

  /** The io-uring and large-file steps, with the two panics they can raise:
      `liburing` missing, or the pointer width unset where it is read. */
  method ConfigureIoSupport(config: Build, inp: Inputs, target: string) returns (failure: Option<string>)
    modifies config`defines
    ensures failure ==
      if "io-uring" in inp.features && Contains(target, "linux") && !inp.liburingFound then Some(IoUringMessage)
      else if target != Armv7Android && "CARGO_CFG_TARGET_POINTER_WIDTH" !in inp.env then
        Some("CARGO_CFG_TARGET_POINTER_WIDTH is not set")
      else None
    ensures failure.None? ==>
      config.defines == LargeFileDefines(IoUringDefines(old(config.defines), target, inp.features),
                                         target, Var(inp.env, "CARGO_CFG_TARGET_POINTER_WIDTH"))
  {
    if "io-uring" in inp.features && Contains(target, "linux") && !inp.liburingFound {
      return Some(IoUringMessage);
    }
    ConfigureIoUring(config, target, inp.features);
    if target != Armv7Android && "CARGO_CFG_TARGET_POINTER_WIDTH" !in inp.env {
      return Some("CARGO_CFG_TARGET_POINTER_WIDTH is not set");
    }
    ConfigureLargeFile(config, target, Var(inp.env, "CARGO_CFG_TARGET_POINTER_WIDTH"));
    return None;
  }

  /** The include directories, the sysroot, the compression codecs and the
      LTO flag: what `build_rocksdb` sets before its first check. */
  method ConfigureFront(config: Build, features: set<string>, env: Env)
    requires config.includes == [] && config.flags == []
    modifies config`includes, config`defines, config`flags
    ensures config.includes == CompressionIncludes(BaseIncludes(), features, env)
    ensures config.defines == CompressionDefines(old(config.defines), features)
    ensures config.flags == AppendIf([SysrootFlag], "lto" in features, [Always("-flto")])
  {
    AddBaseIncludes(config);
    assert config.includes == BaseIncludes();
    config.AddFlag("--sysroot=" + NixGlibcDev);
    assert config.flags == [SysrootFlag];
    ConfigureCompression(config, features, env);
    AddLtoFlag(config, features);
  }

  /** From the `.` include to the jemalloc step: the platform part of the
      configuration, and the sources and libraries it selects. */
  method ConfigurePlatform(config: Build, env: Env, features: set<string>, libSources: seq<string>)
    returns (sources: seq<string>, links: seq<Directive>)
    requires "TARGET" in env
    modifies config`includes, config`defines, config`flags
    ensures config.includes ==
      JemallocIncludes(old(config.includes) + ["."], env["TARGET"], features, env)
    ensures config.defines ==
      JemallocDefines(OsDefines(old(config.defines) + [DefVal("NDEBUG", "1")], env["TARGET"])
                      + [Def("ROCKSDB_SUPPORT_THREAD_LOCAL")], env["TARGET"], features)
    ensures config.flags ==
      TargetFeatureFlags(old(config.flags), env["TARGET"], Var(env, "CARGO_CFG_TARGET_FEATURE"))
    ensures links == OsLinks(env)
    ensures sources ==
      if Classify(env["TARGET"]) == Windows then WindowsPort(libSources, "jemalloc" in features) else libSources
  {
    var target := env["TARGET"];
    config.Include(".");
    config.AddDefine("NDEBUG", Some("1"));
    ConfigureTargetFeatures(config, target, Var(env, "CARGO_CFG_TARGET_FEATURE"));
    sources, links := ConfigureOs(config, env, libSources, "jemalloc" in features);
    config.AddDefine("ROCKSDB_SUPPORT_THREAD_LOCAL", None);
    ConfigureJemalloc(config, target, features, env);
  }

  /** From the toolchain flags to `compile`: everything after the last
      check that can panic. */
  method ConfigureTail(config: Build, target: string, features: set<string>, libSources: seq<string>)
    requires config.files == []
    modifies config`flags, config`staticCrt, config`files, config`cpp, config`archive
    ensures config.flags ==
      CstdintFlags(ToolchainFlags(old(config.flags), target) + [IfSupported("-std=c++20")], target)
    ensures config.staticCrt ==
      if Contains(target, "msvc") && "mt_static" in features then Some(true) else old(config.staticCrt)
    ensures config.files == Prefixed(libSources) + [LocalBuildVersion]
    ensures config.cpp && config.archive == Some("librocksdb.a")
  {
    ConfigureToolchain(config, target, features);
    AddSourceFiles(config, libSources);
    assert config.files == Prefixed(libSources);
    config.File(LocalBuildVersion);
    config.Cpp(true);
    config.FlagIfSupported("-std=c++20");
    if !Contains(target, "windows") {
      config.AddFlag("-include");
      config.AddFlag("cstdint");
    }
    config.Compile("librocksdb.a");
  }

  /** `build_rocksdb()`, step by step on a fresh `Build`. */
  method BuildRocksdb(inp: Inputs) returns (r: Result<Output>)
    ensures r == RocksdbBuild(inp)
  {
    var env, features := inp.env, inp.features;
    if "TARGET" !in env {
      return Panic("TARGET is not set");
    }
    var target := env["TARGET"];
    var config := new Build();
    ConfigureFront(config, features, env);
    if "lto" in features && !inp.isClang {
      return Panic(LtoMessage);
    }
    var libSources, links :=
      ConfigurePlatform(config, env, features, FilterOut(ParseSourceList(inp.sourceList), {BuildVersion}));
    r := FinishRocksdb(config, inp, target, libSources, links);
  }

  /** A run that passes every check produces the configuration the steps
      after the platform step build. */
  lemma RocksdbOutcome(inp: Inputs, target: string, defines: seq<Define>, flags: seq<Flag>,
                       files: seq<string>, crt: Option<bool>, out: seq<Directive>)
    requires Var(inp.env, "TARGET") == Some(target)
    requires !("lto" in inp.features && !inp.isClang)
    requires !("io-uring" in inp.features && Contains(target, "linux") && !inp.liburingFound)
    requires !(target != Armv7Android && "CARGO_CFG_TARGET_POINTER_WIDTH" !in inp.env)
    requires defines == RocksdbDefines(inp, target)
    requires flags == RocksdbFlags(inp, target)
    requires files == RocksdbFiles(inp, target)
    requires crt == if Contains(target, "msvc") && "mt_static" in inp.features then Some(true) else None
    requires out == RocksdbDirectives(inp)
    ensures RocksdbBuild(inp) ==
      Ok(Output(BuildPlan(RocksdbIncludes(inp, target), defines, flags, files, true, crt, None,
                          Some("librocksdb.a")), out))
  {
  }

  /** The rest of `build_rocksdb()`, once the platform is configured: the
      two checks that can still panic, then the defines they guard. */
  method FinishRocksdb(config: Build, inp: Inputs, target: string, libSources: seq<string>, links: seq<Directive>)
    returns (r: Result<Output>)
    requires Var(inp.env, "TARGET") == Some(target)
    requires !("lto" in inp.features && !inp.isClang)
    requires config.includes == RocksdbIncludes(inp, target)
    requires config.defines == PlatformDefines(inp, target)
    requires config.flags == PlatformFlags(inp, target)
    requires config.files == [] && config.staticCrt == None && config.extraWarnings == None
    requires links == OsLinks(inp.env)
    requires libSources == RocksdbSources(ParseSourceList(inp.sourceList), target, "jemalloc" in inp.features)
    modifies config
    ensures r == RocksdbBuild(inp)
  {
    var failure := ConfigureIoSupport(config, inp, target);
    if failure.Some? {
      return Panic(failure.value);
    }
    var out := [Warning("Executing build_rocksdb function.")] + links;
    r := CompileRocksdb(config, inp, target, libSources, out);
  }

  /** From the toolchain flags to `compile`, after the last check. */
  method CompileRocksdb(config: Build, inp: Inputs, target: string, libSources: seq<string>, out: seq<Directive>)
    returns (r: Result<Output>)
    requires Var(inp.env, "TARGET") == Some(target)
    requires !("lto" in inp.features && !inp.isClang)
    requires !("io-uring" in inp.features && Contains(target, "linux") && !inp.liburingFound)
    requires !(target != Armv7Android && "CARGO_CFG_TARGET_POINTER_WIDTH" !in inp.env)
    requires config.includes == RocksdbIncludes(inp, target)
    requires config.defines == RocksdbDefines(inp, target)
    requires config.flags == PlatformFlags(inp, target)
    requires config.files == [] && config.staticCrt == None && config.extraWarnings == None
    requires out == [Warning("Executing build_rocksdb function.")] + OsLinks(inp.env)
    requires libSources == RocksdbSources(ParseSourceList(inp.sourceList), target, "jemalloc" in inp.features)
    modifies config
    ensures r == RocksdbBuild(inp)
  {
    var out' := out;
    if Contains(target, "riscv64gc") {
      out' := out' + [LinkLib(None, "atomic")];
    }
    ConfigureTail(config, target, inp.features, libSources);
    RocksdbOutcome(inp, target, config.defines, config.flags, config.files, config.staticCrt, out');
    r := Ok(Output(config.Plan(), out'));
  }
}
