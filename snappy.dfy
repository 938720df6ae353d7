/** `build_snappy`: the configuration handed to the C++ compiler when the
    bundled Snappy sources are built. `SnappyBuild` says what it is;
    `BuildSnappy` builds it step by step on a `Build` object. */
module Snappy {
  import opened Wrappers
  import opened Text
  import opened Cargo
  import opened CcBuild
  import Rocksdb

  const SnappyFiles: seq<string> := ["snappy/snappy.cc", "snappy/snappy-sinksource.cc", "snappy/snappy-c.cc"]

  /** The bundled Snappy configuration for `target` and `endianness`. */
  function SnappyPlan(target: string, endianness: string, features: set<string>): BuildPlan
  {
    var msvc := Contains(target, "msvc");
    BuildPlan(
      includes := ["snappy/", Rocksdb.GccCxxInclude, "."],
      defines := AppendIf([Define("NDEBUG", Some("1"))], endianness == "big",
                          [Define("SNAPPY_IS_BIG_ENDIAN", Some("1"))]),
      flags := if msvc then [Always("-EHsc")] else [Always("-std=c++11")],
      files := SnappyFiles,
      cpp := true,
      staticCrt := if msvc && "mt_static" in features then Some(true) else None,
      extraWarnings := Some(false),
      archive := Some("libsnappy.a"))
  }

  /** `build_snappy()`: the configuration, or the panic of one of its two
      `unwrap`s, `TARGET` first. */
  function SnappyBuild(env: Env, features: set<string>): Result<BuildPlan>
  {
    match Var(env, "TARGET")
    case None => Panic("TARGET is not set")
    case Some(target) =>
      match Var(env, "CARGO_CFG_TARGET_ENDIAN")
      case None => Panic("CARGO_CFG_TARGET_ENDIAN is not set")
      case Some(endianness) => Ok(SnappyPlan(target, endianness, features))
  }

  /** The calls `build_snappy` makes on its `Build` once both variables
      are read. */
  method ConfigureSnappyBuild(config: Build, msvc: bool, mtStatic: bool, bigEndian: bool)
    requires config.includes == [] && config.defines == [] && config.flags == [] && config.files == []
    requires !config.cpp && config.staticCrt == None && config.extraWarnings == None && config.archive == None
    modifies config
    ensures config.includes == ["snappy/", Rocksdb.GccCxxInclude, "."]
    ensures config.defines == AppendIf([Define("NDEBUG", Some("1"))], bigEndian,
                                       [Define("SNAPPY_IS_BIG_ENDIAN", Some("1"))])
    ensures config.flags == if msvc then [Always("-EHsc")] else [Always("-std=c++11")]
    ensures config.files == SnappyFiles
    ensures config.cpp
    ensures config.staticCrt == if msvc && mtStatic then Some(true) else None
    ensures config.extraWarnings == Some(false)
    ensures config.archive == Some("libsnappy.a")
  {
    config.Include("snappy/");
    config.Include(Rocksdb.GccCxxInclude);
    config.Include(".");
    config.AddDefine("NDEBUG", Some("1"));
    config.ExtraWarnings(false);
    ConfigureSnappyToolchain(config, msvc, mtStatic);
    if bigEndian {
      config.AddDefine("SNAPPY_IS_BIG_ENDIAN", Some("1"));
    }
    config.File("snappy/snappy.cc");
    config.File("snappy/snappy-sinksource.cc");
    config.File("snappy/snappy-c.cc");
    config.Cpp(true);
    config.Compile("libsnappy.a");
  }

  /** The compiler-specific part of `build_snappy`. */
  method ConfigureSnappyToolchain(config: Build, msvc: bool, mtStatic: bool)
    requires config.flags == [] && config.staticCrt == None
    modifies config`flags, config`staticCrt
    ensures config.flags == if msvc then [Always("-EHsc")] else [Always("-std=c++11")]
    ensures config.staticCrt == if msvc && mtStatic then Some(true) else None
  {
    if msvc {
      config.AddFlag("-EHsc");
      if mtStatic {
        config.StaticCrt(true);
      }
    } else {
      config.AddFlag("-std=c++11");
    }
  }

  /** `build_snappy()`, step by step on a fresh `Build`. */
  method BuildSnappy(env: Env, features: set<string>) returns (r: Result<BuildPlan>)
    ensures r == SnappyBuild(env, features)
  {
    if "TARGET" !in env {
      return Panic("TARGET is not set");
    }
    var target := env["TARGET"];
    if "CARGO_CFG_TARGET_ENDIAN" !in env {
      return Panic("CARGO_CFG_TARGET_ENDIAN is not set");
    }
    var endianness := env["CARGO_CFG_TARGET_ENDIAN"];
    var config := new Build();
    ConfigureSnappyBuild(config, Contains(target, "msvc"), "mt_static" in features, endianness == "big");
    r := Ok(config.Plan());
  }

  /** Snappy builds exactly when both variables are set; a missing `TARGET`
      is reported even when the endianness is missing too. */
  lemma SnappyPanics(env: Env, features: set<string>)
    ensures SnappyBuild(env, features).Ok? <==> "TARGET" in env && "CARGO_CFG_TARGET_ENDIAN" in env
    ensures "TARGET" !in env ==> SnappyBuild(env, features) == Panic("TARGET is not set")
  {
  }

  /** The big-endian define is present exactly for a big-endian target, and
      `NDEBUG=1` always comes first. */
  lemma SnappyEndianness(env: Env, features: set<string>)
    requires SnappyBuild(env, features).Ok?
    ensures var p := SnappyBuild(env, features).value;
      && p.defines[0] == Define("NDEBUG", Some("1"))
      && (Define("SNAPPY_IS_BIG_ENDIAN", Some("1")) in p.defines <==> env["CARGO_CFG_TARGET_ENDIAN"] == "big")
      && (forall d :: d in p.defines ==> d.value == Some("1"))
  {
  }

  /** MSVC gets the exception-model flag, and the static runtime only with
      the `mt_static` feature; every other compiler gets C++11. Snappy never
      asks for the C++20 standard RocksDB uses. */
  lemma SnappyToolchain(env: Env, features: set<string>)
    requires SnappyBuild(env, features).Ok?
    ensures var p, target := SnappyBuild(env, features).value, env["TARGET"];
      && |p.flags| == 1
      && (p.flags[0] == Always("-EHsc") <==> Contains(target, "msvc"))
      && (p.flags[0] == Always("-std=c++11") <==> !Contains(target, "msvc"))
      && (p.staticCrt == Some(true) <==> Contains(target, "msvc") && "mt_static" in features)
      && Always(Rocksdb.CxxStandard) !in p.flags
  {
  }
}
