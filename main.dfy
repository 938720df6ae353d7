/** `main` of the build script: link an installed RocksDB or build the
    bundled one, do the same for Snappy when its feature is on, and publish
    the crate's directories to dependent crates. */
module BuildScript {
  import opened Wrappers
  import opened Text
  import opened Cargo
  import opened CcBuild
  import opened Linking
  import Rocksdb
  import Snappy
  import RocksdbProperties

  /** What `fs::read_dir(name)` finds for a submodule directory. */
  datatype DirState = Missing | Empty | NonEmpty

  /** Everything `main` reads: the inputs of `build_rocksdb` (environment and
      features among them) and the state of the two submodule directories. */
  datatype MainInputs = MainInputs(build: Rocksdb.Inputs, rocksdbDir: DirState, snappyDir: DirState)

  /** The configurations handed to the compiler, if any, and every `cargo:`
      line printed, in order. */
  datatype Outcome = Outcome(rocksdb: Option<BuildPlan>, snappy: Option<BuildPlan>, out: seq<Directive>)

  const UsrLocalLib := "/usr/local/lib"

  /** `fail_on_empty_directory(name)`: the panic it raises, if any. A missing
      directory fails the `read_dir(..).unwrap()`, an empty one the explicit
      `panic!()` after its two warnings. */
  function DirectoryCheck(name: string, dir: DirState): (r: Option<string>)
    ensures r.None? <==> dir == NonEmpty
  {
    match dir
    case Missing => Some("cannot read directory " + name)
    case Empty => Some("explicit panic")
    case NonEmpty => None
  }

  /** No installed RocksDB was found and the target is FreeBSD: the only
      build that links the system library from `/usr/local/lib` and returns
      early. */
  predicate FreeBsdFallback(env: Env, target: string)
  {
    !TryToFindAndLinkLib("ROCKSDB", env).found && Contains(target, "freebsd")
  }

  /** The RocksDB half of `main`, after `TARGET` is read. */
  function ResolveRocksdb(m: MainInputs, target: string): Result<Outcome>
  {
    var env := m.build.env;
    var lookup := TryToFindAndLinkLib("ROCKSDB", env);
    if lookup.found then Ok(Outcome(None, None, lookup.out + CppLinkStdlib(target, env)))
    else if Contains(target, "freebsd") then
      Ok(Outcome(None, None, lookup.out + [LinkSearchNative(UsrLocalLib),
                                           LinkLib(Some(ModeFor(env, "ROCKSDB")), "rocksdb")]))
    else
      match DirectoryCheck("rocksdb", m.rocksdbDir)
      case Some(msg) => Panic(msg)
      case None =>
        match Rocksdb.RocksdbBuild(m.build)
        case Panic(msg) => Panic(msg)
        case Ok(o) => Ok(Outcome(Some(o.plan), None, lookup.out + [RerunIfChanged("rocksdb/")] + o.out))
  }

  /** The Snappy half of `main`, continuing from `acc`. */
  function ResolveSnappy(m: MainInputs, acc: Outcome): Result<Outcome>
  {
    var env := m.build.env;
    if "snappy" !in m.build.features then Ok(acc)
    else
      var lookup := TryToFindAndLinkLib("SNAPPY", env);
      if lookup.found then Ok(acc.(out := acc.out + lookup.out))
      else
        match DirectoryCheck("snappy", m.snappyDir)
        case Some(msg) => Panic(msg)
        case None =>
          match Snappy.SnappyBuild(env, m.build.features)
          case Panic(msg) => Panic(msg)
          case Ok(plan) => Ok(acc.(snappy := Some(plan), out := acc.out + lookup.out + [RerunIfChanged("snappy/")]))
  }

  /** The two metadata lines `main` ends with, or the panic of the manifest
      directory's `unwrap`. */
  function Publish(env: Env, acc: Outcome): Result<Outcome>
    requires "OUT_DIR" in env
  {
    match Var(env, "CARGO_MANIFEST_DIR")
    case None => Panic("CARGO_MANIFEST_DIR is not set")
    case Some(dir) =>
      Ok(acc.(out := acc.out + [Metadata("cargo_manifest_dir", dir), Metadata("out_dir", env["OUT_DIR"])]))
  }

  /** `main()`. Binding generation is outside the model except for its
      `OUT_DIR` lookup, which panics before anything else is read. */
  function Resolve(m: MainInputs): Result<Outcome>
  {
    var env := m.build.env;
    if "OUT_DIR" !in env then Panic("OUT_DIR is not set")
    else match Var(env, "TARGET")
    case None => Panic("TARGET is not set")
    case Some(target) =>
      match ResolveRocksdb(m, target)
      case Panic(msg) => Panic(msg)
      case Ok(o1) =>
        if FreeBsdFallback(env, target) then Ok(o1)
        else
          match ResolveSnappy(m, o1)
          case Panic(msg) => Panic(msg)
          case Ok(o2) => Publish(env, o2)
  }

  // ---------------------------------------------------------------------
  // `main` as a sequence of steps

  /** The RocksDB half of `main`; `freeBsdReturn` says whether `main` stops
      after it, decided from the same lookup. */
  method RunRocksdb(m: MainInputs, target: string) returns (r: Result<Outcome>, freeBsdReturn: bool)
    ensures r == ResolveRocksdb(m, target)
    ensures freeBsdReturn == FreeBsdFallback(m.build.env, target)
  {
    var env := m.build.env;
    var lookup := TryToFindAndLinkLib("ROCKSDB", env);
    var out := lookup.out;
    freeBsdReturn := false;
    if lookup.found {
      out := out + CppLinkStdlib(target, env);
      return Ok(Outcome(None, None, out)), freeBsdReturn;
    }
    if Contains(target, "freebsd") {
      freeBsdReturn := true;
      out := out + [LinkSearchNative(UsrLocalLib), LinkLib(Some(ModeFor(env, "ROCKSDB")), "rocksdb")];
      return Ok(Outcome(None, None, out)), freeBsdReturn;
    }
    out := out + [RerunIfChanged("rocksdb/")];
    var check := DirectoryCheck("rocksdb", m.rocksdbDir);
    if check.Some? {
      return Panic(check.value), freeBsdReturn;
    }
    var built := Rocksdb.BuildRocksdb(m.build);
    if built.Panic? {
      return Panic(built.message), freeBsdReturn;
    }
    r := Ok(Outcome(Some(built.value.plan), None, out + built.value.out));
  }

  method RunSnappy(m: MainInputs, acc: Outcome) returns (r: Result<Outcome>)
    ensures r == ResolveSnappy(m, acc)
  {
    var env := m.build.env;
    if "snappy" !in m.build.features {
      return Ok(acc);
    }
    var lookup := TryToFindAndLinkLib("SNAPPY", env);
    var out := acc.out + lookup.out;
    if lookup.found {
      return Ok(acc.(out := out));
    }
    out := out + [RerunIfChanged("snappy/")];
    var check := DirectoryCheck("snappy", m.snappyDir);
    if check.Some? {
      return Panic(check.value);
    }
    var built := Snappy.BuildSnappy(env, m.build.features);
    if built.Panic? {
      return Panic(built.message);
    }
    r := Ok(acc.(snappy := Some(built.value), out := out));
  }

  /** `main()`, step by step. */
  method Run(m: MainInputs) returns (r: Result<Outcome>)
    ensures r == Resolve(m)
  {
    var env := m.build.env;
    if "OUT_DIR" !in env {
      return Panic("OUT_DIR is not set");
    }
    if "TARGET" !in env {
      return Panic("TARGET is not set");
    }
    var target := env["TARGET"];
    var o1, freeBsdReturn := RunRocksdb(m, target);
    if o1.Panic? || freeBsdReturn {
      return o1;
    }
    var o2 := RunSnappy(m, o1.value);
    if o2.Panic? {
      return o2;
    }
    if "CARGO_MANIFEST_DIR" !in env {
      return Panic("CARGO_MANIFEST_DIR is not set");
    }
    var out := o2.value.out + [Metadata("cargo_manifest_dir", env["CARGO_MANIFEST_DIR"]),
                               Metadata("out_dir", env["OUT_DIR"])];
    r := Ok(o2.value.(out := out));
  }

  // ---------------------------------------------------------------------
  // Properties of `main`

  /** The Snappy step only adds to what the RocksDB step chose. */
  lemma SnappyExtends(m: MainInputs, acc: Outcome)
    ensures var r := ResolveSnappy(m, acc);
      r.Ok? ==> r.value.rocksdb == acc.rocksdb && acc.out <= r.value.out
  {
  }

  /** On FreeBSD without an installed RocksDB found through the variables,
      `main` links the system library from `/usr/local/lib` and stops: it
      builds nothing, not even Snappy, never inspects the submodules, and
      prints no metadata. */
  lemma FreeBsdNeverBuilds(m: MainInputs)
    requires "OUT_DIR" in m.build.env && "TARGET" in m.build.env
    requires FreeBsdFallback(m.build.env, m.build.env["TARGET"])
    ensures var env := m.build.env;
      Resolve(m) == Ok(Outcome(None, None, TryToFindAndLinkLib("ROCKSDB", env).out +
                               [LinkSearchNative(UsrLocalLib), LinkLib(Some(ModeFor(env, "ROCKSDB")), "rocksdb")]))
  {
  }

  /** An installed RocksDB is linked with its C++ runtime right after the
      lookup's own lines, and nothing is compiled for it. */
  lemma SystemRocksdbLinksRuntime(m: MainInputs)
    requires "OUT_DIR" in m.build.env && "TARGET" in m.build.env
    requires TryToFindAndLinkLib("ROCKSDB", m.build.env).found
    ensures var env, r := m.build.env, Resolve(m);
      r.Ok? ==>
        && r.value.rocksdb.None?
        && TryToFindAndLinkLib("ROCKSDB", env).out + CppLinkStdlib(env["TARGET"], env) <= r.value.out
  {
    var env := m.build.env;
    var o1 := ResolveRocksdb(m, env["TARGET"]);
    SnappyExtends(m, o1.value);
  }

  /** The lines of the RocksDB step are printed first, whatever follows. */
  lemma RocksdbLinesComeFirst(m: MainInputs)
    requires "OUT_DIR" in m.build.env && "TARGET" in m.build.env
    ensures var r := Resolve(m);
      r.Ok? ==> ResolveRocksdb(m, m.build.env["TARGET"]).Ok? &&
                ResolveRocksdb(m, m.build.env["TARGET"]).value.out <= r.value.out
  {
    var o := ResolveRocksdb(m, m.build.env["TARGET"]);
    if o.Ok? {
      SnappyExtends(m, o.value);
    }
  }

  /** The bundled RocksDB is compiled with the configuration `build_rocksdb`
      chooses, and links no C++ runtime of its own: the only libraries the
      RocksDB step links are the Windows system libraries and `libatomic`. */
  lemma BundledRocksdbLinksNoRuntime(m: MainInputs)
    requires "TARGET" in m.build.env
    requires !TryToFindAndLinkLib("ROCKSDB", m.build.env).found
    requires !Contains(m.build.env["TARGET"], "freebsd")
    ensures var o := ResolveRocksdb(m, m.build.env["TARGET"]);
      o.Ok? ==>
        && o.value.rocksdb == Some(Rocksdb.RocksdbBuild(m.build).value.plan)
        && (forall d :: d in o.value.out && d.LinkLib? ==> d.name in {"rpcrt4", "shlwapi", "atomic"})
  {
    var o := ResolveRocksdb(m, m.build.env["TARGET"]);
    if o.Ok? {
      RocksdbProperties.RocksdbBuildPrints(m.build);
      RocksdbProperties.BundledBuildLinks(m.build);
      var lookup := TryToFindAndLinkLib("ROCKSDB", m.build.env);
      var built := Rocksdb.RocksdbBuild(m.build).value.out;
      assert o.value.out == lookup.out + [RerunIfChanged("rocksdb/")] + built;
    }
  }

  /** Snappy is compiled exactly when its feature is on, no installed Snappy
      is found, and `main` did not stop early at the FreeBSD fallback. */
  lemma SnappyBuiltIff(m: MainInputs)
    requires "OUT_DIR" in m.build.env && "TARGET" in m.build.env
    ensures var env, r := m.build.env, Resolve(m);
      r.Ok? ==>
        (r.value.snappy.Some? <==>
           "snappy" in m.build.features && !TryToFindAndLinkLib("SNAPPY", env).found &&
           !FreeBsdFallback(env, env["TARGET"]))
  {
  }

  /** Unless `main` stopped at the FreeBSD fallback, its last two lines
      publish the manifest and output directories. */
  lemma MetadataComesLast(m: MainInputs)
    requires "OUT_DIR" in m.build.env && "TARGET" in m.build.env
    requires !FreeBsdFallback(m.build.env, m.build.env["TARGET"])
    ensures var env, r := m.build.env, Resolve(m);
      r.Ok? ==>
        && "CARGO_MANIFEST_DIR" in env
        && |r.value.out| >= 2
        && r.value.out[|r.value.out| - 2..] ==
             [Metadata("cargo_manifest_dir", env["CARGO_MANIFEST_DIR"]), Metadata("out_dir", env["OUT_DIR"])]
  {
  }

  /** A submodule that must be compiled but is missing or empty stops the
      build; so does a missing `OUT_DIR`, before anything else. */
  lemma MissingSubmodulePanics(m: MainInputs)
    ensures "OUT_DIR" !in m.build.env ==> Resolve(m) == Panic("OUT_DIR is not set")
    ensures "OUT_DIR" in m.build.env && "TARGET" in m.build.env &&
            !TryToFindAndLinkLib("ROCKSDB", m.build.env).found &&
            !Contains(m.build.env["TARGET"], "freebsd") && m.rocksdbDir != NonEmpty ==>
              Resolve(m).Panic?
    ensures "OUT_DIR" in m.build.env && "TARGET" in m.build.env &&
            !FreeBsdFallback(m.build.env, m.build.env["TARGET"]) &&
            ResolveRocksdb(m, m.build.env["TARGET"]).Ok? &&
            "snappy" in m.build.features && !TryToFindAndLinkLib("SNAPPY", m.build.env).found &&
            m.snappyDir != NonEmpty ==>
              Resolve(m).Panic?
  {
  }
}
