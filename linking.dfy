/** The build script's decisions about what to link: Windows system
    libraries, an installed copy of a library, and the C++ runtime. Each is a
    function from the environment to the `cargo:` lines it prints. */
module Linking {
  import opened Wrappers
  import opened Text
  import opened Cargo

  /** `link(name, bundled)`: on a target whose third dash-separated segment is
      `windows`, link `name` dynamically; with `bundled` on a `-gnu` target,
      also search `<manifest dir>/<architecture>`. Segments are read with a
      bounds-checked `get`, so a short target string links nothing. */
  function Link(name: string, bundled: bool, env: Env): (r: Result<seq<Directive>>)
    ensures Var(env, "TARGET").None? ==> r.Panic?
    ensures r.Ok? ==> var segs := Split(env["TARGET"], '-');
      && (r.value != [] <==> Get(segs, 2) == Some("windows"))
      && (r.value != [] ==> r.value[0] == LinkLib(Some(Dylib), name))
      && (|r.value| == 2 <==> Get(segs, 2) == Some("windows") && bundled && Get(segs, 3) == Some("gnu"))
      && |r.value| <= 2
      && (|r.value| == 2 ==> "CARGO_MANIFEST_DIR" in env &&
                              r.value[1] == LinkSearchNative(env["CARGO_MANIFEST_DIR"] + "/" + segs[0]))
    ensures !bundled ==> (r.Ok? <==> "TARGET" in env)
    ensures r.Panic? <==>
              ("TARGET" !in env ||
               (bundled && "CARGO_MANIFEST_DIR" !in env &&
                Get(Split(env["TARGET"], '-'), 2) == Some("windows") &&
                Get(Split(env["TARGET"], '-'), 3) == Some("gnu")))
    ensures "TARGET" in env && bundled && "CARGO_MANIFEST_DIR" !in env ==>
      var segs := Split(env["TARGET"], '-');
      (r.Panic? <==> Get(segs, 2) == Some("windows") && Get(segs, 3) == Some("gnu"))
  {
    match Var(env, "TARGET")
    case None => Panic("TARGET is not set")
    case Some(target) =>
      var segs := Split(target, '-');
      if Get(segs, 2) == Some("windows") then
        var lib := [LinkLib(Some(Dylib), name)];
        if bundled && Get(segs, 3) == Some("gnu") then
          match Var(env, "CARGO_MANIFEST_DIR")
          case None => Panic("CARGO_MANIFEST_DIR is not set")
          case Some(dir) => Ok(lib + [LinkSearchNative(dir + "/" + segs[0])])
        else Ok(lib)
      else Ok([])
  }

  /** `rocksdb_include_dir()`: the override in `ROCKSDB_INCLUDE_DIR`, or the
      bundled headers. */
  function RocksdbIncludeDir(env: Env): (r: string)
    ensures "ROCKSDB_INCLUDE_DIR" in env ==> r == env["ROCKSDB_INCLUDE_DIR"]
    ensures "ROCKSDB_INCLUDE_DIR" !in env ==> r == "rocksdb/include"
  {
    match Var(env, "ROCKSDB_INCLUDE_DIR")
    case Some(dir) => dir
    case None => "rocksdb/include"
  }

  /** `<LIB>_COMPILE` asks for the bundled build: it lowercases to `true` or
      is exactly `1`. */
  predicate ForcesCompile(env: Env, libName: string)
  {
    var v := Var(env, libName + "_COMPILE");
    v.Some? && (ToLower(v.value) == "true" || v.value == "1")
  }

  /** What `try_to_find_and_link_lib` returns and prints. */
  datatype Lookup = Lookup(found: bool, out: seq<Directive>)

  /** The link mode for an installed library: static iff `<LIB>_STATIC` is set
      to anything. */
  function ModeFor(env: Env, libName: string): LinkKind
  {
    if Var(env, libName + "_STATIC").Some? then Static else Dylib
  }

  /** `try_to_find_and_link_lib(lib_name)`. */
  function TryToFindAndLinkLib(libName: string, env: Env): (r: Lookup)
    ensures r.found <==> !ForcesCompile(env, libName) && libName + "_LIB_DIR" in env
    ensures |r.out| >= 1 && r.out[0] == RerunIfEnvChanged(libName + "_COMPILE")
    ensures ForcesCompile(env, libName) ==> r.out == [RerunIfEnvChanged(libName + "_COMPILE")]
    ensures !ForcesCompile(env, libName) ==>
              |r.out| == (if r.found then 5 else 3) &&
              r.out[..3] == [RerunIfEnvChanged(libName + "_COMPILE"), RerunIfEnvChanged(libName + "_LIB_DIR"),
                             RerunIfEnvChanged(libName + "_STATIC")]
    ensures !r.found ==> forall d :: d in r.out ==> !d.LinkLib? && !d.LinkSearchNative?
    ensures r.found ==>
              |r.out| >= 2 &&
              r.out[|r.out| - 2..] == [LinkSearchNative(env[libName + "_LIB_DIR"]),
                                       LinkLib(Some(ModeFor(env, libName)), ToLower(libName))]
  {
    var compile := RerunIfEnvChanged(libName + "_COMPILE");
    if ForcesCompile(env, libName) then Lookup(false, [compile])
    else
      var watched := [compile, RerunIfEnvChanged(libName + "_LIB_DIR"),
                      RerunIfEnvChanged(libName + "_STATIC")];
      match Var(env, libName + "_LIB_DIR")
      case Some(dir) =>
        Lookup(true, watched + [LinkSearchNative(dir), LinkLib(Some(ModeFor(env, libName)), ToLower(libName))])
      case None => Lookup(false, watched)
  }

  /** Any value of `<LIB>_COMPILE` other than a spelling of `true` or `1`
      falls through to the search, exactly as if it were unset. */
  lemma OtherCompileValuesFallThrough(libName: string, env: Env, v: string)
    requires ToLower(v) != "true" && v != "1"
    ensures TryToFindAndLinkLib(libName, env[libName + "_COMPILE" := v]) ==
            TryToFindAndLinkLib(libName, env - {libName + "_COMPILE"})
  {
    var e1 := env[libName + "_COMPILE" := v];
    var e2 := env - {libName + "_COMPILE"};
    assert !ForcesCompile(e1, libName) && !ForcesCompile(e2, libName);
    var lib, st := libName + "_LIB_DIR", libName + "_STATIC";
    assert lib != libName + "_COMPILE" by {
      assert lib[|libName| + 1] == 'L' && (libName + "_COMPILE")[|libName| + 1] == 'C';
    }
    assert st != libName + "_COMPILE" by {
      assert |st| != |libName + "_COMPILE"|;
    }
    assert Var(e1, lib) == Var(e2, lib);
    assert ModeFor(e1, libName) == ModeFor(e2, libName);
  }

  /** The C++ runtime chosen for each target, in the order the build script
      tests for it: the first pattern the target contains wins. */
  const RuntimeTable: seq<(string, seq<string>)> := [
    ("apple", ["c++"]), ("freebsd", ["c++"]), ("openbsd", ["c++"]),
    ("linux", ["stdc++"]), ("aix", ["c++", "c++abi"])]

  /** `cpp_link_stdlib(target)`: link the C++ runtime of an installed RocksDB. */
  function CppLinkStdlib(target: string, env: Env): (r: seq<Directive>)
  {
    match Var(env, "CXXSTDLIB")
    case Some(stdlib) => [LinkLib(Some(Dylib), stdlib)]
    case None =>
      if Contains(target, "apple") || Contains(target, "freebsd") || Contains(target, "openbsd") then
        [LinkLib(Some(Dylib), "c++")]
      else if Contains(target, "linux") then [LinkLib(Some(Dylib), "stdc++")]
      else if Contains(target, "aix") then [LinkLib(Some(Dylib), "c++"), LinkLib(Some(Dylib), "c++abi")]
      else []
  }

  /** The libraries of a list of dynamic-link directives, in order. */
  function DylibNames(names: seq<string>): (r: seq<Directive>)
    ensures |r| == |names|
    ensures forall i :: 0 <= i < |names| ==> r[i] == LinkLib(Some(Dylib), names[i])
  {
    seq(|names|, i requires 0 <= i < |names| => LinkLib(Some(Dylib), names[i]))
  }

  /** `CXXSTDLIB` overrides the choice; otherwise the runtime is the one the
      table gives for the first pattern the target contains, and nothing for a
      target that contains none. Every directive links dynamically. */
  lemma CppLinkStdlibIsTableLookup(target: string, env: Env)
    ensures "CXXSTDLIB" in env ==> CppLinkStdlib(target, env) == [LinkLib(Some(Dylib), env["CXXSTDLIB"])]
    ensures "CXXSTDLIB" !in env ==>
      CppLinkStdlib(target, env) == DylibNames(FirstMatch(RuntimeTable, target, []))
    ensures forall d :: d in CppLinkStdlib(target, env) ==> d.LinkLib? && d.kind == Some(Dylib)
  {
    var t := RuntimeTable;
    FirstMatchStep(t, target, [], 0);
    FirstMatchStep(t, target, [], 1);
    FirstMatchStep(t, target, [], 2);
    FirstMatchStep(t, target, [], 3);
    FirstMatchStep(t, target, [], 4);
    assert t[0..] == t && t[5..] == [];
    if "CXXSTDLIB" !in env {
      var names := FirstMatch(RuntimeTable, target, []);
      assert names in {[], ["c++"], ["stdc++"], ["c++", "c++abi"]};
      assert DylibNames(names) == CppLinkStdlib(target, env);
    }
  }
}
