/** The part of the `cc` crate's `Build` configuration object that the build
    script drives: every `include`, `define`, `flag`, `flag_if_supported` and
    `file` call appends to a sequence, and the three switches it sets are
    recorded as they are. Compiling is outside the model: `Compile` records
    the archive name that `compile` was asked to produce. */
module CcBuild {
  import opened Wrappers

  /** `config.define(name, value)`; `None` defines the bare macro. */
  datatype Define = Define(name: string, value: Option<string>)

  /** A compiler flag passed unconditionally (`flag`) or only when the
      compiler accepts it (`flag_if_supported`, whose probe the model does not
      run). One sequence keeps the relative order of both kinds. */
  datatype Flag = Always(arg: string) | IfSupported(arg: string)

  /** Everything the build script has told a `Build`. */
  datatype BuildPlan = BuildPlan(
    includes: seq<string>,
    defines: seq<Define>,
    flags: seq<Flag>,
    files: seq<string>,
    cpp: bool,
    staticCrt: Option<bool>,
    extraWarnings: Option<bool>,
    archive: Option<string>)

  const EmptyPlan := BuildPlan([], [], [], [], false, None, None, None)

  /** `acc` extended by `s` when `cond` holds: the effect of every
      `if cond { config.xxx(..) }` block of the build script on the sequence
      `acc` it appends to. */
  function AppendIf<T>(acc: seq<T>, cond: bool, s: seq<T>): seq<T>
  {
    if cond then acc + s else acc
  }

  predicate HasDefine(p: BuildPlan, name: string, value: Option<string>)
  {
    Define(name, value) in p.defines
  }

  class Build {
    var includes: seq<string>
    var defines: seq<Define>
    var flags: seq<Flag>
    var files: seq<string>
    var cpp: bool
    var staticCrt: Option<bool>
    var extraWarnings: Option<bool>
    var archive: Option<string>

    /** The configuration as a value. */
    function Plan(): BuildPlan
      reads this
    {
      BuildPlan(includes, defines, flags, files, cpp, staticCrt, extraWarnings, archive)
    }

    /** `cc::Build::new()`: nothing configured yet. */
    constructor ()
      ensures includes == [] && defines == [] && flags == [] && files == []
      ensures !cpp && staticCrt == None && extraWarnings == None && archive == None
    {
      includes, defines, flags, files := [], [], [], [];
      cpp, staticCrt, extraWarnings, archive := false, None, None, None;
    }

    method Include(dir: string)
      modifies this`includes
      ensures includes == old(includes) + [dir]
    {
      includes := includes + [dir];
    }

    method AddDefine(name: string, value: Option<string>)
      modifies this`defines
      ensures defines == old(defines) + [Define(name, value)]
    {
      defines := defines + [Define(name, value)];
    }

    method AddFlag(arg: string)
      modifies this`flags
      ensures flags == old(flags) + [Always(arg)]
    {
      flags := flags + [Always(arg)];
    }

    method FlagIfSupported(arg: string)
      modifies this`flags
      ensures flags == old(flags) + [IfSupported(arg)]
    {
      flags := flags + [IfSupported(arg)];
    }

    method File(path: string)
      modifies this`files
      ensures files == old(files) + [path]
    {
      files := files + [path];
    }

    method Cpp(on: bool)
      modifies this`cpp
      ensures cpp == on
    {
      cpp := on;
    }

    method StaticCrt(on: bool)
      modifies this`staticCrt
      ensures staticCrt == Some(on)
    {
      staticCrt := Some(on);
    }

    method ExtraWarnings(on: bool)
      modifies this`extraWarnings
      ensures extraWarnings == Some(on)
    {
      extraWarnings := Some(on);
    }

    method Compile(output: string)
      modifies this`archive
      ensures archive == Some(output)
    {
      archive := Some(output);
    }
  }
}
