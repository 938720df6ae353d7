# librocksdb-sys build script, modelled in Dafny

This project models the build script `librocksdb-sys/build.rs` of the Rust
RocksDB bindings: the part of it that decides how the native library is
obtained and configured. Given the environment that Cargo passes (the target
triple, `CARGO_CFG_*` values, the `<LIB>_COMPILE` / `<LIB>_LIB_DIR` /
`<LIB>_STATIC` overrides, the `DEP_*_INCLUDE` hints), the enabled crate
features and the state of the `rocksdb/` and `snappy/` submodules, `main`:

- links an installed RocksDB, with its C++ runtime, or compiles the bundled one
  (`build_rocksdb`). FreeBSD is the exception: without an installed library it
  always links the system one from `/usr/local/lib`;
- does the same for Snappy when the `snappy` feature is on (`build_snappy`);
- publishes the manifest and output directories to dependent crates.

`build_rocksdb` configures a `cc::Build` step by step. It adds include
directories, codec defines, x86_64 instruction-set flags from
`CARGO_CFG_TARGET_FEATURE`, and one operating-system branch chosen by the
first family name the triple contains. It also adds the jemalloc, io-uring
and large-file defines, the MSVC or GCC/Clang flags, and the compilation
units. The units are the source list with the version file replaced and, on
Windows, the POSIX port replaced by the Windows port.

Layout:

- `wrappers.dfy`: `Option` and `Result`; a panic is `Result.Panic(message)`.
- `cargo.dfy`: the environment as a map and the `cargo:` lines as a datatype.
- `text.dfy`: `str::contains`, `split`, `trim`, `to_lowercase`, `get`.
- `cc_build.dfy`: the `cc::Build` object, as a class whose methods append to
  its sequence fields.
- `target.dfy`: the operating-system branch chain and `NO_JEMALLOC_TARGETS`.
- `linking.dfy`: `link`, `rocksdb_include_dir`, `try_to_find_and_link_lib`,
  `cpp_link_stdlib`.
- `sources.dfy`: the compilation-unit list.
- `rocksdb.dfy`: `build_rocksdb`.
  - Specification functions say what each part of the configuration is.
  - Methods build it on a `Build` object in the script's order, and are
    proved to produce exactly that.
- `rocksdb_props.dfy`: what the RocksDB configuration promises.
- `snappy.dfy`: `build_snappy`.
- `main.dfy`: `main`.

Behaviour of the code that the model keeps and that is easy to miss:

- The toolchain include paths are hard-coded literals. No environment value overrides them, and nothing compares them with a default.
- The Windows jemalloc glue file is appended whenever the `jemalloc` feature is on and the target is Windows. Unlike the `JEMALLOC` define, it is not gated by `NO_JEMALLOC_TARGETS` (lines 279-281).
- A missing `CARGO_CFG_TARGET_POINTER_WIDTH` panics, except on `armv7-linux-androideabi`, where the `&&` short-circuits before the `unwrap` (lines 301-303).
- The MSVC or GCC/Clang flags are chosen by whether the target triple contains `msvc`, not by asking the compiler (lines 308, 362).
- Only Snappy has a choice between an installed and a bundled build. The other codecs only take include directories from `DEP_*_INCLUDE`.
- The RocksDB lookup's lines are printed before the Snappy lookup's.
- `build.rs` prints no link line for the bundled archive. `cc` links the archive itself.
- Nothing in the script removes duplicate compilation units. `Sources.SourcesHaveNoDuplicates` proves there are none when the master list has no repeats and does not already hold the Windows files.

## Model

| member | source | states |
|---|---|---|
| Cargo.Var | librocksdb-sys/build.rs:83 | `env::var(name)` is `Some` exactly when the variable is set, and then it is the variable's value |
| Text.FirstMatchIsEarliest | librocksdb-sys/build.rs:188-236 | the value a priority table yields belongs to the first pattern the string contains; no earlier pattern occurs in it; when none occurs, the default is returned |
| Text.Split | librocksdb-sys/build.rs:161 | `split(',')` always yields at least one part (an empty string gives one empty part) |
| Text.JoinSplit | librocksdb-sys/build.rs:161 | joining the parts of a split with the separator gives back the original string |
| Text.SplitJoin | librocksdb-sys/build.rs:161 | splitting a join of separator-free parts gives back the parts |
| Text.SplitPartsSeparatorFree | librocksdb-sys/build.rs:148 | no part of a split contains the separator |
| Text.TrimStartIsSuffix | librocksdb-sys/build.rs:147 | trimming the front removes a prefix made only of whitespace, and what remains does not start with whitespace |
| Text.TrimEndIsPrefix | librocksdb-sys/build.rs:147 | trimming the back removes a suffix made only of whitespace, and what remains does not end with whitespace |
| Text.TrimIsInnerSlice | librocksdb-sys/build.rs:147-149 | `trim` yields a contiguous slice of its input with no whitespace at either end, and everything cut away on either side is whitespace |
| Text.ToLower | librocksdb-sys/build.rs:387 | `to_lowercase` keeps the length and lowercases each character |
| Text.ToLowerTrue | librocksdb-sys/build.rs:387 | a value lowercases to `true` exactly when it is `true` in any mix of letter cases |
| Text.Get | librocksdb-sys/build.rs:18-19 | `get(i)` is `Some` exactly when `i` is in bounds, and then it is the element: no out-of-bounds panic |
| Target.ClassifyIsFirstMatch | librocksdb-sys/build.rs:188-236 | the `if target.contains(..)` chain equals a lookup in the explicit priority table `apple-ios, darwin, android, aix, linux, dragonfly, freebsd, netbsd, openbsd, windows` |
| Target.ClassifyPriority | librocksdb-sys/build.rs:188-236 | a target falls in a family exactly when it contains that family's name and none ranked before it. It falls in no family exactly when it contains none of them |
| Linking.Link | librocksdb-sys/build.rs:15-26 | `link` prints nothing unless dash-segment 2 is exactly `windows`, and then first `dylib=<name>`. The second line, `native=<manifest dir>/<segment 0>`, follows only when `bundled` is set and segment 3 is exactly `gnu`. A missing `TARGET` panics. A missing `CARGO_MANIFEST_DIR` panics exactly when that second line is due. An unbundled link panics only for a missing `TARGET` |
| Linking.RocksdbIncludeDir | librocksdb-sys/build.rs:36-38 | `ROCKSDB_INCLUDE_DIR` when set, `rocksdb/include` otherwise |
| Linking.TryToFindAndLinkLib | librocksdb-sys/build.rs:384-405 | found exactly when `<LIB>_COMPILE` does not force a build and `<LIB>_LIB_DIR` is set. The first line watches `<LIB>_COMPILE`. A forced build prints only that line. A miss prints no link lines. A hit ends with the search path and `static` or `dylib` with the lowercased name |
| Linking.OtherCompileValuesFallThrough | librocksdb-sys/build.rs:386-390 | any `<LIB>_COMPILE` value other than a spelling of `true` or `1` behaves exactly as if the variable were unset |
| Linking.CppLinkStdlibIsTableLookup | librocksdb-sys/build.rs:431-443 | `CXXSTDLIB` wins. Otherwise the runtime comes from the first of apple/freebsd/openbsd (`c++`), linux (`stdc++`), aix (`c++` then `c++abi`), else nothing. Every line is a dynamic link |
| Sources.ParsedEntriesAreClean | librocksdb-sys/build.rs:146-149 | the entries are the lines of the trimmed file, in order and each trimmed (the lines joined with newlines give the trimmed file back); the list is never empty, and each entry is one line with no surrounding whitespace |
| Sources.FilterOut | librocksdb-sys/build.rs:151 | the filter keeps exactly the entries not excluded, and never grows the list |
| Sources.FilterOutAppend | librocksdb-sys/build.rs:255-267 | filtering works piecewise over concatenation, so survivors keep their relative order |
| Sources.FilterOutAbsent | librocksdb-sys/build.rs:255-267 | filtering out names that are not present changes nothing |
| Sources.FilterOutTwice | librocksdb-sys/build.rs:255-267 | two filters in a row are one filter by the union of the excluded names |
| Sources.FilterOutNoDuplicates | librocksdb-sys/build.rs:255-267 | filtering a list without repeats leaves a list without repeats |
| Sources.NonWindowsSources | librocksdb-sys/build.rs:146-152 | off Windows the units are exactly the master list minus `util/build_version.cc`: nothing else removed, added or reordered |
| Sources.WindowsPortContents | librocksdb-sys/build.rs:255-281 | the Windows port is the surviving entries, then the six `port/win` files in order, then `win_jemalloc.cc` iff the feature is on. No POSIX file or version file remains |
| Sources.WindowsSourceSet | librocksdb-sys/build.rs:236-281 | on a Windows target the units are the master list minus the version file and the four POSIX files (exact names), then the six Windows files in order, then the jemalloc glue iff the feature is on |
| Sources.SourcesHaveNoDuplicates | librocksdb-sys/build.rs:255-281 | given a master list without repeats that lacks the Windows files, no unit is compiled twice |
| CcBuild.Build.constructor | librocksdb-sys/build.rs:85 | `cc::Build::new()` starts with nothing configured |
| CcBuild.Build.Include | librocksdb-sys/build.rs:86 | `include` appends one directory and changes nothing else |
| CcBuild.Build.AddDefine | librocksdb-sys/build.rs:97 | `define` appends one macro and changes nothing else |
| CcBuild.Build.AddFlag | librocksdb-sys/build.rs:93 | `flag` appends one unconditional flag |
| CcBuild.Build.FlagIfSupported | librocksdb-sys/build.rs:164 | `flag_if_supported` appends one probed flag, in the same sequence as `flag`, so relative order is kept |
| CcBuild.Build.File | librocksdb-sys/build.rs:332 | `file` appends one compilation unit |
| CcBuild.Build.Cpp | librocksdb-sys/build.rs:337 | `cpp(true)` records C++ mode |
| CcBuild.Build.StaticCrt | librocksdb-sys/build.rs:310 | `static_crt(true)` records the static runtime |
| CcBuild.Build.ExtraWarnings | librocksdb-sys/build.rs:360 | `extra_warnings(false)` records the switch |
| CcBuild.Build.Compile | librocksdb-sys/build.rs:348 | `compile` records the archive name |
| Rocksdb.Prefixed | librocksdb-sys/build.rs:331-333 | each unit is `rocksdb/` followed by the source entry, position by position |
| Rocksdb.AddBaseIncludes | librocksdb-sys/build.rs:86-90 | the five fixed include directories are appended in order |
| Rocksdb.ConfigureCodec | librocksdb-sys/build.rs:101-106 | with its feature on, a codec appends `NAME=1`, and its include directory when the `DEP_*_INCLUDE` hint is set. With the feature off, nothing changes |
| Rocksdb.ConfigureSnappy | librocksdb-sys/build.rs:96-99 | with the `snappy` feature, `SNAPPY=1` and the `snappy/` include |
| Rocksdb.ConfigureRtti | librocksdb-sys/build.rs:129-131 | with the `rtti` feature, `USE_RTTI=1` |
| Rocksdb.ConfigureCompression | librocksdb-sys/build.rs:96-131 | the five codecs in order, then RTTI |
| Rocksdb.FlagIfSupportedWhen | librocksdb-sys/build.rs:163-165 | a guarded `flag_if_supported` |
| Rocksdb.ConfigureTargetFeatures | librocksdb-sys/build.rs:154-186 | the seven guarded instruction-set flags |
| Rocksdb.DefinePosixPlatform | librocksdb-sys/build.rs:200-202 | a POSIX branch: its marker, then the two POSIX platform defines |
| Rocksdb.ConfigureIos | librocksdb-sys/build.rs:188-198 | the iOS branch's seven defines in order |
| Rocksdb.ConfigureAndroid | librocksdb-sys/build.rs:203-210 | the Android branch, with `_FILE_OFFSET_BITS=32` only for `armv7-linux-androideabi` |
| Rocksdb.ConfigureLinux | librocksdb-sys/build.rs:215-219 | the Linux branch, ending with `ROCKSDB_SCHED_GETCPU_PRESENT` |
| Rocksdb.ConfigureWindows | librocksdb-sys/build.rs:236-282 | the Windows branch: the two system-library links, the six defines, the MinGW pair only for `x86_64-pc-windows-gnu`, and the Windows port of the sources |
| Rocksdb.ConfigureOs | librocksdb-sys/build.rs:188-282 | the branch of the first family the target names; only Windows links libraries or changes the sources |
| Rocksdb.ConfigureJemalloc | librocksdb-sys/build.rs:286-292 | the jemalloc defines and the `DEP_JEMALLOC_ROOT/include` directory, on the targets that allow it |
| Rocksdb.ConfigureToolchain | librocksdb-sys/build.rs:308-326 | the MSVC or GCC/Clang flags, and the static runtime for MSVC with `mt_static` |
| Rocksdb.AddSourceFiles | librocksdb-sys/build.rs:331-333 | one `rocksdb/`-prefixed unit per source, in order |
| Rocksdb.AddLtoFlag | librocksdb-sys/build.rs:134-135 | `-flto` with the `lto` feature |
| Rocksdb.ConfigureIoUring | librocksdb-sys/build.rs:294-299 | `ROCKSDB_IOURING_PRESENT=1` for the feature on Linux |
| Rocksdb.ConfigureLargeFile | librocksdb-sys/build.rs:301-306 | the 64-bit file-offset pair when the width is not 64, except on `armv7-linux-androideabi` |
| Rocksdb.ConfigureIoSupport | librocksdb-sys/build.rs:294-306 | the io-uring and large-file steps. They panic for io-uring on Linux without liburing, then for a missing pointer width off `armv7-linux-androideabi`, and configure otherwise |
| Rocksdb.ConfigureFront | librocksdb-sys/build.rs:82-135 | the includes, sysroot flag, codecs and `-flto` before the LTO check |
| Rocksdb.ConfigurePlatform | librocksdb-sys/build.rs:143-292 | from the `.` include through jemalloc: includes, defines, SIMD flags, system links and source list |
| Rocksdb.ConfigureTail | librocksdb-sys/build.rs:308-348 | toolchain flags, units with `build_version.cc` last, C++ mode, probed `-std=c++20`, the `<cstdint>` include off Windows, and the archive name |
| Rocksdb.FinishRocksdb | librocksdb-sys/build.rs:294-348 | the rest of `build_rocksdb` after the platform step yields exactly the specified outcome |
| Rocksdb.CompileRocksdb | librocksdb-sys/build.rs:327-348 | the steps after the last panic yield exactly the specified configuration and lines |
| Rocksdb.BuildRocksdb | librocksdb-sys/build.rs:81-348 | `build_rocksdb` on a fresh `Build` yields exactly the specified configuration and lines, or the first panic: `TARGET`, then LTO without clang, then io-uring, then pointer width |
| RocksdbProperties.BranchDefinesShape | librocksdb-sys/build.rs:188-251 | every branch keeps the earlier defines, adds its family's marker and no other marker; any value it adds is one of four fixed ones |
| RocksdbProperties.CompressionDefinesAdds | librocksdb-sys/build.rs:96-131 | the codec step adds only `NAME=1` defines of codecs |
| RocksdbProperties.CompressionDefinesCodec | librocksdb-sys/build.rs:96-131 | each codec's define is added exactly when its feature is on |
| RocksdbProperties.JemallocDefinesAdds | librocksdb-sys/build.rs:286-288 | the jemalloc step adds exactly its two defines when jemalloc is used, and nothing otherwise |
| RocksdbProperties.LateDefinesAdds | librocksdb-sys/build.rs:294-306 | the io-uring and large-file steps add exactly their defines under exactly their conditions |
| RocksdbProperties.OneOsMarker | librocksdb-sys/build.rs:188-236 | the defines carry exactly one `OS_*` marker, bare, that of the first family the target names. A target naming both `linux` and `android` is Android only, and a target naming no family gets no marker |
| RocksdbProperties.SchedGetcpuOnLinux | librocksdb-sys/build.rs:215-219 | `ROCKSDB_SCHED_GETCPU_PRESENT` is defined iff the target is in the Linux branch |
| RocksdbProperties.BranchDefinesPosix | librocksdb-sys/build.rs:188-236 | a branch adds `ROCKSDB_PLATFORM_POSIX` and `ROCKSDB_LIB_IO_POSIX` iff it is not the Windows branch and the target was recognised |
| RocksdbProperties.PosixPortDefines | librocksdb-sys/build.rs:188-236 | `ROCKSDB_PLATFORM_POSIX` and `ROCKSDB_LIB_IO_POSIX` are each in the final defines iff the target falls into a recognised family other than Windows |
| RocksdbProperties.BranchDefinesWindows | librocksdb-sys/build.rs:236-246 | a branch adds `DWIN32`, `_MBCS`, `WIN64`, `NOMINMAX` or `ROCKSDB_WINDOWS_UTF8_FILENAMES` iff it is the Windows branch |
| RocksdbProperties.WindowsBareDefines | librocksdb-sys/build.rs:236-246 | `DWIN32`, `_MBCS`, `WIN64`, `NOMINMAX` and `ROCKSDB_WINDOWS_UTF8_FILENAMES` are each in the final defines iff the target is in the Windows branch |
| RocksdbProperties.LateValuedDefine | librocksdb-sys/build.rs:284-306 | a valued define that no branch or codec adds is present exactly when the jemalloc, io-uring or large-file conditions add it |
| RocksdbProperties.JemallocGate | librocksdb-sys/build.rs:286-288 | `ROCKSDB_JEMALLOC` and `JEMALLOC_NO_DEMANGLE` are defined iff the feature is on and the target names none of `android`, `dragonfly`, `musl`, `darwin` |
| RocksdbProperties.LargeFileGate | librocksdb-sys/build.rs:301-306 | `_FILE_OFFSET_BITS=64` and `_LARGEFILE64_SOURCE=1` are defined iff the width is set and not `64` and the target is not `armv7-linux-androideabi` |
| RocksdbProperties.IoUringGate | librocksdb-sys/build.rs:294-299 | `ROCKSDB_IOURING_PRESENT=1` is defined iff the feature is on and the target names `linux` |
| RocksdbProperties.Armv7IsAndroid | librocksdb-sys/build.rs:203-210 | `armv7-linux-androideabi` takes the Android branch, not the Linux one |
| RocksdbProperties.Offset32OnlyArmv7 | librocksdb-sys/build.rs:208-210 | `_FILE_OFFSET_BITS=32` is defined for `armv7-linux-androideabi` and no other target |
| RocksdbProperties.EarlyValuedDefine | librocksdb-sys/build.rs:96-144 | a valued define no later step adds is present exactly when the codec or `NDEBUG` steps add it |
| RocksdbProperties.CodecDefined | librocksdb-sys/build.rs:96-127 | each codec's `NAME=1` is in the final defines iff its feature is on |
| RocksdbProperties.TargetFeatureFlagsFollowTable | librocksdb-sys/build.rs:154-186 | the seven `if` blocks equal a walk of the table of (token, flag) pairs in order, and add nothing off x86_64 or without `CARGO_CFG_TARGET_FEATURE` |
| RocksdbProperties.SimdFlagsFromMembers | librocksdb-sys/build.rs:161-185 | the walk keeps what came before in front and adds exactly the flags of the selected entries |
| RocksdbProperties.SimdEntryMember | librocksdb-sys/build.rs:161-185 | with distinct flags, an entry's flag is added exactly when the entry is selected |
| RocksdbProperties.PlatformSimdFlag | librocksdb-sys/build.rs:154-186 | each flag is added exactly when the target is x86_64, the variable is set, its exact token is a comma-separated entry, and, for `-mpclmul`, the target does not name `android` |
| RocksdbProperties.RocksdbFlagsShape | librocksdb-sys/build.rs:308-342 | after the platform flags come: for MSVC, `-EHsc` and `-std:c++20`; otherwise `cxx_standard()` and the nine warnings in order. Then the probed `-std=c++20`, then `-include cstdint` off Windows |
| RocksdbProperties.ProbedFlagsArePlatformOrStd | librocksdb-sys/build.rs:338 | the only flag probed after the platform flags is `-std=c++20` |
| RocksdbProperties.SimdFlag | librocksdb-sys/build.rs:154-186 | the same per-flag condition holds for the final flag list; an unset variable gives none of them and no error |
| RocksdbProperties.RocksdbFilesShape | librocksdb-sys/build.rs:331-335 | the last unit is the crate's `build_version.cc`, `rocksdb/util/build_version.cc` is never compiled, and `rocksdb/x` is compiled iff `x` is in the rewritten source list |
| RocksdbProperties.RocksdbDirectivesShape | librocksdb-sys/build.rs:82-330 | the lines `build_rocksdb` itself prints are the banner, then `rpcrt4` and `shlwapi` for a Windows target whose segment 2 is `windows`, then `atomic` for `riscv64gc`, and no others |
| RocksdbProperties.Armv7NeedsNoPointerWidth | librocksdb-sys/build.rs:301-303 | `armv7-linux-androideabi` builds without `CARGO_CFG_TARGET_POINTER_WIDTH`; only the LTO and io-uring checks can stop it |
| RocksdbProperties.OtherTargetsNeedPointerWidth | librocksdb-sys/build.rs:301-302 | every other target panics without `CARGO_CFG_TARGET_POINTER_WIDTH` |
| RocksdbProperties.RocksdbBuildSucceeds | librocksdb-sys/build.rs:83-348 | `build_rocksdb` succeeds exactly when `TARGET` is set, LTO is not asked for without clang, io-uring is not asked for on Linux without liburing, and the target is `armv7-linux-androideabi` or has a pointer width. A missing `TARGET` panics first, then the LTO check, then the io-uring check. A success compiles C++ into `librocksdb.a` |
| RocksdbProperties.BundledBuildLinks | librocksdb-sys/build.rs:237-329 | the only libraries `build_rocksdb` itself asks to link are `rpcrt4`, `shlwapi` and `atomic` |
| Snappy.ConfigureSnappyToolchain | librocksdb-sys/build.rs:362-371 | for MSVC: `-EHsc`, and the static runtime with `mt_static`; otherwise `-std=c++11` |
| Snappy.ConfigureSnappyBuild | librocksdb-sys/build.rs:355-381 | the three includes, `NDEBUG=1`, no extra warnings, the toolchain step, the big-endian define, the three units, C++ mode, `libsnappy.a` |
| Snappy.BuildSnappy | librocksdb-sys/build.rs:351-382 | `build_snappy` on a fresh `Build` yields exactly the specified configuration, or the `TARGET` panic, then the endianness panic |
| Snappy.SnappyPanics | librocksdb-sys/build.rs:352-353 | Snappy builds iff both `TARGET` and `CARGO_CFG_TARGET_ENDIAN` are set, and a missing `TARGET` is reported first |
| Snappy.SnappyEndianness | librocksdb-sys/build.rs:359-375 | `NDEBUG=1` comes first, `SNAPPY_IS_BIG_ENDIAN=1` is defined iff the endianness is `big`, and every define has value `1` |
| Snappy.SnappyToolchain | librocksdb-sys/build.rs:362-371 | one flag: `-EHsc` iff MSVC, `-std=c++11` iff not. The static runtime is used iff MSVC with `mt_static`. C++20 is never requested |
| BuildScript.DirectoryCheck | librocksdb-sys/build.rs:28-34 | `fail_on_empty_directory` passes exactly for a readable non-empty directory |
| BuildScript.RunRocksdb | librocksdb-sys/build.rs:452-471 | the RocksDB half of `main`, step by step, yields exactly the specified outcome. From its one lookup it also reports whether `main` returns early on FreeBSD |
| BuildScript.RunSnappy | librocksdb-sys/build.rs:472-476 | the Snappy half of `main`, step by step, yields exactly the specified outcome |
| BuildScript.Run | librocksdb-sys/build.rs:445-486 | `main`, step by step, yields exactly the specified outcome |
| BuildScript.SnappyExtends | librocksdb-sys/build.rs:472-476 | the Snappy step keeps the RocksDB decision and only appends lines |
| BuildScript.FreeBsdNeverBuilds | librocksdb-sys/build.rs:452-464 | on FreeBSD without an installed RocksDB found, `main` links `rocksdb` from `/usr/local/lib` with the `ROCKSDB_STATIC` mode and stops. It compiles nothing, not even Snappy, whatever the directories and features, and prints no metadata |
| BuildScript.SystemRocksdbLinksRuntime | librocksdb-sys/build.rs:452-471 | an installed RocksDB compiles nothing and is followed at once by its C++ runtime lines |
| BuildScript.RocksdbLinesComeFirst | librocksdb-sys/build.rs:452-486 | of the lines the model keeps, the RocksDB step's come first |
| BuildScript.BundledRocksdbLinksNoRuntime | librocksdb-sys/build.rs:466-468 | the bundled RocksDB is compiled with `build_rocksdb`'s configuration, and `build.rs` itself prints no C++ runtime line for it: its only link lines are `rpcrt4`, `shlwapi` and `atomic` |
| BuildScript.SnappyBuiltIff | librocksdb-sys/build.rs:472-476 | Snappy is compiled iff its feature is on, no installed Snappy is found, and `main` did not stop at the FreeBSD fallback |
| BuildScript.MetadataComesLast | librocksdb-sys/build.rs:481-485 | unless stopped at the FreeBSD fallback, the last two lines publish the manifest and output directories |
| BuildScript.MissingSubmodulePanics | librocksdb-sys/build.rs:445-486 | a missing `OUT_DIR` panics before any other panic the model keeps. A missing or empty submodule directory panics when its sources must be compiled |

## Left out

- Binding generation (`bindgen_rocksdb`, lines 40-79) is a foreign call that writes a file. Only its `OUT_DIR` lookup is kept, because it is the first panic the model keeps. The two `cargo:warning` lines `build.rs` prints inside it (lines 41 and 56), its `set_var` calls and a failure of `generate` (lines 72-73) are not modelled, so none of them appears in the model's output.
- `update_submodules` and the `rocksdb/AUTHORS` check (lines 411-429, 446) spawn `git`. The submodule state enters only as `DirState`, which is what `fail_on_empty_directory` inspects. The `Running command` line `update_submodules` prints (line 415) and its three panics (lines 424-427) are not modelled.
- The compiler itself is not modelled.
  - `compile` is recorded as the archive name it is asked for.
  - `flag_if_supported` records the flag without probing the compiler.
  - `is_like_clang` and the `pkg_config` probe for liburing are inputs (`Inputs.isClang`, `Inputs.liburingFound`).
- `env::set_var("IPHONEOS_DEPLOYMENT_TARGET", ..)` (line 198) changes the process environment for the compiler only. Nothing the script reads later depends on it.
- `Rocksdb.JoinInclude`: `Path::join` is modelled with the `/` separator of a Unix host. On a Windows host it joins with `\`, so a Windows build with `jemalloc` and `DEP_JEMALLOC_ROOT` set gets a different include string than the model gives.
- The output is the lines `build.rs` itself prints. Lines printed by code it calls are not in it: `cc`'s `compile` (the archive's link line and the C++ runtime's, lines 344-348), and `pkg_config::probe_library("liburing")` (line 296). So a bundled build does link a C++ runtime and the archive, through `cc`, although the model's output shows neither.
- `Cargo.Var`: environment values are modelled as Unicode strings. `env::var`'s `NotUnicode` error, which the script treats like an unset variable or unwraps into a panic, is not modelled. Neither is the difference from `env::var_os`, which would report such a value as set.
- The lines a run prints before it panics are not kept: a panic is `Result.Panic(message)`. The panic messages of `unwrap` are stand-ins for Rust's.
- `BuildScript.DirectoryCheck` models only the panic. The two warning lines printed before it are dropped with everything else printed before a panic.
- `str::trim` and `str::to_lowercase` are modelled for ASCII only. Unicode whitespace and case mappings are not modelled.
- The Nix store path literals are kept as opaque constants.
- `rocksdb_include_dir` is modelled, but only binding generation uses it.
- The `test-cc-rs` crate is not part of this model. It is a smoke test with no decisions.
