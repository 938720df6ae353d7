/** The RocksDB compilation units: the master list read from
    `rocksdb_lib_sources.txt`, with the version file swapped and, on Windows,
    the POSIX port swapped for the Windows port. */
module Sources {
  import opened Text
  import opened Target
  import opened CcBuild

  /** Replaced by the pre-generated `build_version.cc` in the crate directory. */
  const BuildVersion := "util/build_version.cc"
  const LocalBuildVersion := "build_version.cc"

  const PosixSources: set<string> :=
    {"port/port_posix.cc", "env/env_posix.cc", "env/fs_posix.cc", "env/io_posix.cc"}

  const WindowsSources: seq<string> := [
    "port/win/env_default.cc", "port/win/env_win.cc", "port/win/io_win.cc",
    "port/win/port_win.cc", "port/win/win_logger.cc", "port/win/win_thread.cc"]

  const WinJemalloc := "port/win/win_jemalloc.cc"

  /** Each line trimmed (`.map(str::trim)`). */
  function TrimAll(lines: seq<string>): (r: seq<string>)
    ensures |r| == |lines|
    ensures forall i :: 0 <= i < |lines| ==> r[i] == Trim(lines[i])
  {
    seq(|lines|, i requires 0 <= i < |lines| => Trim(lines[i]))
  }

  /** `include_str!(..).trim().split('\n').map(str::trim)`. */
  function ParseSourceList(text: string): seq<string>
  {
    TrimAll(Split(Trim(text), '\n'))
  }

  /** The parsed entries are the lines of the trimmed file, in order, each
      trimmed: joined back with newlines the lines give the trimmed file, and
      every entry is one line with no surrounding whitespace. The list is
      never empty (an empty file gives `[""]`). */
  lemma ParsedEntriesAreClean(text: string)
    ensures var lines := Split(Trim(text), '\n');
      && Join(lines, '\n') == Trim(text)
      && |ParseSourceList(text)| == |lines| >= 1
      && forall i :: 0 <= i < |lines| ==> ParseSourceList(text)[i] == Trim(lines[i])
    ensures forall i :: 0 <= i < |ParseSourceList(text)| ==> CleanEntry(ParseSourceList(text)[i])
  {
    var lines := Split(Trim(text), '\n');
    JoinSplit(Trim(text), '\n');
    SplitPartsSeparatorFree(Trim(text), '\n');
    forall i | 0 <= i < |lines| ensures CleanEntry(Trim(lines[i])) {
      TrimmedLineIsClean(lines[i]);
    }
  }

  /** One line of the file, without newline or surrounding whitespace. */
  predicate CleanEntry(e: string)
  {
    '\n' !in e && (|e| > 0 ==> !IsSpace(e[0]) && !IsSpace(e[|e| - 1]))
  }

  lemma TrimmedLineIsClean(line: string)
    requires '\n' !in line
    ensures CleanEntry(Trim(line))
  {
    TrimIsInnerSlice(line);
    var a, b :| 0 <= a <= b <= |line| && Trim(line) == line[a..b];
    assert forall c :: c in line[a..b] ==> c in line;
  }

  /** Keep the entries not in `excluded`, in their order (`.filter(|f| !matches!(..))`). */
  function FilterOut(s: seq<string>, excluded: set<string>): (r: seq<string>)
    ensures forall x :: x in r <==> x in s && x !in excluded
    ensures |r| <= |s|
  {
    if |s| == 0 then []
    else if s[0] in excluded then FilterOut(s[1..], excluded)
    else [s[0]] + FilterOut(s[1..], excluded)
  }

  /** Filtering works piecewise, so the surviving entries keep their order. */
  lemma {:induction false} FilterOutAppend(a: seq<string>, b: seq<string>, excluded: set<string>)
    ensures FilterOut(a + b, excluded) == FilterOut(a, excluded) + FilterOut(b, excluded)
    decreases |a|
  {
    if |a| > 0 {
      assert (a + b)[0] == a[0] && (a + b)[1..] == a[1..] + b;
      FilterOutAppend(a[1..], b, excluded);
      if a[0] !in excluded {
        calc {
          FilterOut(a + b, excluded);
          [a[0]] + FilterOut(a[1..] + b, excluded);
          [a[0]] + (FilterOut(a[1..], excluded) + FilterOut(b, excluded));
          ([a[0]] + FilterOut(a[1..], excluded)) + FilterOut(b, excluded);
        }
      }
    } else {
      assert a + b == b;
    }
  }

  /** Filtering out nothing that is present changes nothing. */
  lemma {:induction false} FilterOutAbsent(s: seq<string>, excluded: set<string>)
    requires forall x :: x in s ==> x !in excluded
    ensures FilterOut(s, excluded) == s
  {
    if |s| > 0 {
      FilterOutAbsent(s[1..], excluded);
      assert s == [s[0]] + s[1..];
    }
  }

  /** Two filters in a row are one filter by the union. */
  lemma {:induction false} FilterOutTwice(s: seq<string>, a: set<string>, b: set<string>)
    ensures FilterOut(FilterOut(s, a), b) == FilterOut(s, a + b)
  {
    if |s| > 0 {
      FilterOutTwice(s[1..], a, b);
    }
  }

  predicate NoDuplicates(s: seq<string>)
  {
    forall i, j :: 0 <= i < j < |s| ==> s[i] != s[j]
  }

  lemma {:induction false} FilterOutNoDuplicates(s: seq<string>, excluded: set<string>)
    requires NoDuplicates(s)
    ensures NoDuplicates(FilterOut(s, excluded))
  {
    if |s| > 0 {
      assert NoDuplicates(s[1..]) by {
        forall i, j | 0 <= i < j < |s[1..]| ensures s[1..][i] != s[1..][j] {
          assert s[1..][i] == s[i + 1] && s[1..][j] == s[j + 1];
        }
      }
      FilterOutNoDuplicates(s[1..], excluded);
      assert s[0] !in s[1..] by {
        forall k | 0 <= k < |s[1..]| ensures s[1..][k] != s[0] {
          assert s[1..][k] == s[k + 1];
        }
      }
    }
  }

  lemma ConcatNoDuplicates(a: seq<string>, b: seq<string>)
    requires NoDuplicates(a) && NoDuplicates(b)
    requires forall x :: x in a ==> x !in b
    ensures NoDuplicates(a + b)
  {
    forall i, j | 0 <= i < j < |a + b| ensures (a + b)[i] != (a + b)[j] {
      if j < |a| {
        assert (a + b)[i] == a[i] && (a + b)[j] == a[j];
      } else if i >= |a| {
        assert (a + b)[i] == b[i - |a|] && (a + b)[j] == b[j - |a|];
      } else {
        assert (a + b)[i] == a[i] && (a + b)[j] == b[j - |a|];
        assert a[i] in a;
      }
    }
  }

  /** The Windows branch: the four POSIX files dropped by exact name, the six
      Windows files appended in order, then the jemalloc glue file when that
      feature is on. */
  function WindowsPort(lib: seq<string>, jemalloc: bool): seq<string>
  {
    AppendIf(FilterOut(lib, PosixSources) + WindowsSources, jemalloc, [WinJemalloc])
  }

  /** `lib_sources` as `build_rocksdb` hands it to the compile loop. */
  function RocksdbSources(master: seq<string>, target: string, jemalloc: bool): seq<string>
  {
    var base := FilterOut(master, {BuildVersion});
    if Classify(target) == Windows then WindowsPort(base, jemalloc) else base
  }

  /** On a non-Windows target the list is the master list minus the version
      file: nothing else removed, added or reordered. */
  lemma NonWindowsSources(master: seq<string>, target: string, jemalloc: bool)
    requires Classify(target) != Windows
    ensures RocksdbSources(master, target, jemalloc) == FilterOut(master, {BuildVersion})
    ensures BuildVersion !in RocksdbSources(master, target, jemalloc)
    ensures forall x :: x in master && x != BuildVersion ==> x in RocksdbSources(master, target, jemalloc)
  {
  }

  /** The Windows port of the master list: the surviving entries first, in
      their order, with the version file and the four POSIX files removed by
      exact name; then the six Windows files in order; then the jemalloc glue
      file iff the jemalloc feature is on. */
  lemma WindowsPortContents(master: seq<string>, jemalloc: bool)
    ensures var r := WindowsPort(FilterOut(master, {BuildVersion}), jemalloc);
      && r == FilterOut(master, {BuildVersion} + PosixSources) + WindowsSources +
              (if jemalloc then [WinJemalloc] else [])
      && BuildVersion !in r
      && (forall p :: p in PosixSources ==> p !in r)
      && (forall w :: w in WindowsSources ==> w in r)
      && (WinJemalloc in r <==> jemalloc || WinJemalloc in master)
  {
    FilterOutTwice(master, {BuildVersion}, PosixSources);
    assert WinJemalloc !in WindowsSources;
  }

  /** On a Windows target the list is the Windows port of the master list. */
  lemma WindowsSourceSet(master: seq<string>, target: string, jemalloc: bool)
    requires Classify(target) == Windows
    ensures RocksdbSources(master, target, jemalloc) ==
      FilterOut(master, {BuildVersion} + PosixSources) + WindowsSources +
      (if jemalloc then [WinJemalloc] else [])
    ensures BuildVersion !in RocksdbSources(master, target, jemalloc)
    ensures forall p :: p in PosixSources ==> p !in RocksdbSources(master, target, jemalloc)
    ensures forall w :: w in WindowsSources ==> w in RocksdbSources(master, target, jemalloc)
    ensures WinJemalloc in RocksdbSources(master, target, jemalloc) <==> jemalloc || WinJemalloc in master
  {
    WindowsPortContents(master, jemalloc);
  }

  /** Given a master list without repeats that does not already hold the
      Windows files, no file is compiled twice. */
  lemma SourcesHaveNoDuplicates(master: seq<string>, target: string, jemalloc: bool)
    requires NoDuplicates(master)
    requires forall x :: x in WindowsSources + [WinJemalloc] ==> x !in master
    ensures NoDuplicates(RocksdbSources(master, target, jemalloc))
  {
    FilterOutNoDuplicates(master, {BuildVersion});
    var base := FilterOut(master, {BuildVersion});
    if Classify(target) == Windows {
      FilterOutNoDuplicates(base, PosixSources);
      var kept := FilterOut(base, PosixSources);
      assert forall x :: x in WindowsSources ==> x in WindowsSources + [WinJemalloc];
      ConcatNoDuplicates(kept, WindowsSources);
      if jemalloc {
        assert WinJemalloc in WindowsSources + [WinJemalloc];
        assert WinJemalloc !in WindowsSources;
        ConcatNoDuplicates(kept + WindowsSources, [WinJemalloc]);
      }
    }
  }
}
