/** The string operations the build script relies on: `str::contains`,
    `str::split` on one character, `str::trim` and `str::to_lowercase`. */
module Text {
  import opened Wrappers

  /** `sub` occurs in `s` starting at index `i`. */
  predicate OccursAt(s: string, sub: string, i: int)
  {
    0 <= i && i + |sub| <= |s| && s[i..i + |sub|] == sub
  }

  /** Rust's `s.contains(sub)` for a string pattern: `sub` occurs somewhere
      in `s` (the empty pattern occurs everywhere). */
  predicate Contains(s: string, sub: string)
  {
    exists i :: 0 <= i <= |s| - |sub| && OccursAt(s, sub, i)
  }

  /** A pattern holding a character the string lacks does not occur in it. */
  lemma NotContainsChar(s: string, sub: string, c: char)
    requires c in sub && c !in s
    ensures !Contains(s, sub)
  {
  }

  /** The value paired with the first pattern in `table` that `s` contains,
      or `otherwise` when it contains none: an `if s.contains(..) else if ..`
      chain written as data. */
  function FirstMatch<T>(table: seq<(string, T)>, s: string, otherwise: T): T
  {
    if |table| == 0 then otherwise
    else if Contains(s, table[0].0) then table[0].1
    else FirstMatch(table[1..], s, otherwise)
  }

  /** No entry before position `k` of `table` matches `s`. */
  predicate NoneBefore<T>(table: seq<(string, T)>, s: string, k: int)
    requires k <= |table|
  {
    forall j :: 0 <= j < k ==> !Contains(s, table[j].0)
  }

  /** The lookup returns the value of the earliest matching entry, and
      `otherwise` exactly when no entry matches. */
  lemma {:induction false} FirstMatchIsEarliest<T>(table: seq<(string, T)>, s: string, otherwise: T)
    ensures NoneBefore(table, s, |table|) ==> FirstMatch(table, s, otherwise) == otherwise
    ensures !NoneBefore(table, s, |table|) ==>
      exists k :: 0 <= k < |table| && NoneBefore(table, s, k) && Contains(s, table[k].0) &&
        FirstMatch(table, s, otherwise) == table[k].1
  {
    if |table| > 0 && !Contains(s, table[0].0) {
      FirstMatchIsEarliest(table[1..], s, otherwise);
      var tail := table[1..];
      assert NoneBefore(table, s, |table|) <==> NoneBefore(tail, s, |tail|) by {
        assert forall j :: 0 < j < |table| ==> table[j] == tail[j - 1];
      }
      if !NoneBefore(tail, s, |tail|) {
        var k :| 0 <= k < |tail| && NoneBefore(tail, s, k) && Contains(s, tail[k].0) &&
          FirstMatch(tail, s, otherwise) == tail[k].1;
        assert NoneBefore(table, s, k + 1) by {
          assert forall j :: 0 < j < k + 1 ==> table[j] == tail[j - 1];
        }
        assert table[k + 1] == tail[k];
      }
    } else if |table| > 0 {
      assert NoneBefore(table, s, 0);
    }
  }

  /** One step of the lookup at position `k`. */
  lemma FirstMatchStep<T>(table: seq<(string, T)>, s: string, otherwise: T, k: nat)
    requires k < |table|
    ensures FirstMatch(table[k..], s, otherwise) ==
      if Contains(s, table[k].0) then table[k].1 else FirstMatch(table[k + 1..], s, otherwise)
  {
    assert table[k..][0] == table[k] && table[k..][1..] == table[k + 1..];
  }

  /** Rust's `s.split(sep)`: every maximal run between separators, empty runs
      included, so the result is never empty. */
  function Split(s: string, sep: char): (r: seq<string>)
    ensures |r| >= 1
    decreases |s|
  {
    if |s| == 0 then [""]
    else if s[0] == sep then [""] + Split(s[1..], sep)
    else
      var rest := Split(s[1..], sep);
      [[s[0]] + rest[0]] + rest[1..]
  }

  /** The inverse of `Split`: the parts glued back with the separator. */
  function Join(parts: seq<string>, sep: char): string
    requires |parts| >= 1
    decreases |parts|
  {
    if |parts| == 1 then parts[0] else parts[0] + [sep] + Join(parts[1..], sep)
  }

  /** Splitting loses nothing: joining the parts gives back the input. */
  lemma {:induction false} JoinSplit(s: string, sep: char)
    ensures Join(Split(s, sep), sep) == s
    decreases |s|
  {
    if |s| == 0 {
    } else if s[0] == sep {
      JoinSplit(s[1..], sep);
      assert Split(s, sep)[1..] == Split(s[1..], sep);
      assert s == [sep] + s[1..];
    } else {
      var rest := Split(s[1..], sep);
      JoinSplit(s[1..], sep);
      var r := Split(s, sep);
      assert r[0] == [s[0]] + rest[0] && r[1..] == rest[1..];
      if |rest| == 1 {
        assert s == [s[0]] + rest[0];
      } else {
        assert Join(rest, sep) == rest[0] + [sep] + Join(rest[1..], sep);
        assert s == [s[0]] + s[1..];
      }
    }
  }

  /** No part produced by `Split` contains the separator. */
  lemma {:induction false} SplitPartsSeparatorFree(s: string, sep: char)
    ensures forall k :: 0 <= k < |Split(s, sep)| ==> sep !in Split(s, sep)[k]
    decreases |s|
  {
    if |s| > 0 {
      SplitPartsSeparatorFree(s[1..], sep);
    }
  }

  /** Splitting is the inverse of joining separator-free parts. */
  lemma {:induction false} SplitJoin(parts: seq<string>, sep: char)
    requires |parts| >= 1
    requires forall k :: 0 <= k < |parts| ==> sep !in parts[k]
    ensures Split(Join(parts, sep), sep) == parts
    decreases |parts|, |parts[0]|
  {
    if |parts[0]| == 0 {
      if |parts| == 1 {
      } else {
        SplitJoin(parts[1..], sep);
        assert Join(parts, sep) == [sep] + Join(parts[1..], sep);
        assert Join(parts, sep)[1..] == Join(parts[1..], sep);
        assert parts == [""] + parts[1..];
      }
    } else {
      var c := parts[0][0];
      var shorter := [parts[0][1..]] + parts[1..];
      assert c != sep by { assert c == parts[0][0]; }
      assert forall k :: 0 <= k < |shorter| ==> sep !in shorter[k] by {
        forall k | 0 <= k < |shorter| ensures sep !in shorter[k] {
          if k == 0 {
            assert forall x :: x in parts[0][1..] ==> x in parts[0];
          } else {
            assert shorter[k] == parts[k];
          }
        }
      }
      SplitJoin(shorter, sep);
      var j := Join(parts, sep);
      assert j == [c] + Join(shorter, sep) by {
        if |parts| == 1 {
          assert parts[0] == [c] + parts[0][1..];
        } else {
          assert shorter[1..] == parts[1..];
          assert parts[0] == [c] + parts[0][1..];
        }
      }
      assert j[0] == c && j[1..] == Join(shorter, sep);
      assert parts == [[c] + shorter[0]] + shorter[1..];
    }
  }

  /** The whitespace `str::trim` removes, restricted to ASCII. */
  predicate IsSpace(c: char)
  {
    c == ' ' || c == '\t' || c == '\n' || c == '\r' || c == '\U{0B}' || c == '\U{0C}'
  }

  /** Every character of `t` is whitespace. */
  predicate AllSpace(t: string)
  {
    forall k :: 0 <= k < |t| ==> IsSpace(t[k])
  }

  function TrimStart(s: string): string
    decreases |s|
  {
    if |s| > 0 && IsSpace(s[0]) then TrimStart(s[1..]) else s
  }

  function TrimEnd(s: string): string
    decreases |s|
  {
    if |s| > 0 && IsSpace(s[|s| - 1]) then TrimEnd(s[..|s| - 1]) else s
  }

  /** `trim_start` removes a prefix made only of whitespace and stops at
      the first non-space. */
  lemma {:induction false} TrimStartIsSuffix(s: string)
    ensures |TrimStart(s)| <= |s| && TrimStart(s) == s[|s| - |TrimStart(s)|..]
    ensures AllSpace(s[..|s| - |TrimStart(s)|])
    ensures |TrimStart(s)| > 0 ==> !IsSpace(TrimStart(s)[0])
    decreases |s|
  {
    if |s| > 0 && IsSpace(s[0]) {
      TrimStartIsSuffix(s[1..]);
      var n := |s| - |TrimStart(s)|;
      forall k | 0 <= k < n ensures IsSpace(s[..n][k]) {
        if k > 0 {
          assert s[..n][k] == s[1..][..n - 1][k - 1];
        }
      }
    }
  }

  /** `trim_end` removes a suffix made only of whitespace and stops at the
      last non-space. */
  lemma {:induction false} TrimEndIsPrefix(s: string)
    ensures |TrimEnd(s)| <= |s| && TrimEnd(s) == s[..|TrimEnd(s)|]
    ensures AllSpace(s[|TrimEnd(s)|..])
    ensures |TrimEnd(s)| > 0 ==> !IsSpace(TrimEnd(s)[|TrimEnd(s)| - 1])
    decreases |s|
  {
    if |s| > 0 && IsSpace(s[|s| - 1]) {
      var p := s[..|s| - 1];
      TrimEndIsPrefix(p);
      var n := |TrimEnd(s)|;
      forall k | 0 <= k < |s| - n ensures IsSpace(s[n..][k]) {
        if n + k < |s| - 1 {
          assert s[n..][k] == p[n..][k];
        }
      }
    }
  }

  /** Rust's `str::trim`: the input without leading and trailing whitespace. */
  function Trim(s: string): (r: string)
  {
    TrimEnd(TrimStart(s))
  }

  /** A trimmed string is a contiguous piece of the input with no whitespace at
      either end, and everything cut away on either side is whitespace. */
  lemma TrimIsInnerSlice(s: string)
    ensures exists i, j :: 0 <= i <= j <= |s| && Trim(s) == s[i..j] && AllSpace(s[..i]) && AllSpace(s[j..])
    ensures |Trim(s)| > 0 ==> !IsSpace(Trim(s)[0]) && !IsSpace(Trim(s)[|Trim(s)| - 1])
  {
    var t := TrimStart(s);
    TrimStartIsSuffix(s);
    var i := |s| - |t|;
    var r := TrimEnd(t);
    TrimEndIsPrefix(t);
    var j := i + |r|;
    assert r == s[i..j];
    assert AllSpace(s[j..]) by {
      assert t == s[i..];
      forall k | 0 <= k < |s| - j ensures IsSpace(s[j..][k]) {
        assert s[j..][k] == t[|r|..][k];
      }
    }
    if |r| > 0 {
      assert r[0] == t[0];
    }
  }

  function LowerChar(c: char): (r: char)
  {
    if 'A' <= c <= 'Z' then (c as int + 32) as char else c
  }

  /** Rust's `str::to_lowercase`, restricted to ASCII letters. */
  function ToLower(s: string): (r: string)
    ensures |r| == |s|
    ensures forall i :: 0 <= i < |s| ==> r[i] == LowerChar(s[i])
  {
    seq(|s|, i requires 0 <= i < |s| => LowerChar(s[i]))
  }

  /** `v.to_lowercase() == "true"` holds exactly for the spellings of `true`
      in any mix of upper and lower case. */
  lemma ToLowerTrue(v: string)
    ensures ToLower(v) == "true" <==>
      |v| == 4 && v[0] in "tT" && v[1] in "rR" && v[2] in "uU" && v[3] in "eE"
  {
    if |v| == 4 && v[0] in "tT" && v[1] in "rR" && v[2] in "uU" && v[3] in "eE" {
      assert ToLower(v) == "true";
    }
    if ToLower(v) == "true" {
      assert ToLower(v)[0] == 't' && ToLower(v)[1] == 'r';
      assert ToLower(v)[2] == 'u' && ToLower(v)[3] == 'e';
    }
  }

  /** Rust's bounds-checked `v.get(i)`. */
  function Get<T>(s: seq<T>, i: nat): (r: Option<T>)
    ensures r.Some? <==> i < |s|
    ensures r.Some? ==> r.value == s[i]
  {
    if i < |s| then Some(s[i]) else None
  }
}
