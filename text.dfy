/**
 * The string operations the workload code relies on: Python's substring
 * test `sub in s`, ASCII lower-casing of workload names, `os.path.join`
 * for two components, the `systrace_([0-9]+)` duration search and the
 * adb command template.
 */
module Text {
  import opened Wrappers

  predicate StartsWith(s: string, prefix: string) {
    |prefix| <= |s| && s[..|prefix|] == prefix
  }

  predicate EndsWith(s: string, suffix: string) {
    |suffix| <= |s| && s[|s| - |suffix|..] == suffix
  }

  /** `sub` occurs in `s` starting at index `i`. */
  ghost predicate OccursAt(s: string, sub: string, i: int) {
    0 <= i && i + |sub| <= |s| && s[i..i + |sub|] == sub
  }

  /** Python's `sub in s`, by scanning the start positions left to right. */
  predicate Contains(s: string, sub: string)
    decreases |s|
  {
    StartsWith(s, sub) || (|s| > 0 && Contains(s[1..], sub))
  }

  /** The scan finds an occurrence exactly when one exists. */
  lemma {:induction false} ContainsSpec(s: string, sub: string)
    ensures Contains(s, sub) <==> exists i :: OccursAt(s, sub, i)
    decreases |s|
  {
    if StartsWith(s, sub) {
      assert OccursAt(s, sub, 0);
    } else if |s| > 0 {
      ContainsSpec(s[1..], sub);
      if Contains(s[1..], sub) {
        var i :| OccursAt(s[1..], sub, i);
        assert s[1..][i..i + |sub|] == s[i + 1..i + 1 + |sub|];
        assert OccursAt(s, sub, i + 1);
      }
      if i :| OccursAt(s, sub, i) {
        assert i != 0;
        assert s[1..][i - 1..i - 1 + |sub|] == s[i..i + |sub|];
        assert OccursAt(s[1..], sub, i - 1);
      }
    }
  }

  /** A string lacking one of the characters of `sub` does not contain `sub`. */
  lemma MissingCharNotContained(s: string, sub: string, j: int)
    requires 0 <= j < |sub| && forall i :: 0 <= i < |s| ==> s[i] != sub[j]
    ensures !Contains(s, sub)
  {
    forall i ensures !OccursAt(s, sub, i) {
      if 0 <= i && i + |sub| <= |s| {
        assert s[i..i + |sub|][j] == s[i + j];
      }
    }
    ContainsSpec(s, sub);
  }

  // ---------------------------------------------------------------
  // ASCII case folding (Python's str.lower restricted to ASCII)
  // ---------------------------------------------------------------

  predicate IsUpper(c: char) { 'A' <= c <= 'Z' }

  predicate IsLetter(c: char) { 'A' <= c <= 'Z' || 'a' <= c <= 'z' }

  function LowerChar(c: char): char {
    if IsUpper(c) then (c as int + 32) as char else c
  }

  /** The lower-cased name used as a key of the availability map. */
  function Lower(s: string): (r: string)
    ensures |r| == |s|
    ensures forall i :: 0 <= i < |r| ==> !IsUpper(r[i])
    ensures forall i :: 0 <= i < |s| ==>
      r[i] == s[i] || (IsUpper(s[i]) && r[i] as int == s[i] as int + 32)
  {
    seq(|s|, i requires 0 <= i < |s| => LowerChar(s[i]))
  }

  /** Two characters are the same letter up to case, or simply equal. */
  predicate SameIgnoringCase(c: char, d: char) {
    c == d || (IsLetter(c) && IsLetter(d) && (c as int - d as int == 32 || d as int - c as int == 32))
  }

  predicate EqualIgnoringCase(a: string, b: string) {
    |a| == |b| && forall i :: 0 <= i < |a| ==> SameIgnoringCase(a[i], b[i])
  }

  /** Lower-casing identifies exactly the names that differ only in case. */
  lemma LowerIdentifiesCase(a: string, b: string)
    ensures Lower(a) == Lower(b) <==> EqualIgnoringCase(a, b)
  {
    if Lower(a) == Lower(b) {
      forall i | 0 <= i < |a| ensures SameIgnoringCase(a[i], b[i]) {
        assert Lower(a)[i] == Lower(b)[i];
      }
    }
    if EqualIgnoringCase(a, b) {
      forall i | 0 <= i < |a| ensures Lower(a)[i] == Lower(b)[i] {
        assert SameIgnoringCase(a[i], b[i]);
      }
    }
  }

  // ---------------------------------------------------------------
  // os.path.join(dir, name)
  // ---------------------------------------------------------------

  predicate IsAbsolute(path: string) { StartsWith(path, "/") }

  /**
   * `os.path.join` of two components: an absolute second component
   * replaces the first; otherwise a separator is inserted unless the
   * first is empty or already ends in one.
   */
  function Join(dir: string, name: string): (r: string)
    ensures IsAbsolute(name) ==> r == name
    ensures !IsAbsolute(name) ==> StartsWith(r, dir) && EndsWith(r, name)
    ensures !IsAbsolute(name) ==> |r| == |dir| + |name| || (|r| == |dir| + 1 + |name| && r[|dir|] == '/')
    ensures !IsAbsolute(name) ==> (|r| == |dir| + 1 + |name| <==> dir != [] && dir[|dir| - 1] != '/')
  {
    if IsAbsolute(name) then name
    else if dir == [] || dir[|dir| - 1] == '/' then dir + name
    else dir + "/" + name
  }

  /** The part `Join` puts in front of a relative name depends on `dir` only. */
  function JoinPrefix(dir: string): string {
    if dir == [] || dir[|dir| - 1] == '/' then dir else dir + "/"
  }

  /** Joining one directory with two different relative names gives two different paths. */
  lemma JoinInjective(dir: string, a: string, b: string)
    requires !IsAbsolute(a) && !IsAbsolute(b)
    ensures Join(dir, a) == Join(dir, b) ==> a == b
  {
    var p := JoinPrefix(dir);
    assert Join(dir, a) == p + a;
    assert Join(dir, b) == p + b;
    if p + a == p + b {
      assert a == (p + a)[|p|..];
      assert b == (p + b)[|p|..];
    }
  }

  // ---------------------------------------------------------------
  // re.search(r'systrace_([0-9]+)', collect).group(1)
  // ---------------------------------------------------------------

  const SystracePrefix: string := "systrace_"

  predicate IsDigit(c: char) { '0' <= c <= '9' }

  /** The pattern `systrace_[0-9]` matches at position `p`. */
  predicate MatchAt(s: string, p: nat) {
    p + |SystracePrefix| < |s| && s[p..p + |SystracePrefix|] == SystracePrefix
    && IsDigit(s[p + |SystracePrefix|])
  }

  /** `d` is the longest run of digits in `s` that starts at `i`. */
  ghost predicate MaximalDigitRun(s: string, i: nat, d: string) {
    i + |d| <= |s| && s[i..i + |d|] == d
    && (forall k :: 0 <= k < |d| ==> IsDigit(d[k]))
    && (i + |d| == |s| || !IsDigit(s[i + |d|]))
  }

  /** The greedy `[0-9]+` part: all digits from `i` on. */
  function DigitRun(s: string, i: nat): (r: string)
    requires i <= |s|
    ensures MaximalDigitRun(s, i, r)
    decreases |s| - i
  {
    if i < |s| && IsDigit(s[i]) then [s[i]] + DigitRun(s, i + 1) else []
  }

  /** The leftmost match position at or after `from`, as `re.search` scans. */
  function FindMatch(s: string, from: nat): (r: Option<nat>)
    ensures r.Some? ==> from <= r.value && MatchAt(s, r.value)
    ensures r.Some? ==> forall q: nat :: from <= q < r.value ==> !MatchAt(s, q)
    ensures r.None? ==> forall q: nat :: from <= q ==> !MatchAt(s, q)
    decreases |s| - from
  {
    if from >= |s| then None
    else if MatchAt(s, from) then Some(from)
    else FindMatch(s, from + 1)
  }

  /**
   * The optional systrace duration: the digits captured by the first
   * match of `systrace_([0-9]+)`, or None when the pattern does not occur.
   */
  function TraceTime(collect: string): (r: Option<string>)
    ensures r.None? <==> forall p: nat :: !MatchAt(collect, p)
    ensures r.Some? ==> |r.value| > 0 && forall k :: 0 <= k < |r.value| ==> IsDigit(r.value[k])
    ensures r.Some? ==> exists p: nat ::
      MatchAt(collect, p) && (forall q: nat :: q < p ==> !MatchAt(collect, q))
      && MaximalDigitRun(collect, p + |SystracePrefix|, r.value)
  {
    match FindMatch(collect, 0)
    case None => None
    case Some(p) =>
      var d := DigitRun(collect, p + |SystracePrefix|);
      assert d[0] == collect[p + |SystracePrefix|];
      Some(d)
  }

  // ---------------------------------------------------------------
  // Workload._adb
  // ---------------------------------------------------------------

  const AdbPrefix: string := "adb -s "

  /** `'adb -s {} {}'.format(adb_name, cmd)`. */
  function AdbCommand(adbName: string, cmd: string): (r: string)
    ensures |r| == |AdbPrefix| + |adbName| + 1 + |cmd|
    ensures StartsWith(r, AdbPrefix) && EndsWith(r, cmd)
    ensures r[|AdbPrefix|..|AdbPrefix| + |adbName|] == adbName
    ensures r[|AdbPrefix| + |adbName|] == ' '
    ensures r[|AdbPrefix| + |adbName| + 1..] == cmd
  {
    AdbPrefix + adbName + " " + cmd
  }
}
