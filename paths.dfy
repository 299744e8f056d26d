/**
 * The parts of .NET's System.IO.Path and of ordinal case-insensitive string
 * comparison that the core relies on. Paths are strings; the directory
 * separator is a parameter (`sep`), because the core uses
 * Path.DirectorySeparatorChar of whatever platform it runs on.
 */
module Paths {
  import opened Results

  /** Ordinal case folding: ASCII lower-case letters map to upper case. */
  function FoldChar(c: char): char {
    if 'a' <= c <= 'z' then (c as int - 32) as char else c
  }

  /** `string.Equals(a, b, StringComparison.OrdinalIgnoreCase)`. */
  predicate EqualsIgnoreCase(a: string, b: string) {
    |a| == |b| && forall i :: 0 <= i < |a| ==> FoldChar(a[i]) == FoldChar(b[i])
  }

  /** `needle` occurs in `s` at index `i`, ignoring case. */
  predicate OccursAt(s: string, needle: string, i: nat) {
    i + |needle| <= |s| && EqualsIgnoreCase(s[i..i + |needle|], needle)
  }

  /** First case-insensitive occurrence of `needle` in `s` at or after `from`. */
  function IndexOfFrom(s: string, needle: string, from: nat): (r: Option<nat>)
    ensures r.Some? ==> from <= r.value && OccursAt(s, needle, r.value)
    ensures r.Some? ==> forall j :: from <= j < r.value ==> !OccursAt(s, needle, j)
    ensures r.None? ==> forall j :: from <= j ==> !OccursAt(s, needle, j)
    decreases |s| - from
  {
    if from + |needle| > |s| then None
    else if OccursAt(s, needle, from) then Some(from)
    else IndexOfFrom(s, needle, from + 1)
  }

  /** `s.IndexOf(needle, StringComparison.OrdinalIgnoreCase)`, with None for -1. */
  function IndexOfIgnoreCase(s: string, needle: string): (r: Option<nat>)
    ensures r.Some? ==> OccursAt(s, needle, r.value)
    ensures r.Some? ==> forall j: nat :: j < r.value ==> !OccursAt(s, needle, j)
    ensures r.None? <==> forall j: nat :: !OccursAt(s, needle, j)
  {
    IndexOfFrom(s, needle, 0)
  }

  /** NuGet's PathUtility.EnsureTrailingSlash: appends `sep` unless `p` is empty or already ends with it. */
  function EnsureTrailingSlash(p: string, sep: char): (r: string)
    ensures p <= r && |r| <= |p| + 1
    ensures r == [] <==> p == []
    ensures r != [] ==> r[|r| - 1] == sep
  {
    if p == [] || p[|p| - 1] == sep then p else p + [sep]
  }

  /** The length of the leading run of `c` in `s`. */
  function LeadingRun(s: string, c: char): (n: nat)
    ensures n <= |s|
    ensures forall i :: 0 <= i < n ==> s[i] == c
    ensures n == |s| || s[n] != c
  {
    if |s| > 0 && s[0] == c then
      var n := 1 + LeadingRun(s[1..], c);
      assert forall i :: 1 <= i < n ==> s[i] == s[1..][i - 1];
      n
    else 0
  }

  /** `s.TrimStart(c)`: the suffix of `s` left after dropping its leading run of `c`. */
  function TrimStart(s: string, c: char): string {
    s[LeadingRun(s, c)..]
  }

  /** TrimStart leaves a suffix that does not start with `c`, and drops only occurrences of `c`. */
  lemma TrimStartSuffix(s: string, c: char)
    ensures var r := TrimStart(s, c);
      |r| <= |s| && r == s[|s| - |r|..] && (r == [] || r[0] != c)
      && forall k :: 0 <= k < |s| - |r| ==> s[k] == c
  {
  }

  /** Scans `p` backwards from index `i`, as Path.GetExtension does. */
  function FindExtension(p: string, sep: char, i: int): (r: string)
    requires -1 <= i < |p|
    requires forall k :: i < k < |p| ==> p[k] != '.' && p[k] != sep
    ensures r == [] || (2 <= |r| <= |p| && r[0] == '.' && r == p[|p| - |r|..])
    ensures forall k :: |p| - |r| < k < |p| ==> p[k] != '.' && p[k] != sep
    decreases i + 1
  {
    if i < 0 then []
    else if p[i] == '.' then (if i != |p| - 1 then p[i..] else [])
    else if p[i] == sep then []
    else FindExtension(p, sep, i - 1)
  }

  /**
   * Path.GetExtension: from the last '.' of the last path segment to the end,
   * or empty when that segment has no '.' or ends with it.
   */
  function GetExtension(p: string, sep: char): (r: string)
    ensures r == [] || (2 <= |r| <= |p| && r[0] == '.' && r == p[|p| - |r|..])
    ensures forall k :: 1 <= k < |r| ==> r[k] != '.' && r[k] != sep
  {
    FindExtension(p, sep, |p| - 1)
  }

  /** The extension of `stem + ext` is `ext` whenever `ext` is a well-formed extension. */
  lemma {:induction false} GetExtensionOfSuffix(stem: string, ext: string, sep: char)
    requires |ext| >= 2 && ext[0] == '.'
    requires forall k :: 1 <= k < |ext| ==> ext[k] != '.' && ext[k] != sep
    ensures GetExtension(stem + ext, sep) == ext
  {
    var p := stem + ext;
    FindExtensionReaches(p, sep, |p| - 1, |stem|);
  }

  /**
   * A path has no extension when its last segment has no dot: the segment after
   * the separator at `j`, or the whole path when `j` is -1.
   */
  lemma NoExtension(p: string, sep: char, j: int)
    requires sep != '.' && -1 <= j < |p| && (j >= 0 ==> p[j] == sep)
    requires forall k :: j < k < |p| ==> p[k] != '.' && p[k] != sep
    ensures GetExtension(p, sep) == []
  {
    FindExtensionStops(p, sep, |p| - 1, j);
  }

  /** Scanning down from `i` ends without an extension at the separator at `j`, or at the start. */
  lemma {:induction false} FindExtensionStops(p: string, sep: char, i: int, j: int)
    requires sep != '.' && -1 <= j <= i < |p| && (j >= 0 ==> p[j] == sep)
    requires forall k :: j < k < |p| ==> p[k] != '.' && p[k] != sep
    ensures FindExtension(p, sep, i) == []
    decreases i
  {
    if i > j {
      FindExtensionStops(p, sep, i - 1, j);
    }
  }

  /** Scanning down from `i` meets the dot at `j` when nothing in between stops the scan. */
  lemma {:induction false} FindExtensionReaches(p: string, sep: char, i: int, j: nat)
    requires j <= i < |p| && j < |p| - 1 && p[j] == '.'
    requires forall k :: j < k < |p| ==> p[k] != '.' && p[k] != sep
    ensures FindExtension(p, sep, i) == p[j..]
    decreases i
  {
    if i > j {
      FindExtensionReaches(p, sep, i - 1, j);
    }
  }

  /** Path.IsPathRooted; on Windows ('\\' separator) also '/'-led and drive-letter paths. */
  predicate IsPathRooted(p: string, sep: char) {
    (|p| >= 1 && p[0] == sep)
    || (sep == '\\' && |p| >= 1 && p[0] == '/')
    || (sep == '\\' && |p| >= 2 && p[1] == ':' && ('A' <= FoldChar(p[0]) <= 'Z'))
  }

  /** Path.Combine(a, b): `b` when it is rooted, otherwise `a` and `b` joined by one separator. */
  function Combine(a: string, b: string, sep: char): (r: string)
    ensures b == [] ==> r == a
    ensures a == [] ==> r == b
    ensures b != [] && a != [] && !IsPathRooted(b, sep) ==> a <= r && |b| < |r| && r[|r| - |b|..] == b
    ensures b != [] && a != [] && !IsPathRooted(b, sep) && a[|a| - 1] != sep ==> r == a + [sep] + b
    ensures b != [] && a != [] && !IsPathRooted(b, sep) && a[|a| - 1] == sep ==> r == a + b
    ensures IsPathRooted(b, sep) ==> r == b
  {
    if b == [] then a
    else if a == [] then b
    else if IsPathRooted(b, sep) then b
    else if a[|a| - 1] == sep then a + b
    else a + [sep] + b
  }

  /** Path.GetFullPath without normalisation of "." and "..": relative paths are taken from `cwd`. */
  function FullPath(cwd: string, p: string, sep: char): string {
    if IsPathRooted(p, sep) then p else Combine(cwd, p, sep)
  }

  /** The index of the last `c` in `s`. */
  function LastIndexOf(s: string, c: char): (r: Option<nat>)
    ensures r.Some? ==> r.value < |s| && s[r.value] == c && forall k :: r.value < k < |s| ==> s[k] != c
    ensures r.None? ==> forall k :: 0 <= k < |s| ==> s[k] != c
  {
    if s == [] then None
    else if s[|s| - 1] == c then Some(|s| - 1)
    else LastIndexOf(s[..|s| - 1], c)
  }

  /** A root: the separator itself, or on Windows a drive ("C:" or "C:\"). */
  predicate IsRoot(p: string, sep: char) {
    p == [sep] || (sep == '\\' && ((|p| == 2 && p[1] == ':') || (|p| == 3 && p[1] == ':' && p[2] == sep)))
  }

  /**
   * Path.GetDirectoryName: None (C#'s null) for an empty path or a root, "" for a
   * single relative name, otherwise everything before the last separator
   * (keeping the separator when that is the root).
   */
  function DirectoryName(p: string, sep: char): (r: Option<string>)
    ensures r.None? <==> p == [] || IsRoot(p, sep)
    ensures r.Some? ==> |r.value| < |p| && r.value <= p
    ensures r.Some? ==> (r.value == [] <==> forall j :: 0 <= j < |p| ==> p[j] != sep)
    ensures r.Some? ==> forall j :: |r.value| < j < |p| ==> p[j] != sep
    ensures r.Some? && r.value != [] ==> p[|r.value|] == sep || (IsRoot(r.value, sep) && r.value[|r.value| - 1] == sep)
  {
    if p == [] || IsRoot(p, sep) then None
    else match LastIndexOf(p, sep)
      case None => Some([])
      case Some(k) =>
        if k == 0 then Some([sep])
        else if sep == '\\' && k == 2 && p[1] == ':' then Some(p[..3])
        else Some(p[..k])
  }

  /** The directory name of `dir/name` is `dir`. */
  lemma DirectoryNameOfChild(dir: string, name: string, sep: char)
    requires IsSegment(name, sep) && dir != [] && dir[|dir| - 1] != sep
    requires !(sep == '\\' && |dir| == 2 && dir[1] == ':')
    ensures DirectoryName(dir + [sep] + name, sep) == Some(dir)
  {
    var p := dir + [sep] + name;
    assert p[|dir|] == sep;
    assert forall j :: |dir| < j < |p| ==> p[j] == name[j - |dir| - 1];
    assert LastIndexOf(p, sep) == Some(|dir|);
    assert p[..|dir|] == dir;
  }

  /** The directories Directory.CreateDirectory(d) must have: every prefix of `d` that ends a segment. */
  function Ancestors(d: string, sep: char): (r: set<string>)
    ensures forall a :: a in r ==> a <= d && 0 < |a| <= |d|
    ensures d != [] ==> d in r
  {
    assert d[..|d|] == d;
    set i: nat | 0 < i <= |d| && (i == |d| || d[i] == sep) :: d[..i]
  }

  /** `k` is `root` or lies somewhere below it. */
  predicate Beneath(k: string, root: string, sep: char) {
    k == root || root + [sep] <= k
  }

  /** A path segment: non-empty and free of separators. */
  predicate IsSegment(s: string, sep: char) {
    s != [] && forall i :: 0 <= i < |s| ==> s[i] != sep
  }

  /**
   * Two different segments below the same directory name disjoint subtrees:
   * nothing lies beneath both `q/a` and `q/b`.
   */
  lemma {:induction false} SiblingsAreDisjoint(q: string, a: string, b: string, k: string, sep: char)
    requires IsSegment(a, sep) && IsSegment(b, sep) && a != b
    ensures !(Beneath(k, q + [sep] + a, sep) && Beneath(k, q + [sep] + b, sep))
  {
    if Beneath(k, q + [sep] + a, sep) && Beneath(k, q + [sep] + b, sep) {
      // Each segment runs from just after q's separator up to the next separator in k.
      SegmentInPath(q, a, k, sep);
      SegmentInPath(q, b, k, sep);
    }
  }

  /** A path beneath `q/a` spells `a` right after `q` and its separator, and `a` ends a segment there. */
  lemma SegmentInPath(q: string, a: string, k: string, sep: char)
    requires IsSegment(a, sep) && Beneath(k, q + [sep] + a, sep)
    ensures |k| >= |q| + 1 + |a|
    ensures forall i :: 0 <= i < |a| ==> k[|q| + 1 + i] == a[i]
    ensures |k| == |q| + 1 + |a| || k[|q| + 1 + |a|] == sep
  {
    var p := q + [sep] + a;
    assert forall i :: 0 <= i < |a| ==> p[|q| + 1 + i] == a[i];
  }

  /** Beneath is transitive along a segment step: what is beneath `q/a` is beneath `q`. */
  lemma BeneathChild(k: string, q: string, a: string, sep: char)
    requires Beneath(k, q + [sep] + a, sep)
    ensures Beneath(k, q, sep)
  {
    assert (q + [sep]) <= (q + [sep] + a);
  }
}
