/**
 * Which package files go into a package: the matchable path of a file, the
 * exclude passes run before a package is built, and the extra passes for a
 * lib package and a symbols package. Wildcard matching is NuGet's
 * PathResolver and is a parameter `matches(wildcard, path)` here.
 */
module FileSelection {
  import opened Results
  import opened Paths

  /** IPackageFile: a file on disk (PhysicalPackageFile) or one the builder generates. */
  datatype PackageFile =
    | Physical(sourcePath: string, path: string)
    | Generated(path: string)

  datatype SymbolPackageFormat = SymbolsNupkg | Snupkg

  /** Which string of a file a pass matches against: its target `Path`, or its matchable path. */
  datatype PathSelector = TargetPath | MatchablePath(basePath: string)

  /** A test a pass applies to each file. */
  datatype FileTest =
    | MatchesAnyOf(wildcards: seq<string>, selector: PathSelector)
    | HasPdbExtension
    | IsPhysical

  /** PathResolver's wildcard test: does `wildcard` match `path`. */
  type Matcher = (string, string) -> bool

  /** string.Replace(from, to) on characters. */
  function Replace(s: string, from: char, to: char): (r: string)
    ensures |r| == |s|
    ensures forall i :: 0 <= i < |s| ==> r[i] == (if s[i] == from then to else s[i])
  {
    if s == [] then [] else [if s[0] == from then to else s[0]] + Replace(s[1..], from, to)
  }

  /** Previous package files, and files and directories whose name begins with ".". */
  function DefaultExcludes(sep: char): seq<string> {
    [Replace("**\\*", '\\', sep) + ".nupkg", Replace("**\\\\.**", '\\', sep), ".**"]
  }

  /** The manifest itself; unlike the other patterns it is not rewritten for the platform's separator. */
  const ManifestExclude: string := "**\\*.nuspec"

  /** Target paths left out of the lib package when a symbols package is built too. */
  function LibPackageExcludes(sep: char): seq<string> {
    [Replace("**\\*.pdb", '\\', sep), Replace("src\\**\\*", '\\', sep)]
  }

  /** Target paths left out of the symbols package. */
  function SymbolPackageExcludes(sep: char): seq<string> {
    [Replace("content\\**\\*", '\\', sep), Replace("tools\\**\\*.ps1", '\\', sep)]
  }

  /**
   * ResolvePath(file, basePath): a generated file is matched by its target path;
   * a file on disk by its source path with everything up to and including the
   * first occurrence of `basePath` and a separator (ignoring case) cut off, and
   * the separators that follow trimmed.
   */
  function ResolvePath(file: PackageFile, basePath: string, sep: char): string
  {
    match file
    case Generated(p) => p
    case Physical(src, _) =>
      match IndexOfIgnoreCase(src, EnsureTrailingSlash(basePath, sep))
      case None => src
      case Some(i) =>
        TrimStart(src[i + |basePath|..], sep)
  }

  /** A generated file is matched by its target path, a file on disk by a suffix of its source path. */
  lemma ResolvePathSuffix(file: PackageFile, basePath: string, sep: char)
    ensures var r := ResolvePath(file, basePath, sep);
      (file.Generated? ==> r == file.path)
      && (file.Physical? ==> |r| <= |file.sourcePath| && r == file.sourcePath[|file.sourcePath| - |r|..])
  {
    match file
    case Generated(_) =>
    case Physical(src, _) =>
      match IndexOfIgnoreCase(src, EnsureTrailingSlash(basePath, sep))
      case None =>
      case Some(i) =>
        FoundBaseFits(src, basePath, sep, i);
        var rest := src[i + |basePath|..];
        TrimStartSuffix(rest, sep);
        assert src[|src| - |TrimStart(rest, sep)|..] == rest[|rest| - |TrimStart(rest, sep)|..];
  }

  /**
   * When the base path and a separator occur in the source path, first at `i`,
   * the matchable path is what follows the base path there, with the leading
   * separators removed.
   */
  lemma ResolvePathAfterBase(src: string, target: string, basePath: string, sep: char, i: nat)
    requires IndexOfIgnoreCase(src, EnsureTrailingSlash(basePath, sep)) == Some(i)
    ensures i + |basePath| <= |src|
    ensures var r := ResolvePath(Physical(src, target), basePath, sep);
      var rest := src[i + |basePath|..];
      |r| <= |rest| && r == rest[|rest| - |r|..] && (r == [] || r[0] != sep) &&
      forall k :: 0 <= k < |rest| - |r| ==> rest[k] == sep
  {
    FoundBaseFits(src, basePath, sep, i);
    TrimStartSuffix(src[i + |basePath|..], sep);
  }

  lemma FoundBaseFits(src: string, basePath: string, sep: char, i: nat)
    requires IndexOfIgnoreCase(src, EnsureTrailingSlash(basePath, sep)) == Some(i)
    ensures i + |basePath| <= |src|
  {
    assert OccursAt(src, EnsureTrailingSlash(basePath, sep), i);
  }

  /** The base path matchable paths are relative to: BasePath, or the current directory when none is given. */
  function MatchBase(basePath: string, currentDirectory: string): (r: string)
    ensures basePath != [] ==> r == basePath
    ensures basePath == [] ==> r == currentDirectory
  {
    if basePath == [] then currentDirectory else basePath
  }

  /** A file below the base path is matched by its path relative to the base path. */
  lemma {:induction false} ResolvePathIsBaseRelative(basePath: string, rel: string, target: string, sep: char)
    requires basePath != [] && basePath[|basePath| - 1] != sep
    requires rel == [] || rel[0] != sep
    ensures ResolvePath(Physical(basePath + [sep] + rel, target), basePath, sep) == rel
  {
    var src := basePath + [sep] + rel;
    var needle := EnsureTrailingSlash(basePath, sep);
    assert needle == basePath + [sep];
    assert src[0..|needle|] == needle;
    assert OccursAt(src, needle, 0);
    var i := IndexOfIgnoreCase(src, needle);
    assert i == Some(0);
    assert src[|basePath|..] == [sep] + rel;
    TrimOneSeparator(rel, sep);
  }

  lemma TrimOneSeparator(rel: string, sep: char)
    requires rel == [] || rel[0] != sep
    ensures TrimStart([sep] + rel, sep) == rel
  {
    assert ([sep] + rel)[1..] == rel;
  }

  /** A source path that does not contain the base path is matched as it is. */
  lemma ResolvePathOutsideBase(src: string, target: string, basePath: string, sep: char)
    requires forall j: nat :: !OccursAt(src, EnsureTrailingSlash(basePath, sep), j)
    ensures ResolvePath(Physical(src, target), basePath, sep) == src
  {
  }

  function SelectPath(file: PackageFile, selector: PathSelector, sep: char): string {
    match selector
    case TargetPath => file.path
    case MatchablePath(basePath) => ResolvePath(file, basePath, sep)
  }

  /** Some wildcard of `wildcards` matches `path`. */
  predicate MatchesAny(matches: Matcher, wildcards: seq<string>, path: string) {
    exists w :: w in wildcards && matches(w, path)
  }

  predicate IsPdb(file: PackageFile, sep: char) {
    EqualsIgnoreCase(GetExtension(file.path, sep), ".pdb")
  }

  predicate Holds(t: FileTest, file: PackageFile, sep: char, matches: Matcher) {
    match t
    case MatchesAnyOf(wildcards, selector) => MatchesAny(matches, wildcards, SelectPath(file, selector, sep))
    case HasPdbExtension => IsPdb(file, sep)
    case IsPhysical => file.Physical?
  }

  /** The files of `s`, in order, for which `t` gives `want`; each kept file keeps its multiplicity. */
  function Select(s: seq<PackageFile>, t: FileTest, want: bool, sep: char, matches: Matcher): (r: seq<PackageFile>)
    ensures |r| <= |s|
    ensures forall f :: multiset(r)[f] == if Holds(t, f, sep, matches) == want then multiset(s)[f] else 0
    ensures forall f :: f in r <==> f in s && Holds(t, f, sep, matches) == want
  {
    if s == [] then []
    else
      assert s == [s[0]] + s[1..];
      var rest := Select(s[1..], t, want, sep, matches);
      if Holds(t, s[0], sep, matches) == want then [s[0]] + rest else rest
  }

  lemma {:induction false} SelectKeepsAll(s: seq<PackageFile>, t: FileTest, want: bool, sep: char, matches: Matcher)
    requires forall f :: f in s ==> Holds(t, f, sep, matches) == want
    ensures Select(s, t, want, sep, matches) == s
  {
    if s != [] {
      SelectKeepsAll(s[1..], t, want, sep, matches);
    }
  }

  /** ICollection.Remove: the first occurrence of `x` goes. */
  function RemoveFirst(s: seq<PackageFile>, x: PackageFile): (r: seq<PackageFile>)
    ensures x in s ==> multiset(r) == multiset(s) - multiset{x}
    ensures x !in s ==> r == s
  {
    if s == [] then []
    else if s[0] == x then
      assert s == [x] + s[1..];
      s[1..]
    else
      assert s == [s[0]] + s[1..];
      [s[0]] + RemoveFirst(s[1..], x)
  }

  /** Removing a file the selection drops leaves the selection as it was. */
  lemma {:induction false} SelectRemoveFirst(s: seq<PackageFile>, x: PackageFile, t: FileTest, want: bool, sep: char, matches: Matcher)
    requires Holds(t, x, sep, matches) != want
    ensures Select(RemoveFirst(s, x), t, want, sep, matches) == Select(s, t, want, sep, matches)
  {
    if s != [] {
      if s[0] == x {
        assert RemoveFirst(s, x) == s[1..];
      } else {
        var rest := RemoveFirst(s[1..], x);
        SelectRemoveFirst(s[1..], x, t, want, sep, matches);
        assert RemoveFirst(s, x) == [s[0]] + rest;
        SelectCons(s[0], rest, t, want, sep, matches);
      }
    }
  }

  /** Selecting from a sequence with a head decides the head, then selects from the rest. */
  lemma SelectCons(a: PackageFile, q: seq<PackageFile>, t: FileTest, want: bool, sep: char, matches: Matcher)
    ensures Select([a] + q, t, want, sep, matches)
      == (if Holds(t, a, sep, matches) == want then [a] else []) + Select(q, t, want, sep, matches)
  {
    assert ([a] + q)[0] == a && ([a] + q)[1..] == q;
  }

  /** Removing the first file a selection keeps drops the head of the selection. */
  lemma {:induction false} SelectRemoveHead(s: seq<PackageFile>, x: PackageFile, t: FileTest, want: bool, sep: char, matches: Matcher)
    requires Select(s, t, want, sep, matches) != [] && Select(s, t, want, sep, matches)[0] == x
    ensures Select(RemoveFirst(s, x), t, want, sep, matches) == Select(s, t, want, sep, matches)[1..]
  {
    if s[0] != x {
      SelectRemoveHead(s[1..], x, t, want, sep, matches);
      assert RemoveFirst(s, x) == [s[0]] + RemoveFirst(s[1..], x);
    }
  }

  /** PathResolver.FilterPackageFiles: the files whose selected path matches no wildcard stay. */
  function FilterPackageFiles(files: seq<PackageFile>, selector: PathSelector, wildcards: seq<string>, sep: char, matches: Matcher): seq<PackageFile> {
    Select(files, MatchesAnyOf(wildcards, selector), false, sep, matches)
  }

  /** PathResolver.GetFilteredPackageFiles: the matching files, which are also taken out of the collection. */
  function GetFilteredPackageFiles(files: seq<PackageFile>, selector: PathSelector, wildcards: seq<string>, sep: char, matches: Matcher): seq<PackageFile> {
    Select(files, MatchesAnyOf(wildcards, selector), true, sep, matches)
  }

  /** The settings ExcludeFiles reads from the pack arguments. */
  datatype ExcludeOptions = ExcludeOptions(
    noDefaultExcludes: bool,
    excludes: seq<string>,     // the user's exclude patterns
    basePath: string,
    currentDirectory: string)

  /**
   * What ExcludeFiles leaves in the collection, and the files on disk it logs an
   * NU5119 warning for (each warning names the file's source path), in order.
   */
  datatype Exclusion = Exclusion(kept: seq<PackageFile>, warned: seq<PackageFile>)

  /** The patterns of the last pass: the manifest, then the user's. */
  function FinalExcludes(o: ExcludeOptions): seq<string> {
    [ManifestExclude] + o.excludes
  }

  function Matchable(o: ExcludeOptions): PathSelector {
    MatchablePath(MatchBase(o.basePath, o.currentDirectory))
  }

  /**
   * ExcludeFiles: unless default excludes are switched off, the files matching a
   * default pattern are taken out, with a warning for each such file on disk; then
   * the files matching the manifest pattern or a user pattern are taken out.
   * Every pass matches on the matchable path.
   */
  function ExcludeFiles(files: seq<PackageFile>, o: ExcludeOptions, sep: char, matches: Matcher): Exclusion
  {
    var selector := Matchable(o);
    if o.noDefaultExcludes then
      Exclusion(FilterPackageFiles(files, selector, FinalExcludes(o), sep, matches), [])
    else
      var excluded := GetFilteredPackageFiles(files, selector, DefaultExcludes(sep), sep, matches);
      var remaining := FilterPackageFiles(files, selector, DefaultExcludes(sep), sep, matches);
      var warned := Select(excluded, IsPhysical, true, sep, matches);
      Exclusion(FilterPackageFiles(remaining, selector, FinalExcludes(o), sep, matches), warned)
  }

  /**
   * What ExcludeFiles keeps: each file that matches no final pattern and, unless
   * default excludes are off, no default pattern.
   */
  lemma ExcludeFilesKept(files: seq<PackageFile>, o: ExcludeOptions, sep: char, matches: Matcher)
    ensures forall f :: f in ExcludeFiles(files, o, sep, matches).kept <==>
      f in files
      && !MatchesAny(matches, FinalExcludes(o), ResolvePath(f, MatchBase(o.basePath, o.currentDirectory), sep))
      && (o.noDefaultExcludes || !MatchesAny(matches, DefaultExcludes(sep), ResolvePath(f, MatchBase(o.basePath, o.currentDirectory), sep)))
  {
    var final := MatchesAnyOf(FinalExcludes(o), Matchable(o));
    if o.noDefaultExcludes {
      assert ExcludeFiles(files, o, sep, matches).kept == Select(files, final, false, sep, matches);
    } else {
      var remaining := Select(files, MatchesAnyOf(DefaultExcludes(sep), Matchable(o)), false, sep, matches);
      assert ExcludeFiles(files, o, sep, matches).kept == Select(remaining, final, false, sep, matches);
    }
  }

  /** ExcludeFiles only takes files out: each kept file stays as often as it was given. */
  lemma ExcludeFilesKeptCounts(files: seq<PackageFile>, o: ExcludeOptions, sep: char, matches: Matcher)
    ensures multiset(ExcludeFiles(files, o, sep, matches).kept) <= multiset(files)
    ensures forall f :: f in ExcludeFiles(files, o, sep, matches).kept ==> multiset(ExcludeFiles(files, o, sep, matches).kept)[f] == multiset(files)[f]
  {
    var final := MatchesAnyOf(FinalExcludes(o), Matchable(o));
    if !o.noDefaultExcludes {
      var remaining := Select(files, MatchesAnyOf(DefaultExcludes(sep), Matchable(o)), false, sep, matches);
      assert ExcludeFiles(files, o, sep, matches).kept == Select(remaining, final, false, sep, matches);
    }
  }

  /** The NU5119 warnings of ExcludeFiles: each default-excluded file on disk, as often as it was given. */
  lemma ExcludeFilesWarned(files: seq<PackageFile>, o: ExcludeOptions, sep: char, matches: Matcher)
    ensures forall f :: (multiset(ExcludeFiles(files, o, sep, matches).warned)[f] ==
      (if !o.noDefaultExcludes && f.Physical? && MatchesAny(matches, DefaultExcludes(sep), ResolvePath(f, MatchBase(o.basePath, o.currentDirectory), sep))
       then multiset(files)[f] else 0))
    ensures forall f :: f in ExcludeFiles(files, o, sep, matches).warned <==>
      !o.noDefaultExcludes && f in files && f.Physical?
      && MatchesAny(matches, DefaultExcludes(sep), ResolvePath(f, MatchBase(o.basePath, o.currentDirectory), sep))
  {
    if !o.noDefaultExcludes {
      var excluded := Select(files, MatchesAnyOf(DefaultExcludes(sep), Matchable(o)), true, sep, matches);
      assert ExcludeFiles(files, o, sep, matches).warned == Select(excluded, IsPhysical, true, sep, matches);
    }
  }

  /** The manifest pattern is applied whether or not default excludes are switched off. */
  lemma ManifestAlwaysExcluded(files: seq<PackageFile>, f: PackageFile, o: ExcludeOptions, sep: char, matches: Matcher)
    requires matches(ManifestExclude, ResolvePath(f, MatchBase(o.basePath, o.currentDirectory), sep))
    ensures f !in ExcludeFiles(files, o, sep, matches).kept
  {
    ExcludeFilesKept(files, o, sep, matches);
    assert ManifestExclude in FinalExcludes(o);
  }

  /**
   * Without user patterns, as the newer runner's arguments always are, the last
   * pass removes exactly the files whose matchable path matches the manifest pattern.
   */
  lemma ExcludeFilesWithoutUserPatterns(files: seq<PackageFile>, o: ExcludeOptions, sep: char, matches: Matcher)
    requires o.excludes == []
    ensures forall f :: f in ExcludeFiles(files, o, sep, matches).kept <==>
      f in files
      && !matches(ManifestExclude, ResolvePath(f, MatchBase(o.basePath, o.currentDirectory), sep))
      && (o.noDefaultExcludes || !MatchesAny(matches, DefaultExcludes(sep), ResolvePath(f, MatchBase(o.basePath, o.currentDirectory), sep)))
  {
    ExcludeFilesKept(files, o, sep, matches);
    assert FinalExcludes(o) == [ManifestExclude];
  }

  /** ExcludeFilesForLibPackage: drops the files whose target path matches a lib-package exclude. */
  function ExcludeFilesForLibPackage(files: seq<PackageFile>, sep: char, matches: Matcher): (r: seq<PackageFile>)
    ensures multiset(r) <= multiset(files)
    ensures forall f :: f in r <==> f in files && !MatchesAny(matches, LibPackageExcludes(sep), f.path)
  {
    FilterPackageFiles(files, TargetPath, LibPackageExcludes(sep), sep, matches)
  }

  /**
   * The files of a symbols package: those whose target path matches no
   * symbols-package exclude and, for the Snupkg format, only those among them
   * whose target path has the extension ".pdb" (in any case).
   */
  function SymbolPackageFiles(files: seq<PackageFile>, format: SymbolPackageFormat, sep: char, matches: Matcher): (r: seq<PackageFile>)
    ensures multiset(r) <= multiset(files)
    ensures forall f :: f in r <==>
      f in files && !MatchesAny(matches, SymbolPackageExcludes(sep), f.path) && (format == Snupkg ==> IsPdb(f, sep))
  {
    var globbed := FilterPackageFiles(files, TargetPath, SymbolPackageExcludes(sep), sep, matches);
    if format == Snupkg then Select(globbed, HasPdbExtension, true, sep, matches) else globbed
  }

  /** ExcludeFilesForSymbolPackage: the glob pass, then for Snupkg the non-.pdb files removed one at a time. */
  method ExcludeFilesForSymbolPackage(packageFiles: seq<PackageFile>, format: SymbolPackageFormat, sep: char, matches: Matcher)
    returns (files: seq<PackageFile>)
    ensures files == SymbolPackageFiles(packageFiles, format, sep, matches)
  {
    files := FilterPackageFiles(packageFiles, TargetPath, SymbolPackageExcludes(sep), sep, matches);
    if format == Snupkg {
      ghost var globbed := files;
      var toRemove := Select(files, HasPdbExtension, false, sep, matches);
      var i := 0;
      while i < |toRemove|
        invariant 0 <= i <= |toRemove|
        invariant Select(files, HasPdbExtension, false, sep, matches) == toRemove[i..]
        invariant Select(files, HasPdbExtension, true, sep, matches) == Select(globbed, HasPdbExtension, true, sep, matches)
      {
        SelectRemoveFirst(files, toRemove[i], HasPdbExtension, true, sep, matches);
        SelectRemoveHead(files, toRemove[i], HasPdbExtension, false, sep, matches);
        files := RemoveFirst(files, toRemove[i]);
        i := i + 1;
      }
      SelectKeepsAll(files, HasPdbExtension, true, sep, matches);
    }
  }
}
