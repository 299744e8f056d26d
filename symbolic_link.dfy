/**
 * SymbolicLink.Create(target, path): the checks made before a symbolic link
 * is created and the arguments handed to the operating system's primitive,
 * symlink on Unix and macOS, CreateSymbolicLink on Windows NT.
 */
module SymbolicLinks {
  import opened Results
  import opened Paths
  import opened FileSystems

  /** System.PlatformID. */
  datatype PlatformID = Win32S | Win32Windows | Win32NT | WinCE | Unix | Xbox | MacOSX | Other

  predicate IsSupported(os: PlatformID) {
    os == Unix || os == MacOSX || os == Win32NT
  }

  /** CreateSymbolicLink's flags: Directory (0x1) and AllowUnprivilegedCreate (0x2) over File (0x0). */
  datatype SymbolicLinkFlags = SymbolicLinkFlags(directory: bool, allowUnprivilegedCreate: bool) {
    function Value(): (v: nat)
      ensures v < 4 && (v % 2 == 1 <==> directory) && (v >= 2 <==> allowUnprivilegedCreate)
    {
      (if directory then 1 else 0) + (if allowUnprivilegedCreate then 2 else 0)
    }
  }

  /** The call made to the operating system. */
  datatype NativeCall =
    | Symlink(target: string, path: string)
    | CreateSymbolicLink(symlinkFileName: string, targetFileName: string, flags: SymbolicLinkFlags)

  /** What Create throws. */
  datatype LinkError =
    | ArgumentNull                             // the link path has no directory name
    | UnsupportedOperatingSystem
    | LinkTargetDoesNotExist(fileName: string)  // FileNotFoundException naming the resolved target
    | CouldNotCreateLink                       // the primitive failed

  /** Windows' extended-length path prefix. */
  const LongPathPrefix: string := "\\\\?\\"

  /** File.Exists / Directory.Exists on a possibly relative path; an empty path exists as neither. */
  predicate FileExistsAt(fs: Entries, cwd: string, p: string, sep: char) {
    p != [] && IsFileAt(fs, FullPath(cwd, p, sep))
  }

  predicate DirectoryExistsAt(fs: Entries, cwd: string, p: string, sep: char) {
    p != [] && IsDirectoryAt(fs, FullPath(cwd, p, sep))
  }

  /** The target resolved against the link's directory, where its existence is checked. */
  function ResolvedTarget(target: string, path: string, sep: char): (r: Option<string>)
    ensures r.None? <==> DirectoryName(path, sep).None?
    ensures r.Some? && DirectoryName(path, sep).value == [] ==> r.value == target
    ensures r.Some? && IsPathRooted(target, sep) ==> r.value == target
  {
    match DirectoryName(path, sep)
    case None => None
    case Some(dir) => Some(Combine(dir, target, sep))
  }

  /**
   * The call Create makes, or the error it throws first: a path without a
   * directory name fails before anything else; then the platform must be Unix,
   * macOS or Windows NT; then the resolved target must exist as a file or a
   * directory. Unix and macOS get the original target; Windows gets the
   * link's full path with the long-path prefix, a Directory flag exactly when
   * the resolved target is not a file, always AllowUnprivilegedCreate, and the
   * target verbatim when it is relative or prefixed and made full when rooted.
   */
  function Plan(fs: Entries, os: PlatformID, cwd: string, target: string, path: string, sep: char): (r: Result<NativeCall, LinkError>)
    ensures DirectoryName(path, sep).None? ==> r == Err(ArgumentNull)
    ensures DirectoryName(path, sep).Some? && !IsSupported(os) ==> r == Err(UnsupportedOperatingSystem)
    ensures ResolvedTarget(target, path, sep).Some? && IsSupported(os) ==>
      var text := ResolvedTarget(target, path, sep).value;
      (r.Err? <==> !FileExistsAt(fs, cwd, text, sep) && !DirectoryExistsAt(fs, cwd, text, sep))
      && (r.Err? ==> r.error == LinkTargetDoesNotExist(text))
    ensures r.Ok? && (os == Unix || os == MacOSX) ==> r.value == Symlink(target, path)
    ensures r.Ok? && os == Win32NT ==>
      var text := ResolvedTarget(target, path, sep).value;
      r.value.CreateSymbolicLink?
      && r.value.symlinkFileName == LongPathPrefix + FullPath(cwd, path, sep)
      && r.value.targetFileName == (if IsPathRooted(target, sep) then LongPathPrefix + FullPath(cwd, target, sep) else target)
      && r.value.flags == SymbolicLinkFlags(!FileExistsAt(fs, cwd, text, sep), true)
  {
    match ResolvedTarget(target, path, sep)
    case None => Err(ArgumentNull)
    case Some(text) =>
      if os == Unix || os == MacOSX then
        if !FileExistsAt(fs, cwd, text, sep) && !DirectoryExistsAt(fs, cwd, text, sep) then Err(LinkTargetDoesNotExist(text))
        else Ok(Symlink(target, path))
      else if os == Win32NT then
        if FileExistsAt(fs, cwd, text, sep) then
          Ok(CreateSymbolicLink(LongPathPrefix + FullPath(cwd, path, sep), LinkText(target, cwd, sep), SymbolicLinkFlags(false, true)))
        else if !DirectoryExistsAt(fs, cwd, text, sep) then Err(LinkTargetDoesNotExist(text))
        else Ok(CreateSymbolicLink(LongPathPrefix + FullPath(cwd, path, sep), LinkText(target, cwd, sep), SymbolicLinkFlags(true, true)))
      else Err(UnsupportedOperatingSystem)
  }

  /**
   * The flag word handed to CreateSymbolicLink: 0x2 (File | AllowUnprivilegedCreate)
   * for a file target and 0x3 (Directory | AllowUnprivilegedCreate) for a directory.
   */
  lemma WindowsFlagWord(fs: Entries, cwd: string, target: string, path: string, sep: char)
    requires Plan(fs, Win32NT, cwd, target, path, sep).Ok?
    ensures Plan(fs, Win32NT, cwd, target, path, sep).value.flags.Value()
      == if FileExistsAt(fs, cwd, ResolvedTarget(target, path, sep).value, sep) then 2 else 3
  {
  }

  /** The target text given on Windows: a relative target as is, a rooted one as a `\\?\` full path. */
  function LinkText(target: string, cwd: string, sep: char): string {
    if !IsPathRooted(target, sep) then target else LongPathPrefix + FullPath(cwd, target, sep)
  }

  /** The text the new link records: what the primitive was given as its target. */
  function RecordedTarget(call: NativeCall): string {
    match call
    case Symlink(target, _) => target
    case CreateSymbolicLink(_, targetFileName, _) => targetFileName
  }

  /**
   * Create's effect: the planned call, which fails (and changes nothing) when the
   * primitive reports failure or something is already at the link's path;
   * otherwise a link to the resolved target's kind appears at that path and
   * nothing else changes.
   */
  function CreateResult(fs: Entries, os: PlatformID, cwd: string, target: string, path: string, sep: char, nativeSucceeds: bool)
    : (r: Result<Entries, LinkError>)
    ensures Plan(fs, os, cwd, target, path, sep).Err? ==> r == Err(Plan(fs, os, cwd, target, path, sep).error)
    ensures Plan(fs, os, cwd, target, path, sep).Ok? ==>
      (r.Ok? <==> nativeSucceeds && FullPath(cwd, path, sep) !in fs)
      && (r.Err? ==> r.error == CouldNotCreateLink)
    ensures r.Ok? ==>
      var key := FullPath(cwd, path, sep);
      var text := ResolvedTarget(target, path, sep).value;
      r.value.Keys == fs.Keys + {key}
      && r.value[key] == Link(RecordedTarget(Plan(fs, os, cwd, target, path, sep).value), !FileExistsAt(fs, cwd, text, sep))
      && forall k :: k in fs ==> r.value[k] == fs[k]
  {
    match Plan(fs, os, cwd, target, path, sep)
    case Err(e) => Err(e)
    case Ok(call) =>
      var key := FullPath(cwd, path, sep);
      if !nativeSucceeds || key in fs then Err(CouldNotCreateLink)
      else Ok(fs[key := Link(RecordedTarget(call), !FileExistsAt(fs, cwd, ResolvedTarget(target, path, sep).value, sep))])
  }

  /** Create never removes or replaces an entry: every failure leaves the filesystem as it was. */
  lemma CreateNeverDeletes(fs: Entries, os: PlatformID, cwd: string, target: string, path: string, sep: char, nativeSucceeds: bool)
    requires FullPath(cwd, path, sep) in fs
    ensures CreateResult(fs, os, cwd, target, path, sep, nativeSucceeds).Err?
  {
  }

  /** On an unsupported platform nothing is created, whatever the filesystem holds. */
  lemma UnsupportedCreatesNothing(fs: Entries, os: PlatformID, cwd: string, target: string, path: string, sep: char, nativeSucceeds: bool)
    requires !IsSupported(os)
    ensures CreateResult(fs, os, cwd, target, path, sep, nativeSucceeds).Err?
  {
  }

  /** A link made beside its target with a plain file name finds the target in its own directory. */
  lemma {:induction false} UnixLinkBesideTarget(fs: Entries, cwd: string, dir: string, name: string, link: string, sep: char)
    requires IsSegment(name, sep) && IsSegment(link, sep) && name != link
    requires sep == '/' && dir != [] && dir[|dir| - 1] != sep && IsPathRooted(dir, sep)
    requires IsFileAt(fs, dir + [sep] + name) && dir + [sep] + link !in fs
    ensures CreateResult(fs, Unix, cwd, name, dir + [sep] + link, sep, true)
      == Ok(fs[dir + [sep] + link := Link(name, false)])
  {
    var path := dir + [sep] + link;
    DirectoryNameOfChild(dir, link, sep);
    assert ResolvedTarget(name, path, sep) == Some(dir + [sep] + name);
    assert IsPathRooted(dir + [sep] + name, sep) by {
      assert (dir + [sep] + name)[..|dir|] == dir;
    }
    assert IsPathRooted(path, sep) by {
      assert path[..|dir|] == dir;
    }
  }

  /** The method Create, updating the filesystem in place through the primitive. */
  method Create(fs: FileSystem, os: PlatformID, cwd: string, target: string, path: string, nativeSucceeds: bool)
    returns (err: Option<LinkError>)
    modifies fs
    ensures var r := CreateResult(old(fs.entries), os, cwd, target, path, fs.separator, nativeSucceeds);
      (r.Ok? ==> err.None? && fs.entries == r.value)
      && (r.Err? ==> err == Some(r.error) && fs.entries == old(fs.entries))
  {
    var dir := DirectoryName(path, fs.separator);
    if dir.None? {
      return Some(ArgumentNull);
    }
    var text := Combine(dir.value, target, fs.separator);
    assert ResolvedTarget(target, path, fs.separator) == Some(text);
    if os == Unix || os == MacOSX {
      err := CreateOnUnix(fs, os, cwd, target, path, text, nativeSucceeds);
    } else if os == Win32NT {
      err := CreateOnWindows(fs, cwd, target, path, text, nativeSucceeds);
    } else {
      return Some(UnsupportedOperatingSystem);
    }
  }

  /** The Unix and macOS branch of Create: the target must exist, then symlink(target, path). */
  method CreateOnUnix(fs: FileSystem, os: PlatformID, cwd: string, target: string, path: string, text: string, nativeSucceeds: bool)
    returns (err: Option<LinkError>)
    requires os == Unix || os == MacOSX
    requires ResolvedTarget(target, path, fs.separator) == Some(text)
    modifies fs
    ensures var r := CreateResult(old(fs.entries), os, cwd, target, path, fs.separator, nativeSucceeds);
      (r.Ok? ==> err.None? && fs.entries == r.value)
      && (r.Err? ==> err == Some(r.error) && fs.entries == old(fs.entries))
  {
    var sep := fs.separator;
    var key := FullPath(cwd, path, sep);
    var isFile := text != [] && fs.FileExists(FullPath(cwd, text, sep));
    var isDirectory := text != [] && fs.DirectoryExists(FullPath(cwd, text, sep));
    assert isFile == FileExistsAt(fs.entries, cwd, text, sep) && isDirectory == DirectoryExistsAt(fs.entries, cwd, text, sep);
    if !isFile && !isDirectory {
      return Some(LinkTargetDoesNotExist(text));
    }
    assert Plan(fs.entries, os, cwd, target, path, sep) == Ok(Symlink(target, path));
    if !nativeSucceeds || key in fs.entries {
      return Some(CouldNotCreateLink);
    }
    assert CreateResult(fs.entries, os, cwd, target, path, sep, nativeSucceeds) == Ok(fs.entries[key := Link(target, !isFile)]);
    fs.entries := fs.entries[key := Link(target, !isFile)];
    err := None;
  }

  /**
   * The Windows branch of Create: a file target gets a file link, an existing
   * directory a directory link, unprivileged creation is always allowed, and
   * CreateSymbolicLink gets the long-path forms of the link and of a rooted target.
   */
  method CreateOnWindows(fs: FileSystem, cwd: string, target: string, path: string, text: string, nativeSucceeds: bool)
    returns (err: Option<LinkError>)
    requires ResolvedTarget(target, path, fs.separator) == Some(text)
    modifies fs
    ensures var r := CreateResult(old(fs.entries), Win32NT, cwd, target, path, fs.separator, nativeSucceeds);
      (r.Ok? ==> err.None? && fs.entries == r.value)
      && (r.Err? ==> err == Some(r.error) && fs.entries == old(fs.entries))
  {
    var sep := fs.separator;
    var key := FullPath(cwd, path, sep);
    var isFile := text != [] && fs.FileExists(FullPath(cwd, text, sep));
    assert isFile == FileExistsAt(fs.entries, cwd, text, sep);
    var flags: SymbolicLinkFlags;
    if isFile {
      flags := SymbolicLinkFlags(false, false);
    } else {
      var isDirectory := text != [] && fs.DirectoryExists(FullPath(cwd, text, sep));
      assert isDirectory == DirectoryExistsAt(fs.entries, cwd, text, sep);
      if !isDirectory {
        return Some(LinkTargetDoesNotExist(text));
      }
      flags := SymbolicLinkFlags(true, false);
    }
    flags := flags.(allowUnprivilegedCreate := true);
    var linkText := if !IsPathRooted(target, sep) then target else LongPathPrefix + FullPath(cwd, target, sep);
    var linkName := LongPathPrefix + key;
    assert Plan(fs.entries, Win32NT, cwd, target, path, sep) == Ok(CreateSymbolicLink(linkName, linkText, flags));
    if !nativeSucceeds || key in fs.entries {
      return Some(CouldNotCreateLink);
    }
    assert CreateResult(fs.entries, Win32NT, cwd, target, path, sep, nativeSucceeds) == Ok(fs.entries[key := Link(linkText, flags.directory)]);
    fs.entries := fs.entries[key := Link(linkText, flags.directory)];
    err := None;
  }
}
