/**
 * The filesystem the runners and the link manager act on, as a map from full
 * path to entry. Links are recorded with the target text they were created
 * with and are not followed when paths are looked up.
 */
module FileSystems {
  import opened Results
  import opened Paths

  /** What a path holds: a file, a directory, or a symbolic link (to a file or to a directory). */
  datatype Entry = File | Dir | Link(target: string, isDirectory: bool)

  type Entries = map<string, Entry>

  /** The exceptions the System.IO calls can raise here. */
  datatype FsError =
    | ArgumentError          // an empty or null path
    | IOError(path: string)  // the path is in the way or a needed directory is not one

  /** What a sequence of steps leaves behind: the entries, and the exception that stopped it, if any. */
  datatype Run = Run(entries: Entries, error: Option<FsError>)

  /** File.Exists: a file, or a link to a file. */
  predicate IsFileAt(e: Entries, p: string) {
    p in e && (e[p].File? || (e[p].Link? && !e[p].isDirectory))
  }

  /** Directory.Exists: a directory, or a link to a directory. */
  predicate IsDirectoryAt(e: Entries, p: string) {
    p in e && (e[p].Dir? || (e[p].Link? && e[p].isDirectory))
  }

  /** A successful step is kept; a failed one leaves the entries as they were, with its exception. */
  function Commit(before: Entries, r: Result<Entries, FsError>): (run: Run)
    ensures r.Ok? ==> run == Run(r.value, None)
    ensures r.Err? ==> run == Run(before, Some(r.error))
  {
    match r
    case Ok(after) => Run(after, None)
    case Err(x) => Run(before, Some(x))
  }

  /**
   * Directory.CreateDirectory(d): every segment-ending prefix of `d` becomes a
   * directory. It fails on an empty path, or when one of those prefixes holds
   * something that is not a directory; prefixes that already are directories are kept.
   */
  function CreateDirectoryResult(e: Entries, d: string, sep: char): (r: Result<Entries, FsError>)
    ensures r.Ok? <==> d != [] && forall a :: a in Ancestors(d, sep) && a in e ==> IsDirectoryAt(e, a)
    ensures r.Ok? ==> forall a :: a in Ancestors(d, sep) ==> IsDirectoryAt(r.value, a)
    ensures r.Ok? ==> forall k :: k in e ==> k in r.value && r.value[k] == e[k]
    ensures r.Ok? ==> forall k :: k in r.value && k !in e ==> k in Ancestors(d, sep) && r.value[k] == Dir
    ensures r.Err? && d != [] ==> r.error == IOError(d)
  {
    if d == [] then Err(ArgumentError)
    else if exists a :: a in Ancestors(d, sep) && a in e && !IsDirectoryAt(e, a) then Err(IOError(d))
    else Ok(e + map a | a in Ancestors(d, sep) && a !in e :: Dir)
  }

  /** Creating a directory whose every prefix is already a directory changes nothing. */
  lemma CreateExistingDirectory(e: Entries, d: string, sep: char)
    requires d != [] && forall a :: a in Ancestors(d, sep) ==> IsDirectoryAt(e, a)
    ensures CreateDirectoryResult(e, d, sep) == Ok(e)
  {
    var added := map a | a in Ancestors(d, sep) && a !in e :: Dir;
    assert added == map[];
    assert e + added == e;
  }

  /**
   * The link step the runners use (an external SymbolicLink.create): it never
   * replaces what is at `target`, and otherwise puts a file link to `source` there.
   */
  function CreateLinkResult(e: Entries, source: string, target: string): (r: Result<Entries, FsError>)
    ensures r.Ok? <==> target !in e
    ensures r.Ok? ==> r.value.Keys == e.Keys + {target} && r.value[target] == Link(source, false)
    ensures r.Ok? ==> forall k :: k in e ==> r.value[k] == e[k]
    ensures r.Err? ==> r.error == IOError(target)
  {
    if target in e then Err(IOError(target)) else Ok(e[target := Link(source, false)])
  }

  /** File.Delete(p): removes a file or a link to a file; nothing to do when `p` is absent; a directory is refused. */
  function DeleteFileResult(e: Entries, p: string): (r: Result<Entries, FsError>)
    ensures r.Ok? <==> !IsDirectoryAt(e, p)
    ensures r.Ok? ==> r.value.Keys == e.Keys - {p} && forall k :: k in r.value ==> r.value[k] == e[k]
  {
    if IsDirectoryAt(e, p) then Err(IOError(p)) else Ok(e - {p})
  }

  /** Directory.Delete(root, recursive: true): `root` and everything beneath it go; a non-directory is refused. */
  function DeleteTreeResult(e: Entries, root: string, sep: char): (r: Result<Entries, FsError>)
    ensures r.Ok? <==> IsDirectoryAt(e, root)
    ensures r.Ok? ==> forall k :: k in r.value <==> k in e && !Beneath(k, root, sep)
    ensures r.Ok? ==> forall k :: k in r.value ==> r.value[k] == e[k]
  {
    if IsDirectoryAt(e, root) then Ok(map k | k in e && !Beneath(k, root, sep) :: e[k])
    else Err(IOError(root))
  }

  /** The machine's filesystem, updated in place by the System.IO calls below. */
  class FileSystem {
    var entries: Entries
    const separator: char

    constructor (entries: Entries, separator: char)
      ensures this.entries == entries && this.separator == separator
    {
      this.entries := entries;
      this.separator := separator;
    }

    function FileExists(p: string): bool
      reads this
    {
      IsFileAt(entries, p)
    }

    function DirectoryExists(p: string): bool
      reads this
    {
      IsDirectoryAt(entries, p)
    }

    method DeleteFile(p: string) returns (err: Option<FsError>)
      modifies this
      ensures Run(entries, err) == Commit(old(entries), DeleteFileResult(old(entries), p))
    {
      var r := DeleteFileResult(entries, p);
      if r.Ok? { entries := r.value; err := None; } else { err := Some(r.error); }
    }

    method CreateDirectory(d: string) returns (err: Option<FsError>)
      modifies this
      ensures Run(entries, err) == Commit(old(entries), CreateDirectoryResult(old(entries), d, separator))
    {
      var r := CreateDirectoryResult(entries, d, separator);
      if r.Ok? { entries := r.value; err := None; } else { err := Some(r.error); }
    }

    method CreateLink(source: string, target: string) returns (err: Option<FsError>)
      modifies this
      ensures Run(entries, err) == Commit(old(entries), CreateLinkResult(old(entries), source, target))
    {
      var r := CreateLinkResult(entries, source, target);
      if r.Ok? { entries := r.value; err := None; } else { err := Some(r.error); }
    }

    method DeleteDirectory(root: string) returns (err: Option<FsError>)
      modifies this
      ensures Run(entries, err) == Commit(old(entries), DeleteTreeResult(old(entries), root, separator))
    {
      var r := DeleteTreeResult(entries, root, separator);
      if r.Ok? { entries := r.value; err := None; } else { err := Some(r.error); }
    }
  }
}
