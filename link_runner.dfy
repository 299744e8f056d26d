/**
 * The link command: LinkTarget links a consumer's planned paths to the store,
 * LinkSource fills the store folder `BasePath/Id/Version` with links to a
 * package's files on disk. Both run one link step per file, in order, and
 * stop at the first exception.
 */
module LinkRunners {
  import opened Results
  import opened Paths
  import opened FileSystems
  import opened FileSelection
  import opened PackageBuilders

  /** A planned link: `target` is to point at `source`. */
  datatype FileLink = FileLink(source: string, target: string)

  /** The planned targets. */
  function Targets(links: seq<FileLink>): (r: set<string>)
    ensures forall i :: 0 <= i < |links| ==> links[i].target in r
    ensures forall t :: t in r ==> exists i :: 0 <= i < |links| && links[i].target == t
  {
    if links == [] then {}
    else
      var init := links[..|links| - 1];
      assert forall i :: 0 <= i < |init| ==> init[i] == links[i];
      Targets(init) + {links[|links| - 1].target}
  }

  /** The entry each planned target ends with when every step succeeds: a link to the source of its last step. */
  function LastLinks(links: seq<FileLink>): (r: map<string, Entry>)
    ensures r.Keys == Targets(links)
    ensures forall t :: t in r ==> r[t].Link? && !r[t].isDirectory
  {
    if links == [] then map[]
    else
      var init := links[..|links| - 1];
      var last := links[|links| - 1];
      assert forall i :: 0 <= i < |init| ==> init[i] == links[i];
      LastLinks(init)[last.target := Link(last.source, false)]
  }

  /** The directory a link's parent directory creation is given; a path without one gives the empty path. */
  function ParentOf(target: string, sep: char): string {
    match DirectoryName(target, sep)
    case None => []
    case Some(d) => d
  }

  /** The directories the link steps may create: every prefix of a target's directory. */
  function ParentDirs(links: seq<FileLink>, sep: char): (r: set<string>)
    ensures forall i :: 0 <= i < |links| ==> Ancestors(ParentOf(links[i].target, sep), sep) <= r
  {
    if links == [] then {}
    else
      var init := links[..|links| - 1];
      assert forall i :: 0 <= i < |init| ==> init[i] == links[i];
      ParentDirs(init, sep) + Ancestors(ParentOf(links[|links| - 1].target, sep), sep)
  }

  /** `if (File.Exists(t)) File.Delete(t);` */
  function DeleteIfFile(e: Entries, t: string): (r: Entries)
    ensures r == if IsFileAt(e, t) then e - {t} else e
  {
    if IsFileAt(e, t) then DeleteFileResult(e, t).value else e
  }

  /**
   * When one link step can succeed: the target has a non-empty directory name,
   * every prefix of that directory already present is a directory, and the target
   * is absent or a file (which the step deletes).
   */
  predicate CanPlace(e: Entries, l: FileLink, sep: char) {
    DirectoryName(l.target, sep).Some? && DirectoryName(l.target, sep).value != []
    && (forall a :: a in Ancestors(DirectoryName(l.target, sep).value, sep) && a in e ==> IsDirectoryAt(e, a))
    && (l.target !in e || IsFileAt(e, l.target))
  }

  /**
   * One link step: delete a file at the target, create the target's directory,
   * create the link. LinkTarget deletes before creating the directory
   * (`deleteFirst`), LinkSource after.
   */
  function PlaceLink(e: Entries, l: FileLink, deleteFirst: bool, sep: char): Run {
    var t := l.target;
    var e1 := if deleteFirst then DeleteIfFile(e, t) else e;
    match DirectoryName(t, sep)
    case None => Run(e1, Some(ArgumentError))
    case Some(d) =>
      match CreateDirectoryResult(e1, d, sep)
      case Err(x) => Run(e1, Some(x))
      case Ok(e2) =>
        var e3 := if deleteFirst then e2 else DeleteIfFile(e2, t);
        match CreateLinkResult(e3, l.source, t)
        case Err(x) => Run(e3, Some(x))
        case Ok(e4) => Run(e4, None)
  }

  /**
   * A step succeeds exactly when it can be placed; it then leaves the link at the
   * target and the target's directories in place. Whether or not it succeeds, it
   * keeps every other entry and adds only the target and prefixes of its directory.
   */
  lemma PlaceLinkOutcome(e: Entries, l: FileLink, deleteFirst: bool, sep: char)
    ensures var r := PlaceLink(e, l, deleteFirst, sep);
      && (r.error.None? <==> CanPlace(e, l, sep))
      && (r.error.None? ==> l.target in r.entries && r.entries[l.target] == Link(l.source, false))
      && (r.error.None? ==> forall a :: a in Ancestors(ParentOf(l.target, sep), sep) ==> IsDirectoryAt(r.entries, a))
      && (forall k :: k in e && k != l.target ==> k in r.entries && r.entries[k] == e[k])
      && (forall k :: k in r.entries && k !in e ==> k == l.target || k in Ancestors(ParentOf(l.target, sep), sep))
  {
    match DirectoryName(l.target, sep)
    case None =>
    case Some(d) => AncestorsAreShorter(d, l.target, sep);
  }

  /** No prefix of a path's directory name is the path itself. */
  lemma AncestorsAreShorter(d: string, t: string, sep: char)
    requires |d| < |t|
    ensures t !in Ancestors(d, sep)
  {
  }

  /** The steps in order, stopping at the first exception. */
  function PlaceLinks(e: Entries, links: seq<FileLink>, deleteFirst: bool, sep: char): Run {
    if links == [] then Run(e, None)
    else
      var prev := PlaceLinks(e, links[..|links| - 1], deleteFirst, sep);
      if prev.error.Some? then prev else PlaceLink(prev.entries, links[|links| - 1], deleteFirst, sep)
  }

  /** The link steps change nothing but the planned targets and the prefixes of their directories. */
  lemma {:induction false} PlaceLinksFrame(e: Entries, links: seq<FileLink>, deleteFirst: bool, sep: char, k: string)
    requires k !in Targets(links) && k !in ParentDirs(links, sep)
    ensures var r := PlaceLinks(e, links, deleteFirst, sep).entries;
      (k in e <==> k in r) && (k in e ==> r[k] == e[k])
  {
    if links != [] {
      var init := links[..|links| - 1];
      PlaceLinksFrame(e, init, deleteFirst, sep, k);
      PlaceLinkOutcome(PlaceLinks(e, init, deleteFirst, sep).entries, links[|links| - 1], deleteFirst, sep);
    }
  }

  /** Every planned target holds its last link. */
  predicate HoldsLastLinks(f: Entries, links: seq<FileLink>) {
    forall t :: t in LastLinks(links) ==> t in f && f[t] == LastLinks(links)[t]
  }

  /** Every planned target's directory, and each prefix of it, is a directory. */
  predicate ParentsPresent(f: Entries, links: seq<FileLink>, sep: char) {
    forall i :: 0 <= i < |links| ==>
      DirectoryName(links[i].target, sep).Some? && DirectoryName(links[i].target, sep).value != []
      && forall a :: a in Ancestors(ParentOf(links[i].target, sep), sep) ==> IsDirectoryAt(f, a)
  }

  /** After a run without exception, each target is a link to the source of its last step. */
  lemma {:induction false} PlaceLinksLastLinks(e: Entries, links: seq<FileLink>, deleteFirst: bool, sep: char)
    requires PlaceLinks(e, links, deleteFirst, sep).error.None?
    ensures HoldsLastLinks(PlaceLinks(e, links, deleteFirst, sep).entries, links)
  {
    if links != [] {
      var init := links[..|links| - 1];
      var l := links[|links| - 1];
      PlaceLinksLastLinks(e, init, deleteFirst, sep);
      var s := PlaceLinks(e, init, deleteFirst, sep).entries;
      var f := PlaceLink(s, l, deleteFirst, sep).entries;
      PlaceLinkOutcome(s, l, deleteFirst, sep);
      assert LastLinks(links) == LastLinks(init)[l.target := Link(l.source, false)];
      forall t | t in LastLinks(links)
        ensures t in f && f[t] == LastLinks(links)[t]
      {
        if t != l.target {
          assert t in LastLinks(init);
          assert t in s;
        }
      }
    }
  }

  /** After a run without exception, the directory of every target, and each prefix of it, is a directory. */
  lemma {:induction false} PlaceLinksParents(e: Entries, links: seq<FileLink>, deleteFirst: bool, sep: char)
    requires PlaceLinks(e, links, deleteFirst, sep).error.None?
    ensures ParentsPresent(PlaceLinks(e, links, deleteFirst, sep).entries, links, sep)
  {
    if links != [] {
      var init := links[..|links| - 1];
      var l := links[|links| - 1];
      PlaceLinksParents(e, init, deleteFirst, sep);
      var s := PlaceLinks(e, init, deleteFirst, sep).entries;
      var f := PlaceLink(s, l, deleteFirst, sep).entries;
      PlaceLinkOutcome(s, l, deleteFirst, sep);
      forall i | 0 <= i < |links| - 1
        ensures DirectoryName(links[i].target, sep).Some? && DirectoryName(links[i].target, sep).value != []
        ensures forall a :: a in Ancestors(ParentOf(links[i].target, sep), sep) ==> IsDirectoryAt(f, a)
      {
        assert init[i] == links[i];
        forall a | a in Ancestors(ParentOf(links[i].target, sep), sep)
          ensures IsDirectoryAt(f, a)
        {
          assert IsDirectoryAt(s, a);
          StepKeepsDirectory(s, l, deleteFirst, sep, a);
        }
      }
    }
  }

  /** A successful step keeps every directory. */
  lemma StepKeepsDirectory(s: Entries, l: FileLink, deleteFirst: bool, sep: char, a: string)
    requires PlaceLink(s, l, deleteFirst, sep).error.None? && IsDirectoryAt(s, a)
    ensures IsDirectoryAt(PlaceLink(s, l, deleteFirst, sep).entries, a)
  {
    PlaceLinkOutcome(s, l, deleteFirst, sep);
    assert a != l.target;
  }

  lemma PlaceLinksSuccess(e: Entries, links: seq<FileLink>, deleteFirst: bool, sep: char)
    requires PlaceLinks(e, links, deleteFirst, sep).error.None?
    ensures HoldsLastLinks(PlaceLinks(e, links, deleteFirst, sep).entries, links)
    ensures ParentsPresent(PlaceLinks(e, links, deleteFirst, sep).entries, links, sep)
  {
    PlaceLinksLastLinks(e, links, deleteFirst, sep);
    PlaceLinksParents(e, links, deleteFirst, sep);
  }

  /** A step whose target is a file and whose directories all exist only replaces the target. */
  lemma StepOverFile(g: Entries, l: FileLink, deleteFirst: bool, sep: char)
    requires IsFileAt(g, l.target)
    requires DirectoryName(l.target, sep).Some? && DirectoryName(l.target, sep).value != []
    requires forall a :: a in Ancestors(ParentOf(l.target, sep), sep) ==> IsDirectoryAt(g, a)
    ensures PlaceLink(g, l, deleteFirst, sep) == Run(g[l.target := Link(l.source, false)], None)
  {
    var r := PlaceLink(g, l, deleteFirst, sep);
    PlaceLinkOutcome(g, l, deleteFirst, sep);
    assert CanPlace(g, l, sep);
    assert r.entries.Keys == g.Keys + {l.target};
  }

  /** Replaying the steps over a state that already holds their outcome overwrites each target with its link. */
  lemma {:induction false} Replay(f: Entries, links: seq<FileLink>, i: nat, deleteFirst: bool, sep: char)
    requires i <= |links|
    requires HoldsLastLinks(f, links) && ParentsPresent(f, links, sep)
    ensures PlaceLinks(f, links[..i], deleteFirst, sep) == Run(f + LastLinks(links[..i]), None)
  {
    if i == 0 {
      assert links[..0] == [];
      assert LastLinks(links[..0]) == map[];
      assert f + map[] == f;
    } else {
      Replay(f, links, i - 1, deleteFirst, sep);
      ReplayStep(f, links, i, deleteFirst, sep);
    }
  }

  /** One replayed step overwrites its target with its link. */
  lemma ReplayStep(f: Entries, links: seq<FileLink>, i: nat, deleteFirst: bool, sep: char)
    requires 0 < i <= |links|
    requires HoldsLastLinks(f, links) && ParentsPresent(f, links, sep)
    requires PlaceLinks(f, links[..i - 1], deleteFirst, sep) == Run(f + LastLinks(links[..i - 1]), None)
    ensures PlaceLinks(f, links[..i], deleteFirst, sep) == Run(f + LastLinks(links[..i]), None)
  {
    var init := links[..i - 1];
    var l := links[i - 1];
    PlaceLinksSnoc(f, links, i, deleteFirst, sep);
    ReplayStepReady(f, links, i - 1, sep);
    StepOverFile(f + LastLinks(init), l, deleteFirst, sep);
    LastLinksSnoc(links, i);
    MergeUpdate(f, LastLinks(init), l.target, Link(l.source, false));
  }

  /** The run over a prefix one longer is one more step after the run over the prefix. */
  lemma PlaceLinksSnoc(e: Entries, links: seq<FileLink>, i: nat, deleteFirst: bool, sep: char)
    requires 0 < i <= |links|
    ensures var prev := PlaceLinks(e, links[..i - 1], deleteFirst, sep);
      PlaceLinks(e, links[..i], deleteFirst, sep)
      == if prev.error.Some? then prev else PlaceLink(prev.entries, links[i - 1], deleteFirst, sep)
  {
    assert links[..i][..i - 1] == links[..i - 1];
  }

  /** Once a step fails, the later steps do not run: the run ends with that step's state and exception. */
  lemma {:induction false} PlaceLinksAfterFailure(e: Entries, p: seq<FileLink>, q: seq<FileLink>, deleteFirst: bool, sep: char)
    requires PlaceLinks(e, p, deleteFirst, sep).error.Some?
    ensures PlaceLinks(e, p + q, deleteFirst, sep) == PlaceLinks(e, p, deleteFirst, sep)
    decreases |q|
  {
    if q == [] {
      assert p + q == p;
    } else {
      var q' := q[..|q| - 1];
      PlaceLinksAfterFailure(e, p, q', deleteFirst, sep);
      assert (p + q)[..|p + q| - 1] == p + q';
    }
  }

  lemma SplitLinks(links: seq<FileLink>, j: nat)
    requires j <= |links|
    ensures links[..j] + links[j..] == links
  {
  }

  /** Appending a step runs it after the others, unless one of them failed. */
  lemma PlaceLinksAppendOne(e: Entries, p: seq<FileLink>, l: FileLink, deleteFirst: bool, sep: char)
    ensures var prev := PlaceLinks(e, p, deleteFirst, sep);
      PlaceLinks(e, p + [l], deleteFirst, sep)
      == if prev.error.Some? then prev else PlaceLink(prev.entries, l, deleteFirst, sep)
  {
    assert (p + [l])[..|p|] == p;
  }

  /** The last links of a prefix one longer overwrite the new step's target. */
  lemma LastLinksSnoc(links: seq<FileLink>, i: nat)
    requires 0 < i <= |links|
    ensures LastLinks(links[..i]) == LastLinks(links[..i - 1])[links[i - 1].target := Link(links[i - 1].source, false)]
  {
    assert links[..i][..i - 1] == links[..i - 1];
  }

  /** During a replay, each step finds its target a file and its directories present. */
  lemma ReplayStepReady(f: Entries, links: seq<FileLink>, i: nat, sep: char)
    requires i < |links|
    requires HoldsLastLinks(f, links) && ParentsPresent(f, links, sep)
    ensures var g := f + LastLinks(links[..i]);
      var l := links[i];
      IsFileAt(g, l.target)
      && DirectoryName(l.target, sep).Some? && DirectoryName(l.target, sep).value != []
      && forall a :: a in Ancestors(ParentOf(l.target, sep), sep) ==> IsDirectoryAt(g, a)
  {
    var init := links[..i];
    var g := f + LastLinks(init);
    var l := links[i];
    assert l.target in LastLinks(links);
    forall a | a in Ancestors(ParentOf(l.target, sep), sep)
      ensures IsDirectoryAt(g, a)
    {
      assert IsDirectoryAt(f, a);
      assert a !in LastLinks(init);
    }
  }

  lemma MergeUpdate(f: map<string, Entry>, m: map<string, Entry>, k: string, v: Entry)
    ensures (f + m)[k := v] == f + m[k := v]
  {
  }

  /** Running the same steps again after a run without exception changes nothing. */
  lemma PlaceLinksIdempotent(e: Entries, links: seq<FileLink>, deleteFirst: bool, sep: char)
    requires PlaceLinks(e, links, deleteFirst, sep).error.None?
    ensures var f := PlaceLinks(e, links, deleteFirst, sep).entries;
      PlaceLinks(f, links, deleteFirst, sep) == Run(f, None)
  {
    var f := PlaceLinks(e, links, deleteFirst, sep).entries;
    PlaceLinksSuccess(e, links, deleteFirst, sep);
    Replay(f, links, |links|, deleteFirst, sep);
    assert links[..|links|] == links;
    assert f + LastLinks(links) == f;
  }

  /**
   * One link step on the filesystem: delete a file at the target (before the
   * directory when `deleteFirst`, after it otherwise), create the target's
   * directory, create the link.
   */
  method PlaceLinkOn(fs: FileSystem, link: FileLink, deleteFirst: bool) returns (err: Option<FsError>)
    modifies fs
    ensures Run(fs.entries, err) == PlaceLink(old(fs.entries), link, deleteFirst, fs.separator)
  {
    var sep := fs.separator;
    if deleteFirst && fs.FileExists(link.target) {
      var deleted := fs.DeleteFile(link.target);
    }
    ghost var e1 := fs.entries;
    var dir := DirectoryName(link.target, sep);
    if dir.None? {
      return Some(ArgumentError);
    }
    err := fs.CreateDirectory(dir.value);
    if err.Some? {
      return;
    }
    ghost var e2 := fs.entries;
    assert CreateDirectoryResult(e1, dir.value, sep) == Ok(e2);
    if !deleteFirst && fs.FileExists(link.target) {
      var deleted := fs.DeleteFile(link.target);
    }
    err := fs.CreateLink(link.source, link.target);
  }

  /** LinkTarget: for each planned link, delete a file at the target, create its directory, create the link. */
  method LinkTarget(fs: FileSystem, links: seq<FileLink>) returns (err: Option<FsError>)
    modifies fs
    ensures Run(fs.entries, err) == PlaceLinks(old(fs.entries), links, true, fs.separator)
  {
    var i := 0;
    while i < |links|
      invariant 0 <= i <= |links|
      invariant Run(fs.entries, None) == PlaceLinks(old(fs.entries), links[..i], true, fs.separator)
    {
      PlaceLinksSnoc(old(fs.entries), links, i + 1, true, fs.separator);
      err := PlaceLinkOn(fs, links[i], true);
      if err.Some? {
        PlaceLinksAfterFailure(old(fs.entries), links[..i + 1], links[i + 1..], true, fs.separator);
        SplitLinks(links, i + 1);
        return;
      }
      i := i + 1;
    }
    assert links[..i] == links;
    err := None;
  }

  /** The store folder of a package: `BasePath/Id/NormalizedVersion`. */
  function StoreRoot(basePath: string, id: string, version: NuGetVersion, sep: char, lib: NuGetLibrary): string {
    Combine(Combine(basePath, id, sep), lib.normalized(version), sep)
  }

  /** The link planned for each file on disk: `root/Path` pointing at its source path. Generated files get none. */
  function PlannedLinks(root: string, files: seq<PackageFile>, sep: char): seq<FileLink> {
    if files == [] then []
    else
      var f := files[|files| - 1];
      PlannedLinks(root, files[..|files| - 1], sep) + (if f.Physical? then [FileLink(f.sourcePath, Combine(root, f.path, sep))] else [])
  }

  /** Exactly the files on disk get a link, each at its path under the root. */
  lemma {:induction false} PlannedLinksMembers(root: string, files: seq<PackageFile>, sep: char)
    ensures forall l :: l in PlannedLinks(root, files, sep) ==>
      exists f :: f in files && f.Physical? && l == FileLink(f.sourcePath, Combine(root, f.path, sep))
    ensures forall f :: f in files && f.Physical? ==> FileLink(f.sourcePath, Combine(root, f.path, sep)) in PlannedLinks(root, files, sep)
  {
    if files != [] {
      var init := files[..|files| - 1];
      var f := files[|files| - 1];
      PlannedLinksMembers(root, init, sep);
      assert files == init + [f];
      assert forall g :: g in init ==> g in files;
    }
  }

  /** Planning a concatenation plans each part. */
  lemma {:induction false} PlannedLinksAppend(root: string, a: seq<PackageFile>, b: seq<PackageFile>, sep: char)
    ensures PlannedLinks(root, a + b, sep) == PlannedLinks(root, a, sep) + PlannedLinks(root, b, sep)
    decreases |b|
  {
    if b == [] {
      assert a + b == a;
    } else {
      var b' := b[..|b| - 1];
      PlannedLinksAppend(root, a, b', sep);
      assert (a + b)[..|a + b| - 1] == a + b';
    }
  }

  /** Planning one more file adds its link when it is on disk. */
  lemma PlannedLinksSnoc(root: string, files: seq<PackageFile>, i: nat, sep: char)
    requires i < |files|
    ensures files[i].Physical? ==>
      (PlannedLinks(root, files[..i + 1], sep)
       == PlannedLinks(root, files[..i], sep) + [FileLink(files[i].sourcePath, Combine(root, files[i].path, sep))])
    ensures files[i].Generated? ==> PlannedLinks(root, files[..i + 1], sep) == PlannedLinks(root, files[..i], sep)
  {
    assert files[..i + 1][..i] == files[..i];
    assert PlannedLinks(root, files[..i], sep) + [] == PlannedLinks(root, files[..i], sep);
  }

  /** When the link of one file fails, the planned run stops there. */
  lemma PlannedLinksStopped(start: Entries, root: string, files: seq<PackageFile>, i: nat, sep: char)
    requires i < |files|
    requires PlaceLinks(start, PlannedLinks(root, files[..i + 1], sep), false, sep).error.Some?
    ensures PlaceLinks(start, PlannedLinks(root, files, sep), false, sep)
      == PlaceLinks(start, PlannedLinks(root, files[..i + 1], sep), false, sep)
  {
    PlannedLinksAppend(root, files[..i + 1], files[i + 1..], sep);
    assert files[..i + 1] + files[i + 1..] == files;
    PlaceLinksAfterFailure(start, PlannedLinks(root, files[..i + 1], sep), PlannedLinks(root, files[i + 1..], sep), false, sep);
  }

  /** The filesystem part of LinkSource: create the store folder, then link each file on disk into it. */
  function LinkSourceRun(e: Entries, root: string, files: seq<PackageFile>, sep: char): Run {
    match CreateDirectoryResult(e, root, sep)
    case Err(x) => Run(e, Some(x))
    case Ok(e1) => PlaceLinks(e1, PlannedLinks(root, files, sep), false, sep)
  }

  /** The store folder exists after a LinkSource without exception, even for a package without files on disk. */
  lemma LinkSourceCreatesRoot(e: Entries, root: string, files: seq<PackageFile>, sep: char)
    requires LinkSourceRun(e, root, files, sep).error.None?
    ensures IsDirectoryAt(LinkSourceRun(e, root, files, sep).entries, root)
    ensures HoldsLastLinks(LinkSourceRun(e, root, files, sep).entries, PlannedLinks(root, files, sep))
  {
    var e1 := CreateDirectoryResult(e, root, sep).value;
    var links := PlannedLinks(root, files, sep);
    PlaceLinksKeepDirectories(e1, links, false, sep, root);
    PlaceLinksLastLinks(e1, links, false, sep);
  }

  /** Some step fails when a planned target is a directory before the run. */
  lemma PlaceLinksTargetsNotDirectories(e: Entries, links: seq<FileLink>, deleteFirst: bool, sep: char, i: nat)
    requires i < |links| && IsDirectoryAt(e, links[i].target)
    ensures PlaceLinks(e, links, deleteFirst, sep).error.Some?
  {
    if PlaceLinks(e, links, deleteFirst, sep).error.None? {
      PlaceLinksKeepDirectories(e, links, deleteFirst, sep, links[i].target);
      PlaceLinksLastLinks(e, links, deleteFirst, sep);
    }
  }

  /** A run without exception keeps every directory that was there. */
  lemma {:induction false} PlaceLinksKeepDirectories(e: Entries, links: seq<FileLink>, deleteFirst: bool, sep: char, a: string)
    requires PlaceLinks(e, links, deleteFirst, sep).error.None? && IsDirectoryAt(e, a)
    ensures IsDirectoryAt(PlaceLinks(e, links, deleteFirst, sep).entries, a)
  {
    if links != [] {
      var init := links[..|links| - 1];
      PlaceLinksKeepDirectories(e, init, deleteFirst, sep, a);
      StepKeepsDirectory(PlaceLinks(e, init, deleteFirst, sep).entries, links[|links| - 1], deleteFirst, sep, a);
    }
  }

  lemma {:induction false} ParentDirsMember(links: seq<FileLink>, a: string, sep: char)
    requires a in ParentDirs(links, sep)
    ensures exists j :: 0 <= j < |links| && a in Ancestors(ParentOf(links[j].target, sep), sep)
  {
    var init := links[..|links| - 1];
    if a in ParentDirs(init, sep) {
      ParentDirsMember(init, a, sep);
      var j :| 0 <= j < |init| && a in Ancestors(ParentOf(init[j].target, sep), sep);
      assert init[j] == links[j];
    }
  }

  /** LinkSource twice leaves the filesystem as LinkSource once. */
  lemma LinkSourceIdempotent(e: Entries, root: string, files: seq<PackageFile>, sep: char)
    requires LinkSourceRun(e, root, files, sep).error.None?
    ensures var f := LinkSourceRun(e, root, files, sep).entries;
      LinkSourceRun(f, root, files, sep) == Run(f, None)
  {
    var e1 := CreateDirectoryResult(e, root, sep).value;
    var links := PlannedLinks(root, files, sep);
    var f := PlaceLinks(e1, links, false, sep).entries;
    forall a | a in Ancestors(root, sep)
      ensures IsDirectoryAt(f, a)
    {
      PlaceLinksKeepDirectories(e1, links, false, sep, a);
    }
    CreateExistingDirectory(f, root, sep);
    PlaceLinksIdempotent(e1, links, false, sep);
  }

  /** LinkSource's filesystem part on the builder's files: create the store folder, then link each file. */
  method LinkSourceFiles(fs: FileSystem, root: string, files: seq<PackageFile>) returns (err: Option<FsError>)
    modifies fs
    ensures Run(fs.entries, err) == LinkSourceRun(old(fs.entries), root, files, fs.separator)
  {
    err := fs.CreateDirectory(root);
    if err.Some? {
      return;
    }
    err := LinkEachFile(fs, root, files);
  }

  /** The loop of LinkSource: one link step per file on disk, directory first, stopping at the first exception. */
  method LinkEachFile(fs: FileSystem, root: string, files: seq<PackageFile>) returns (err: Option<FsError>)
    modifies fs
    ensures Run(fs.entries, err) == PlaceLinks(old(fs.entries), PlannedLinks(root, files, fs.separator), false, fs.separator)
  {
    var i := 0;
    while i < |files|
      invariant 0 <= i <= |files|
      invariant Run(fs.entries, None) == PlaceLinks(old(fs.entries), PlannedLinks(root, files[..i], fs.separator), false, fs.separator)
    {
      PlannedLinksSnoc(root, files, i, fs.separator);
      var file := files[i];
      if file.Physical? {
        var link := FileLink(file.sourcePath, Combine(root, file.path, fs.separator));
        PlaceLinksAppendOne(old(fs.entries), PlannedLinks(root, files[..i], fs.separator), link, false, fs.separator);
        err := PlaceLinkOn(fs, link, false);
        if err.Some? {
          PlannedLinksStopped(old(fs.entries), root, files, i, fs.separator);
          return;
        }
      }
      i := i + 1;
    }
    assert files[..i] == files;
    err := None;
  }

  /**
   * LinkSource: build the package as pack would, then create its store folder
   * `BasePath/Id/NormalizedVersion` and link each of its files on disk into it.
   * A packaging error stops it before the filesystem is touched.
   */
  method LinkSource(fs: FileSystem, args: PackArgs, read: PackageBuilder, hasFactory: bool, factory: ProjectFactory,
                    created: PackageBuilder?, basePath: string, lib: NuGetLibrary)
    returns (builder: PackageBuilder?, packErr: Option<PackError>, fsErr: Option<FsError>)
    requires read != created
    modifies fs, read, factory, created
    ensures BuiltFrom(args, read, hasFactory, factory, created, fs.separator, lib, builder, packErr)
    ensures packErr.Some? ==> fsErr.None? && fs.entries == old(fs.entries)
    ensures packErr.None? ==> (builder != null
      && Run(fs.entries, fsErr) == LinkSourceRun(old(fs.entries), StoreRoot(basePath, builder.id, builder.version, fs.separator, lib),
                                                 builder.files, fs.separator))
  {
    fsErr := None;
    builder, packErr := CreatePackageBuilder(args, read, hasFactory, factory, created, fs.separator, lib);
    if packErr.Some? {
      return;
    }
    var root := StoreRoot(basePath, builder.id, builder.version, fs.separator, lib);
    fsErr := LinkSourceFiles(fs, root, builder.files);
  }

  /** A package with one file on disk plans one link, which ends as a link to that file. */
  lemma SingleFileLinks(root: string, source: string, path: string, sep: char)
    ensures PlannedLinks(root, [Physical(source, path)], sep) == [FileLink(source, Combine(root, path, sep))]
    ensures LastLinks([FileLink(source, Combine(root, path, sep))]) == map[Combine(root, path, sep) := Link(source, false)]
  {
    var files := [Physical(source, path)];
    assert files[..0] == [];
    var links := [FileLink(source, Combine(root, path, sep))];
    assert links[..0] == [];
  }

  /** The paths of the SDK-project scenario: the store folder and the library's place in it. */
  lemma SdkStorePaths(basePath: string, v: NuGetVersion, lib: NuGetLibrary)
    requires basePath != [] && basePath[|basePath| - 1] != '\\'
    requires lib.normalized(v) == "1.0.0"
    ensures StoreRoot(basePath, "Package.Sdk", v, '\\', lib) == basePath + "\\" + "Package.Sdk" + "\\" + "1.0.0"
    ensures Combine(basePath + "\\" + "Package.Sdk" + "\\" + "1.0.0", "lib\\netstandard2.0\\Package.Sdk.dll", '\\')
      == basePath + "\\" + "Package.Sdk" + "\\" + "1.0.0" + "\\" + "lib\\netstandard2.0\\Package.Sdk.dll"
  {
    assert !IsPathRooted("Package.Sdk", '\\');
    assert !IsPathRooted("1.0.0", '\\');
    assert !IsPathRooted("lib\\netstandard2.0\\Package.Sdk.dll", '\\');
    var q := basePath + "\\" + "Package.Sdk";
    assert q[|q| - 1] == 'k';
    var root := q + "\\" + "1.0.0";
    assert root[|root| - 1] == '0';
  }

  /**
   * The store layout the SDK-project scenario expects: version 1.0.0 of Package.Sdk
   * with lib\\netstandard2.0\\Package.Sdk.dll on disk ends up as a link under
   * `BasePath\\Package.Sdk\\1.0.0`.
   */
  lemma LinkSourceSdkExample(e: Entries, basePath: string, v: NuGetVersion, source: string, lib: NuGetLibrary)
    requires basePath != [] && basePath[|basePath| - 1] != '\\'
    requires lib.normalized(v) == "1.0.0"
    requires LinkSourceRun(e, StoreRoot(basePath, "Package.Sdk", v, '\\', lib),
                           [Physical(source, "lib\\netstandard2.0\\Package.Sdk.dll")], '\\').error.None?
    ensures var f := LinkSourceRun(e, StoreRoot(basePath, "Package.Sdk", v, '\\', lib),
                                   [Physical(source, "lib\\netstandard2.0\\Package.Sdk.dll")], '\\').entries;
      var dll := basePath + "\\" + "Package.Sdk" + "\\" + "1.0.0" + "\\" + "lib\\netstandard2.0\\Package.Sdk.dll";
      dll in f && f[dll] == Link(source, false) && IsFileAt(f, dll)
  {
    var root := StoreRoot(basePath, "Package.Sdk", v, '\\', lib);
    var files := [Physical(source, "lib\\netstandard2.0\\Package.Sdk.dll")];
    SdkStorePaths(basePath, v, lib);
    SingleFileLinks(root, source, "lib\\netstandard2.0\\Package.Sdk.dll", '\\');
    LinkSourceCreatesRoot(e, root, files, '\\');
  }
}
