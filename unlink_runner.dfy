/**
 * The unlink command. Without a package id it builds the package in the current
 * directory and removes its store folder `BasePath/Id/Version` (UnlinkSource);
 * with one it deletes the consumer's files at the planned link targets (UnlinkTarget).
 */
module UnlinkRunners {
  import opened Results
  import opened Paths
  import opened FileSystems
  import opened PackageBuilders
  import opened LinkRunners

  /** UnlinkTarget's effect: in order, each planned target holding a file or a link to a file is deleted. */
  function RemoveTargets(e: Entries, links: seq<FileLink>): Entries {
    if links == [] then e
    else DeleteIfFile(RemoveTargets(e, links[..|links| - 1]), links[|links| - 1].target)
  }

  /** Exactly the planned targets that held files are gone; every other entry is kept as it was. */
  lemma {:induction false} RemoveTargetsOutcome(e: Entries, links: seq<FileLink>)
    ensures forall k :: k in RemoveTargets(e, links) <==> k in e && !(k in Targets(links) && IsFileAt(e, k))
    ensures forall k :: k in RemoveTargets(e, links) ==> RemoveTargets(e, links)[k] == e[k]
  {
    if links != [] {
      RemoveTargetsOutcome(e, links[..|links| - 1]);
    }
  }

  /** Unlinking twice is unlinking once. */
  lemma RemoveTargetsIdempotent(e: Entries, links: seq<FileLink>)
    ensures RemoveTargets(RemoveTargets(e, links), links) == RemoveTargets(e, links)
  {
    var r := RemoveTargets(e, links);
    RemoveTargetsOutcome(e, links);
    RemoveTargetsOutcome(r, links);
    assert RemoveTargets(r, links).Keys == r.Keys;
  }

  /** After a link run without exception, unlinking the same plan removes every planned target. */
  lemma LinkThenUnlink(e: Entries, links: seq<FileLink>, deleteFirst: bool, sep: char)
    requires PlaceLinks(e, links, deleteFirst, sep).error.None?
    ensures forall t :: t in Targets(links) ==> t !in RemoveTargets(PlaceLinks(e, links, deleteFirst, sep).entries, links)
  {
    var f := PlaceLinks(e, links, deleteFirst, sep).entries;
    PlaceLinksLastLinks(e, links, deleteFirst, sep);
    assert forall t :: t in Targets(links) ==> IsFileAt(f, t);
    RemoveTargetsOutcome(f, links);
  }

  /** UnlinkTarget: for each planned link, delete the file at its target when there is one. */
  method UnlinkTarget(fs: FileSystem, links: seq<FileLink>)
    modifies fs
    ensures fs.entries == RemoveTargets(old(fs.entries), links)
  {
    var i := 0;
    while i < |links|
      invariant 0 <= i <= |links|
      invariant fs.entries == RemoveTargets(old(fs.entries), links[..i])
    {
      assert links[..i + 1][..i] == links[..i];
      var target := links[i].target;
      if fs.FileExists(target) {
        var err := fs.DeleteFile(target);
        assert err.None?;
      }
      i := i + 1;
    }
    assert links[..i] == links;
  }

  /** UnlinkSource's effect on the store: the folder and everything beneath it go when it is a directory. */
  function UnlinkSourceResult(e: Entries, root: string, sep: char): Entries {
    if IsDirectoryAt(e, root) then DeleteTreeResult(e, root, sep).value else e
  }

  /**
   * What beneath an existing store folder is gone, everything else keeps its entry,
   * and afterwards there is no directory at the folder's path.
   */
  lemma UnlinkSourceOutcome(e: Entries, root: string, sep: char)
    ensures forall k :: k in UnlinkSourceResult(e, root, sep) <==> k in e && !(IsDirectoryAt(e, root) && Beneath(k, root, sep))
    ensures forall k :: k in UnlinkSourceResult(e, root, sep) ==> UnlinkSourceResult(e, root, sep)[k] == e[k]
    ensures !IsDirectoryAt(UnlinkSourceResult(e, root, sep), root)
  {
    assert Beneath(root, root, sep);
  }

  /** The store folder `q/v` of a version below a package folder `q`, when the version is a plain segment. */
  lemma {:induction false} StoreRootShape(basePath: string, id: string, v: NuGetVersion, sep: char, lib: NuGetLibrary)
    requires basePath != [] && basePath[|basePath| - 1] != sep
    requires IsSegment(id, sep) && !IsPathRooted(id, sep)
    requires IsSegment(lib.normalized(v), sep) && !IsPathRooted(lib.normalized(v), sep)
    ensures Combine(basePath, id, sep) == basePath + [sep] + id
    ensures StoreRoot(basePath, id, v, sep, lib) == Combine(basePath, id, sep) + [sep] + lib.normalized(v)
  {
    var q := Combine(basePath, id, sep);
    assert q[|q| - 1] == id[|id| - 1];
  }

  /** Unlinking one version of a package leaves the store folders of its other versions alone. */
  lemma UnlinkSourceKeepsOtherVersions(e: Entries, basePath: string, id: string, v: NuGetVersion, w: NuGetVersion,
                                       sep: char, lib: NuGetLibrary, k: string)
    requires basePath != [] && basePath[|basePath| - 1] != sep
    requires IsSegment(id, sep) && !IsPathRooted(id, sep)
    requires IsSegment(lib.normalized(v), sep) && !IsPathRooted(lib.normalized(v), sep)
    requires IsSegment(lib.normalized(w), sep) && !IsPathRooted(lib.normalized(w), sep)
    requires lib.normalized(v) != lib.normalized(w)
    requires k in e && Beneath(k, StoreRoot(basePath, id, w, sep, lib), sep)
    ensures var r := UnlinkSourceResult(e, StoreRoot(basePath, id, v, sep, lib), sep); k in r && r[k] == e[k]
  {
    StoreRootShape(basePath, id, v, sep, lib);
    StoreRootShape(basePath, id, w, sep, lib);
    SiblingsAreDisjoint(Combine(basePath, id, sep), lib.normalized(v), lib.normalized(w), k, sep);
    UnlinkSourceOutcome(e, StoreRoot(basePath, id, v, sep, lib), sep);
  }

  /** Unlinking a package leaves the store folders of every other package alone. */
  lemma UnlinkSourceKeepsOtherPackages(e: Entries, basePath: string, id: string, other: string, v: NuGetVersion,
                                       sep: char, lib: NuGetLibrary, k: string)
    requires basePath != [] && basePath[|basePath| - 1] != sep
    requires IsSegment(id, sep) && !IsPathRooted(id, sep)
    requires IsSegment(other, sep) && !IsPathRooted(other, sep) && id != other
    requires IsSegment(lib.normalized(v), sep) && !IsPathRooted(lib.normalized(v), sep)
    requires k in e && Beneath(k, Combine(basePath, other, sep), sep)
    ensures var r := UnlinkSourceResult(e, StoreRoot(basePath, id, v, sep, lib), sep); k in r && r[k] == e[k]
  {
    StoreRootShape(basePath, id, v, sep, lib);
    assert Combine(basePath, other, sep) == basePath + [sep] + other;
    var root := StoreRoot(basePath, id, v, sep, lib);
    if Beneath(k, root, sep) {
      BeneathChild(k, Combine(basePath, id, sep), lib.normalized(v), sep);
      SiblingsAreDisjoint(basePath, id, other, k, sep);
    }
    UnlinkSourceOutcome(e, root, sep);
  }

  /**
   * UnlinkSource: build the package as pack would, then delete its store folder
   * recursively when it exists. A packaging error stops it before the filesystem is touched.
   */
  method UnlinkSource(fs: FileSystem, args: PackArgs, read: PackageBuilder, hasFactory: bool, factory: ProjectFactory,
                      created: PackageBuilder?, basePath: string, lib: NuGetLibrary)
    returns (builder: PackageBuilder?, err: Option<PackError>)
    requires read != created
    modifies fs, read, factory, created
    ensures BuiltFrom(args, read, hasFactory, factory, created, fs.separator, lib, builder, err)
    ensures err.Some? ==> fs.entries == old(fs.entries)
    ensures err.None? ==> (builder != null
      && fs.entries == UnlinkSourceResult(old(fs.entries), StoreRoot(basePath, builder.id, builder.version, fs.separator, lib), fs.separator))
  {
    builder, err := CreatePackageBuilder(args, read, hasFactory, factory, created, fs.separator, lib);
    if err.Some? {
      return;
    }
    var root := StoreRoot(basePath, builder.id, builder.version, fs.separator, lib);
    if fs.DirectoryExists(root) {
      var fsErr := fs.DeleteDirectory(root);
      assert fsErr.None?;
    }
  }

  /** Unlink: no package id means this package's store folder goes, an id means the consumer's links to it go. */
  method Unlink(fs: FileSystem, packageId: Option<string>, fileLinks: seq<FileLink>, args: PackArgs,
                read: PackageBuilder, hasFactory: bool, factory: ProjectFactory, created: PackageBuilder?,
                basePath: string, lib: NuGetLibrary)
    returns (builder: PackageBuilder?, err: Option<PackError>)
    requires read != created
    modifies fs, read, factory, created
    ensures packageId.Some? ==> err.None? && fs.entries == RemoveTargets(old(fs.entries), fileLinks)
    ensures packageId.Some? ==> (builder == null && read.State() == old(read.State())
      && factory.projectProperties == old(factory.projectProperties)
      && (created != null ==> created.State() == old(created.State())))
    ensures packageId.None? ==> BuiltFrom(args, read, hasFactory, factory, created, fs.separator, lib, builder, err)
    ensures packageId.None? && err.Some? ==> fs.entries == old(fs.entries)
    ensures packageId.None? && err.None? ==> (builder != null
      && fs.entries == UnlinkSourceResult(old(fs.entries), StoreRoot(basePath, builder.id, builder.version, fs.separator, lib), fs.separator))
  {
    if packageId.None? {
      builder, err := UnlinkSource(fs, args, read, hasFactory, factory, created, basePath, lib);
    } else {
      UnlinkTarget(fs, fileLinks);
      builder, err := null, None;
    }
  }
}
