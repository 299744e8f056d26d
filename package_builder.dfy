/**
 * The package builder the link commands prepare: the properties every builder
 * receives from the pack arguments, the unsupported-framework check, the
 * nuspec/project dispatch and the checks made while a project builder is created.
 * Version parsing, version formatting and framework tests belong to the NuGet
 * library and arrive as the functions of a `NuGetLibrary` value.
 */
module PackageBuilders {
  import opened Results
  import opened Paths
  import opened FileSelection

  /** A parsed NuGet version, kept as the text it was parsed from. */
  datatype NuGetVersion = NuGetVersion(text: string)

  /** A target framework: identifier, version and profile. */
  datatype NuGetFramework = NuGetFramework(identifier: string, version: seq<nat>, profile: string)

  datatype FrameworkAssemblyReference = FrameworkAssemblyReference(assemblyName: string, supportedFrameworks: seq<NuGetFramework>)

  /** The NuGet library functions the model relies on. */
  datatype NuGetLibrary = NuGetLibrary(
    matches: Matcher,                         // PathResolver's wildcard test
    formatV: NuGetVersion -> string,          // VersionFormatter.Format("V", version)
    normalized: NuGetVersion -> string,       // NuGetVersion.ToNormalizedString
    isUnsupported: NuGetFramework -> bool)    // NuGetFramework.IsUnsupported

  /** The packaging errors raised here. */
  datatype PackError =
    | NU5003(assemblyName: string)   // a reference names an unsupported framework
    | NU5004(path: string)           // no files left for the lib package
    | NU5005(path: string)           // no files left for the symbols package
    | NU5009                         // MSBuild cannot be found
    | PackFailed(path: string)       // the project produced no builder
    | NullFactory                    // the project factory delegate is null

  /** The pack arguments the core reads. An empty string stands for a null or empty one. */
  datatype PackArgs = PackArgs(
    path: string,
    currentDirectory: string,
    basePath: string,
    version: string,
    suffix: string,
    serviceable: bool,
    minClientVersion: Option<string>,
    noDefaultExcludes: bool,
    exclude: seq<string>,
    symbols: bool,
    symbolPackageFormat: SymbolPackageFormat,
    installPackageToOutputPath: bool,
    msBuildDirectory: string,
    hasPackTargetArgs: bool,
    properties: seq<(string, string)>)

  function ExcludeOptionsOf(args: PackArgs): ExcludeOptions {
    ExcludeOptions(args.noDefaultExcludes, args.exclude, args.basePath, args.currentDirectory)
  }

  /** The fields of a builder the core reads or writes. */
  datatype BuilderState = BuilderState(
    id: string,
    version: NuGetVersion,
    hasSnapshotVersion: bool,
    serviceable: bool,
    minClientVersion: Option<string>,
    files: seq<PackageFile>,
    frameworkReferences: seq<FrameworkAssemblyReference>,
    packageTypes: seq<string>)

  /** The name of NuGet's PackageType.SymbolsPackage. */
  const SymbolsPackageType: string := "SymbolsPackage"

  /** A builder's state after a step, and the error that stopped the step, if any. */
  datatype Outcome = Outcome(state: BuilderState, error: Option<PackError>)

  predicate HasUnsupported(reference: FrameworkAssemblyReference, lib: NuGetLibrary) {
    exists f :: f in reference.supportedFrameworks && lib.isUnsupported(f)
  }

  /** The first reference that lists an unsupported framework. */
  function FirstUnsupported(references: seq<FrameworkAssemblyReference>, lib: NuGetLibrary): (r: Option<nat>)
    ensures r.Some? ==> r.value < |references| && HasUnsupported(references[r.value], lib)
    ensures r.Some? ==> forall k :: 0 <= k < r.value ==> !HasUnsupported(references[k], lib)
    ensures r.None? <==> forall k :: 0 <= k < |references| ==> !HasUnsupported(references[k], lib)
  {
    if references == [] then None
    else if HasUnsupported(references[0], lib) then Some(0)
    else match FirstUnsupported(references[1..], lib)
      case None => None
      case Some(k) => Some(k + 1)
  }

  /** The error CheckForUnsupportedFrameworks raises: NU5003 naming the first offending reference. */
  function UnsupportedError(references: seq<FrameworkAssemblyReference>, lib: NuGetLibrary): Option<PackError> {
    match FirstUnsupported(references, lib)
    case None => None
    case Some(k) => Some(NU5003(references[k].assemblyName))
  }

  method CheckForUnsupportedFrameworks(references: seq<FrameworkAssemblyReference>, lib: NuGetLibrary)
    returns (err: Option<PackError>)
    ensures err.None? <==> forall k :: 0 <= k < |references| ==> !HasUnsupported(references[k], lib)
    ensures err == UnsupportedError(references, lib)
  {
    var i := 0;
    while i < |references|
      invariant 0 <= i <= |references|
      invariant forall k :: 0 <= k < i ==> !HasUnsupported(references[k], lib)
    {
      var frameworks := references[i].supportedFrameworks;
      var j := 0;
      while j < |frameworks|
        invariant 0 <= j <= |frameworks|
        invariant forall m :: 0 <= m < j ==> !lib.isUnsupported(frameworks[m])
      {
        if lib.isUnsupported(frameworks[j]) {
          assert HasUnsupported(references[i], lib);
          return Some(NU5003(references[i].assemblyName));
        }
        j := j + 1;
      }
      i := i + 1;
    }
    return None;
  }

  /** The version, serviceable flag and minimum client version the pack arguments override. */
  function InitCommonSettings(s: BuilderState, args: PackArgs, lib: NuGetLibrary): (r: BuilderState)
    ensures r.id == s.id && r.frameworkReferences == s.frameworkReferences && r.files == s.files
    ensures r.packageTypes == s.packageTypes
    ensures r.hasSnapshotVersion == (s.hasSnapshotVersion && args.version == [])
    ensures r.serviceable == (s.serviceable || args.serviceable)
    ensures r.minClientVersion == if args.minClientVersion.Some? then args.minClientVersion else s.minClientVersion
  {
    var s1 := if args.version != [] then s.(version := NuGetVersion(args.version), hasSnapshotVersion := false) else s;
    var s2 := if args.suffix != [] && !s1.hasSnapshotVersion
      then s1.(version := NuGetVersion(lib.formatV(s1.version) + "-" + args.suffix)) else s1;
    var s3 := if args.serviceable then s2.(serviceable := true) else s2;
    if args.minClientVersion.Some? then s3.(minClientVersion := args.minClientVersion) else s3
  }

  /** The framework check, then the exclusion of files when it passes. */
  function CheckAndExclude(s: BuilderState, args: PackArgs, sep: char, lib: NuGetLibrary): Outcome {
    match UnsupportedError(s.frameworkReferences, lib)
    case Some(e) => Outcome(s, Some(e))
    case None => Outcome(s.(files := ExcludeFiles(s.files, ExcludeOptionsOf(args), sep, lib.matches).kept), None)
  }

  /**
   * InitCommonPackageBuilderProperties on a builder's state: a version argument
   * replaces the version and clears the snapshot flag; a suffix is appended to
   * the "V"-formatted version when the snapshot flag is then clear; Serviceable
   * can only be switched on; MinClientVersion is copied when given; then NU5003
   * stops the step on an unsupported framework, after the fields above were set
   * and before any file is excluded; otherwise ExcludeFiles runs on the files.
   */
  function InitCommon(s: BuilderState, args: PackArgs, sep: char, lib: NuGetLibrary): (r: Outcome)
    ensures r.state.id == s.id && r.state.frameworkReferences == s.frameworkReferences
    ensures r.state.packageTypes == s.packageTypes
    ensures r.state.hasSnapshotVersion == (s.hasSnapshotVersion && args.version == [])
    ensures r.state.serviceable == (s.serviceable || args.serviceable)
    ensures r.state.minClientVersion == if args.minClientVersion.Some? then args.minClientVersion else s.minClientVersion
    ensures r.error == UnsupportedError(s.frameworkReferences, lib)
    ensures r.error.Some? ==> r.state.files == s.files
    ensures r.error.None? ==> r.state.files == ExcludeFiles(s.files, ExcludeOptionsOf(args), sep, lib.matches).kept
  {
    CheckAndExclude(InitCommonSettings(s, args, lib), args, sep, lib)
  }

  /** The version a builder ends with, whatever the framework check says. */
  lemma InitCommonVersion(s: BuilderState, args: PackArgs, sep: char, lib: NuGetLibrary)
    ensures var v := InitCommon(s, args, sep, lib).state.version;
      (args.version != [] && args.suffix != [] ==> v == NuGetVersion(lib.formatV(NuGetVersion(args.version)) + "-" + args.suffix))
      && (args.version != [] && args.suffix == [] ==> v == NuGetVersion(args.version))
      && (args.version == [] && args.suffix != [] && !s.hasSnapshotVersion ==> v == NuGetVersion(lib.formatV(s.version) + "-" + args.suffix))
      && (args.version == [] && (args.suffix == [] || s.hasSnapshotVersion) ==> v == s.version)
  {
  }

  /** The builder being prepared. */
  class PackageBuilder {
    var id: string
    var version: NuGetVersion
    var hasSnapshotVersion: bool
    var serviceable: bool
    var minClientVersion: Option<string>
    var files: seq<PackageFile>
    var frameworkReferences: seq<FrameworkAssemblyReference>
    var packageTypes: seq<string>

    constructor (s: BuilderState)
      ensures State() == s
    {
      id := s.id;
      version := s.version;
      hasSnapshotVersion := s.hasSnapshotVersion;
      serviceable := s.serviceable;
      minClientVersion := s.minClientVersion;
      files := s.files;
      frameworkReferences := s.frameworkReferences;
      packageTypes := s.packageTypes;
    }

    function State(): BuilderState
      reads this
    {
      BuilderState(id, version, hasSnapshotVersion, serviceable, minClientVersion, files, frameworkReferences, packageTypes)
    }

    method InitCommonPackageBuilderProperties(args: PackArgs, sep: char, lib: NuGetLibrary) returns (err: Option<PackError>)
      modifies this
      ensures Outcome(State(), err) == InitCommon(old(State()), args, sep, lib)
    {
      ApplySettings(args, lib);
      err := CheckForUnsupportedFrameworks(frameworkReferences, lib);
      if err.Some? {
        return;
      }
      files := ExcludeFiles(files, ExcludeOptionsOf(args), sep, lib.matches).kept;
    }

    /** The first part of InitCommonPackageBuilderProperties: the fields the pack arguments override. */
    method ApplySettings(args: PackArgs, lib: NuGetLibrary)
      modifies this
      ensures State() == InitCommonSettings(old(State()), args, lib)
    {
      if args.version != [] {
        version := NuGetVersion(args.version);
        hasSnapshotVersion := false;
      }
      if args.suffix != [] && !hasSnapshotVersion {
        var formatted := lib.formatV(version);
        version := NuGetVersion(formatted + "-" + args.suffix);
      }
      if args.serviceable {
        serviceable := true;
      }
      if args.minClientVersion.Some? {
        minClientVersion := args.minClientVersion;
      }
    }
  }

  /** The properties after the pack arguments' properties are written over them, in order. */
  function Overlay(m: map<string, string>, props: seq<(string, string)>): (r: map<string, string>)
    ensures r.Keys == m.Keys + set i | 0 <= i < |props| :: props[i].0
    ensures forall k :: k in m && (forall i :: 0 <= i < |props| ==> props[i].0 != k) ==> r[k] == m[k]
  {
    if props == [] then m
    else
      var last := props[|props| - 1];
      var r := Overlay(m, props[..|props| - 1])[last.0 := last.1];
      assert forall i :: 0 <= i < |props| - 1 ==> props[..|props| - 1][i] == props[i];
      r
  }

  /** The keys reported as NU5114 duplicates: those already present when they are written. */
  function DuplicateKeys(m: map<string, string>, props: seq<(string, string)>): (r: seq<string>)
    ensures |r| <= |props|
  {
    if props == [] then []
    else
      var init := props[..|props| - 1];
      var k := props[|props| - 1].0;
      DuplicateKeys(m, init) + (if k in Overlay(m, init) then [k] else [])
  }

  predicate DistinctKeys(props: seq<(string, string)>) {
    forall i, j :: 0 <= i < j < |props| ==> props[i].0 != props[j].0
  }

  /** Each property of a dictionary ends with its argument value. */
  lemma {:induction false} OverlayValue(m: map<string, string>, props: seq<(string, string)>, i: nat)
    requires DistinctKeys(props) && i < |props|
    ensures props[i].0 in Overlay(m, props) && Overlay(m, props)[props[i].0] == props[i].1
  {
    var init := props[..|props| - 1];
    if i < |props| - 1 {
      assert init[i] == props[i];
      OverlayValue(m, init, i);
    }
  }

  /** For a dictionary of arguments, a key is reported exactly when the project already had it. */
  lemma {:induction false} DuplicateKeysOfDictionary(m: map<string, string>, props: seq<(string, string)>, k: string)
    requires DistinctKeys(props)
    ensures k in DuplicateKeys(m, props) <==> k in m && exists i :: 0 <= i < |props| && props[i].0 == k
  {
    if props != [] {
      var init := props[..|props| - 1];
      var last := props[|props| - 1].0;
      assert DistinctKeys(init);
      DuplicateKeysOfDictionary(m, init, k);
      assert forall i :: 0 <= i < |init| ==> init[i] == props[i];
      assert last !in set i | 0 <= i < |init| :: init[i].0;
      if exists i :: 0 <= i < |props| && props[i].0 == k {
        var i :| 0 <= i < |props| && props[i].0 == k;
        if i < |props| - 1 {
          assert init[i].0 == k;
        }
      }
    }
  }

  /** The project a builder is created from, with its MSBuild properties. */
  class ProjectFactory {
    var projectProperties: map<string, string>

    constructor (properties: map<string, string>)
      ensures projectProperties == properties
    {
      projectProperties := properties;
    }

    /** Writes each argument property into the project, reporting the keys it already had. */
    method AddProperties(props: seq<(string, string)>) returns (duplicates: seq<string>)
      modifies this
      ensures projectProperties == Overlay(old(projectProperties), props)
      ensures duplicates == DuplicateKeys(old(projectProperties), props)
    {
      duplicates := [];
      var i := 0;
      while i < |props|
        invariant 0 <= i <= |props|
        invariant projectProperties == Overlay(old(projectProperties), props[..i])
        invariant duplicates == DuplicateKeys(old(projectProperties), props[..i])
      {
        assert props[..i + 1][..i] == props[..i];
        if props[i].0 in projectProperties {
          duplicates := duplicates + [props[i].0];
        }
        projectProperties := projectProperties[props[i].0 := props[i].1];
        i := i + 1;
      }
      assert props[..i] == props;
    }
  }

  /** Where a builder comes from. */
  datatype BuilderSource = FromNuspec | FromProjectFile

  /** CreatePackageBuilder's dispatch: a ".nuspec" extension, in any case, means the manifest. */
  function SourceOf(path: string, sep: char): BuilderSource {
    if EqualsIgnoreCase(GetExtension(path, sep), ".nuspec") then FromNuspec else FromProjectFile
  }

  /** Any path ending in ".nuspec", in any mix of cases, takes the manifest route. */
  lemma NuspecPathDispatch(stem: string, ext: string, sep: char)
    requires EqualsIgnoreCase(ext, ".nuspec") && (sep == '/' || sep == '\\')
    ensures SourceOf(stem + ext, sep) == FromNuspec
  {
    forall k | 0 <= k < |ext|
      ensures (k == 0 <==> ext[k] == '.') && ext[k] != sep
    {
      assert FoldChar(ext[k]) == FoldChar(".nuspec"[k]);
    }
    GetExtensionOfSuffix(stem, ext, sep);
  }

  /** Any other extension, such as a project file's, takes the project route. */
  lemma ProjectPathDispatch(stem: string, ext: string, sep: char)
    requires |ext| >= 2 && ext[0] == '.' && forall k :: 1 <= k < |ext| ==> ext[k] != '.' && ext[k] != sep
    requires !EqualsIgnoreCase(ext, ".nuspec")
    ensures SourceOf(stem + ext, sep) == FromProjectFile
  {
    GetExtensionOfSuffix(stem, ext, sep);
  }

  /** A path whose last segment has no extension at all also takes the project-file route. */
  lemma ExtensionlessPathDispatch(path: string, sep: char, j: int)
    requires sep != '.' && -1 <= j < |path| && (j >= 0 ==> path[j] == sep)
    requires forall k :: j < k < |path| ==> path[k] != '.' && path[k] != sep
    ensures SourceOf(path, sep) == FromProjectFile
  {
    NoExtension(path, sep, j);
  }

  /** NU5009 when MSBuild or the factory is missing outside `dotnet pack`; also the other errors before InitCommon. */
  function ProjectFileError(args: PackArgs, path: string, hasFactory: bool, builderCreated: bool): (r: Option<PackError>)
    ensures r == Some(NU5009) <==> (args.msBuildDirectory == [] || !hasFactory) && !args.hasPackTargetArgs
    ensures r == Some(NullFactory) <==> !hasFactory && args.hasPackTargetArgs
    ensures r == Some(PackFailed(path)) <==> hasFactory && (args.msBuildDirectory != [] || args.hasPackTargetArgs) && !builderCreated
    ensures r.None? <==> hasFactory && (args.msBuildDirectory != [] || args.hasPackTargetArgs) && builderCreated
  {
    if (args.msBuildDirectory == [] || !hasFactory) && !args.hasPackTargetArgs then Some(NU5009)
    else if !hasFactory then Some(NullFactory)
    else if !builderCreated then Some(PackFailed(path))
    else None
  }

  /**
   * CreatePackageBuilderFromProjectFile: the MSBuild check, the argument
   * properties written into the project, then InitCommon on the builder the
   * project produced (`created`, null when it produced none).
   */
  method CreatePackageBuilderFromProjectFile(args: PackArgs, path: string, hasFactory: bool, factory: ProjectFactory,
                                             created: PackageBuilder?, sep: char, lib: NuGetLibrary)
    returns (builder: PackageBuilder?, duplicates: seq<string>, err: Option<PackError>)
    modifies factory, created
    ensures var check := ProjectFileError(args, path, hasFactory, created != null);
      (check.Some? ==> err == check && builder == null)
      && (check.None? ==>
            builder == created && created != null
            && Outcome(created.State(), err) == InitCommon(old(created.State()), args, sep, lib))
    ensures !(hasFactory && (args.msBuildDirectory != [] || args.hasPackTargetArgs)) ==>
      factory.projectProperties == old(factory.projectProperties) && duplicates == []
    ensures hasFactory && (args.msBuildDirectory != [] || args.hasPackTargetArgs) ==>
      factory.projectProperties == Overlay(old(factory.projectProperties), args.properties)
      && duplicates == DuplicateKeys(old(factory.projectProperties), args.properties)
    ensures created != null && ProjectFileError(args, path, hasFactory, true).Some? ==> created.State() == old(created.State())
  {
    builder := null;
    duplicates := [];
    if (args.msBuildDirectory == [] || !hasFactory) && !args.hasPackTargetArgs {
      return null, [], Some(NU5009);
    }
    if !hasFactory {
      return null, [], Some(NullFactory);
    }
    duplicates := factory.AddProperties(args.properties);
    if created == null {
      return null, duplicates, Some(PackFailed(path));
    }
    err := created.InitCommonPackageBuilderProperties(args, sep, lib);
    builder := created;
  }

  /** CreatePackageBuilderFromNuspec: InitCommon on the builder read from the manifest. */
  method CreatePackageBuilderFromNuspec(args: PackArgs, read: PackageBuilder, sep: char, lib: NuGetLibrary)
    returns (builder: PackageBuilder, err: Option<PackError>)
    modifies read
    ensures builder == read && Outcome(read.State(), err) == InitCommon(old(read.State()), args, sep, lib)
  {
    err := read.InitCommonPackageBuilderProperties(args, sep, lib);
    builder := read;
  }

  /** The full path of the file being packed. */
  function InputPath(args: PackArgs, sep: char): string {
    FullPath(args.currentDirectory, Combine(args.currentDirectory, args.path, sep), sep)
  }

  /**
   * What the project-file route leaves behind: the pack arguments' properties are
   * written into the factory exactly when a factory is used; a project-file error
   * leaves the created builder as it was; otherwise that builder is initialised.
   */
  twostate predicate ProjectRoute(args: PackArgs, path: string, hasFactory: bool, factory: ProjectFactory,
                                  created: PackageBuilder?, sep: char, lib: NuGetLibrary, new err: Option<PackError>)
    reads factory, created
  {
    (if hasFactory && (args.msBuildDirectory != [] || args.hasPackTargetArgs)
     then factory.projectProperties == Overlay(old(factory.projectProperties), args.properties)
     else factory.projectProperties == old(factory.projectProperties))
    && var check := ProjectFileError(args, path, hasFactory, created != null);
    (check.Some? ==> err == check && (created != null ==> created.State() == old(created.State())))
    && (check.None? ==> created != null && Outcome(created.State(), err) == InitCommon(old(created.State()), args, sep, lib))
  }

  /**
   * The builder CreatePackageBuilder returns and what it did to the objects it was given:
   * for a manifest path, the builder read from the manifest, initialised, with the
   * factory and the project builder untouched; for any other path, the manifest
   * builder untouched, the project route's effects, and the created builder unless
   * the route failed.
   */
  twostate predicate BuiltFrom(args: PackArgs, read: PackageBuilder, hasFactory: bool, factory: ProjectFactory,
                               created: PackageBuilder?, sep: char, lib: NuGetLibrary,
                               new builder: PackageBuilder?, new err: Option<PackError>)
    reads read, factory, created
  {
    var path := InputPath(args, sep);
    if SourceOf(path, sep) == FromNuspec then
      builder == read && Outcome(read.State(), err) == InitCommon(old(read.State()), args, sep, lib)
      && factory.projectProperties == old(factory.projectProperties)
      && (created != null ==> created.State() == old(created.State()))
    else
      read.State() == old(read.State())
      && ProjectRoute(args, path, hasFactory, factory, created, sep, lib, err)
      && builder == (if ProjectFileError(args, path, hasFactory, created != null).None? then created else null)
  }

  /**
   * CreatePackageBuilder: a manifest path uses the builder read from the manifest,
   * any other path the project route.
   */
  method CreatePackageBuilder(args: PackArgs, read: PackageBuilder, hasFactory: bool, factory: ProjectFactory,
                              created: PackageBuilder?, sep: char, lib: NuGetLibrary)
    returns (builder: PackageBuilder?, err: Option<PackError>)
    requires read != created
    modifies read, factory, created
    ensures BuiltFrom(args, read, hasFactory, factory, created, sep, lib, builder, err)
  {
    var path := InputPath(args, sep);
    if SourceOf(path, sep) == FromNuspec {
      builder, err := CreatePackageBuilderFromNuspec(args, read, sep, lib);
    } else {
      var duplicates;
      builder, duplicates, err := CreatePackageBuilderFromProjectFile(args, path, hasFactory, factory, created, sep, lib);
    }
  }
}
