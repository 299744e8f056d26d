/**
 * The first revision of the link command, LinkCommandRunner at the top of the
 * command project. LinkPackage dispatches on the manifest extension. A manifest
 * builds the lib package and, with Symbols set, a symbols package read afresh from
 * the same manifest; each stops with an error when its filter leaves no files. A
 * project file links its files into the store as LinkSource does.
 */
module LegacyLinkRunners {
  import opened Results
  import opened Paths
  import opened FileSystems
  import opened FileSelection
  import opened PackageBuilders
  import opened LinkRunners

  /**
   * The lib-package step of LinkFromNuspec: with Symbols set and files present,
   * the files whose target path matches a lib-package exclude are dropped, and
   * NU5004 is raised when none remain.
   */
  function LibPackageStep(files: seq<PackageFile>, symbols: bool, path: string, sep: char, lib: NuGetLibrary)
    : (r: Result<seq<PackageFile>, PackError>)
    ensures r.Err? <==> symbols && files != [] && ExcludeFilesForLibPackage(files, sep, lib.matches) == []
    ensures r.Err? ==> r.error == NU5004(path)
    ensures r.Ok? && !symbols ==> r.value == files
    ensures r.Ok? && symbols ==> (multiset(r.value) <= multiset(files)
      && forall f :: f in r.value <==> f in files && !MatchesAny(lib.matches, LibPackageExcludes(sep), f.path))
  {
    if symbols && files != [] then
      var kept := ExcludeFilesForLibPackage(files, sep, lib.matches);
      if kept == [] then Err(NU5004(path)) else Ok(kept)
    else Ok(files)
  }

  /**
   * BuildSymbolsPackage on the builder read for it: a Snupkg has the single package
   * type SymbolsPackage; then the symbols filter, NU5005 when nothing remains, and
   * InitCommonPackageBuilderProperties.
   */
  function SymbolsPackageStep(s: BuilderState, args: PackArgs, path: string, sep: char, lib: NuGetLibrary): Outcome {
    var typed := if args.symbolPackageFormat == Snupkg then s.(packageTypes := [SymbolsPackageType]) else s;
    var files := SymbolPackageFiles(typed.files, args.symbolPackageFormat, sep, lib.matches);
    if files == [] then Outcome(typed.(files := files), Some(NU5005(path)))
    else InitCommon(typed.(files := files), args, sep, lib)
  }

  /**
   * NU5005 is raised exactly when the symbols filter leaves nothing. Otherwise the
   * symbols package holds only files the filter kept (only `.pdb` files for
   * Snupkg), each no more often than before. Either way a Snupkg has exactly the
   * package type SymbolsPackage, and other formats keep their package types.
   */
  lemma SymbolsPackageStepOutcome(s: BuilderState, args: PackArgs, path: string, sep: char, lib: NuGetLibrary)
    ensures var r := SymbolsPackageStep(s, args, path, sep, lib);
      r.error == Some(NU5005(path)) <==> SymbolPackageFiles(s.files, args.symbolPackageFormat, sep, lib.matches) == []
    ensures var r := SymbolsPackageStep(s, args, path, sep, lib);
      r.error.None? ==> (multiset(r.state.files) <= multiset(s.files)
        && forall f :: f in r.state.files ==>
             !MatchesAny(lib.matches, SymbolPackageExcludes(sep), f.path)
             && (args.symbolPackageFormat == Snupkg ==> IsPdb(f, sep)))
    ensures SymbolsPackageStep(s, args, path, sep, lib).state.packageTypes
      == if args.symbolPackageFormat == Snupkg then [SymbolsPackageType] else s.packageTypes
    ensures var e := SymbolsPackageStep(s, args, path, sep, lib).error;
      e.None? || e == Some(NU5005(path)) || e.value.NU5003?
  {
    var typed := if args.symbolPackageFormat == Snupkg then s.(packageTypes := [SymbolsPackageType]) else s;
    assert typed.files == s.files;
    var files := SymbolPackageFiles(s.files, args.symbolPackageFormat, sep, lib.matches);
    var r := SymbolsPackageStep(s, args, path, sep, lib);
    if files != [] {
      assert r == InitCommon(typed.(files := files), args, sep, lib);
      ExcludeFilesKeptCounts(files, ExcludeOptionsOf(args), sep, lib.matches);
      ExcludeFilesKept(files, ExcludeOptionsOf(args), sep, lib.matches);
    } else {
      assert r == Outcome(typed.(files := files), Some(NU5005(path)));
    }
  }

  /** The lib builder, the symbols builder and the error after LinkFromNuspec. */
  datatype NuspecOutcome = NuspecOutcome(libState: BuilderState, symbolsState: BuilderState, error: Option<PackError>)

  /**
   * LinkFromNuspec on the two builders' states: the common initialisation of the
   * lib builder; then, unless the package goes to the output path, the lib step and,
   * with Symbols set, the symbols step.
   */
  function LinkFromNuspecResult(s: BuilderState, t: BuilderState, args: PackArgs, path: string, sep: char, lib: NuGetLibrary)
    : NuspecOutcome
  {
    var main := InitCommon(s, args, sep, lib);
    if main.error.Some? || args.installPackageToOutputPath then NuspecOutcome(main.state, t, main.error)
    else
      match LibPackageStep(main.state.files, args.symbols, path, sep, lib)
      case Err(x) => NuspecOutcome(main.state.(files := ExcludeFilesForLibPackage(main.state.files, sep, lib.matches)), t, Some(x))
      case Ok(files) =>
        if args.symbols then
          var o := SymbolsPackageStep(t, args, path, sep, lib);
          NuspecOutcome(main.state.(files := files), o.state, o.error)
        else NuspecOutcome(main.state.(files := files), t, None)
  }

  /**
   * When LinkFromNuspec raises NU5004 and NU5005, and that the symbols builder is
   * only touched when Symbols is set and the lib package did not fail first.
   */
  lemma LinkFromNuspecErrors(s: BuilderState, t: BuilderState, args: PackArgs, path: string, sep: char, lib: NuGetLibrary)
    ensures var r := LinkFromNuspecResult(s, t, args, path, sep, lib);
      var main := InitCommon(s, args, sep, lib);
      (r.error == Some(NU5004(path)) <==>
         main.error.None? && !args.installPackageToOutputPath && args.symbols && main.state.files != []
         && ExcludeFilesForLibPackage(main.state.files, sep, lib.matches) == [])
    ensures var r := LinkFromNuspecResult(s, t, args, path, sep, lib);
      var main := InitCommon(s, args, sep, lib);
      (r.error == Some(NU5005(path)) <==>
         main.error.None? && !args.installPackageToOutputPath && args.symbols
         && LibPackageStep(main.state.files, true, path, sep, lib).Ok?
         && SymbolPackageFiles(t.files, args.symbolPackageFormat, sep, lib.matches) == [])
    ensures var r := LinkFromNuspecResult(s, t, args, path, sep, lib);
      !args.symbols || args.installPackageToOutputPath ==> r.symbolsState == t
  {
    var main := InitCommon(s, args, sep, lib);
    var r := LinkFromNuspecResult(s, t, args, path, sep, lib);
    if main.error.Some? || args.installPackageToOutputPath {
      assert r == NuspecOutcome(main.state, t, main.error);
      assert main.error.None? || main.error.value.NU5003?;
    } else {
      var step := LibPackageStep(main.state.files, args.symbols, path, sep, lib);
      if step.Ok? && args.symbols {
        SymbolsPackageStepOutcome(t, args, path, sep, lib);
        assert r.error == SymbolsPackageStep(t, args, path, sep, lib).error;
      }
    }
  }

  /**
   * BuildSymbolsPackage: give a Snupkg its one package type, filter the symbols
   * builder's files in place, check they are not empty, initialise it.
   */
  method BuildSymbolsPackage(args: PackArgs, path: string, symbols: PackageBuilder, sep: char, lib: NuGetLibrary)
    returns (err: Option<PackError>)
    modifies symbols
    ensures Outcome(symbols.State(), err) == SymbolsPackageStep(old(symbols.State()), args, path, sep, lib)
  {
    if args.symbolPackageFormat == Snupkg {
      symbols.packageTypes := [SymbolsPackageType];
    }
    var files := ExcludeFilesForSymbolPackage(symbols.files, args.symbolPackageFormat, sep, lib.matches);
    symbols.files := files;
    if files == [] {
      return Some(NU5005(path));
    }
    err := symbols.InitCommonPackageBuilderProperties(args, sep, lib);
  }

  /**
   * LinkFromNuspec: initialise the builder read from the manifest; unless the
   * package goes to the output path, drop the lib-package excludes (NU5004 when
   * nothing remains) and, with Symbols set, build the symbols package.
   */
  method LinkFromNuspec(args: PackArgs, path: string, builder: PackageBuilder, symbols: PackageBuilder,
                        sep: char, lib: NuGetLibrary)
    returns (err: Option<PackError>)
    requires builder != symbols
    modifies builder, symbols
    ensures NuspecOutcome(builder.State(), symbols.State(), err)
      == LinkFromNuspecResult(old(builder.State()), old(symbols.State()), args, path, sep, lib)
  {
    err := builder.InitCommonPackageBuilderProperties(args, sep, lib);
    if err.Some? || args.installPackageToOutputPath {
      return;
    }
    if args.symbols && builder.files != [] {
      builder.files := ExcludeFilesForLibPackage(builder.files, sep, lib.matches);
      if builder.files == [] {
        return Some(NU5004(path));
      }
    }
    if args.symbols {
      err := BuildSymbolsPackage(args, path, symbols, sep, lib);
    }
  }

  /**
   * LinkFromProjectFile: the project-file builder route and its errors, then the
   * store folder `BasePath/Id/NormalizedVersion` and a link per file on disk.
   */
  method LinkFromProjectFile(fs: FileSystem, args: PackArgs, path: string, hasFactory: bool, factory: ProjectFactory,
                             created: PackageBuilder?, basePath: string, lib: NuGetLibrary)
    returns (packErr: Option<PackError>, fsErr: Option<FsError>)
    modifies fs, factory, created
    ensures ProjectRoute(args, path, hasFactory, factory, created, fs.separator, lib, packErr)
    ensures packErr.Some? ==> fsErr.None? && fs.entries == old(fs.entries)
    ensures ProjectFileError(args, path, hasFactory, created != null).Some? ==>
      packErr == ProjectFileError(args, path, hasFactory, created != null)
    ensures packErr.None? ==> (created != null
      && Run(fs.entries, fsErr) == LinkSourceRun(old(fs.entries), StoreRoot(basePath, created.id, created.version, fs.separator, lib),
                                                 created.files, fs.separator))
  {
    fsErr := None;
    var builder, duplicates;
    builder, duplicates, packErr := CreatePackageBuilderFromProjectFile(args, path, hasFactory, factory, created, fs.separator, lib);
    if packErr.Some? {
      return;
    }
    var root := StoreRoot(basePath, builder.id, builder.version, fs.separator, lib);
    fsErr := LinkSourceFiles(fs, root, builder.files);
  }

  /** LinkPackage: a ".nuspec" path, in any case, takes the manifest route; any other path the project route. */
  method LinkPackage(fs: FileSystem, args: PackArgs, builder: PackageBuilder, symbols: PackageBuilder, hasFactory: bool,
                     factory: ProjectFactory, created: PackageBuilder?, basePath: string, lib: NuGetLibrary)
    returns (packErr: Option<PackError>, fsErr: Option<FsError>)
    requires builder != symbols && builder != created && symbols != created
    modifies fs, builder, symbols, factory, created
    ensures SourceOf(InputPath(args, fs.separator), fs.separator) == FromNuspec ==>
      fs.entries == old(fs.entries) && fsErr.None?
      && factory.projectProperties == old(factory.projectProperties)
      && (created != null ==> created.State() == old(created.State()))
      && NuspecOutcome(builder.State(), symbols.State(), packErr)
         == LinkFromNuspecResult(old(builder.State()), old(symbols.State()), args, InputPath(args, fs.separator), fs.separator, lib)
    ensures SourceOf(InputPath(args, fs.separator), fs.separator) == FromProjectFile ==>
      builder.State() == old(builder.State()) && symbols.State() == old(symbols.State())
      && ProjectRoute(args, InputPath(args, fs.separator), hasFactory, factory, created, fs.separator, lib, packErr)
      && (packErr.None? ==> (created != null
            && Run(fs.entries, fsErr) == LinkSourceRun(old(fs.entries), StoreRoot(basePath, created.id, created.version, fs.separator, lib),
                                                       created.files, fs.separator)))
  {
    var path := InputPath(args, fs.separator);
    if SourceOf(path, fs.separator) == FromNuspec {
      packErr := LinkFromNuspec(args, path, builder, symbols, fs.separator, lib);
      fsErr := None;
    } else {
      packErr, fsErr := LinkFromProjectFile(fs, args, path, hasFactory, factory, created, basePath, lib);
    }
  }
}
