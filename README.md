# NuGet.Link in Dafny

NuGet.Link is a NuGet command-line extension that lets a package under development be consumed without
publishing it. `link` in the package's own directory builds the package the way `nuget pack` would. It then
fills a store folder `BasePath\<Id>\<NormalizedVersion>` with symbolic links to the package's files on disk;
this is LinkSource. `link <id>` in a consumer replaces the consumer's copies of that package's files with links
into the store; this is LinkTarget. `unlink` undoes either step: UnlinkSource deletes the store folder, and
UnlinkTarget deletes the consumer's links.

This project models the command runners as Dafny modules and proves properties of them:

- `Results` holds the Option and Result types.
- `Paths` models the .NET path helpers the runners rely on: `Path.Combine`, `Path.GetDirectoryName`,
  `Path.GetExtension`, `IndexOf` with ordinal case folding, and `PathUtility.EnsureTrailingSlash`.
- `FileSystems` is the filesystem. It is a class `FileSystem` whose field `entries` maps full paths to a
  file, a directory or a link. Its methods `DeleteFile`, `CreateDirectory`, `CreateLink` and `DeleteDirectory`
  update that map in place. Each one is specified by a pure result function that names its error cases.
- `SymbolicLinks` models `SymbolicLink.Create`, including the platform switch, the existence check on the
  target, the Windows flag choice, and the `\\?\` long-path prefixes.
- `FileSelection` models how the files of a package are chosen. That covers the default, lib-package and
  symbols-package exclude patterns, `ResolvePath` relative to the base path, `ExcludeFiles` with its NU5119
  warning list, and the symbols filter (a loop that removes files in place).
- `PackageBuilders` models the package builder: a class `PackageBuilder` whose fields
  `InitCommonPackageBuilderProperties` updates. It covers the version, suffix, serviceable and
  minimum-client settings, the NU5003 framework check, dispatch on the `.nuspec` extension, and the
  project-file route. That route has its NU5009, null-factory and pack-failed errors, and a loop that
  writes properties into the project factory's dictionary.
- `LinkRunners` models LinkTarget and LinkSource. A run is a fold of one link step over the planned links. The
  module proves the final entries, the directories created, what the run leaves alone, and that linking
  twice changes nothing.
- `UnlinkRunners` models UnlinkTarget, UnlinkSource and Unlink. It proves that unlinking after linking
  removes every link. It also proves that removing one version's store folder keeps other versions and
  other packages.
- `ArchiveReaders` models `LinkPackageArchiveReader.GetShortFolderName`, which picks the first compatible
  supported framework.
- `LegacyLinkRunners` models the first revision of the link command (`LinkCommandRunner` at the top of the
  command project), with its manifest route. That route has the lib-package filter with NU5004 and the symbols
  package with NU5005.

The filesystem separator is a parameter (`sep`). A path is a `string`. NuGet library behaviour that the
runners call but do not define is passed in as function-typed fields of the datatypes `NuGetLibrary` and
`FrameworkLibrary`: glob matching, version formatting and normalisation, the unsupported-framework test,
framework compatibility, and short folder names. Each property is proved for every such function.

Both revisions of the runner share one model of `ResolvePath`, `ExcludeFiles`, `CheckForUnsupportedFrameworks`
and `InitCommonPackageBuilderProperties`, because their code is the same apart from the user exclude list. The
newer `BaseCommandRunner` constructor leaves that list empty (BaseCommandRunner.cs:65). The model passes its
contents as `ExcludeOptions.excludes`.

## Model

| member | source | states |
|---|---|---|
| Paths.IndexOfFrom | src/NuGet.Link.Command/CommandRunners/BaseCommandRunner.cs:307 | The result is the first position at or after `from` where the needle occurs, ignoring case; None exactly when there is no such position |
| Paths.IndexOfIgnoreCase | src/NuGet.Link.Command/CommandRunners/BaseCommandRunner.cs:307 | `IndexOf(..., OrdinalIgnoreCase)`: the first occurrence of the needle; None if and only if it occurs nowhere |
| Paths.EnsureTrailingSlash | src/NuGet.Link.Command/CommandRunners/BaseCommandRunner.cs:307 | The base path is a prefix of the result, which is at most one character longer; the result is empty only for an empty path and otherwise ends with the separator |
| Paths.LeadingRun | src/NuGet.Link.Command/CommandRunners/BaseCommandRunner.cs:312 | Counts exactly the leading separators: all of them equal the separator and the next character does not |
| Paths.TrimStartSuffix | src/NuGet.Link.Command/CommandRunners/BaseCommandRunner.cs:312 | `TrimStart(sep)` returns a suffix of its input with no leading separator, and every character removed was a separator |
| Paths.TrimStart | src/NuGet.Link.Command/CommandRunners/BaseCommandRunner.cs:312 | Definition of `TrimStart(sep)`: drops the leading run `LeadingRun` counts; `TrimStartSuffix` states its properties |
| Paths.GetExtension | src/NuGet.Link.Command/CommandRunners/BaseCommandRunner.cs:95 | The extension is empty, or a suffix of the path that starts with a dot, has at least one more character and holds no further dot or separator |
| Paths.GetExtensionOfSuffix | src/NuGet.Link.Command/CommandRunners/BaseCommandRunner.cs:95 | Any stem followed by a well-formed extension has exactly that extension |
| Paths.FindExtensionReaches | src/NuGet.Link.Command/CommandRunners/BaseCommandRunner.cs:95 | The backwards scan for the extension stops at the last dot of the final segment |
| Paths.FindExtension | src/NuGet.Link.Command/CommandRunners/BaseCommandRunner.cs:95 | The backwards scan of `Path.GetExtension`: empty, or a suffix of the path of two or more characters that starts with a dot, with no dot or separator after the position scanned from |
| Paths.NoExtension | src/NuGet.Link.Command/CommandRunners/BaseCommandRunner.cs:95 | A final segment without a dot has the empty extension |
| Paths.IsPathRooted | src/NuGet.Link.Command/SymbolicLink.cs:130 | Definition of `Path.IsPathRooted`: led by the separator, and on Windows also by '/' or a drive letter and colon; `Combine` states how it decides the join |
| Paths.Combine | src/NuGet.Link.Command/CommandRunners/LinkCommandRunner.cs:36 | `Path.Combine`: an empty second part gives the first and an empty first part gives the second; a rooted second part replaces the first; otherwise the result is the first part, then one separator unless the first part already ends in one, then the second part |
| Paths.FullPath | src/NuGet.Link.Command/SymbolicLink.cs:132-134 | Definition of `Path.GetFullPath` without `.`/`..` normalisation: a rooted path as is, otherwise combined with the current directory as `Combine` states |
| Paths.LastIndexOf | src/NuGet.Link.Command/CommandRunners/LinkCommandRunner.cs:48 | The last position of the character, and nothing after it matches; None when it does not occur |
| Paths.DirectoryName | src/NuGet.Link.Command/CommandRunners/LinkCommandRunner.cs:48 | `Path.GetDirectoryName` is null (None) exactly for an empty path or a root. Otherwise it is a proper prefix of the path that drops the last segment: nothing after it is a separator, it is empty exactly when the path holds no separator, and a non-empty result is followed by a separator in the path or is itself a root ending in one |
| Paths.DirectoryNameOfChild | src/NuGet.Link.Command/CommandRunners/LinkCommandRunner.cs:47-48 | The directory name of `dir\name` is `dir`, so the directory created for a link target is the folder that will hold it |
| Paths.Ancestors | src/NuGet.Link.Command/CommandRunners/LinkCommandRunner.cs:48 | The folders `Directory.CreateDirectory` materialises are prefixes of the path, and the path itself is one of them |
| Paths.SiblingsAreDisjoint | src/NuGet.Link.Command/CommandRunners/UnlinkCommandRunner.cs:44-47 | Nothing lies beneath two different sibling folders `q\a` and `q\b` |
| Paths.SegmentInPath | src/NuGet.Link.Command/CommandRunners/UnlinkCommandRunner.cs:44-47 | A path beneath `q\a` spells out `a` right after `q\` and ends, or continues with a separator, right after it |
| Paths.BeneathChild | src/NuGet.Link.Command/CommandRunners/UnlinkCommandRunner.cs:44-47 | Whatever lies beneath `q\a` lies beneath `q` |
| FileSystems.CreateDirectoryResult | src/NuGet.Link.Command/CommandRunners/LinkCommandRunner.cs:37 | `Directory.CreateDirectory` succeeds if and only if the path is non-empty and no prefix folder is occupied by a non-directory. On success every prefix is a directory, nothing is lost or changed, and only those prefixes are added |
| FileSystems.CreateExistingDirectory | src/NuGet.Link.Command/CommandRunners/LinkCommandRunner.cs:37 | Creating a folder that already exists with all its parents changes nothing |
| FileSystems.CreateLinkResult | src/NuGet.Link.Command/CommandRunners/LinkCommandRunner.cs:55 | The link step fails exactly when the target path is occupied; otherwise it adds one file link at the target and keeps every other entry |
| FileSystems.DeleteFileResult | src/NuGet.Link.Command/CommandRunners/LinkCommandRunner.cs:50-53 | `File.Delete` fails only on a directory; otherwise it removes exactly that path |
| FileSystems.DeleteTreeResult | src/NuGet.Link.Command/CommandRunners/UnlinkCommandRunner.cs:45-48 | `Directory.Delete(root, true)` succeeds if and only if a directory is there, and removes exactly the entries beneath it, keeping the rest unchanged |
| FileSystems.FileSystem.DeleteFile | src/NuGet.Link.Command/CommandRunners/LinkCommandRunner.cs:52 | The entries become those `DeleteFileResult` describes, or stay unchanged with the error |
| FileSystems.FileSystem.CreateDirectory | src/NuGet.Link.Command/CommandRunners/LinkCommandRunner.cs:37 | The entries become those `CreateDirectoryResult` describes, or stay unchanged with the error |
| FileSystems.FileSystem.CreateLink | src/NuGet.Link.Command/CommandRunners/LinkCommandRunner.cs:55 | The entries become those `CreateLinkResult` describes, or stay unchanged with the error |
| FileSystems.FileSystem.DeleteDirectory | src/NuGet.Link.Command/CommandRunners/UnlinkCommandRunner.cs:47 | The entries become those `DeleteTreeResult` describes, or stay unchanged with the error |
| SymbolicLinks.SymbolicLinkFlags.Value | src/NuGet.Link.Command/SymbolicLink.cs:41-46 | The flag word is below 4, its bit 0 is set exactly for a directory link, and its bit 1 exactly for AllowUnprivilegedCreate |
| SymbolicLinks.WindowsFlagWord | src/NuGet.Link.Command/SymbolicLink.cs:115-129 | On Windows the flag word passed to CreateSymbolicLink is 2 (File, AllowUnprivilegedCreate) for a file target and 3 (Directory, AllowUnprivilegedCreate) otherwise |
| SymbolicLinks.ResolvedTarget | src/NuGet.Link.Command/SymbolicLink.cs:94 | The target is resolved against the link's folder: it fails exactly when the link path has no directory name, and it is the target itself when that folder is empty or the target is rooted |
| SymbolicLinks.LinkText | src/NuGet.Link.Command/SymbolicLink.cs:130-132 | Definition of the Windows target text: a relative target as is, a rooted one as `\\?\` and its full path; `UnixLinkBesideTarget` and `CreateResult` state what the link records |
| SymbolicLinks.RecordedTarget | src/NuGet.Link.Command/SymbolicLink.cs:107-135 | Definition of the text the new link records: the target handed to `symlink` or to `CreateSymbolicLink`; `CreateResult` states the link created |
| SymbolicLinks.Plan | src/NuGet.Link.Command/SymbolicLink.cs:92-140 | ArgumentNull without a directory name; "Unsupported operating system" off Unix, macOS and Win32NT; "Link target does not exist" if and only if the resolved target is neither file nor folder. Unix calls `symlink(target, path)`; Windows calls `CreateSymbolicLink` with the `\\?\`-prefixed full link path, the target (prefixed only when rooted), and the File or Directory flag plus AllowUnprivilegedCreate |
| SymbolicLinks.CreateResult | src/NuGet.Link.Command/SymbolicLink.cs:92-142 | Every planning error is raised as is. Once planned, creation succeeds exactly when the native call succeeds and nothing is at the link path. It then adds one entry, a link to the recorded target that is a directory link exactly when the target is not a file, and keeps every other entry |
| SymbolicLinks.CreateNeverDeletes | src/NuGet.Link.Command/SymbolicLink.cs:107-110 | Create never replaces what is already at the link path: it fails there |
| SymbolicLinks.UnsupportedCreatesNothing | src/NuGet.Link.Command/SymbolicLink.cs:97-98 | On an unsupported platform Create always fails |
| SymbolicLinks.UnixLinkBesideTarget | src/NuGet.Link.Command/SymbolicLink.cs:99-111 | On Unix, a relative link beside an existing file in the same folder succeeds and records the relative target |
| SymbolicLinks.Create | src/NuGet.Link.Command/SymbolicLink.cs:92-142 | The filesystem becomes what `CreateResult` describes on success; on failure it is unchanged and the error is returned |
| SymbolicLinks.CreateOnUnix | src/NuGet.Link.Command/SymbolicLink.cs:99-112 | The Unix and macOS branch meets the same description as `Create` on those platforms |
| SymbolicLinks.CreateOnWindows | src/NuGet.Link.Command/SymbolicLink.cs:113-140 | The Win32NT branch meets the same description as `Create` on that platform |
| PackageBuilders.FirstUnsupported | src/NuGet.Link.Command/CommandRunners/BaseCommandRunner.cs:318-330 | The first framework reference with an unsupported framework, with none before it; None exactly when none is unsupported |
| PackageBuilders.CheckForUnsupportedFrameworks | src/NuGet.Link.Command/CommandRunners/BaseCommandRunner.cs:318-330 | Reports NU5003 for the first offending reference, and no error if and only if every framework of every reference is supported |
| PackageBuilders.UnsupportedError | src/NuGet.Link.Command/CommandRunners/BaseCommandRunner.cs:318-330 | Definition of the NU5003 error for the first offending reference (`FirstUnsupported`); `CheckForUnsupportedFrameworks` states its two directions |
| PackageBuilders.InitCommonSettings | src/NuGet.Link.Command/CommandRunners/BaseCommandRunner.cs:186-206 | The id, references and files are kept. The snapshot flag survives only without a -Version, Serviceable is or-ed in, and a given MinClientVersion replaces the old one |
| PackageBuilders.InitCommon | src/NuGet.Link.Command/CommandRunners/BaseCommandRunner.cs:184-212 | On top of the settings, the error is exactly the unsupported-framework error. On failure the files are unchanged; otherwise they are exactly the files `ExcludeFiles` keeps |
| PackageBuilders.InitCommonVersion | src/NuGet.Link.Command/CommandRunners/BaseCommandRunner.cs:186-196 | -Version replaces the version and -Suffix appends `-suffix` to its "V" format. A suffix alone applies to the manifest version unless it is a snapshot version; otherwise the version is kept |
| PackageBuilders.CheckAndExclude | src/NuGet.Link.Command/CommandRunners/BaseCommandRunner.cs:209-211 | Definition of the last two steps of the initialisation: the NU5003 check, then `ExcludeFiles` only when it passes; `InitCommon` states their effect |
| PackageBuilders.PackageBuilder.InitCommonPackageBuilderProperties | src/NuGet.Link.Command/CommandRunners/BaseCommandRunner.cs:184-212 | The builder's fields become what `InitCommon` describes, and the error it names is raised |
| PackageBuilders.PackageBuilder.ApplySettings | src/NuGet.Link.Command/CommandRunners/BaseCommandRunner.cs:186-206 | The builder's fields become what `InitCommonSettings` describes |
| PackageBuilders.Overlay | src/NuGet.Link.Command/CommandRunners/BaseCommandRunner.cs:155-164 | The project properties afterwards have exactly the old keys plus every key given, and a key none of the given properties names keeps its old value |
| PackageBuilders.DuplicateKeys | src/NuGet.Link.Command/CommandRunners/BaseCommandRunner.cs:157-160 | At most one overwritten key is reported per given property |
| PackageBuilders.OverlayValue | src/NuGet.Link.Command/CommandRunners/BaseCommandRunner.cs:155-164 | Every given property ends up with its given value |
| PackageBuilders.DuplicateKeysOfDictionary | src/NuGet.Link.Command/CommandRunners/BaseCommandRunner.cs:157-160 | A key is reported as overwritten if and only if the project already had it and it is given |
| PackageBuilders.ProjectFactory.AddProperties | src/NuGet.Link.Command/CommandRunners/BaseCommandRunner.cs:155-164 | The loop writes every property into the project factory's dictionary (`Overlay`) and returns the keys it overwrote (`DuplicateKeys`) |
| PackageBuilders.NuspecPathDispatch | src/NuGet.Link.Command/CommandRunners/BaseCommandRunner.cs:93-104 | A path whose extension is `.nuspec` in any case takes the manifest route |
| PackageBuilders.ProjectPathDispatch | src/NuGet.Link.Command/CommandRunners/BaseCommandRunner.cs:93-104 | A path with any other extension takes the project-file route |
| PackageBuilders.ExtensionlessPathDispatch | src/NuGet.Link.Command/CommandRunners/BaseCommandRunner.cs:93-104 | A path whose final segment has no extension takes the project-file route |
| PackageBuilders.SourceOf | src/NuGet.Link.Command/CommandRunners/BaseCommandRunner.cs:93-104 | Definition of the dispatch on `Path.GetExtension` against `.nuspec`, ignoring case; `NuspecPathDispatch`, `ProjectPathDispatch` and `ExtensionlessPathDispatch` state both routes |
| PackageBuilders.InputPath | src/NuGet.Link.Command/CommandRunners/BaseCommandRunner.cs:89 | Definition of the input path: `Path.GetFullPath(Path.Combine(CurrentDirectory, Path))`, as `FullPath` and `Combine` state |
| PackageBuilders.ProjectFileError | src/NuGet.Link.Command/CommandRunners/BaseCommandRunner.cs:137-182 | NU5009 if and only if there is neither an MSBuild directory with a factory nor pack-target arguments. A null factory with pack-target arguments fails on the null. Otherwise PackFailed exactly when no builder was created, and no error exactly when one was |
| PackageBuilders.CreatePackageBuilderFromProjectFile | src/NuGet.Link.Command/CommandRunners/BaseCommandRunner.cs:137-182 | Raises the `ProjectFileError` with no builder, and otherwise initialises the created builder as `InitCommon` describes. The factory's properties change exactly when a factory is used, by `Overlay` |
| PackageBuilders.ProjectRoute | src/NuGet.Link.Command/CommandRunners/BaseCommandRunner.cs:137-182 | What the project route does to the factory and the created builder: properties overlaid only when a factory is used, the `ProjectFileError` returned with the created builder untouched, or else the created builder initialised as `InitCommon` describes |
| PackageBuilders.CreatePackageBuilderFromNuspec | src/NuGet.Link.Command/CommandRunners/BaseCommandRunner.cs:106-135 | The builder read from the manifest is initialised as `InitCommon` describes |
| PackageBuilders.CreatePackageBuilder | src/NuGet.Link.Command/CommandRunners/BaseCommandRunner.cs:87-104 | `BuiltFrom`: the input path picks the route. On the manifest route the builder returned is the one read from the manifest, initialised as `InitCommon` describes, and the factory and the created builder are untouched. On the project route the manifest builder is untouched, the factory and the created builder meet `ProjectRoute`, and the builder returned is the created one, or none with the error |
| PackageBuilders.BuiltFrom | src/NuGet.Link.Command/CommandRunners/BaseCommandRunner.cs:87-104 | What `CreatePackageBuilder` does to each builder and the factory on each route, and which builder it returns |
| FileSelection.Replace | src/NuGet.Link.Command/CommandRunners/BaseCommandRunner.cs:26-43 | Replacing the separator keeps the length and changes exactly the matching characters |
| FileSelection.ResolvePath | src/NuGet.Link.Command/CommandRunners/BaseCommandRunner.cs:296-316 | Definition of `ResolvePath`: the target path of a generated file, the source path of a file on disk, shortened to what follows the base path when it occurs; `ResolvePathSuffix`, `ResolvePathAfterBase`, `ResolvePathIsBaseRelative` and `ResolvePathOutsideBase` state its cases |
| FileSelection.MatchBase | src/NuGet.Link.Command/CommandRunners/BaseCommandRunner.cs:291 | The base path the matcher uses is `BasePath`, or the current directory when that is empty |
| FileSelection.ResolvePathSuffix | src/NuGet.Link.Command/CommandRunners/BaseCommandRunner.cs:289-316 | A generated file resolves to its own path; a physical file resolves to a suffix of its source path |
| FileSelection.ResolvePathAfterBase | src/NuGet.Link.Command/CommandRunners/BaseCommandRunner.cs:296-316 | When the base path occurs in the source path, the result is what follows it with the leading separators trimmed |
| FileSelection.ResolvePathIsBaseRelative | src/NuGet.Link.Command/CommandRunners/BaseCommandRunner.cs:296-316 | A file at `base\rel` resolves to `rel` |
| FileSelection.ResolvePathOutsideBase | src/NuGet.Link.Command/CommandRunners/BaseCommandRunner.cs:304-315 | A file outside the base path resolves to its full source path |
| FileSelection.Select | src/NuGet.Link.Command/CommandRunners/BaseCommandRunner.cs:286 | The filter keeps exactly the files with the wanted answer, each as often as before, and drops every other one |
| FileSelection.SelectKeepsAll | src/NuGet.Link.Command/CommandRunners/BaseCommandRunner.cs:286 | A filter every file passes returns the list unchanged, in order |
| FileSelection.RemoveFirst | src/NuGet.Link.Command/CommandRunners/BaseCommandRunner.cs:227 | `ICollection.Remove` takes out one occurrence of the file, or nothing when it is absent |
| FileSelection.SelectRemoveFirst | src/NuGet.Link.Command/CommandRunners/BaseCommandRunner.cs:224-228 | Removing a file the filter rejects does not change what the filter keeps |
| FileSelection.SelectRemoveHead | src/NuGet.Link.Command/CommandRunners/BaseCommandRunner.cs:224-228 | Removing the first file the filter keeps leaves the rest of the kept files, in order |
| FileSelection.FilterPackageFiles | src/NuGet.Link.Command/CommandRunners/BaseCommandRunner.cs:286 | Definition of `PathResolver.FilterPackageFiles`: the files matching no wildcard stay, as `Select` states |
| FileSelection.GetFilteredPackageFiles | src/NuGet.Link.Command/CommandRunners/BaseCommandRunner.cs:268 | Definition of `PathResolver.GetFilteredPackageFiles`: the files matching some wildcard, as `Select` states |
| FileSelection.ExcludeFiles | src/NuGet.Link.Command/CommandRunners/BaseCommandRunner.cs:259-287 | Definition of `ExcludeFiles`: the default pass with its NU5119 list, then the manifest and user pass; `ExcludeFilesKept`, `ExcludeFilesKeptCounts` and `ExcludeFilesWarned` state what it keeps and warns |
| FileSelection.ExcludeFilesKept | src/NuGet.Link.Command/CommandRunners/BaseCommandRunner.cs:259-287 | A file is kept if and only if it was present, matches none of the manifest and user excludes, and (unless NoDefaultExcludes is set) none of the default excludes, all on its base-relative path |
| FileSelection.ExcludeFilesKeptCounts | src/NuGet.Link.Command/CommandRunners/BaseCommandRunner.cs:259-287 | Excluding only removes files, and a kept file keeps all its occurrences |
| FileSelection.ExcludeFilesWarned | src/NuGet.Link.Command/CommandRunners/BaseCommandRunner.cs:265-283 | NU5119 is logged for exactly the physical files the default excludes catch, once per occurrence, and never when NoDefaultExcludes is set |
| FileSelection.ManifestAlwaysExcluded | src/NuGet.Link.Command/CommandRunners/BaseCommandRunner.cs:264 | A file matching the `**\*.nuspec` pattern is never kept, whatever the options |
| FileSelection.ExcludeFilesWithoutUserPatterns | src/NuGet.Link.Command/CommandRunners/BaseCommandRunner.cs:259-287 | With the empty exclude list the newer runner's constructor sets, only the manifest pattern and the defaults decide |
| FileSelection.ExcludeFilesForLibPackage | src/NuGet.Link.Command/CommandRunners/BaseCommandRunner.cs:214-217 | The lib package keeps exactly the files whose target path matches no lib-package exclude, each no more often than before |
| FileSelection.SymbolPackageFiles | src/NuGet.Link.Command/CommandRunners/BaseCommandRunner.cs:219-230 | The symbols package keeps exactly the files matching no symbols exclude and, for Snupkg, only `.pdb` files, each no more often than before |
| FileSelection.ExcludeFilesForSymbolPackage | src/NuGet.Link.Command/CommandRunners/BaseCommandRunner.cs:219-230 | The in-place filter and removal loop leaves exactly `SymbolPackageFiles` |
| LinkRunners.Targets | src/NuGet.Link.Command/CommandRunners/LinkCommandRunner.cs:22 | The set of targets is exactly the targets of the planned links |
| LinkRunners.LastLinks | src/NuGet.Link.Command/CommandRunners/LinkCommandRunner.cs:20-31 | Exactly one file link per target, the last one planned for it |
| LinkRunners.ParentDirs | src/NuGet.Link.Command/CommandRunners/LinkCommandRunner.cs:28 | Every folder created for a target's directory is among the folders the run may add |
| LinkRunners.PlaceLink | src/NuGet.Link.Command/CommandRunners/LinkCommandRunner.cs:24-29 | Definition of one link step: delete a file in the way, create the target's folder and create the link, with the delete before the folder for LinkTarget and after it for LinkSource; `PlaceLinkOutcome` states its outcome |
| LinkRunners.PlaceLinks | src/NuGet.Link.Command/CommandRunners/LinkCommandRunner.cs:22-30 | Definition of a link run as a fold of `PlaceLink` that stops at the first error; `PlaceLinksFrame`, `PlaceLinksLastLinks`, `PlaceLinksParents` and `PlaceLinksIdempotent` state its properties |
| LinkRunners.PlaceLinkOutcome | src/NuGet.Link.Command/CommandRunners/LinkCommandRunner.cs:24-29 | One link step succeeds if and only if its preconditions hold. Then the target holds a file link to the source and the target's folders are directories. No other entry changes, and only the target and its folders can be added |
| LinkRunners.PlaceLinksFrame | src/NuGet.Link.Command/CommandRunners/LinkCommandRunner.cs:22-30 | A link run leaves every path that is neither a target nor a target's folder exactly as it was |
| LinkRunners.PlaceLinksLastLinks | src/NuGet.Link.Command/CommandRunners/LinkCommandRunner.cs:22-30 | After a run without error, every target holds a link to the source planned last for it |
| LinkRunners.PlaceLinksParents | src/NuGet.Link.Command/CommandRunners/LinkCommandRunner.cs:22-30 | After a run without error, every target's folder exists as a directory |
| LinkRunners.StepKeepsDirectory | src/NuGet.Link.Command/CommandRunners/LinkCommandRunner.cs:24-29 | A successful link step keeps every existing directory |
| LinkRunners.PlaceLinksSuccess | src/NuGet.Link.Command/CommandRunners/LinkCommandRunner.cs:22-30 | A successful run leaves the last links in place with their folders |
| LinkRunners.StepOverFile | src/NuGet.Link.Command/CommandRunners/LinkCommandRunner.cs:24-29 | Linking over an existing file whose folders exist only swaps that file for the link |
| LinkRunners.Replay | src/NuGet.Link.Command/CommandRunners/LinkCommandRunner.cs:22-30 | Replaying any prefix of a plan over a linked tree overwrites each target with its own link and raises no error |
| LinkRunners.ReplayStep | src/NuGet.Link.Command/CommandRunners/LinkCommandRunner.cs:22-30 | The inductive step of `Replay` |
| LinkRunners.PlaceLinksSnoc | src/NuGet.Link.Command/CommandRunners/LinkCommandRunner.cs:22-30 | The run over one more link is the earlier run followed by one step unless the earlier run already failed |
| LinkRunners.PlaceLinksAfterFailure | src/NuGet.Link.Command/CommandRunners/LinkCommandRunner.cs:22-30 | Once a step throws, later links are not processed |
| LinkRunners.PlaceLinksAppendOne | src/NuGet.Link.Command/CommandRunners/LinkCommandRunner.cs:22-30 | Appending a link to the plan adds one step after a successful run |
| LinkRunners.LastLinksSnoc | src/NuGet.Link.Command/CommandRunners/LinkCommandRunner.cs:22-30 | A later link for a target supersedes earlier ones |
| LinkRunners.PlaceLinksIdempotent | src/NuGet.Link.Command/CommandRunners/LinkCommandRunner.cs:20-31 | Running `link <id>` again after a successful run changes nothing and raises no error |
| LinkRunners.PlaceLinkOn | src/NuGet.Link.Command/CommandRunners/LinkCommandRunner.cs:24-29 | The filesystem calls of one loop body have the effect and error `PlaceLink` describes |
| LinkRunners.LinkTarget | src/NuGet.Link.Command/CommandRunners/LinkCommandRunner.cs:20-31 | The loop over the file links has the effect and error of `PlaceLinks` with delete-before-create |
| LinkRunners.PlannedLinksMembers | src/NuGet.Link.Command/CommandRunners/LinkCommandRunner.cs:43-57 | LinkSource plans a link from each physical file's source path to `root\file.Path`, and no other link |
| LinkRunners.PlannedLinksAppend | src/NuGet.Link.Command/CommandRunners/LinkCommandRunner.cs:43-57 | The links planned for two file lists are the two plans one after the other |
| LinkRunners.PlannedLinksSnoc | src/NuGet.Link.Command/CommandRunners/LinkCommandRunner.cs:43-57 | Generated files are skipped and physical files add one link each, in order |
| LinkRunners.PlannedLinksStopped | src/NuGet.Link.Command/CommandRunners/LinkCommandRunner.cs:43-57 | Once a file's link throws, the rest of the files are not linked |
| LinkRunners.LinkSourceCreatesRoot | src/NuGet.Link.Command/CommandRunners/LinkCommandRunner.cs:36-57 | A LinkSource run without error leaves the store folder as a directory and every planned target linked to its source |
| LinkRunners.PlaceLinksTargetsNotDirectories | src/NuGet.Link.Command/CommandRunners/LinkCommandRunner.cs:43-57 | A planned target occupied by a directory makes the run fail |
| LinkRunners.PlaceLinksKeepDirectories | src/NuGet.Link.Command/CommandRunners/LinkCommandRunner.cs:43-57 | A successful run keeps every directory that existed before it |
| LinkRunners.ParentDirsMember | src/NuGet.Link.Command/CommandRunners/LinkCommandRunner.cs:48 | Each folder the run may add is a folder of some target |
| LinkRunners.LinkSourceIdempotent | src/NuGet.Link.Command/CommandRunners/LinkCommandRunner.cs:33-58 | Linking the same package into the store again after a successful run changes nothing |
| LinkRunners.LinkSourceFiles | src/NuGet.Link.Command/CommandRunners/LinkCommandRunner.cs:36-57 | Creating the store folder and linking each file has the effect and error `LinkSourceRun` describes |
| LinkRunners.StoreRoot | src/NuGet.Link.Command/CommandRunners/LinkCommandRunner.cs:36 | Definition of the store folder `Combine(Combine(BasePath, Id), NormalizedVersion)`; `StoreRootShape` and `SdkStorePaths` state its shape |
| LinkRunners.PlannedLinks | src/NuGet.Link.Command/CommandRunners/LinkCommandRunner.cs:43-57 | Definition of the links LinkSource plans, one per physical file, in order; `PlannedLinksMembers`, `PlannedLinksAppend` and `PlannedLinksSnoc` state it |
| LinkRunners.LinkSourceRun | src/NuGet.Link.Command/CommandRunners/LinkCommandRunner.cs:36-57 | Definition of LinkSource's filesystem effect: create the store folder, then run the planned links with the folder created before the delete; `LinkSourceCreatesRoot` and `LinkSourceIdempotent` state its properties |
| LinkRunners.LinkEachFile | src/NuGet.Link.Command/CommandRunners/LinkCommandRunner.cs:43-57 | The loop over the builder's files runs exactly the planned links, creating folders before deleting a file in the way |
| LinkRunners.LinkSource | src/NuGet.Link.Command/CommandRunners/LinkCommandRunner.cs:33-58 | The builder is the one `CreatePackageBuilder` returns (`BuiltFrom`). A packaging error leaves the filesystem untouched. Otherwise the store folder `BasePath\Id\NormalizedVersion` of that builder is filled as `LinkSourceRun` describes |
| LinkRunners.SingleFileLinks | src/NuGet.Link.Command/CommandRunners/LinkCommandRunner.cs:43-57 | A package with one physical file plans one link, from its source to `root\path` |
| LinkRunners.SdkStorePaths | src/Nuget.Link.Tests/LinkCommandRunnerTests.cs:107 | The store folder of Package.Sdk 1.0.0 is `BasePath\Package.Sdk\1.0.0`, and its dll lands at `...\lib\netstandard2.0\Package.Sdk.dll` |
| LinkRunners.LinkSourceSdkExample | src/Nuget.Link.Tests/LinkCommandRunnerTests.cs:102-120 | After linking the Package.Sdk project, `BasePath\Package.Sdk\1.0.0\lib\netstandard2.0\Package.Sdk.dll` exists as a link to the built dll |
| UnlinkRunners.RemoveTargetsOutcome | src/NuGet.Link.Command/CommandRunners/UnlinkCommandRunner.cs:29-39 | Exactly the planned targets that held files are gone, and every other entry keeps its value |
| UnlinkRunners.RemoveTargetsIdempotent | src/NuGet.Link.Command/CommandRunners/UnlinkCommandRunner.cs:29-39 | Unlinking twice is the same as unlinking once |
| UnlinkRunners.LinkThenUnlink | src/NuGet.Link.Command/CommandRunners/UnlinkCommandRunner.cs:29-39 | After a successful `link <id>`, `unlink <id>` with the same file links removes every target |
| UnlinkRunners.UnlinkTarget | src/NuGet.Link.Command/CommandRunners/UnlinkCommandRunner.cs:29-39 | The loop deletes the existing file at each target, as `RemoveTargets` describes, and never fails |
| UnlinkRunners.RemoveTargets | src/NuGet.Link.Command/CommandRunners/UnlinkCommandRunner.cs:29-39 | Definition of UnlinkTarget's effect: each target holding a file is deleted; `RemoveTargetsOutcome`, `RemoveTargetsIdempotent` and `LinkThenUnlink` state its properties |
| UnlinkRunners.UnlinkSourceOutcome | src/NuGet.Link.Command/CommandRunners/UnlinkCommandRunner.cs:44-48 | When the store folder exists, exactly it and what lies beneath it go, and every other entry is kept. Afterwards no directory is there |
| UnlinkRunners.UnlinkSourceResult | src/NuGet.Link.Command/CommandRunners/UnlinkCommandRunner.cs:44-48 | Definition of UnlinkSource's effect: the store folder and what lies beneath it are removed when it is a directory; `UnlinkSourceOutcome` states it |
| UnlinkRunners.StoreRootShape | src/NuGet.Link.Command/CommandRunners/UnlinkCommandRunner.cs:44 | The store folder is `BasePath\Id\NormalizedVersion` joined by single separators |
| UnlinkRunners.UnlinkSourceKeepsOtherVersions | src/NuGet.Link.Command/CommandRunners/UnlinkCommandRunner.cs:41-49 | Unlinking one version of a package keeps every entry in the store folder of another version |
| UnlinkRunners.UnlinkSourceKeepsOtherPackages | src/NuGet.Link.Command/CommandRunners/UnlinkCommandRunner.cs:41-49 | Unlinking a package keeps every entry of every other package's store folder |
| UnlinkRunners.UnlinkSource | src/NuGet.Link.Command/CommandRunners/UnlinkCommandRunner.cs:41-49 | The builder is the one `CreatePackageBuilder` returns (`BuiltFrom`). A packaging error leaves the filesystem untouched; otherwise that builder's store folder is deleted recursively if it exists |
| UnlinkRunners.Unlink | src/NuGet.Link.Command/CommandRunners/UnlinkCommandRunner.cs:17-27 | With a package id the consumer's links are removed without error, no builder is made, and the manifest builder, the factory and the created builder are untouched; without one the builder is made as `BuiltFrom` describes and its store folder is removed |
| ArchiveReaders.FirstCompatible | src/NuGet.Link.Command/LinkPackageArchiveReader.cs:43-49 | The position of the first supported framework the target is compatible with, none before it compatible; None if and only if none is |
| ArchiveReaders.GetShortFolderName | src/NuGet.Link.Command/LinkPackageArchiveReader.cs:32-51 | Null if and only if no supported framework is compatible with the consumer's framework; otherwise the short folder name of the first compatible one |
| ArchiveReaders.FirstCompatibleUnique | src/NuGet.Link.Command/LinkPackageArchiveReader.cs:43-49 | A compatible framework with no compatible one before it is the one chosen |
| ArchiveReaders.GetShortFolderNameAppend | src/NuGet.Link.Command/LinkPackageArchiveReader.cs:43-49 | Frameworks listed after a compatible one never change the answer |
| ArchiveReaders.GetShortFolderNameSkips | src/NuGet.Link.Command/LinkPackageArchiveReader.cs:43-49 | Incompatible frameworks listed first never change the answer |
| LegacyLinkRunners.LibPackageStep | src/NuGet.Link.Command/LinkCommandRunner.cs:120-129 | With Symbols set and files present, only files matching no lib-package exclude stay. NU5004 is raised exactly when none remain; without Symbols the files are untouched |
| LegacyLinkRunners.SymbolsPackageStepOutcome | src/NuGet.Link.Command/LinkCommandRunner.cs:272-293 | NU5005 if and only if the symbols filter leaves nothing; the only other error is NU5003. Otherwise the symbols package holds only filtered files, `.pdb` files for Snupkg, none more often than before. For Snupkg the package types become exactly the symbols package type, otherwise they are kept |
| LegacyLinkRunners.SymbolsPackageStep | src/NuGet.Link.Command/LinkCommandRunner.cs:272-293 | Definition of the symbols package step: the package types reset for Snupkg, the symbols filter, the NU5005 check, then the initialisation; `SymbolsPackageStepOutcome` states its outcome |
| LegacyLinkRunners.LinkFromNuspecErrors | src/NuGet.Link.Command/LinkCommandRunner.cs:105-145 | NU5004 and NU5005 are raised exactly in their cases. The symbols builder is untouched without Symbols or when the package goes to the output path |
| LegacyLinkRunners.LinkFromNuspecResult | src/NuGet.Link.Command/LinkCommandRunner.cs:105-145 | Definition of the manifest route's effect on both builders and its error; `LinkFromNuspecErrors` states its cases |
| LegacyLinkRunners.BuildSymbolsPackage | src/NuGet.Link.Command/LinkCommandRunner.cs:272-293 | The symbols builder's fields, its package types included, become what `SymbolsPackageStep` describes, with its error |
| LegacyLinkRunners.LinkFromNuspec | src/NuGet.Link.Command/LinkCommandRunner.cs:105-145 | Both builders' fields and the error become what `LinkFromNuspecResult` describes |
| LegacyLinkRunners.LinkFromProjectFile | src/NuGet.Link.Command/LinkCommandRunner.cs:172-235 | The factory and the created builder meet `ProjectRoute`: the project-file errors propagate and leave the filesystem untouched, and otherwise the created builder is initialised as `InitCommon` describes. Its store folder is then filled as `LinkSourceRun` describes |
| LegacyLinkRunners.LinkPackage | src/NuGet.Link.Command/LinkCommandRunner.cs:92-103 | A `.nuspec` path takes the manifest route, which does not touch the filesystem, the factory or the created builder; any other path takes the project route, meets `ProjectRoute` and leaves the manifest builders alone |

## Left out

- Building the `.nupkg` itself is not modelled: `BuildPackage`, `GetOutputPath`, the archive written to the store
  folder and `AnalyzePackage`. They go through NuGet's packaging library. The model keeps the builder's state and
  the links.
- The console and loggers are not modelled: `WriteLine`, `WriteWarning("")` in UnlinkTarget, `PrintPackageIssue`
  and WarningProperties. The NU5119 warnings are returned as the `warned` list of `ExcludeFiles`, not logged.
- NuGet library code is taken as parameters: the "V" formatter and `ToNormalizedString`, glob matching
  (`PathResolver`), `IsCompatible`, `GetShortFolderName` of a framework, and the unsupported-framework test.
- Version parsing is not modelled: a version is kept as its text. So the ArgumentException that `new NuGetVersion`
  throws for an unparsable -Version or -Suffix value (BaseCommandRunner.cs:188 and :195, and line 248 of the first revision's LinkCommandRunner.cs),
  such as `-Suffix beta_1`, is not raised, and `InitCommon` reports no error for it.
- GetExtension: only `.` and the separator stop the backward scan. On Windows .NET also stops at `/` and `:`, so
  `a.b/c` has the extension `.b/c` in the model and none in .NET. The `.nuspec` and `.pdb` tests still give the
  .NET answer on every path, because an extension that runs past a `/` or `:` contains it and matches neither.
- `GetSupportedFrameworks`, `Create` and `Dispose` of `LinkPackageArchiveReader` are not modelled: they are stream
  handling inside NuGet. The reflection GetShortFolderName uses to reach `IsCompatible` is folded into a direct call.
- `GetFileLinks` (the consumer's package folders, the framework chosen and the file list) is not modelled: it lives in
  code that is not part of this model. The file links are an input of LinkTarget and UnlinkTarget.
- `BasePath` (LinkCommandRunner.cs:23) is an input: it depends on the user's application-data folder.
- The filesystem is a case-sensitive map keyed by full paths. Links are not followed, `..` is not normalised,
  and case folding in `IndexOf` is ASCII-only.
- `SymbolicLink.create`, the link call the runners make, comes from an external library. It is modelled as
  `CreateLink`, which fails when the target path is occupied. `SymbolicLinks.Create` models the repository's own
  implementation separately.
- In `SymbolicLinks.Create`, the outcome of the native call (`symlink`, `CreateSymbolicLink`) is the parameter
  `nativeSucceeds`. The P/Invoke declarations, `Win32Exception` messages and `GetFinalPathNameByHandle` are left out.
- Package file collections (`ICollection<IPackageFile>`) are sequences. The builder reassigns them, rather than
  several objects sharing and mutating one collection.
- Argument parsing, `LinkCommand`/`UnlinkCommand` and the other CLI plumbing are not modelled. This includes the
  choice of input path from the arguments, modelled by `InputPath`.
- `LinkRunners.LinkSource`, `UnlinkRunners.UnlinkSource` and `UnlinkRunners.Unlink` return the builder as
  an extra out-parameter, so that their contracts can name the store folder.
- CreatePackageBuilderFromNuspec: the write of `Properties["version"]` before reading the manifest is not
  modelled, because reading the manifest (`PackageBuilder`'s constructor) is not modelled.
- A null project factory with pack-target arguments is the error `NullFactory`; the code throws a
  NullReferenceException there.
- Concurrency is not modelled, since the runners have none.
- DirectoryName: repeated separators are not collapsed, so `a//b` gives `a/` where .NET gives `a`. A drive
  path without a separator such as `C:a` gives the empty string where .NET gives `C:`. On Windows only the
  separator `\` is treated as one, not `/`, and UNC roots (`\\server\share`) are not recognised.
- Combine: on Windows a first part ending in `/` or `:` gets a `\` added before the second part, where .NET adds
  none. The exceptions for null arguments and invalid path characters are not modelled.
- Exceptions raised by the filesystem for reasons other than the ones modelled, such as permissions or
  locked files, are left out.
