/**
 * LinkPackageArchiveReader.GetShortFolderName: the folder name, within a
 * package, of the first framework the package supports that a consumer's
 * framework can use.
 */
module ArchiveReaders {
  import opened Results
  import opened PackageBuilders

  /** System.Runtime.Versioning.FrameworkName: identifier, version and profile. */
  datatype FrameworkName = FrameworkName(identifier: string, version: seq<nat>, profile: string)

  /** The NuGet side the reader calls. */
  datatype FrameworkLibrary = FrameworkLibrary(
    isCompatible: (NuGetFramework, NuGetFramework) -> bool,   // CompatibilityProvider.IsCompatible(target, candidate)
    shortFolderName: NuGetFramework -> string)                // NuGetFramework.GetShortFolderName

  /** The consumer's framework as NuGet sees it, built from the same three parts. */
  function TargetFramework(name: FrameworkName): NuGetFramework {
    NuGetFramework(name.identifier, name.version, name.profile)
  }

  /** The position of the first supported framework, in list order, compatible with `target`. */
  function FirstCompatible(target: NuGetFramework, supported: seq<NuGetFramework>, lib: FrameworkLibrary): (r: Option<nat>)
    ensures r.Some? ==> r.value < |supported| && lib.isCompatible(target, supported[r.value])
    ensures r.Some? ==> forall j :: 0 <= j < r.value ==> !lib.isCompatible(target, supported[j])
    ensures r.None? <==> forall j :: 0 <= j < |supported| ==> !lib.isCompatible(target, supported[j])
  {
    if supported == [] then None
    else if lib.isCompatible(target, supported[0]) then Some(0)
    else
      match FirstCompatible(target, supported[1..], lib)
      case None => None
      case Some(i) => Some(i + 1)
  }

  /**
   * GetShortFolderName: the short folder name of the first supported framework
   * compatible with the consumer's framework, asked with the consumer's framework
   * first; None (null) when there is none, the empty list included.
   */
  function GetShortFolderName(supported: seq<NuGetFramework>, frameworkName: FrameworkName, lib: FrameworkLibrary): (r: Option<string>)
    ensures r.None? <==> forall j :: 0 <= j < |supported| ==> !lib.isCompatible(TargetFramework(frameworkName), supported[j])
    ensures r.Some? ==> exists i :: (0 <= i < |supported| && r.value == lib.shortFolderName(supported[i])
      && lib.isCompatible(TargetFramework(frameworkName), supported[i])
      && forall j :: 0 <= j < i ==> !lib.isCompatible(TargetFramework(frameworkName), supported[j]))
  {
    match FirstCompatible(TargetFramework(frameworkName), supported, lib)
    case None => None
    case Some(i) => Some(lib.shortFolderName(supported[i]))
  }

  /** The first compatible position is the only one with nothing compatible before it. */
  lemma FirstCompatibleUnique(target: NuGetFramework, supported: seq<NuGetFramework>, lib: FrameworkLibrary, i: nat)
    requires i < |supported| && lib.isCompatible(target, supported[i])
    requires forall j :: 0 <= j < i ==> !lib.isCompatible(target, supported[j])
    ensures FirstCompatible(target, supported, lib) == Some(i)
  {
  }

  /** More supported frameworks after a found one do not change the folder chosen. */
  lemma GetShortFolderNameAppend(supported: seq<NuGetFramework>, more: seq<NuGetFramework>, frameworkName: FrameworkName, lib: FrameworkLibrary)
    requires GetShortFolderName(supported, frameworkName, lib).Some?
    ensures GetShortFolderName(supported + more, frameworkName, lib) == GetShortFolderName(supported, frameworkName, lib)
  {
    var target := TargetFramework(frameworkName);
    var i := FirstCompatible(target, supported, lib).value;
    assert forall j :: 0 <= j <= i ==> (supported + more)[j] == supported[j];
    FirstCompatibleUnique(target, supported + more, lib, i);
  }

  /** Incompatible frameworks listed first do not change the folder chosen. */
  lemma GetShortFolderNameSkips(skipped: seq<NuGetFramework>, supported: seq<NuGetFramework>, frameworkName: FrameworkName, lib: FrameworkLibrary)
    requires forall j :: 0 <= j < |skipped| ==> !lib.isCompatible(TargetFramework(frameworkName), skipped[j])
    ensures GetShortFolderName(skipped + supported, frameworkName, lib) == GetShortFolderName(supported, frameworkName, lib)
  {
    var target := TargetFramework(frameworkName);
    var all := skipped + supported;
    assert forall j :: 0 <= j < |supported| ==> all[|skipped| + j] == supported[j];
    match FirstCompatible(target, supported, lib)
    case None =>
      assert forall j :: 0 <= j < |all| ==> !lib.isCompatible(target, all[j]) by {
        forall j | 0 <= j < |all|
          ensures !lib.isCompatible(target, all[j])
        {
          if j >= |skipped| {
            assert all[j] == supported[j - |skipped|];
          }
        }
      }
    case Some(i) =>
      assert forall j :: 0 <= j < |skipped| + i ==> !lib.isCompatible(target, all[j]) by {
        forall j | 0 <= j < |skipped| + i
          ensures !lib.isCompatible(target, all[j])
        {
          if j >= |skipped| {
            assert all[j] == supported[j - |skipped|];
          }
        }
      }
      FirstCompatibleUnique(target, all, lib, |skipped| + i);
  }
}
