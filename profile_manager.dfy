/**
 * The domain profile manager: initialisation loads the profile files named
 * on the command line ("p" or "profile"), or else the configured ones, in
 * merge mode into a new collection, and keeps that collection only when it
 * holds at least one profile. The configured paths are an input here.
 */
module ProfileManagers {
  import opened Options
  import opened Json
  import opened Arguments
  import opened DomainProfiles
  import opened DomainProfileCollections

  const PROFILE_ARGUMENT_SHORT_NAME := "p"
  const PROFILE_ARGUMENT_LONG_NAME := "profile"

  /** The paths initialize loads: those given on the command line when there are any, else the configured ones. */
  function ProfilePaths(arguments: Option<ArgumentMap>, configuredPaths: seq<string>): (r: seq<string>)
    ensures arguments.None? ==> r == configuredPaths
    ensures arguments.Some? ==>
              var given := GetValuesEither(arguments.value, PROFILE_ARGUMENT_SHORT_NAME, PROFILE_ARGUMENT_LONG_NAME);
              r == if given != [] then given else configuredPaths
  {
    if arguments.Some? && GetValuesEither(arguments.value, PROFILE_ARGUMENT_SHORT_NAME, PROFILE_ARGUMENT_LONG_NAME) != [] then
      GetValuesEither(arguments.value, PROFILE_ARGUMENT_SHORT_NAME, PROFILE_ARGUMENT_LONG_NAME)
    else
      configuredPaths
  }

  /** The profiles a merge of the given files into an empty collection yields. */
  function MergedProfiles(paths: seq<string>, files: FileSystem): seq<DomainProfile> {
    LoadAll([], paths, files, true).1
  }

  /** Whatever the files hold, the merged collection keeps the collection invariant. */
  lemma MergedProfilesValid(paths: seq<string>, files: FileSystem)
    ensures CollectionValid(MergedProfiles(paths, files))
  {
    LoadAllPreservesValid([], paths, files, true);
  }

  /** Only files that loaded contribute: no path loaded means no profiles. */
  lemma {:induction false} NothingLoadedMeansEmpty(paths: seq<string>, files: FileSystem)
    ensures LoadAll([], paths, files, true).0 == 0 ==> MergedProfiles(paths, files) == []
  {
    if paths != [] {
      var init := paths[..|paths| - 1];
      NothingLoadedMeansEmpty(init, files);
      MergeOnlyAppends(LoadAll([], init, files, true).1, paths[|paths| - 1], files);
    }
  }

  class ProfileManager {
    var initialized: bool
    /** The loaded collection; None until an initialisation keeps one. */
    var domainProfiles: Option<DomainProfileCollection>

    constructor ()
      ensures !initialized && domainProfiles.None?
    {
      initialized := false;
      domainProfiles := None;
    }

    function IsInitialized(): bool
      reads this
    {
      initialized
    }

    /**
     * initialize: true at once when already initialised. Otherwise the
     * chosen paths are merged into a new collection; with no profile in it
     * the call fails and the manager is unchanged, and with at least one it
     * succeeds and keeps the collection, even when some files failed. The
     * initialised flag is never set.
     */
    method Initialize(arguments: Option<ArgumentMap>, configuredPaths: seq<string>, files: FileSystem) returns (ok: bool)
      modifies this
      ensures initialized == old(initialized)
      ensures old(initialized) ==> ok && domainProfiles == old(domainProfiles)
      ensures !old(initialized) ==>
                var merged := MergedProfiles(ProfilePaths(arguments, configuredPaths), files);
                && (ok <==> merged != [])
                && (!ok ==> domainProfiles == old(domainProfiles))
                && (ok ==> domainProfiles.Some? && fresh(domainProfiles.value) && domainProfiles.value.profiles == merged)
      ensures !old(initialized) && ok ==> domainProfiles.Some? && CollectionValid(domainProfiles.value.profiles)
    {
      if initialized {
        return true;
      }
      var domainProfilesOverridden := false;
      var collection := new DomainProfileCollection();

      if arguments.Some? {
        var domainProfileFilePaths := GetValuesEither(arguments.value, PROFILE_ARGUMENT_SHORT_NAME, PROFILE_ARGUMENT_LONG_NAME);
        if domainProfileFilePaths != [] {
          domainProfilesOverridden := true;
          var _ := collection.LoadFromFiles(domainProfileFilePaths, files, true);
        }
      }
      if !domainProfilesOverridden {
        var _ := collection.LoadFromFiles(configuredPaths, files, true);
      }

      if collection.NumberOfDomainProfiles() == 0 {
        return false;
      }
      MergedProfilesValid(ProfilePaths(arguments, configuredPaths), files);
      domainProfiles := Some(collection);
      return true;
    }
  }
}
