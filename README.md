# Namecheap Dynamic DNS Auto-Updater: the configuration model and the update fan-out

The Namecheap Dynamic DNS Auto-Updater keeps the A records of a set of
Namecheap hosts pointed at the machine's external IP address. This project
models its core in Dafny and proves properties of that model. The core has
five parts:

- **Domain profile** (`DomainProfiles`, `domain_profile.dfy`). A domain
  profile is a value: a list of hosts, a domain and a dynamic-DNS password.
  The module covers its validity predicate and its host lookup. It also
  covers its strict, trimming JSON parser, which accepts either a `host`
  string or a `hosts` array. Its serialiser writes the singular key for
  exactly one host.
- **Profile collection** (`DomainProfileCollections`,
  `domain_profile_collection.dfy`). This is a class over the ordered vector
  of profiles. Its invariant: every entry is valid, and no two domains are
  equal ignoring case. The module covers lookup, add, bulk add, remove and
  clear. It also covers the all-or-nothing file parser with its
  `fileType`/`fileFormatVersion` markers, and the serialiser. Finally it
  covers loading with merge or replace, and saving with extension dispatch.
- **Settings manager** (`SettingsManagers`, `settings.dfy`). This is a class
  with one field per setting, the `loaded` flag and the settings file path.
  The module covers the defaults, `reset` and the type-checked, tolerant
  `parseFrom`. It also covers `toJSON` with optional timestamps and file tags
  in key order, and the guards of `loadFrom`, `load`, `saveTo` and `save`.
- **Dynamic DNS update** (`DynamicDns`, `dynamic_dns.dfy`). One GET request
  goes to the Namecheap update endpoint per host. No host is skipped after a
  failure, and the overall result is the conjunction of the per-host
  results.
- **Profile manager** (`ProfileManagers`, `profile_manager.dfy`). This is
  `initialize`. Paths given with `-p`/`--profile` replace the configured
  ones. The files are merged into a fresh collection, and initialisation
  fails when nothing was loaded.

The supporting modules are:

- `Options` (`options.dfy`): an optional value.
- `Text` (`text.dfy`): ASCII case folding, whitespace trimming, the file
  extension of a path, and the ascending key order of a `std::map` of
  strings.
- `Json` (`json.dfy`): a JSON document whose objects keep their members in
  order and whose lookups find the first member of a name, as rapidjson's
  `FindMember` does. It also holds the marker check both file formats share
  and the file-system input.
- `Arguments` (`arguments.dfy`): the parsed command line as a map from
  option name to values.

The file system, the HTTP service, the external IP address lookup and the
time-string conversions are not modelled; each is a parameter of the
operations that use it. The file system is a map from path to content, the
HTTP service is an initialised flag plus a response function, the IP address
is the string the lookup returned, and the time conversions are functions.

Where the written code and the program's documented intent differ, the
model follows the code, with one exception listed under "## Findings"
(the single-host `updateIPAddress`, which is modelled both as written and
as intended). The differences that follow the code are:

- A merge load fails only when no profile at all was added.
- A path with a non-JSON extension "loads" successfully without reading
  anything.
- `reset` leaves the `loaded` flag and the file path alone.
- `initialize` never sets the initialised flag, so a second call loads
  again.

## Model

| member | source | states |
|---|---|---|
| DomainProfiles.CheckValid | Source/Namecheap/NamecheapDomainProfile.cpp:268-278 | true exactly when there is at least one host, no host is empty, and domain and password are non-empty |
| DomainProfiles.Equals | Source/Namecheap/NamecheapDomainProfile.cpp:285-298 | the position-by-position host comparison plus the domain and password comparison is exactly equality of the two profiles |
| DomainProfiles.FindHost | Source/Namecheap/NamecheapDomainProfile.cpp:73-81 | the position found holds the host and no earlier position does; not found is the list length |
| DomainProfiles.IndexOfHost | Source/Namecheap/NamecheapDomainProfile.cpp:73-81 | a host in the list gives its first position; a host not in the list gives the maximum size_t sentinel |
| DomainProfiles.HostLookupAgrees | Source/Namecheap/NamecheapDomainProfile.cpp:69-89 | hasHost holds exactly when the host is in the list, and getHost at the index indexOfHost returns gives that host back |
| DomainProfiles.TrimAll | Source/Namecheap/NamecheapDomainProfile.cpp:176-185 | the hosts array becomes the list of its strings trimmed, one for one and in order |
| DomainProfiles.ReadHosts | Source/Namecheap/NamecheapDomainProfile.cpp:155-190 | a present `host` must be a string and wins over `hosts`; otherwise `hosts` must be an array of strings; the result is the trimmed host list, or failure |
| DomainProfiles.ParseFrom | Source/Namecheap/NamecheapDomainProfile.cpp:131-241 | the loop-based parser computes exactly the profile the specification function ParseProfile describes |
| DomainProfiles.ParseProfileRejects | Source/Namecheap/NamecheapDomainProfile.cpp:132-238 | no profile in each of these cases: not an object; no host key; a non-string `host`; a non-array `hosts` or a non-string element; a missing or non-string domain or password; an empty host list or a blank host after trimming |
| DomainProfiles.ParseProfileAccepts | Source/Namecheap/NamecheapDomainProfile.cpp:155-240 | a parsed profile has a non-empty host list with no empty host; `host` wins over `hosts`; every kept string is the trimmed input; it is valid exactly when its trimmed domain and password are non-empty |
| DomainProfiles.ParseProfileSucceeds | Source/Namecheap/NamecheapDomainProfile.cpp:204-240 | conversely, an object with usable hosts and string domain and password always yields a profile, whose domain is the trimmed input |
| DomainProfiles.UnknownPropertyIgnored | Source/Namecheap/NamecheapDomainProfile.cpp:137-153 | a property with any other name, inserted anywhere in the object, does not change the parse result |
| DomainProfiles.ParseAll | Source/Namecheap/NamecheapDomainProfile.cpp:243-266 | the array parses when every element does, and then yields those profiles one for one in order |
| DomainProfiles.ParseFromList | Source/Namecheap/NamecheapDomainProfile.cpp:243-266 | a non-empty result is one parsed profile per array element, in order; any element that does not parse makes the whole result empty |
| DomainProfiles.ProfileToJson | Source/Namecheap/NamecheapDomainProfile.cpp:103-129 | exactly one host is written under `host` only; any other number of hosts is written under `hosts` only |
| DomainProfiles.ToJson | Source/Namecheap/NamecheapDomainProfile.cpp:103-129 | the loop that fills the hosts array builds exactly the document ProfileToJson describes |
| DomainProfiles.ToJsonRoundTrip | Source/Namecheap/NamecheapDomainProfile.cpp:103-241 | a valid profile whose strings are already trimmed is parsed back from its JSON unchanged |
| DomainProfiles.ParsedProfileIsTrimmed | Source/Namecheap/NamecheapDomainProfile.cpp:166-238 | every string of a parsed profile is already trimmed |
| DomainProfiles.ParseSerialiseParse | Source/Namecheap/NamecheapDomainProfile.cpp:103-241 | serialising a valid parsed profile and parsing it again gives the same profile |
| DomainProfileCollections.FindDomain | Source/Namecheap/NamecheapDomainProfileCollection.cpp:99-107 | the position found matches the domain ignoring case and no earlier entry does; not found is the length |
| DomainProfileCollections.IndexOfDomain | Source/Namecheap/NamecheapDomainProfileCollection.cpp:94-108 | an empty domain gives the sentinel; otherwise the first entry whose domain is equal ignoring case; no such entry gives the sentinel |
| DomainProfileCollections.HasDomainIff | Source/Namecheap/NamecheapDomainProfileCollection.cpp:78-80 | hasDomainProfile holds exactly when the domain is non-empty and some entry's domain equals it ignoring case |
| DomainProfileCollections.ValidateProfiles | Source/Namecheap/NamecheapDomainProfileCollection.cpp:481-495 | the nested scan with early returns answers exactly the collection invariant: every entry valid and no two domains equal ignoring case |
| DomainProfileCollections.AddSpec | Source/Namecheap/NamecheapDomainProfileCollection.cpp:136-154 | an add succeeds exactly when the profile is valid and its domain matches no entry ignoring case; success appends it at the end, failure changes nothing; the invariant is kept |
| DomainProfileCollections.AddAll | Source/Namecheap/NamecheapDomainProfileCollection.cpp:180-194 | the count of successful adds is at most the input length and equals the growth in size; the old entries stay a prefix |
| DomainProfileCollections.AddAllPreservesValid | Source/Namecheap/NamecheapDomainProfileCollection.cpp:180-194 | the bulk add keeps the collection invariant |
| DomainProfileCollections.RemovePreservesValid | Source/Namecheap/NamecheapDomainProfileCollection.cpp:196-204 | removing by index keeps the collection invariant |
| DomainProfileCollections.RemoveKeepsOrder | Source/Namecheap/NamecheapDomainProfileCollection.cpp:196-204 | an in-range remove erases exactly that entry; the entries before it stay in place and the ones after it move down by one |
| DomainProfileCollections.ParseProfilesNoneExtends | Source/Namecheap/NamecheapDomainProfileCollection.cpp:323-351 | once a prefix of the `profiles` array is rejected, the whole array is rejected: there is no partial result |
| DomainProfileCollections.ParseProfilesSpec | Source/Namecheap/NamecheapDomainProfileCollection.cpp:323-351 | the element-by-element add succeeds exactly when every element parses and the parsed profiles satisfy the collection invariant, and then holds them in order |
| DomainProfileCollections.ParseCollectionSpec | Source/Namecheap/NamecheapDomainProfileCollection.cpp:245-358 | rejected cases: not an object; a bad marker; neither key; a non-array or empty `profiles`. `profile` wins over `profiles`. An accepted collection is non-empty and satisfies the invariant |
| DomainProfileCollections.ProfilesRoundTrip | Source/Namecheap/NamecheapDomainProfileCollection.cpp:218-351 | a valid list of trimmed profiles written as an array is read back by the element-by-element add as the same list |
| DomainProfileCollections.CollectionRoundTrip | Source/Namecheap/NamecheapDomainProfileCollection.cpp:218-358 | a valid, non-empty collection of trimmed profiles survives toJSON then parseFrom unchanged |
| DomainProfileCollections.EmptyCollectionDoesNotRoundTrip | Source/Namecheap/NamecheapDomainProfileCollection.cpp:227-240 | an empty collection is written as an empty `profiles` array, which parseFrom rejects |
| DomainProfileCollections.LoadAll | Source/Namecheap/NamecheapDomainProfileCollection.cpp:360-379 | the count of files that loaded is at most the number of paths |
| DomainProfileCollections.LoadPreservesValid | Source/Namecheap/NamecheapDomainProfileCollection.cpp:381-439 | loading one file keeps the collection invariant in either mode |
| DomainProfileCollections.LoadAllPreservesValid | Source/Namecheap/NamecheapDomainProfileCollection.cpp:360-379 | loading a list of files keeps the collection invariant |
| DomainProfileCollections.MergeOnlyAppends | Source/Namecheap/NamecheapDomainProfileCollection.cpp:428-433 | a merge never removes or reorders loaded profiles, and a merge that reports failure changes nothing |
| DomainProfileCollections.MergeAllOnlyAppends | Source/Namecheap/NamecheapDomainProfileCollection.cpp:360-379 | merging a list of files keeps the loaded profiles as a prefix |
| DomainProfileCollections.DuplicateMergeFails | Source/Namecheap/NamecheapDomainProfileCollection.cpp:428-433 | merging a file whose only profile duplicates a loaded domain ignoring case fails and changes nothing |
| DomainProfileCollections.SaveThenLoad | Source/Namecheap/NamecheapDomainProfileCollection.cpp:381-479 | what saveTo writes for a valid, non-empty, trimmed collection loads back in replace mode as the same collection |
| DomainProfileCollections.DomainProfileCollection.constructor | Source/Namecheap/NamecheapDomainProfileCollection.cpp:30 | a new collection is empty |
| DomainProfileCollections.DomainProfileCollection.GetDomainProfile | Source/Namecheap/NamecheapDomainProfileCollection.cpp:110-116 | a profile exactly when the index is in range, and then the entry at that index |
| DomainProfileCollections.DomainProfileCollection.GetDomainProfileWithID | Source/Namecheap/NamecheapDomainProfileCollection.cpp:118-120 | a profile exactly when the domain is present ignoring case, and then the first entry with that domain |
| DomainProfileCollections.DomainProfileCollection.AddDomainProfile | Source/Namecheap/NamecheapDomainProfileCollection.cpp:136-154 | the new vector and the result are those of the add rule, and the invariant is kept |
| DomainProfileCollections.DomainProfileCollection.AddDomainProfiles | Source/Namecheap/NamecheapDomainProfileCollection.cpp:180-194 | null entries are skipped and each other entry is added in order; the count returned is the growth in size, at most the input length; the invariant is kept |
| DomainProfileCollections.DomainProfileCollection.RemoveDomainProfile | Source/Namecheap/NamecheapDomainProfileCollection.cpp:196-204 | out of range changes nothing and returns false; otherwise exactly that entry is erased; the invariant is kept |
| DomainProfileCollections.DomainProfileCollection.RemoveDomainProfileWithID | Source/Namecheap/NamecheapDomainProfileCollection.cpp:210-212 | the first entry whose domain matches ignoring case is erased, and it succeeds exactly when such an entry exists; the invariant is kept |
| DomainProfileCollections.DomainProfileCollection.ClearDomainProfiles | Source/Namecheap/NamecheapDomainProfileCollection.cpp:214-216 | the collection becomes empty |
| DomainProfileCollections.DomainProfileCollection.Equals | Source/Namecheap/NamecheapDomainProfileCollection.cpp:502-514 | equal exactly when both hold the same profiles in the same order |
| DomainProfileCollections.DomainProfileCollection.ToJson | Source/Namecheap/NamecheapDomainProfileCollection.cpp:218-243 | the markers, then `profile` for exactly one entry and a `profiles` array otherwise |
| DomainProfileCollections.DomainProfileCollection.AddParsedProfiles | Source/Namecheap/NamecheapDomainProfileCollection.cpp:323-351 | the loop over the array succeeds exactly when the all-or-nothing array parse does, and then holds its result |
| DomainProfileCollections.DomainProfileCollection.ParseFrom | Source/Namecheap/NamecheapDomainProfileCollection.cpp:245-358 | the method computes exactly the collection parse, whose rejections and results ParseCollectionSpec states |
| DomainProfileCollections.DomainProfileCollection.LoadFromJson | Source/Namecheap/NamecheapDomainProfileCollection.cpp:400-439 | a missing or unreadable file, or a document that does not parse into a valid collection, fails and changes nothing. Merge adds the parsed profiles and fails only when none was added. Replace swaps the vector wholesale |
| DomainProfileCollections.DomainProfileCollection.LoadFrom | Source/Namecheap/NamecheapDomainProfileCollection.cpp:381-398 | an empty path or a path without extension fails; a JSON extension (any case) loads; any other extension succeeds without loading anything |
| DomainProfileCollections.DomainProfileCollection.LoadFromFiles | Source/Namecheap/NamecheapDomainProfileCollection.cpp:360-379 | every path is tried in order, and the count returned is the number of files that loaded |
| DomainProfileCollections.DomainProfileCollection.SaveToJson | Source/Namecheap/NamecheapDomainProfileCollection.cpp:458-479 | an existing file is refused unless overwrite is set, and so is a file that cannot be opened; otherwise the collection's JSON is written |
| DomainProfileCollections.DomainProfileCollection.SaveTo | Source/Namecheap/NamecheapDomainProfileCollection.cpp:441-456 | only a path with a JSON extension is written, under the saveToJSON rules |
| SettingsManagers.ToInt64 | Source/Application/SettingsManager.cpp:116-131 | an unsigned 64-bit count stored in a signed 64-bit duration: the same value modulo 2^64, within the signed range, and unchanged below 2^63 |
| SettingsManagers.InsertETagsSpec | Source/Application/SettingsManager.cpp:331-337 | the emplace loop only inserts: held tags keep their value, new names get the value of their first occurrence, and nothing is removed |
| SettingsManagers.ParseSettings | Source/Application/SettingsManager.cpp:237-275 | success exactly when the document is an object whose markers pass; a failure changes no setting |
| SettingsManagers.ParseSettingsAccepts | Source/Application/SettingsManager.cpp:285-339 | once the markers pass, parseFrom applies the top-level, curl, download-throttling and file-tag steps in order |
| SettingsManagers.ParseKeepsETags | Source/Application/SettingsManager.cpp:331-337 | parseFrom never replaces or removes a file tag already held |
| SettingsManagers.ParseToleratesUnknownKeys | Source/Application/SettingsManager.cpp:237-339 | an object carrying none of the known keys parses successfully and changes nothing |
| SettingsManagers.ThrottlingJsonMembers | Source/Application/SettingsManager.cpp:204-222 | `enabled` and both frequencies are always written; each last-downloaded time is written exactly when it is present |
| SettingsManagers.ETagsReadBack | Source/Application/SettingsManager.cpp:224-232 | the file tags written in key order, read back into a map that already holds tags, give the written tags under the held ones |
| SettingsManagers.ToJsonThenParse | Source/Application/SettingsManager.cpp:167-340 | toJSON then parseFrom onto any settings restores every written field, given non-negative durations below 2^63 and a time format that parses back; an absent timestamp keeps the old value; held file tags win |
| SettingsManagers.SaveThenLoadOntoDefaults | Source/Application/SettingsManager.cpp:167-340 | settings saved from any state, parsed onto the defaults, give back exactly those settings, under the same conditions |
| SettingsManagers.SaveSettings | Source/Application/SettingsManager.cpp:416-439 | a file is written exactly when overwrite is set or the file does not exist, and it can be opened; what is written is toJSON, at the path given |
| SettingsManagers.LoadSettings | Source/Application/SettingsManager.cpp:372-414 | the loaded flag becomes true only on success; a failure changes no setting; success needs a readable JSON document; a file is written only for a missing path with autoCreate, and then at that path |
| SettingsManagers.ChosenPath | Source/Application/SettingsManager.cpp:346-362 | without arguments the current path; a non-empty first value of `f` wins, then of `file`; otherwise the current path |
| Text.SortedKeysSpec | Source/Application/SettingsManager.cpp:226-230 | the keys of the file-tag map are listed once each, in ascending order, as a std::map iterates them |
| SettingsManagers.SettingsManager.constructor | Source/Application/SettingsManager.cpp:133-146 | every setting holds its default value; not loaded; the default settings file path |
| SettingsManagers.SettingsManager.Reset | Source/Application/SettingsManager.cpp:150-165 | every setting returns to its default value, clearing both timestamps and the file tags; loaded flag and path unchanged |
| SettingsManagers.SettingsManager.ThrottlingMembers | Source/Application/SettingsManager.cpp:204-222 | builds exactly the throttling category the toJSON specification describes |
| SettingsManagers.SettingsManager.ETagsMembers | Source/Application/SettingsManager.cpp:224-232 | the loop over the map writes one string member per file tag, in ascending key order |
| SettingsManagers.SettingsManager.ToJson | Source/Application/SettingsManager.cpp:167-235 | the document is the settings' JSON, whose properties ToJsonThenParse and ThrottlingJsonMembers state |
| SettingsManagers.SettingsManager.ParseDirectories | Source/Application/SettingsManager.cpp:285-297 | the data directory path, the downloads directory and the time-zone directory name each change only when present as a string |
| SettingsManagers.SettingsManager.ParseCurl | Source/Application/SettingsManager.cpp:299-319 | the curl directory name (string), the three timeouts (unsigned 64-bit) and verbose logging (boolean) each change only when present with that type |
| SettingsManagers.SettingsManager.ParseDownloadThrottling | Source/Application/SettingsManager.cpp:321-329 | the enabled flag and the frequencies change only when present with their type; a present string time replaces the timestamp with its parse, absent when the parse fails |
| SettingsManagers.SettingsManager.ParseFileETags | Source/Application/SettingsManager.cpp:331-337 | the emplace loop inserts the document's tags without replacing held ones |
| SettingsManagers.SettingsManager.ParseFields | Source/Application/SettingsManager.cpp:285-337 | the assignments after the marker checks give exactly the category steps' result |
| SettingsManagers.SettingsManager.ParseFrom | Source/Application/SettingsManager.cpp:237-340 | result and new settings are the parse specification's: marker failures change nothing, and success applies every present, well-typed setting |
| SettingsManagers.SettingsManager.SaveTo | Source/Application/SettingsManager.cpp:416-439 | writes toJSON to the path given, exactly when overwrite or a new file, and it can be opened |
| SettingsManagers.SettingsManager.Save | Source/Application/SettingsManager.cpp:364-370 | saveTo on the current settings file path: any file written goes to that path |
| SettingsManagers.SettingsManager.LoadFrom | Source/Application/SettingsManager.cpp:372-414 | result, settings, loaded flag and auto-created file are those LoadSettings describes |
| SettingsManagers.SettingsManager.Load | Source/Application/SettingsManager.cpp:346-362 | the path becomes the chosen alternate path, if any, and then loadFrom runs on it |
| DynamicDns.SetIPAddressForHost | Source/Namecheap/NamecheapDynamicDNSService.cpp:35-68 | an empty argument or an uninitialised service sends nothing; otherwise exactly the update request, with host, domain, password and ip in that order; success exactly when the response is present, not a failure, and no failure status |
| DynamicDns.SetIPAddress | Source/Namecheap/NamecheapDynamicDNSService.cpp:70-84 | the requests are the single-host requests of each host in order, with no short-circuit; success exactly when the list is non-empty and every single-host update succeeded |
| DynamicDns.UpdateIPAddress | Source/Namecheap/NamecheapDynamicDNSService.cpp:24-33 | an empty discovered address fails without sending anything; otherwise the multi-host update with that address |
| DynamicDns.UpdateIPAddressForHost | Source/Namecheap/NamecheapDynamicDNSService.cpp:20-22 | as written, the call is to itself with the same arguments: at every stack depth it never returns a result and sends no request |
| DynamicDns.UpdateIPAddressForHostCorrected | Source/Namecheap/NamecheapDynamicDNSService.cpp:20-22 | as intended, a one-element multi-host update: the same requests and result as the single-host setIPAddress with the discovered address |
| DynamicDns.IntendedUpdateSends | Source/Namecheap/NamecheapDynamicDNSService.cpp:20-22 | with an initialised service and every argument present, the intended single-host update sends exactly one update request |
| DynamicDns.Issued | Source/Namecheap/NamecheapDynamicDNSService.cpp:77-81 | at most one request per host |
| DynamicDns.OneHost | Source/Namecheap/NamecheapDynamicDNSService.cpp:20-22 | the multi-host update of a one-element list is the single-host update |
| DynamicDns.EveryHostAttempted | Source/Namecheap/NamecheapDynamicDNSService.cpp:77-81 | with well-formed arguments and an initialised service, exactly one update request goes out per host, in the hosts' order, whatever the responses |
| DynamicDns.UninitializedSendsNothing | Source/Namecheap/NamecheapDynamicDNSService.cpp:43-46 | an uninitialised HTTP service sends nothing and a non-empty update fails |
| DynamicDns.RequestsIndependentOfResponses | Source/Namecheap/NamecheapDynamicDNSService.cpp:75-83 | the requests sent do not depend on the responses: failures never stop later hosts |
| DynamicDns.EmptyHostFails | Source/Namecheap/NamecheapDynamicDNSService.cpp:36-39 | a list holding an empty host name never succeeds as a whole |
| ProfileManagers.ProfilePaths | Source/Namecheap/NamecheapDomainProfileManager.cpp:25-39 | paths given with `p`/`profile` replace the configured ones; with none given, or without arguments, the configured paths |
| ProfileManagers.MergedProfilesValid | Source/Namecheap/NamecheapDomainProfileManager.cpp:32-38 | merging the files into a fresh collection yields a collection satisfying the invariant |
| ProfileManagers.NothingLoadedMeansEmpty | Source/Namecheap/NamecheapDomainProfileManager.cpp:46-49 | when no file loaded, the merged collection is empty |
| ProfileManagers.ProfileManager.constructor | Source/Namecheap/NamecheapDomainProfileManager.cpp:7 | not initialised and holding no collection |
| ProfileManagers.ProfileManager.Initialize | Source/Namecheap/NamecheapDomainProfileManager.cpp:15-56 | already initialised: true and nothing loaded. Otherwise the chosen paths are merged into a fresh collection; it fails with the field unchanged when that is empty, else the field holds it, valid. The flag never changes |

## Findings

| source | as written | input that shows it | evidently intended | confidence | as-written member | corrected member |
|---|---|---|---|---|---|---|
| Source/Namecheap/NamecheapDynamicDNSService.cpp:20-22 | `updateIPAddress({ host }, domain, password)` with `host` a `std::string_view` resolves to the same `string_view` overload, because `std::string` has only an explicit constructor from a `string_view` and so `{ host }` cannot become a vector of strings; the function calls itself forever | any call, e.g. host "www", domain "example.com", password "secret", with an initialised service and an address available: no address lookup, no request, no return | delegate to the multi-host overload with a one-element list of hosts | high, by reading the overload rules; not executed | DynamicDns.UpdateIPAddressForHost | DynamicDns.UpdateIPAddressForHostCorrected |

## Left out

- File system and streams: file existence, regularity, reading, JSON syntax errors and writing are inputs (a map from path to content, and flags for "exists" and "can be opened"). The pretty-printed text, with its tab indentation, is not modelled; the document written is.
- The rapidjson DOM: the model uses an abstract JSON datatype. A number is an integer; floating-point numbers are not modelled.
- Utilities::trimString, areStringsEqualIgnoreCase and getFileExtension are not part of this model. They are defined in `Text` as ASCII whitespace trimming, ASCII case folding, and the text after the last dot of the last path component.
- Logging: spdlog output and the log level are left out. parseFrom's log-level step is not modelled; toJSON takes the level's name as a parameter.
- Time: the ISO-8601 conversions are function parameters. The refresh decision comparing the current time with the last download does not appear in this code and is not modelled.
- Arguments: the argument parser and ArgumentCollection are not part of this model. getValues with two names is read as the values of the short name followed by those of the long name.
- HTTP and IP discovery: HTTPService, its requests and responses, and IPAddressService are inputs. The URL is kept as base URL plus path; Utilities::joinPaths is not modelled. Status-code names in log messages are left out.
- The collection's pointer-identity overloads are left out: hasDomainProfile(profile), indexOfDomainProfile(profile) and removeDomainProfile(profile). They compare object addresses, which values do not have. getDomainProfiles and getDomains only expose the vector and its domains.
- The collection's addDomainProfiles overloads over a vector of values and a vector of raw pointers are left out. They are the shared-pointer overload without null entries, which AddDomainProfiles covers with entries that are all present.
- The single-profile addDomainProfile overloads by reference and by shared pointer behave alike and are one method here.
- Copy and move constructors and assignment operators, destructors, singletons, and the atomic flags are left out. Nothing here is concurrent.
- The application bootstrap and entry point are not part of this model.
- `domainProfileFilePaths`, read from the settings by initialize, is not declared by the settings manager. The configured paths are a parameter of ProfileManagers.ProfileManager.Initialize.
- parseFromList is declared as a static member but defined as a free function; it is modelled as a free function.
- SettingsManagers.SettingsManager.ParseFrom: requires every member of a `fileETags` object to be a string (ETagsWellTyped). The source reads those values without a type check.
- SettingsManagers.ParseSettings: requires every member of a `fileETags` object to be a string (ETagsWellTyped or AllStrings), as SettingsManagers.SettingsManager.ParseFrom does. The source reads those values without a type check, and reading a non-string that way is undefined.
- SettingsManagers.ParseSettingsAccepts: requires every member of a `fileETags` object to be a string (ETagsWellTyped or AllStrings), as SettingsManagers.SettingsManager.ParseFrom does. The source reads those values without a type check, and reading a non-string that way is undefined.
- SettingsManagers.ParseKeepsETags: requires every member of a `fileETags` object to be a string (ETagsWellTyped or AllStrings), as SettingsManagers.SettingsManager.ParseFrom does. The source reads those values without a type check, and reading a non-string that way is undefined.
- SettingsManagers.LoadSettings: requires every member of a `fileETags` object to be a string (ETagsWellTyped or AllStrings), as SettingsManagers.SettingsManager.ParseFrom does. The source reads those values without a type check, and reading a non-string that way is undefined.
- SettingsManagers.SettingsManager.ParseFileETags: requires every member of a `fileETags` object to be a string (ETagsWellTyped or AllStrings), as SettingsManagers.SettingsManager.ParseFrom does. The source reads those values without a type check, and reading a non-string that way is undefined.
- SettingsManagers.SettingsManager.ParseFields: requires every member of a `fileETags` object to be a string (ETagsWellTyped or AllStrings), as SettingsManagers.SettingsManager.ParseFrom does. The source reads those values without a type check, and reading a non-string that way is undefined.
- SettingsManagers.SettingsManager.LoadFrom: requires every member of a `fileETags` object to be a string (ETagsWellTyped or AllStrings), as SettingsManagers.SettingsManager.ParseFrom does. The source reads those values without a type check, and reading a non-string that way is undefined.
- SettingsManagers.SettingsManager.Load: requires every member of a `fileETags` object to be a string (ETagsWellTyped or AllStrings), as SettingsManagers.SettingsManager.ParseFrom does. The source reads those values without a type check, and reading a non-string that way is undefined.
- DomainProfileCollections.DomainProfileCollection.GetDomainProfileWithID: its link to hasDomainProfile is stated only for collections shorter than the maximum size_t. A vector of shared pointers cannot hold that many entries.
- DomainProfileCollections.DomainProfileCollection.RemoveDomainProfileWithID: its success condition is stated only for collections shorter than the maximum size_t, for the same reason.
- SettingsManagers.SettingsManager.ParseCurl: each timeout is read by the same rule as the assign helpers. A constant, non-empty property name makes the inline checks identical to that rule.
- SettingsManagers.ToJsonThenParse: a duration count of 2^63 or more, or a negative one, is written as a signed number that does not read back as the same count. The lemma requires counts within range.
- SettingsManagers.SaveThenLoadOntoDefaults: requires every duration count to be below 2^63 and non-negative (Readable), as SettingsManagers.ToJsonThenParse does. A count outside that range is written as a signed number that does not read back as the same count.
- DynamicDns.UpdateIPAddressForHost: the unbounded self-call is modelled with an explicit bound on the call stack's remaining depth. The contract says that no depth lets the call return, not that a real stack overflows.
- SettingsManagers.ToInt64: assumes every chrono duration here counts in a signed 64-bit integer. The standard only requires at least 29 bits for `std::chrono::minutes`. Where the two frequencies use a 32-bit count, as some standard libraries on Windows do, a large value wraps modulo 2^32 instead, and that is not modelled.
- ProfileManagers.ProfileManager.constructor: assumes the `std::atomic<bool>` initialised flag starts false, which holds from C++20 on, where the atomic's default constructor value-initialises it. Before C++20 the flag is left indeterminate, and `initialize` could return true without loading anything; that is not modelled.
- Strings read from JSON are copied through a C string, which ends at an embedded NUL character. The model keeps the whole string, so a value containing `\u0000` is not cut short here.
