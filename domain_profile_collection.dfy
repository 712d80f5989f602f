/**
 * The ordered collection of domain profiles. Its invariant: every entry is
 * valid and no two entries have domains that are equal ignoring case. The
 * specification functions below work on the vector's contents; the class
 * keeps the vector as a field and its methods are proved against them.
 */
module DomainProfileCollections {
  import opened Options
  import opened Text
  import opened Json
  import opened DomainProfiles

  const FILE_TYPE := "Namecheap Domain Profile"
  const FILE_FORMAT_VERSION: nat := 1
  const PROFILE_PROPERTY := "profile"
  const PROFILES_PROPERTY := "profiles"
  const JSON_EXTENSION := "json"

  // ---------------------------------------------------------------------
  // Lookup and the invariant

  /** Position of the first profile whose domain equals domain ignoring case, or |profiles|. */
  function FindDomain(profiles: seq<DomainProfile>, domain: string): (i: nat)
    ensures i <= |profiles|
    ensures i < |profiles| ==> EqualsIgnoreCase(domain, profiles[i].domain)
    ensures forall k :: 0 <= k < i ==> !EqualsIgnoreCase(domain, profiles[k].domain)
  {
    if profiles == [] then 0
    else if EqualsIgnoreCase(domain, profiles[0].domain) then 0
    else 1 + FindDomain(profiles[1..], domain)
  }

  /** indexOfDomainProfile(domain): NPOS for an empty domain, otherwise the first match ignoring case, or NPOS. */
  function IndexOfDomain(profiles: seq<DomainProfile>, domain: string): (r: nat)
    ensures domain == "" ==> r == NPOS
    ensures domain != "" && (exists k :: 0 <= k < |profiles| && EqualsIgnoreCase(domain, profiles[k].domain)) ==>
              r < |profiles| && EqualsIgnoreCase(domain, profiles[r].domain) &&
              forall k :: 0 <= k < r ==> !EqualsIgnoreCase(domain, profiles[k].domain)
    ensures (forall k :: 0 <= k < |profiles| ==> !EqualsIgnoreCase(domain, profiles[k].domain)) ==> r == NPOS
  {
    if domain == "" then NPOS
    else
      var i := FindDomain(profiles, domain);
      if i < |profiles| then i else NPOS
  }

  /**
   * hasDomainProfile(domain) compares the index with NPOS; a vector of
   * shared pointers never holds NPOS entries, so that is a match being found.
   */
  predicate HasDomain(profiles: seq<DomainProfile>, domain: string) {
    domain != "" && FindDomain(profiles, domain) < |profiles|
  }

  lemma HasDomainIff(profiles: seq<DomainProfile>, domain: string)
    ensures HasDomain(profiles, domain) <==>
              domain != "" && exists k :: 0 <= k < |profiles| && EqualsIgnoreCase(domain, profiles[k].domain)
  {
    if domain != "" && exists k :: 0 <= k < |profiles| && EqualsIgnoreCase(domain, profiles[k].domain) {
      var k :| 0 <= k < |profiles| && EqualsIgnoreCase(domain, profiles[k].domain);
      assert FindDomain(profiles, domain) <= k;
    }
  }

  predicate AllValid(profiles: seq<DomainProfile>) {
    forall i :: 0 <= i < |profiles| ==> IsValid(profiles[i])
  }

  predicate NoDuplicateDomains(profiles: seq<DomainProfile>) {
    forall i, j :: 0 <= i < j < |profiles| ==> !EqualsIgnoreCase(profiles[i].domain, profiles[j].domain)
  }

  /** The collection invariant, which isValid() checks. */
  predicate CollectionValid(profiles: seq<DomainProfile>) {
    AllValid(profiles) && NoDuplicateDomains(profiles)
  }

  /** isValid(): every entry valid, then a pairwise scan for domains equal ignoring case. */
  method ValidateProfiles(profiles: seq<DomainProfile>) returns (valid: bool)
    ensures valid == CollectionValid(profiles)
  {
    for i := 0 to |profiles|
      invariant forall k :: 0 <= k < i ==> IsValid(profiles[k])
      invariant forall a, b :: 0 <= a < i && a < b < |profiles| ==> !EqualsIgnoreCase(profiles[a].domain, profiles[b].domain)
    {
      var entryValid := CheckValid(profiles[i]);
      if !entryValid {
        return false;
      }
      for j := i + 1 to |profiles|
        invariant forall b :: i < b < j ==> !EqualsIgnoreCase(profiles[i].domain, profiles[b].domain)
      {
        if EqualsIgnoreCase(profiles[i].domain, profiles[j].domain) {
          return false;
        }
      }
    }
    return true;
  }

  // ---------------------------------------------------------------------
  // Adding and removing, on the vector's contents

  /** addDomainProfile: refused for an invalid profile or a domain already present, else appended. */
  function Add(profiles: seq<DomainProfile>, p: DomainProfile): (bool, seq<DomainProfile>) {
    if !IsValid(p) || HasDomain(profiles, p.domain) then (false, profiles)
    else (true, profiles + [p])
  }

  lemma AddSpec(profiles: seq<DomainProfile>, p: DomainProfile)
    ensures Add(profiles, p).0 <==>
              IsValid(p) && forall k :: 0 <= k < |profiles| ==> !EqualsIgnoreCase(p.domain, profiles[k].domain)
    ensures Add(profiles, p).1 == if Add(profiles, p).0 then profiles + [p] else profiles
    ensures CollectionValid(profiles) ==> CollectionValid(Add(profiles, p).1)
  {
    HasDomainIff(profiles, p.domain);
    var r := Add(profiles, p).1;
    if Add(profiles, p).0 && CollectionValid(profiles) {
      forall i, j | 0 <= i < j < |r|
        ensures !EqualsIgnoreCase(r[i].domain, r[j].domain)
      {
        if j == |profiles| {
          assert !EqualsIgnoreCase(p.domain, profiles[i].domain);
        }
      }
    }
  }

  /** addDomainProfiles: null entries are skipped, each other entry added in order; the count of successes. */
  function AddAll(profiles: seq<DomainProfile>, list: seq<Option<DomainProfile>>): (r: (nat, seq<DomainProfile>))
    ensures r.0 <= |list|
    ensures |r.1| == |profiles| + r.0 && r.1[..|profiles|] == profiles
  {
    if list == [] then (0, profiles)
    else
      var (count, current) := AddAll(profiles, list[..|list| - 1]);
      var last := list[|list| - 1];
      if last.None? then (count, current)
      else
        var (added, next) := Add(current, last.value);
        (if added then count + 1 else count, next)
  }

  lemma {:induction false} AddAllPreservesValid(profiles: seq<DomainProfile>, list: seq<Option<DomainProfile>>)
    requires CollectionValid(profiles)
    ensures CollectionValid(AddAll(profiles, list).1)
  {
    if list != [] {
      AddAllPreservesValid(profiles, list[..|list| - 1]);
      var current := AddAll(profiles, list[..|list| - 1]).1;
      if list[|list| - 1].Some? {
        AddSpec(current, list[|list| - 1].value);
      }
    }
  }

  /** removeDomainProfile(index): refused out of range, else exactly that entry is erased. */
  function RemoveAt(profiles: seq<DomainProfile>, index: nat): (bool, seq<DomainProfile>) {
    if index >= |profiles| then (false, profiles)
    else (true, profiles[..index] + profiles[index + 1..])
  }

  lemma RemovePreservesValid(profiles: seq<DomainProfile>, index: nat)
    requires CollectionValid(profiles)
    ensures CollectionValid(RemoveAt(profiles, index).1)
  {
    var r := RemoveAt(profiles, index).1;
    if index < |profiles| {
      assert forall k :: 0 <= k < |r| ==> r[k] == profiles[if k < index then k else k + 1];
    }
  }

  /** The entries that stay keep their relative order. */
  lemma RemoveKeepsOrder(profiles: seq<DomainProfile>, index: nat)
    requires index < |profiles|
    ensures var r := RemoveAt(profiles, index).1;
      |r| == |profiles| - 1 &&
      (forall k :: 0 <= k < index ==> r[k] == profiles[k]) &&
      (forall k :: index <= k < |r| ==> r[k] == profiles[k + 1])
  {
  }

  // ---------------------------------------------------------------------
  // The file format

  /** The "profiles" array: each element parsed, checked valid and added; any failure rejects it all. */
  function ParseProfiles(items: seq<JSON>): Option<seq<DomainProfile>> {
    if items == [] then Some([])
    else
      var init :- ParseProfiles(items[..|items| - 1]);
      var p := ParseProfile(items[|items| - 1]);
      if !IsValidPointer(p) then None
      else
        var (added, next) := Add(init, p.value);
        if added then Some(next) else None
  }

  /** One more element of the array: the fold takes one step of Add on the parse so far. */
  lemma ParseProfilesStep(items: seq<JSON>, i: nat)
    requires i < |items|
    ensures ParseProfiles(items[..i + 1]) ==
              if ParseProfiles(items[..i]).None? || !IsValidPointer(ParseProfile(items[i])) then None
              else if Add(ParseProfiles(items[..i]).value, ParseProfile(items[i]).value).0
              then Some(Add(ParseProfiles(items[..i]).value, ParseProfile(items[i]).value).1)
              else None
  {
    assert items[..i + 1][..i] == items[..i];
  }

  /** Once a prefix of the array is rejected, the whole array is. */
  lemma {:induction false} ParseProfilesNoneExtends(items: seq<JSON>, i: nat)
    requires i <= |items| && ParseProfiles(items[..i]).None?
    ensures ParseProfiles(items).None?
  {
    if i < |items| {
      var init := items[..|items| - 1];
      assert init[..i] == items[..i];
      ParseProfilesNoneExtends(init, i);
    } else {
      assert items[..i] == items;
    }
  }

  /**
   * ParseProfiles, stated without the loop: it succeeds exactly when every
   * element parses to a valid profile and no two of them share a domain
   * ignoring case, and then it holds those profiles in order.
   */
  lemma {:induction false} ParseProfilesSpec(items: seq<JSON>)
    ensures ParseProfiles(items) ==
              if ParseAll(items).Some? && CollectionValid(ParseAll(items).value) then ParseAll(items) else None
  {
    if items != [] {
      var init := items[..|items| - 1];
      ParseProfilesSpec(init);
      var all := ParseAll(items);
      var p := ParseProfile(items[|items| - 1]);
      if ParseAll(init).Some? && p.Some? {
        var ps := ParseAll(init).value;
        assert all == Some(ps + [p.value]);
        assert (ps + [p.value])[..|ps|] == ps;
        AddSpec(ps, p.value);
        if CollectionValid(ps + [p.value]) {
          assert CollectionValid(ps);
          HasDomainIff(ps, p.value.domain);
          forall k | 0 <= k < |ps| ensures !EqualsIgnoreCase(p.value.domain, ps[k].domain) {
            assert !EqualsIgnoreCase((ps + [p.value])[k].domain, (ps + [p.value])[|ps|].domain);
          }
        }
      } else if ParseAll(init).None? {
        assert all.None?;
      }
    }
  }

  /**
   * parseFrom: markers first, then a "profile" object, which wins over a
   * "profiles" array; all or nothing.
   */
  function ParseCollection(value: JSON): Option<seq<DomainProfile>> {
    if !value.JObj? then None
    else if !FileMarkersOk(value, FILE_TYPE, FILE_FORMAT_VERSION) then None
    else if HasMember(value, PROFILE_PROPERTY) then
      var p := ParseProfile(Member(value, PROFILE_PROPERTY));
      if !IsValidPointer(p) then None
      else
        var (added, next) := Add([], p.value);
        if added then Some(next) else None
    else if HasMember(value, PROFILES_PROPERTY) then
      var profilesValue := Member(value, PROFILES_PROPERTY);
      if !profilesValue.JArr? || profilesValue.items == [] then None
      else ParseProfiles(profilesValue.items)
    else
      None
  }

  /** The inputs parseFrom rejects, and what it yields otherwise. */
  lemma ParseCollectionSpec(value: JSON)
    ensures !value.JObj? ==> ParseCollection(value).None?
    ensures value.JObj? && !FileMarkersOk(value, FILE_TYPE, FILE_FORMAT_VERSION) ==> ParseCollection(value).None?
    ensures value.JObj? && !HasMember(value, PROFILE_PROPERTY) && !HasMember(value, PROFILES_PROPERTY) ==> ParseCollection(value).None?
    ensures !HasMember(value, PROFILE_PROPERTY) && HasMember(value, PROFILES_PROPERTY) ==>
              var profilesValue := Member(value, PROFILES_PROPERTY);
              (!profilesValue.JArr? || profilesValue.items == []) ==> ParseCollection(value).None?
    ensures HasMember(value, PROFILE_PROPERTY) && ParseCollection(value).Some? ==>
              ParseCollection(value) == Some([ParseProfile(Member(value, PROFILE_PROPERTY)).value])
    ensures !HasMember(value, PROFILE_PROPERTY) && ParseCollection(value).Some? ==>
              ParseCollection(value) == ParseAll(Member(value, PROFILES_PROPERTY).items)
    ensures ParseCollection(value).Some? ==> ParseCollection(value).value != []
    ensures ParseCollection(value).Some? ==> CollectionValid(ParseCollection(value).value)
  {
    if value.JObj? && FileMarkersOk(value, FILE_TYPE, FILE_FORMAT_VERSION) {
      if HasMember(value, PROFILE_PROPERTY) {
        var p := ParseProfile(Member(value, PROFILE_PROPERTY));
        if IsValidPointer(p) {
          AddSpec([], p.value);
          assert [] + [p.value] == [p.value];
        }
      } else if HasMember(value, PROFILES_PROPERTY) {
        var profilesValue := Member(value, PROFILES_PROPERTY);
        if profilesValue.JArr? && profilesValue.items != [] {
          ParseProfilesSpec(profilesValue.items);
        }
      }
    }
  }

  function ProfilesJson(profiles: seq<DomainProfile>): seq<JSON> {
    seq(|profiles|, i requires 0 <= i < |profiles| => ProfileToJson(profiles[i]))
  }

  /** toJSON: the two markers, then "profile" for exactly one entry and a "profiles" array otherwise. */
  function CollectionToJson(profiles: seq<DomainProfile>): JSON {
    JObj([(FILE_TYPE_PROPERTY, JStr(FILE_TYPE)), (FILE_FORMAT_VERSION_PROPERTY, JNum(FILE_FORMAT_VERSION))] +
         if |profiles| == 1 then [(PROFILE_PROPERTY, ProfileToJson(profiles[0]))]
         else [(PROFILES_PROPERTY, JArr(ProfilesJson(profiles)))])
  }

  /** A valid collection without its last entry is valid, and the last entry's domain is new to it. */
  lemma ValidLast(profiles: seq<DomainProfile>)
    requires CollectionValid(profiles) && profiles != []
    ensures var n := |profiles| - 1;
      && CollectionValid(profiles[..n])
      && IsValid(profiles[n])
      && forall k :: 0 <= k < n ==> !EqualsIgnoreCase(profiles[n].domain, profiles[..n][k].domain)
  {
    var n := |profiles| - 1;
    forall k | 0 <= k < n
      ensures !EqualsIgnoreCase(profiles[n].domain, profiles[..n][k].domain)
    {
      assert !EqualsIgnoreCase(profiles[k].domain, profiles[n].domain);
    }
  }

  lemma {:induction false} ProfilesRoundTrip(profiles: seq<DomainProfile>)
    requires CollectionValid(profiles)
    requires forall i :: 0 <= i < |profiles| ==> IsTrimmed(profiles[i])
    ensures ParseProfiles(ProfilesJson(profiles)) == Some(profiles)
  {
    if profiles != [] {
      var n := |profiles| - 1;
      var init := profiles[..n];
      var items := ProfilesJson(profiles);
      assert items[..n] == ProfilesJson(init);
      assert items[..n + 1] == items;
      ValidLast(profiles);
      ProfilesRoundTrip(init);
      ToJsonRoundTrip(profiles[n]);
      assert ParseProfile(items[n]) == Some(profiles[n]);
      AddSpec(init, profiles[n]);
      assert init + [profiles[n]] == profiles;
      ParseProfilesStep(items, n);
    }
  }

  /** A valid, non-empty collection of trimmed profiles survives toJSON then parseFrom. */
  lemma CollectionRoundTrip(profiles: seq<DomainProfile>)
    requires CollectionValid(profiles) && profiles != []
    requires forall i :: 0 <= i < |profiles| ==> IsTrimmed(profiles[i])
    ensures ParseCollection(CollectionToJson(profiles)) == Some(profiles)
  {
    var value := CollectionToJson(profiles);
    var markers := [(FILE_TYPE_PROPERTY, JStr(FILE_TYPE)), (FILE_FORMAT_VERSION_PROPERTY, JNum(FILE_FORMAT_VERSION))];
    var rest := if |profiles| == 1 then [(PROFILE_PROPERTY, ProfileToJson(profiles[0]))]
                else [(PROFILES_PROPERTY, JArr(ProfilesJson(profiles)))];
    assert value.members == markers + rest;
    LookupAbsent(rest, FILE_TYPE_PROPERTY);
    LookupAbsent(rest, FILE_FORMAT_VERSION_PROPERTY);
    LookupAppend(markers, rest, FILE_TYPE_PROPERTY);
    LookupAppend(markers, rest, FILE_FORMAT_VERSION_PROPERTY);
    LookupAbsent(markers, PROFILE_PROPERTY);
    LookupAbsent(markers, PROFILES_PROPERTY);
    LookupAppend(markers, rest, PROFILE_PROPERTY);
    LookupAppend(markers, rest, PROFILES_PROPERTY);
    assert FileMarkersOk(value, FILE_TYPE, FILE_FORMAT_VERSION);
    if |profiles| == 1 {
      ToJsonRoundTrip(profiles[0]);
      AddSpec([], profiles[0]);
      assert [] + [profiles[0]] == profiles;
    } else {
      LookupAbsent(rest, PROFILE_PROPERTY);
      ProfilesRoundTrip(profiles);
    }
  }

  /** An empty collection is written as an empty "profiles" array, which parseFrom refuses. */
  lemma EmptyCollectionDoesNotRoundTrip()
    ensures ParseCollection(CollectionToJson([])).None?
  {
    var value := CollectionToJson([]);
    var markers := [(FILE_TYPE_PROPERTY, JStr(FILE_TYPE)), (FILE_FORMAT_VERSION_PROPERTY, JNum(FILE_FORMAT_VERSION))];
    var rest := [(PROFILES_PROPERTY, JArr([]))];
    assert ProfilesJson([]) == [];
    assert value.members == markers + rest;
    LookupAbsent(markers, PROFILE_PROPERTY);
    LookupAbsent(markers, PROFILES_PROPERTY);
    LookupAbsent(rest, PROFILE_PROPERTY);
    LookupAppend(markers, rest, PROFILE_PROPERTY);
    LookupAppend(markers, rest, PROFILES_PROPERTY);
  }

  // ---------------------------------------------------------------------
  // Loading and saving, with the file system as an input

  /**
   * loadFromJSON: the file must be a regular, readable file; a document that
   * is not well-formed JSON reads as null. Merge mode adds the parsed
   * profiles one by one and fails only when none was added; replace mode
   * swaps the vector wholesale.
   */
  function LoadJson(profiles: seq<DomainProfile>, path: string, files: FileSystem, merge: bool): (bool, seq<DomainProfile>) {
    if path == "" || path !in files || files[path].Unreadable? then (false, profiles)
    else
      var document := if files[path].Malformed? then JNull else files[path].json;
      var parsed := ParseCollection(document);
      if parsed.None? || !CollectionValid(parsed.value) then (false, profiles)
      else if merge then
        var (count, merged) := AddAll(profiles, seq(|parsed.value|, i requires 0 <= i < |parsed.value| => Some(parsed.value[i])));
        (count != 0, merged)
      else
        (true, parsed.value)
  }

  /** loadFrom(path): a path without extension fails; a non-JSON extension succeeds without loading anything. */
  function Load(profiles: seq<DomainProfile>, path: string, files: FileSystem, merge: bool): (bool, seq<DomainProfile>) {
    if path == "" then (false, profiles)
    else
      var extension := FileExtension(path);
      if extension == "" then (false, profiles)
      else if EqualsIgnoreCase(extension, JSON_EXTENSION) then LoadJson(profiles, path, files, merge)
      else (true, profiles)
  }

  /** loadFrom(paths): every path is tried in order; the count of paths that loaded. */
  function LoadAll(profiles: seq<DomainProfile>, paths: seq<string>, files: FileSystem, merge: bool): (r: (nat, seq<DomainProfile>))
    ensures r.0 <= |paths|
  {
    if paths == [] then (0, profiles)
    else
      var (count, current) := LoadAll(profiles, paths[..|paths| - 1], files, merge);
      var (ok, next) := Load(current, paths[|paths| - 1], files, merge);
      (if ok then count + 1 else count, next)
  }

  /** Loading keeps the invariant, in either mode. */
  lemma LoadPreservesValid(profiles: seq<DomainProfile>, path: string, files: FileSystem, merge: bool)
    requires CollectionValid(profiles)
    ensures CollectionValid(Load(profiles, path, files, merge).1)
  {
    if path != "" && path in files && !files[path].Unreadable? {
      var document := if files[path].Malformed? then JNull else files[path].json;
      var parsed := ParseCollection(document);
      if parsed.Some? && merge {
        AddAllPreservesValid(profiles, seq(|parsed.value|, i requires 0 <= i < |parsed.value| => Some(parsed.value[i])));
      }
    }
  }

  lemma {:induction false} LoadAllPreservesValid(profiles: seq<DomainProfile>, paths: seq<string>, files: FileSystem, merge: bool)
    requires CollectionValid(profiles)
    ensures CollectionValid(LoadAll(profiles, paths, files, merge).1)
  {
    if paths != [] {
      LoadAllPreservesValid(profiles, paths[..|paths| - 1], files, merge);
      LoadPreservesValid(LoadAll(profiles, paths[..|paths| - 1], files, merge).1, paths[|paths| - 1], files, merge);
    }
  }

  /**
   * In merge mode nothing is ever removed: the old entries stay a prefix.
   * A merge that reports failure changed nothing.
   */
  lemma MergeOnlyAppends(profiles: seq<DomainProfile>, path: string, files: FileSystem)
    ensures var (ok, next) := Load(profiles, path, files, true);
      |profiles| <= |next| && next[..|profiles|] == profiles && (!ok ==> next == profiles)
  {
  }

  lemma {:induction false} MergeAllOnlyAppends(profiles: seq<DomainProfile>, paths: seq<string>, files: FileSystem)
    ensures var next := LoadAll(profiles, paths, files, true).1;
      |profiles| <= |next| && next[..|profiles|] == profiles
  {
    if paths != [] {
      var current := LoadAll(profiles, paths[..|paths| - 1], files, true).1;
      MergeAllOnlyAppends(profiles, paths[..|paths| - 1], files);
      MergeOnlyAppends(current, paths[|paths| - 1], files);
      var next := LoadAll(profiles, paths, files, true).1;
      assert next[..|current|] == current;
      assert next[..|profiles|] == next[..|current|][..|profiles|];
    }
  }

  /** A merged file whose only profile duplicates a loaded domain fails and changes nothing. */
  lemma DuplicateMergeFails(profiles: seq<DomainProfile>, path: string, files: FileSystem, k: nat)
    requires path in files && files[path].Document? && path != ""
    requires ParseCollection(files[path].json).Some? && |ParseCollection(files[path].json).value| == 1
    requires k < |profiles| && EqualsIgnoreCase(ParseCollection(files[path].json).value[0].domain, profiles[k].domain)
    ensures LoadJson(profiles, path, files, true) == (false, profiles)
  {
    var parsed := ParseCollection(files[path].json).value;
    var list := seq(|parsed|, i requires 0 <= i < |parsed| => Some(parsed[i]));
    assert list[..0] == [];
    HasDomainIff(profiles, parsed[0].domain);
    assert AddAll(profiles, list) == (0, profiles);
  }

  /** saveToJSON: refuses to replace an existing file unless told to; writes toJSON otherwise. */
  function SaveJson(profiles: seq<DomainProfile>, overwrite: bool, fileExists: bool, canOpen: bool): Option<JSON> {
    if !overwrite && fileExists then None
    else if !canOpen then None
    else Some(CollectionToJson(profiles))
  }

  /** saveTo: only a path with a JSON extension is written. */
  function Save(profiles: seq<DomainProfile>, path: string, overwrite: bool, fileExists: bool, canOpen: bool): Option<JSON> {
    if path == "" then None
    else
      var extension := FileExtension(path);
      if extension == "" then None
      else if EqualsIgnoreCase(extension, JSON_EXTENSION) then SaveJson(profiles, overwrite, fileExists, canOpen)
      else None
  }

  /** What is saved reads back as the same collection, when it is valid, non-empty and trimmed. */
  lemma SaveThenLoad(profiles: seq<DomainProfile>, path: string, overwrite: bool, fileExists: bool, canOpen: bool)
    requires Save(profiles, path, overwrite, fileExists, canOpen).Some?
    requires CollectionValid(profiles) && profiles != []
    requires forall i :: 0 <= i < |profiles| ==> IsTrimmed(profiles[i])
    ensures var files := map[path := Document(Save(profiles, path, overwrite, fileExists, canOpen).value)];
      Load([], path, files, false) == (true, profiles)
  {
    CollectionRoundTrip(profiles);
  }

  // ---------------------------------------------------------------------
  // The collection object

  class DomainProfileCollection {
    var profiles: seq<DomainProfile>

    constructor ()
      ensures profiles == []
    {
      profiles := [];
    }

    function NumberOfDomainProfiles(): nat
      reads this
    {
      |profiles|
    }

    function IndexOfDomainProfile(domain: string): nat
      reads this
    {
      IndexOfDomain(profiles, domain)
    }

    predicate HasDomainProfile(domain: string)
      reads this
    {
      HasDomain(profiles, domain)
    }

    /** getDomainProfile(index): null when out of range. */
    function GetDomainProfile(index: nat): (r: Option<DomainProfile>)
      reads this
      ensures r.Some? <==> index < |profiles|
      ensures r.Some? ==> r.value == profiles[index]
    {
      if index >= |profiles| then None else Some(profiles[index])
    }

    /** getDomainProfileWithID(domain): the first profile whose domain matches ignoring case. */
    function GetDomainProfileWithID(domain: string): (r: Option<DomainProfile>)
      reads this
      ensures |profiles| <= NPOS ==> (r.Some? <==> HasDomain(profiles, domain))
      ensures |profiles| <= NPOS && r.Some? ==>
                EqualsIgnoreCase(domain, r.value.domain) && r.value == profiles[FindDomain(profiles, domain)]
    {
      HasDomainIff(profiles, domain);
      GetDomainProfile(IndexOfDomain(profiles, domain))
    }

    method AddDomainProfile(p: DomainProfile) returns (added: bool)
      modifies this
      ensures (added, profiles) == Add(old(profiles), p)
      ensures old(CollectionValid(profiles)) ==> CollectionValid(profiles)
    {
      AddSpec(profiles, p);
      var valid := CheckValid(p);
      if !valid || HasDomain(profiles, p.domain) {
        return false;
      }
      profiles := profiles + [p];
      return true;
    }

    /** The shared-pointer overload of addDomainProfiles, whose null entries are None here. */
    method AddDomainProfiles(list: seq<Option<DomainProfile>>) returns (count: nat)
      modifies this
      ensures (count, profiles) == AddAll(old(profiles), list)
      ensures count <= |list| && |profiles| == |old(profiles)| + count
      ensures old(CollectionValid(profiles)) ==> CollectionValid(profiles)
    {
      ghost var original := profiles;
      count := 0;
      for i := 0 to |list|
        invariant (count, profiles) == AddAll(original, list[..i])
      {
        assert list[..i + 1][..i] == list[..i];
        if list[i].None? {
          continue;
        }
        var added := AddDomainProfile(list[i].value);
        if added {
          count := count + 1;
        }
      }
      assert list[..|list|] == list;
      if CollectionValid(original) {
        AddAllPreservesValid(original, list);
      }
    }

    method RemoveDomainProfile(index: nat) returns (removed: bool)
      modifies this
      ensures (removed, profiles) == RemoveAt(old(profiles), index)
      ensures old(CollectionValid(profiles)) ==> CollectionValid(profiles)
    {
      if CollectionValid(profiles) {
        RemovePreservesValid(profiles, index);
      }
      if index >= |profiles| {
        return false;
      }
      profiles := profiles[..index] + profiles[index + 1..];
      return true;
    }

    /** removeDomainProfileWithID(domain): remove at indexOfDomainProfile(domain). */
    method RemoveDomainProfileWithID(domain: string) returns (removed: bool)
      modifies this
      ensures (removed, profiles) == RemoveAt(old(profiles), IndexOfDomain(old(profiles), domain))
      ensures |old(profiles)| <= NPOS ==> (removed <==> HasDomain(old(profiles), domain))
      ensures old(CollectionValid(profiles)) ==> CollectionValid(profiles)
    {
      HasDomainIff(profiles, domain);
      removed := RemoveDomainProfile(IndexOfDomain(profiles, domain));
    }

    method ClearDomainProfiles()
      modifies this
      ensures profiles == []
    {
      profiles := [];
    }

    /** operator==: same size and equal entries position by position. */
    method Equals(other: DomainProfileCollection) returns (equal: bool)
      ensures equal <==> profiles == other.profiles
    {
      if |profiles| != |other.profiles| {
        return false;
      }
      for i := 0 to |other.profiles|
        invariant forall k :: 0 <= k < i ==> profiles[k] == other.profiles[k]
      {
        var same := DomainProfiles.Equals(profiles[i], other.profiles[i]);
        if !same {
          return false;
        }
      }
      return true;
    }

    method ToJson() returns (document: JSON)
      ensures document == CollectionToJson(profiles)
    {
      var members := [(FILE_TYPE_PROPERTY, JStr(FILE_TYPE)), (FILE_FORMAT_VERSION_PROPERTY, JNum(FILE_FORMAT_VERSION))];
      if |profiles| == 1 {
        var profileValue := DomainProfiles.ToJson(profiles[0]);
        members := members + [(PROFILE_PROPERTY, profileValue)];
      } else {
        var profilesValue: seq<JSON> := [];
        for i := 0 to |profiles|
          invariant profilesValue == ProfilesJson(profiles[..i])
        {
          var profileValue := DomainProfiles.ToJson(profiles[i]);
          profilesValue := profilesValue + [profileValue];
        }
        assert profiles[..|profiles|] == profiles;
        members := members + [(PROFILES_PROPERTY, JArr(profilesValue))];
      }
      document := JObj(members);
    }

    /** The loop of parseFrom over a "profiles" array, adding into a new, empty collection. */
    method AddParsedProfiles(items: seq<JSON>) returns (ok: bool)
      requires profiles == []
      modifies this
      ensures ok <==> ParseProfiles(items).Some?
      ensures ok ==> ParseProfiles(items) == Some(profiles)
    {
      for i := 0 to |items|
        invariant ParseProfiles(items[..i]) == Some(profiles)
      {
        ParseProfilesStep(items, i);
        var profile := DomainProfiles.ParseFrom(items[i]);
        if profile.None? {
          ParseProfilesNoneExtends(items, i + 1);
          return false;
        }
        var valid := CheckValid(profile.value);
        if !valid {
          ParseProfilesNoneExtends(items, i + 1);
          return false;
        }
        var added := AddDomainProfile(profile.value);
        if !added {
          ParseProfilesNoneExtends(items, i + 1);
          return false;
        }
      }
      assert items[..|items|] == items;
      return true;
    }

    /** parseFrom: the entries of the new collection it builds, or None. */
    static method ParseFrom(value: JSON) returns (parsed: Option<seq<DomainProfile>>)
      ensures parsed == ParseCollection(value)
    {
      if !value.JObj? {
        return None;
      }
      if HasMember(value, FILE_TYPE_PROPERTY) {
        var fileTypeValue := Member(value, FILE_TYPE_PROPERTY);
        if !fileTypeValue.JStr? || !EqualsIgnoreCase(fileTypeValue.s, FILE_TYPE) {
          return None;
        }
      }
      if HasMember(value, FILE_FORMAT_VERSION_PROPERTY) {
        var versionValue := Member(value, FILE_FORMAT_VERSION_PROPERTY);
        if !IsUint(versionValue) || versionValue.n != FILE_FORMAT_VERSION {
          return None;
        }
      }

      var collection := new DomainProfileCollection();
      if HasMember(value, PROFILE_PROPERTY) {
        var profile := DomainProfiles.ParseFrom(Member(value, PROFILE_PROPERTY));
        if profile.None? {
          return None;
        }
        var valid := CheckValid(profile.value);
        if !valid {
          return None;
        }
        var added := collection.AddDomainProfile(profile.value);
        if !added {
          return None;
        }
      } else if HasMember(value, PROFILES_PROPERTY) {
        var profilesValue := Member(value, PROFILES_PROPERTY);
        if !profilesValue.JArr? || profilesValue.items == [] {
          return None;
        }
        var ok := collection.AddParsedProfiles(profilesValue.items);
        if !ok {
          return None;
        }
      } else {
        return None;
      }
      return Some(collection.profiles);
    }

    method LoadFromJson(path: string, files: FileSystem, merge: bool) returns (ok: bool)
      modifies this
      ensures (ok, profiles) == LoadJson(old(profiles), path, files, merge)
    {
      if path == "" || path !in files || files[path].Unreadable? {
        return false;
      }
      var document := if files[path].Malformed? then JNull else files[path].json;
      var parsed := ParseFrom(document);
      if parsed.None? {
        return false;
      }
      var valid := ValidateProfiles(parsed.value);
      if !valid {
        return false;
      }
      if merge {
        var list := seq(|parsed.value|, i requires 0 <= i < |parsed.value| => Some(parsed.value[i]));
        var count := AddDomainProfiles(list);
        if count == 0 {
          return false;
        }
      } else {
        profiles := parsed.value;
      }
      return true;
    }

    method LoadFrom(path: string, files: FileSystem, merge: bool) returns (ok: bool)
      modifies this
      ensures (ok, profiles) == Load(old(profiles), path, files, merge)
    {
      if path == "" {
        return false;
      }
      var extension := FileExtension(path);
      if extension == "" {
        return false;
      } else if EqualsIgnoreCase(extension, JSON_EXTENSION) {
        ok := LoadFromJson(path, files, merge);
        if !ok {
          return false;
        }
      }
      return true;
    }

    method LoadFromFiles(paths: seq<string>, files: FileSystem, merge: bool) returns (loaded: nat)
      modifies this
      ensures (loaded, profiles) == LoadAll(old(profiles), paths, files, merge)
    {
      if paths == [] {
        return 0;
      }
      ghost var original := profiles;
      loaded := 0;
      for i := 0 to |paths|
        invariant (loaded, profiles) == LoadAll(original, paths[..i], files, merge)
      {
        assert paths[..i + 1][..i] == paths[..i];
        var ok := LoadFrom(paths[i], files, merge);
        if ok {
          loaded := loaded + 1;
        }
      }
      assert paths[..|paths|] == paths;
    }

    method SaveToJson(path: string, overwrite: bool, fileExists: bool, canOpen: bool) returns (ok: bool, written: Option<JSON>)
      ensures written == SaveJson(profiles, overwrite, fileExists, canOpen) && ok == written.Some?
    {
      if !overwrite && fileExists {
        return false, None;
      }
      if !canOpen {
        return false, None;
      }
      var document := ToJson();
      return true, Some(document);
    }

    method SaveTo(path: string, overwrite: bool, fileExists: bool, canOpen: bool) returns (ok: bool, written: Option<JSON>)
      ensures written == Save(profiles, path, overwrite, fileExists, canOpen) && ok == written.Some?
    {
      if path == "" {
        return false, None;
      }
      var extension := FileExtension(path);
      if extension == "" {
        return false, None;
      } else if EqualsIgnoreCase(extension, JSON_EXTENSION) {
        ok, written := SaveToJson(path, overwrite, fileExists, canOpen);
        return;
      }
      return false, None;
    }
  }
}
