/**
 * A Namecheap domain profile: the hosts to update under one domain, and the
 * dynamic-DNS password of that domain. A profile is an immutable value; its
 * validity is a separate query, so that the parser can build a profile with
 * an empty domain or password and leave the rejection to its callers.
 */
module DomainProfiles {
  import opened Options
  import opened Text
  import opened Json

  const HOSTS_PROPERTY := "hosts"
  const HOST_PROPERTY := "host"
  const DOMAIN_PROPERTY := "domain"
  const PASSWORD_PROPERTY := "password"
  const PROPERTY_NAMES: seq<string> := [HOSTS_PROPERTY, HOST_PROPERTY, DOMAIN_PROPERTY, PASSWORD_PROPERTY]

  /** std::numeric_limits<size_t>::max(), the "not found" index. */
  const NPOS: nat := 0xFFFF_FFFF_FFFF_FFFF

  datatype DomainProfile = DomainProfile(hosts: seq<string>, domain: string, password: string)

  /** A valid profile has at least one host, no empty host, a domain and a password. */
  predicate IsValid(p: DomainProfile) {
    && p.hosts != []
    && (forall i :: 0 <= i < |p.hosts| ==> p.hosts[i] != "")
    && p.domain != ""
    && p.password != ""
  }

  /** The static overload, which also accepts a null profile. */
  predicate IsValidPointer(p: Option<DomainProfile>) {
    p.Some? && IsValid(p.value)
  }

  /** The instance isValid: a scan of the hosts for an empty one, then the other checks. */
  method CheckValid(p: DomainProfile) returns (valid: bool)
    ensures valid <==> IsValid(p)
  {
    for i := 0 to |p.hosts|
      invariant forall k :: 0 <= k < i ==> p.hosts[k] != ""
    {
      if p.hosts[i] == "" {
        return false;
      }
    }
    return p.hosts != [] && p.domain != "" && p.password != "";
  }

  /** operator==: hosts compared position by position, domain and password exactly. */
  method Equals(a: DomainProfile, b: DomainProfile) returns (equal: bool)
    ensures equal <==> a == b
  {
    if |a.hosts| != |b.hosts| {
      return false;
    }
    for i := 0 to |a.hosts|
      invariant forall k :: 0 <= k < i ==> a.hosts[k] == b.hosts[k]
    {
      if a.hosts[i] != b.hosts[i] {
        return false;
      }
    }
    assert a.hosts == b.hosts;
    return a.domain == b.domain && a.password == b.password;
  }

  /** Position of the first host equal to host, or |hosts| when there is none. */
  function FindHost(hosts: seq<string>, host: string): (i: nat)
    ensures i <= |hosts|
    ensures i < |hosts| ==> hosts[i] == host
    ensures forall k :: 0 <= k < i ==> hosts[k] != host
  {
    if hosts == [] then 0
    else if hosts[0] == host then 0
    else 1 + FindHost(hosts[1..], host)
  }

  /** indexOfHost: the position of the first exact match, or NPOS. */
  function IndexOfHost(p: DomainProfile, host: string): (r: nat)
    ensures host in p.hosts ==> r < |p.hosts| && p.hosts[r] == host && host !in p.hosts[..r]
    ensures host !in p.hosts ==> r == NPOS
  {
    var i := FindHost(p.hosts, host);
    if i < |p.hosts| then i else NPOS
  }

  /**
   * hasHost compares indexOfHost with NPOS; a vector of strings never holds
   * NPOS elements, so that is the same as the host being found.
   */
  predicate HasHost(p: DomainProfile, host: string) {
    FindHost(p.hosts, host) < |p.hosts|
  }

  /** getHost: the host at index, or the empty string when index is out of range. */
  function GetHost(p: DomainProfile, index: nat): string {
    if index >= |p.hosts| then "" else p.hosts[index]
  }

  lemma HostLookupAgrees(p: DomainProfile, host: string)
    ensures HasHost(p, host) <==> host in p.hosts
    ensures HasHost(p, host) ==> GetHost(p, IndexOfHost(p, host)) == host
  {
    if host in p.hosts {
      var k :| 0 <= k < |p.hosts| && p.hosts[k] == host;
      assert FindHost(p.hosts, host) <= k;
    }
  }

  // ---------------------------------------------------------------------
  // Parsing

  /** The trimmed strings of an array whose elements are all strings. */
  function TrimAll(items: seq<JSON>): (r: seq<string>)
    requires forall i :: 0 <= i < |items| ==> items[i].JStr?
    ensures |r| == |items|
    ensures forall i :: 0 <= i < |items| ==> r[i] == Trim(items[i].s)
  {
    if items == [] then [] else TrimAll(items[..|items| - 1]) + [Trim(items[|items| - 1].s)]
  }

  /** The host list, from the "host" and "hosts" members: a present "host" wins. */
  function ParseHosts(host: Option<JSON>, hosts: Option<JSON>): Option<seq<string>> {
    if host.Some? then
      if host.value.JStr? then Some([Trim(host.value.s)]) else None
    else if hosts.Some? then
      if hosts.value.JArr? && forall i :: 0 <= i < |hosts.value.items| ==> hosts.value.items[i].JStr? then
        Some(TrimAll(hosts.value.items))
      else
        None
    else
      None
  }

  /** A required string property, trimmed. */
  function ParseString(field: Option<JSON>): Option<string> {
    if field.Some? && field.value.JStr? then Some(Trim(field.value.s)) else None
  }

  /** The parse, given the four members the parser looks up. */
  function ParseMembers(host: Option<JSON>, hosts: Option<JSON>, domain: Option<JSON>, password: Option<JSON>): Option<DomainProfile> {
    var hostList :- ParseHosts(host, hosts);
    if hostList == [] || "" in hostList then None
    else
      var domainString :- ParseString(domain);
      var passwordString :- ParseString(password);
      Some(DomainProfile(hostList, domainString, passwordString))
  }

  /**
   * NamecheapDomainProfile::parseFrom. Strict about types, tolerant of
   * unknown properties, and it trims every string it keeps. An empty domain
   * or password is not rejected here: the profile is built and is invalid.
   */
  function ParseProfile(value: JSON): Option<DomainProfile> {
    if !value.JObj? then None
    else
      ParseMembers(Lookup(value.members, HOST_PROPERTY), Lookup(value.members, HOSTS_PROPERTY),
                   Lookup(value.members, DOMAIN_PROPERTY), Lookup(value.members, PASSWORD_PROPERTY))
  }

  /** The inputs parseFrom rejects. */
  lemma ParseProfileRejects(value: JSON)
    ensures !value.JObj? ==> ParseProfile(value).None?
    ensures value.JObj? && !HasMember(value, HOST_PROPERTY) && !HasMember(value, HOSTS_PROPERTY) ==> ParseProfile(value).None?
    ensures HasMember(value, HOST_PROPERTY) && !Member(value, HOST_PROPERTY).JStr? ==> ParseProfile(value).None?
    ensures !HasMember(value, HOST_PROPERTY) && HasMember(value, HOSTS_PROPERTY) ==>
              var hostsValue := Member(value, HOSTS_PROPERTY);
              (!hostsValue.JArr? || exists i :: 0 <= i < |hostsValue.items| && !hostsValue.items[i].JStr?) ==>
                ParseProfile(value).None?
    ensures value.JObj? && !(HasMember(value, DOMAIN_PROPERTY) && Member(value, DOMAIN_PROPERTY).JStr?) ==> ParseProfile(value).None?
    ensures value.JObj? && !(HasMember(value, PASSWORD_PROPERTY) && Member(value, PASSWORD_PROPERTY).JStr?) ==> ParseProfile(value).None?
    ensures HasMember(value, HOST_PROPERTY) && Member(value, HOST_PROPERTY).JStr? && Trim(Member(value, HOST_PROPERTY).s) == "" ==>
              ParseProfile(value).None?
    ensures !HasMember(value, HOST_PROPERTY) && HasMember(value, HOSTS_PROPERTY) && Member(value, HOSTS_PROPERTY).JArr? ==>
              var items := Member(value, HOSTS_PROPERTY).items;
              (items == [] || exists i :: 0 <= i < |items| && items[i].JStr? && Trim(items[i].s) == "") ==>
                ParseProfile(value).None?
  {
    if value.JObj? && !HasMember(value, HOST_PROPERTY) && HasMember(value, HOSTS_PROPERTY) && Member(value, HOSTS_PROPERTY).JArr? {
      var items := Member(value, HOSTS_PROPERTY).items;
      if i :| 0 <= i < |items| && items[i].JStr? && Trim(items[i].s) == "" {
        if forall k :: 0 <= k < |items| ==> items[k].JStr? {
          assert TrimAll(items)[i] == "";
        }
      }
    }
  }

  /** What an accepted profile holds: a present "host" wins over "hosts", and every kept string is trimmed. */
  lemma ParseProfileAccepts(value: JSON)
    requires ParseProfile(value).Some?
    ensures var p := ParseProfile(value).value;
      && p.hosts != [] && "" !in p.hosts
      && (HasMember(value, HOST_PROPERTY) ==> p.hosts == [Trim(Member(value, HOST_PROPERTY).s)])
      && (!HasMember(value, HOST_PROPERTY) ==>
            var items := Member(value, HOSTS_PROPERTY).items;
            |p.hosts| == |items| && forall i :: 0 <= i < |items| ==> p.hosts[i] == Trim(items[i].s))
      && p.domain == Trim(Member(value, DOMAIN_PROPERTY).s)
      && p.password == Trim(Member(value, PASSWORD_PROPERTY).s)
      && (IsValid(p) <==> p.domain != "" && p.password != "")
  {
  }

  /** The converse direction: a well-typed object with non-blank hosts parses. */
  lemma ParseProfileSucceeds(value: JSON)
    requires value.JObj?
    requires var hosts := ParseHosts(Lookup(value.members, HOST_PROPERTY), Lookup(value.members, HOSTS_PROPERTY));
      hosts.Some? && hosts.value != [] && "" !in hosts.value
    requires HasMember(value, DOMAIN_PROPERTY) && Member(value, DOMAIN_PROPERTY).JStr?
    requires HasMember(value, PASSWORD_PROPERTY) && Member(value, PASSWORD_PROPERTY).JStr?
    ensures ParseProfile(value).Some?
    ensures ParseProfile(value).value.domain == Trim(Member(value, DOMAIN_PROPERTY).s)
  {
  }

  /** A property outside the four known names, inserted anywhere, changes nothing. */
  lemma UnknownPropertyIgnored(m1: seq<(string, JSON)>, m2: seq<(string, JSON)>, extra: (string, JSON))
    requires extra.0 !in PROPERTY_NAMES
    ensures ParseProfile(JObj(m1 + [extra] + m2)) == ParseProfile(JObj(m1 + m2))
  {
    LookupIgnoresOtherName(m1, m2, extra, HOST_PROPERTY);
    LookupIgnoresOtherName(m1, m2, extra, HOSTS_PROPERTY);
    LookupIgnoresOtherName(m1, m2, extra, DOMAIN_PROPERTY);
    LookupIgnoresOtherName(m1, m2, extra, PASSWORD_PROPERTY);
  }

  /** The host part of parseFrom: a present "host" must be a string, else "hosts" must be an array of strings. */
  method ReadHosts(value: JSON) returns (hosts: Option<seq<string>>)
    requires value.JObj?
    ensures hosts == ParseHosts(Lookup(value.members, HOST_PROPERTY), Lookup(value.members, HOSTS_PROPERTY))
  {
    if HasMember(value, HOST_PROPERTY) {
      var hostValue := Member(value, HOST_PROPERTY);
      if !hostValue.JStr? {
        return None;
      }
      return Some([Trim(hostValue.s)]);
    } else if HasMember(value, HOSTS_PROPERTY) {
      var hostsValue := Member(value, HOSTS_PROPERTY);
      if !hostsValue.JArr? {
        return None;
      }
      var items := hostsValue.items;
      var trimmed: seq<string> := [];
      for i := 0 to |items|
        invariant forall k :: 0 <= k < i ==> items[k].JStr?
        invariant trimmed == TrimAll(items[..i])
      {
        if !items[i].JStr? {
          return None;
        }
        assert items[..i + 1][..i] == items[..i];
        trimmed := trimmed + [Trim(items[i].s)];
      }
      assert items[..|items|] == items;
      return Some(trimmed);
    } else {
      return None;
    }
  }

  /** The parser itself: "host" or "hosts", element type checks, emptiness checks, then domain and password. */
  method ParseFrom(value: JSON) returns (profile: Option<DomainProfile>)
    ensures profile == ParseProfile(value)
  {
    if !value.JObj? {
      return None;
    }
    var found := ReadHosts(value);
    if found.None? {
      return None;
    }
    var hosts := found.value;

    if hosts == [] {
      return None;
    }
    for i := 0 to |hosts|
      invariant forall k :: 0 <= k < i ==> hosts[k] != ""
    {
      if hosts[i] == "" {
        return None;
      }
    }

    if !HasMember(value, DOMAIN_PROPERTY) || !Member(value, DOMAIN_PROPERTY).JStr? {
      return None;
    }
    var domain := Trim(Member(value, DOMAIN_PROPERTY).s);

    if !HasMember(value, PASSWORD_PROPERTY) || !Member(value, PASSWORD_PROPERTY).JStr? {
      return None;
    }
    var password := Trim(Member(value, PASSWORD_PROPERTY).s);

    return Some(DomainProfile(hosts, domain, password));
  }

  /** Parse every element, or fail as a whole. */
  function ParseAll(items: seq<JSON>): (r: Option<seq<DomainProfile>>)
    ensures r.Some? <==> forall i :: 0 <= i < |items| ==> ParseProfile(items[i]).Some?
    ensures r.Some? ==> |r.value| == |items| && forall i :: 0 <= i < |items| ==> ParseProfile(items[i]) == Some(r.value[i])
  {
    if items == [] then Some([])
    else
      var init :- ParseAll(items[..|items| - 1]);
      var last :- ParseProfile(items[|items| - 1]);
      Some(init + [last])
  }

  /**
   * The free parseFromList: a list only when every element parses; an empty
   * list otherwise, as for a value that is not an array.
   */
  function ParseList(value: JSON): seq<DomainProfile> {
    if value.JArr? && ParseAll(value.items).Some? then ParseAll(value.items).value else []
  }

  method ParseFromList(value: JSON) returns (list: seq<DomainProfile>)
    ensures list == ParseList(value)
    ensures list != [] ==> value.JArr? && |list| == |value.items|
    ensures list != [] ==> forall i :: 0 <= i < |list| ==> ParseProfile(value.items[i]) == Some(list[i])
    ensures value.JArr? && (exists i :: 0 <= i < |value.items| && ParseProfile(value.items[i]).None?) ==> list == []
  {
    if !value.JArr? {
      return [];
    }
    var items := value.items;
    list := [];
    for i := 0 to |items|
      invariant ParseAll(items[..i]) == Some(list)
    {
      var profile := ParseFrom(items[i]);
      if profile.None? {
        return [];
      }
      assert items[..i + 1][..i] == items[..i];
      list := list + [profile.value];
    }
    assert items[..|items|] == items;
  }

  // ---------------------------------------------------------------------
  // Serialising

  function HostsJson(hosts: seq<string>): seq<JSON> {
    seq(|hosts|, i requires 0 <= i < |hosts| => JStr(hosts[i]))
  }

  /** toJSON: a single host is written as "host", any other number as a "hosts" array. */
  function ProfileToJson(p: DomainProfile): (r: JSON)
    ensures r.JObj?
    ensures |p.hosts| == 1 ==> HasMember(r, HOST_PROPERTY) && !HasMember(r, HOSTS_PROPERTY)
    ensures |p.hosts| != 1 ==> HasMember(r, HOSTS_PROPERTY) && !HasMember(r, HOST_PROPERTY)
  {
    var hostMembers :=
      if |p.hosts| == 1 then [(HOST_PROPERTY, JStr(p.hosts[0]))]
      else [(HOSTS_PROPERTY, JArr(HostsJson(p.hosts)))];
    var r := JObj(hostMembers + [(DOMAIN_PROPERTY, JStr(p.domain)), (PASSWORD_PROPERTY, JStr(p.password))]);
    assert r.members[0] == hostMembers[0];
    LookupAbsent(r.members, if |p.hosts| == 1 then HOSTS_PROPERTY else HOST_PROPERTY);
    r
  }

  method ToJson(p: DomainProfile) returns (value: JSON)
    ensures value == ProfileToJson(p)
  {
    var hostMembers: seq<(string, JSON)>;
    if |p.hosts| == 1 {
      hostMembers := [(HOST_PROPERTY, JStr(p.hosts[0]))];
    } else {
      var hostsValue: seq<JSON> := [];
      for i := 0 to |p.hosts|
        invariant hostsValue == HostsJson(p.hosts[..i])
      {
        hostsValue := hostsValue + [JStr(p.hosts[i])];
      }
      assert p.hosts[..|p.hosts|] == p.hosts;
      hostMembers := [(HOSTS_PROPERTY, JArr(hostsValue))];
    }
    value := JObj(hostMembers + [(DOMAIN_PROPERTY, JStr(p.domain)), (PASSWORD_PROPERTY, JStr(p.password))]);
  }

  /** Every string of the profile is its own trim, as parsed profiles are. */
  predicate IsTrimmed(p: DomainProfile) {
    && (forall i :: 0 <= i < |p.hosts| ==> Trim(p.hosts[i]) == p.hosts[i])
    && Trim(p.domain) == p.domain
    && Trim(p.password) == p.password
  }

  /** Serialising a valid, trimmed profile and parsing it back gives the same profile. */
  lemma {:induction false} ToJsonRoundTrip(p: DomainProfile)
    requires IsValid(p) && IsTrimmed(p)
    ensures ParseProfile(ProfileToJson(p)) == Some(p)
  {
    var r := ProfileToJson(p);
    var head :=
      if |p.hosts| == 1 then [(HOST_PROPERTY, JStr(p.hosts[0]))]
      else [(HOSTS_PROPERTY, JArr(HostsJson(p.hosts)))];
    var tail := [(DOMAIN_PROPERTY, JStr(p.domain)), (PASSWORD_PROPERTY, JStr(p.password))];
    assert r.members == head + tail;
    assert Lookup(tail, DOMAIN_PROPERTY) == Some(JStr(p.domain));
    assert Lookup(tail, PASSWORD_PROPERTY) == Some(JStr(p.password));
    LookupAbsent(tail, HOST_PROPERTY);
    LookupAbsent(tail, HOSTS_PROPERTY);
    LookupAppend(head, tail, HOST_PROPERTY);
    LookupAppend(head, tail, HOSTS_PROPERTY);
    LookupAppend(head, tail, DOMAIN_PROPERTY);
    LookupAppend(head, tail, PASSWORD_PROPERTY);
    if |p.hosts| == 1 {
      assert [Trim(p.hosts[0])] == p.hosts;
    } else {
      assert TrimAll(HostsJson(p.hosts)) == p.hosts;
    }
  }

  /** Everything the parser keeps is already trimmed. */
  lemma ParsedProfileIsTrimmed(value: JSON)
    requires ParseProfile(value).Some?
    ensures IsTrimmed(ParseProfile(value).value)
  {
    var p := ParseProfile(value).value;
    TrimIdempotent(Member(value, DOMAIN_PROPERTY).s);
    TrimIdempotent(Member(value, PASSWORD_PROPERTY).s);
    if HasMember(value, HOST_PROPERTY) {
      TrimIdempotent(Member(value, HOST_PROPERTY).s);
    } else {
      var items := Member(value, HOSTS_PROPERTY).items;
      forall i | 0 <= i < |p.hosts| ensures Trim(p.hosts[i]) == p.hosts[i] {
        TrimIdempotent(items[i].s);
      }
    }
  }

  /** A profile read from a file and accepted as valid is written back to an equivalent object. */
  lemma ParseSerialiseParse(value: JSON)
    requires ParseProfile(value).Some? && IsValid(ParseProfile(value).value)
    ensures ParseProfile(ProfileToJson(ParseProfile(value).value)) == ParseProfile(value)
  {
    ParsedProfileIsTrimmed(value);
    ToJsonRoundTrip(ParseProfile(value).value);
  }
}
