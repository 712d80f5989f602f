/**
 * An abstract JSON document, standing in for the rapidjson DOM. Objects keep
 * their members in order and may repeat a name; member lookup returns the
 * first member with the name, as rapidjson's FindMember does. Numbers are
 * integers only.
 */
module Json {
  import opened Options
  import opened Text

  datatype JSON =
    | JNull
    | JBool(b: bool)
    | JNum(n: int)
    | JStr(s: string)
    | JArr(items: seq<JSON>)
    | JObj(members: seq<(string, JSON)>)

  /** The value of the first member called name. */
  function Lookup(members: seq<(string, JSON)>, name: string): Option<JSON> {
    if |members| == 0 then None
    else if members[0].0 == name then Some(members[0].1)
    else Lookup(members[1..], name)
  }

  /** Looking a name up in two member lists joined: the first list wins. */
  lemma {:induction false} LookupAppend(m1: seq<(string, JSON)>, m2: seq<(string, JSON)>, name: string)
    ensures Lookup(m1 + m2, name) == if Lookup(m1, name).Some? then Lookup(m1, name) else Lookup(m2, name)
  {
    if |m1| > 0 {
      assert (m1 + m2)[1..] == m1[1..] + m2;
      LookupAppend(m1[1..], m2, name);
    } else {
      assert m1 + m2 == m2;
    }
  }

  /** A name no member carries is not found. */
  lemma {:induction false} LookupAbsent(members: seq<(string, JSON)>, name: string)
    requires forall i :: 0 <= i < |members| ==> members[i].0 != name
    ensures Lookup(members, name) == None
  {
    if |members| > 0 {
      LookupAbsent(members[1..], name);
    }
  }

  /** A member of another name, inserted anywhere, does not change a lookup. */
  lemma LookupIgnoresOtherName(m1: seq<(string, JSON)>, m2: seq<(string, JSON)>, other: (string, JSON), name: string)
    requires other.0 != name
    ensures Lookup(m1 + [other] + m2, name) == Lookup(m1 + m2, name)
  {
    LookupAppend(m1 + [other], m2, name);
    LookupAppend(m1, [other], name);
    LookupAppend(m1, m2, name);
  }

  lemma LookupSingle(member: (string, JSON), name: string)
    ensures Lookup([member], name) == if member.0 == name then Some(member.1) else None
  {
    assert [member][1..] == [];
  }

  /** A member no earlier member shares its name with is what a lookup of that name finds. */
  lemma {:induction false} LookupFound(members: seq<(string, JSON)>, i: nat)
    requires i < |members|
    requires forall j :: 0 <= j < i ==> members[j].0 != members[i].0
    ensures Lookup(members, members[i].0) == Some(members[i].1)
  {
    if i > 0 {
      LookupFound(members[1..], i - 1);
    }
  }

  predicate HasMember(value: JSON, name: string) {
    value.JObj? && Lookup(value.members, name).Some?
  }

  function Member(value: JSON, name: string): JSON
    requires HasMember(value, name)
  {
    Lookup(value.members, name).value
  }

  /** rapidjson's IsUint: a number that fits in 32 unsigned bits. */
  predicate IsUint(value: JSON) {
    value.JNum? && 0 <= value.n < 0x1_0000_0000
  }

  /** rapidjson's IsUint64: a number that fits in 64 unsigned bits. */
  predicate IsUint64(value: JSON) {
    value.JNum? && 0 <= value.n < 0x1_0000_0000_0000_0000
  }

  const FILE_TYPE_PROPERTY := "fileType"
  const FILE_FORMAT_VERSION_PROPERTY := "fileFormatVersion"

  /**
   * The marker check both file formats run before reading anything: a file
   * type that is present must be a string equal to the expected one ignoring
   * case, and a format version that is present must be an unsigned 32-bit
   * number equal to the supported one. A missing marker is only warned about.
   */
  predicate FileMarkersOk(document: JSON, fileType: string, version: nat)
    requires document.JObj?
  {
    && (HasMember(document, FILE_TYPE_PROPERTY) ==>
          Member(document, FILE_TYPE_PROPERTY).JStr? &&
          EqualsIgnoreCase(Member(document, FILE_TYPE_PROPERTY).s, fileType))
    && (HasMember(document, FILE_FORMAT_VERSION_PROPERTY) ==>
          IsUint(Member(document, FILE_FORMAT_VERSION_PROPERTY)) &&
          Member(document, FILE_FORMAT_VERSION_PROPERTY).n == version)
  }

  /**
   * What reading a path yields, for a path that names a regular file: it
   * cannot be opened, it is not well-formed JSON, or it holds a document.
   * A path that names no regular file is absent from the file-system map.
   */
  datatype FileContent = Unreadable | Malformed | Document(json: JSON)

  type FileSystem = map<string, FileContent>
}
