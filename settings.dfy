/**
 * The application settings record. Every field has a default; parseFrom
 * overwrites a field only when its key is present with the expected JSON
 * type, after two marker checks that are the only ways it can fail; toJSON
 * writes every field, the two last-downloaded timestamps only when present.
 * Times are opaque values, and converting them to and from text is an input.
 */
module SettingsManagers {
  import opened Options
  import opened Text
  import opened Json
  import opened Arguments

  /** A point on the system clock. */
  datatype TimePoint = TimePoint(ticks: int)

  const FILE_TYPE := "Namecheap Dynamic DNS Auto-Updater Settings"
  const FILE_FORMAT_VERSION: nat := 1
  const DEFAULT_SETTINGS_FILE_PATH := "Namecheap Dynamic DNS Auto-Updater Settings.json"
  const DEFAULT_DOWNLOADS_DIRECTORY_PATH := "Downloads"
  const DEFAULT_DATA_DIRECTORY_PATH := "Data"
  const DEFAULT_TIME_ZONE_DATA_DIRECTORY_NAME := "Time Zone"
  const DEFAULT_CURL_DATA_DIRECTORY_NAME := "cURL"
  /** Seconds. */
  const DEFAULT_CONNECTION_TIMEOUT := 15
  const DEFAULT_NETWORK_TIMEOUT := 30
  const DEFAULT_TRANSFER_TIMEOUT := 0
  const DEFAULT_VERBOSE_REQUEST_LOGGING := false
  const DEFAULT_DOWNLOAD_THROTTLING_ENABLED := true
  /** Minutes: two weeks and one week. */
  const DEFAULT_CACERT_UPDATE_FREQUENCY := 2 * 24 * 7 * 60
  const DEFAULT_TIME_ZONE_DATA_UPDATE_FREQUENCY := 1 * 24 * 7 * 60

  const LOG_LEVEL_PROPERTY := "logLevel"
  const DATA_DIRECTORY_PATH_PROPERTY := "dataDirectoryPath"
  const DOWNLOADS_CATEGORY := "downloads"
  const DIRECTORY_PATH_PROPERTY := "directoryPath"
  const TIME_ZONE_CATEGORY := "timeZone"
  const DATA_DIRECTORY_NAME_PROPERTY := "dataDirectoryName"
  const CURL_CATEGORY := "curl"
  const CONNECTION_TIMEOUT_PROPERTY := "connectionTimeout"
  const NETWORK_TIMEOUT_PROPERTY := "networkTimeout"
  const TRANSFER_TIMEOUT_PROPERTY := "transferTimeout"
  const VERBOSE_REQUEST_LOGGING_PROPERTY := "verboseRequestLogging"
  const DOWNLOAD_THROTTLING_CATEGORY := "downloadThrottling"
  const ENABLED_PROPERTY := "enabled"
  const CACERT_LAST_DOWNLOADED_PROPERTY := "cacertLastDownloaded"
  const CACERT_UPDATE_FREQUENCY_PROPERTY := "cacertUpdateFrequency"
  const TIME_ZONE_DATA_LAST_DOWNLOADED_PROPERTY := "timeZoneDataLastDownloaded"
  const TIME_ZONE_DATA_UPDATE_FREQUENCY_PROPERTY := "timeZoneDataUpdateFrequency"
  const FILE_ETAGS_PROPERTY := "fileETags"

  const TWO_TO_THE_63: int := 0x8000_0000_0000_0000
  const TWO_TO_THE_64: int := 0x1_0000_0000_0000_0000

  /** A std::chrono duration built from an unsigned 64-bit count: its signed 64-bit representation. */
  function ToInt64(n: int): (r: int)
    requires 0 <= n < TWO_TO_THE_64
    ensures -TWO_TO_THE_63 <= r < TWO_TO_THE_63
    ensures r % TWO_TO_THE_64 == n
    ensures n < TWO_TO_THE_63 ==> r == n
  {
    if n < TWO_TO_THE_63 then n else n - TWO_TO_THE_64
  }

  /** The settings fields, as one value. Durations are counts: seconds for the timeouts, minutes for the frequencies. */
  datatype Settings = Settings(
    downloadsDirectoryPath: string,
    dataDirectoryPath: string,
    timeZoneDataDirectoryName: string,
    curlDataDirectoryName: string,
    connectionTimeout: int,
    networkTimeout: int,
    transferTimeout: int,
    verboseRequestLogging: bool,
    downloadThrottlingEnabled: bool,
    cacertLastDownloadedTimestamp: Option<TimePoint>,
    cacertUpdateFrequency: int,
    timeZoneDataLastDownloadedTimestamp: Option<TimePoint>,
    timeZoneDataUpdateFrequency: int,
    fileETags: map<string, string>)

  function Defaults(): Settings {
    Settings(
      DEFAULT_DOWNLOADS_DIRECTORY_PATH, DEFAULT_DATA_DIRECTORY_PATH,
      DEFAULT_TIME_ZONE_DATA_DIRECTORY_NAME, DEFAULT_CURL_DATA_DIRECTORY_NAME,
      DEFAULT_CONNECTION_TIMEOUT, DEFAULT_NETWORK_TIMEOUT, DEFAULT_TRANSFER_TIMEOUT,
      DEFAULT_VERBOSE_REQUEST_LOGGING, DEFAULT_DOWNLOAD_THROTTLING_ENABLED,
      None, DEFAULT_CACERT_UPDATE_FREQUENCY,
      None, DEFAULT_TIME_ZONE_DATA_UPDATE_FREQUENCY,
      map[])
  }

  // ---------------------------------------------------------------------
  // parseFrom

  /** A member that is present and is itself an object. */
  predicate HasObject(document: JSON, category: string) {
    HasMember(document, category) && Member(document, category).JObj?
  }

  /** assignStringSetting: (whether it assigned, the setting afterwards). */
  function AssignString(setting: string, category: JSON, name: string): (bool, string) {
    if name == "" || !HasMember(category, name) then (false, setting)
    else
      var value := Member(category, name);
      if !value.JStr? then (false, setting) else (true, value.s)
  }

  function AssignBoolean(setting: bool, category: JSON, name: string): (bool, bool) {
    if name == "" || !HasMember(category, name) then (false, setting)
    else
      var value := Member(category, name);
      if !value.JBool? then (false, setting) else (true, value.b)
  }

  /** assignOptionalTimePointSetting: a string that does not parse as a time leaves the setting absent. */
  function AssignOptionalTimePoint(setting: Option<TimePoint>, category: JSON, name: string,
                                   parseTime: string -> Option<TimePoint>): (bool, Option<TimePoint>) {
    if name == "" || !HasMember(category, name) then (false, setting)
    else
      var value := Member(category, name);
      if !value.JStr? then (false, setting)
      else
        var parsed := parseTime(value.s);
        (parsed.Some?, parsed)
  }

  function AssignChrono(setting: int, category: JSON, name: string): (bool, int) {
    if name == "" || !HasMember(category, name) then (false, setting)
    else
      var value := Member(category, name);
      if !IsUint64(value) then (false, setting) else (true, ToInt64(value.n))
  }

  predicate AllStrings(members: seq<(string, JSON)>) {
    forall i :: 0 <= i < |members| ==> members[i].1.JStr?
  }

  /** The file tags are read without checking their type: callers must supply strings. */
  predicate ETagsWellTyped(document: JSON) {
    HasObject(document, FILE_ETAGS_PROPERTY) ==> AllStrings(Member(document, FILE_ETAGS_PROPERTY).members)
  }

  /** The emplace loop over the file tags: a name already in the map keeps its tag. */
  function InsertETags(tags: map<string, string>, members: seq<(string, JSON)>): map<string, string>
    requires AllStrings(members)
  {
    if members == [] then tags
    else
      var current := InsertETags(tags, members[..|members| - 1]);
      var (name, value) := members[|members| - 1];
      if name in current then current else current[name := value.s]
  }

  /**
   * What the emplace loop yields, stated without the loop: every old entry
   * is kept as it was, and a new name maps to the tag of its first member.
   */
  lemma {:induction false} InsertETagsSpec(tags: map<string, string>, members: seq<(string, JSON)>)
    requires AllStrings(members)
    ensures forall name :: name in InsertETags(tags, members) <==> name in tags || Lookup(members, name).Some?
    ensures forall name :: name in tags ==> InsertETags(tags, members)[name] == tags[name]
    ensures forall name :: name !in tags && Lookup(members, name).Some? ==>
              Lookup(members, name).value.JStr? && InsertETags(tags, members)[name] == Lookup(members, name).value.s
  {
    if members != [] {
      var init := members[..|members| - 1];
      var last := members[|members| - 1];
      assert init + [last] == members;
      InsertETagsSpec(tags, init);
      forall name
        ensures Lookup(members, name) ==
                  if Lookup(init, name).Some? then Lookup(init, name) else if last.0 == name then Some(last.1) else None
      {
        LookupAppend(init, [last], name);
        LookupSingle(last, name);
      }
      forall name | Lookup(init, name).Some?
        ensures Lookup(init, name).value.JStr?
      {
        LookupHasStringValue(init, name);
      }
    }
  }

  lemma {:induction false} LookupHasStringValue(members: seq<(string, JSON)>, name: string)
    requires AllStrings(members) && Lookup(members, name).Some?
    ensures Lookup(members, name).value.JStr?
  {
    if members[0].0 != name {
      LookupHasStringValue(members[1..], name);
    }
  }

  /** The value of a top-level member. */
  function TopAt(document: JSON, name: string): Option<JSON> {
    if HasMember(document, name) then Some(Member(document, name)) else None
  }

  /** The value at category.name, when category is an object member of the document holding that name. */
  function At(document: JSON, category: string, name: string): Option<JSON> {
    if HasObject(document, category) && HasMember(Member(document, category), name) then
      Some(Member(Member(document, category), name))
    else None
  }

  function StringOr(value: Option<JSON>, otherwise: string): string {
    if value.Some? && value.value.JStr? then value.value.s else otherwise
  }

  function BoolOr(value: Option<JSON>, otherwise: bool): bool {
    if value.Some? && value.value.JBool? then value.value.b else otherwise
  }

  function CountOr(value: Option<JSON>, otherwise: int): int {
    if value.Some? && IsUint64(value.value) then ToInt64(value.value.n) else otherwise
  }

  function TimeOr(value: Option<JSON>, otherwise: Option<TimePoint>, parseTime: string -> Option<TimePoint>): Option<TimePoint> {
    if value.Some? && value.value.JStr? then parseTime(value.value.s) else otherwise
  }

  /**
   * parseFrom on the settings s: (whether it succeeded, the settings
   * afterwards). It fails only on the markers, and then nothing is changed.
   * Otherwise each field takes the value at its key when that value has the
   * expected type, and keeps its old value when it does not; a timestamp
   * string that does not parse leaves the timestamp absent; file tags are
   * inserted into the old map.
   */
  function ParseSettings(s: Settings, document: JSON, parseTime: string -> Option<TimePoint>): (r: (bool, Settings))
    requires ETagsWellTyped(document)
    ensures r.0 <==> document.JObj? && FileMarkersOk(document, FILE_TYPE, FILE_FORMAT_VERSION)
    ensures !r.0 ==> r.1 == s
  {
    if !document.JObj? || !FileMarkersOk(document, FILE_TYPE, FILE_FORMAT_VERSION) then (false, s)
    else
      (true, Settings(
        downloadsDirectoryPath := StringOr(At(document, DOWNLOADS_CATEGORY, DIRECTORY_PATH_PROPERTY), s.downloadsDirectoryPath),
        dataDirectoryPath := StringOr(TopAt(document, DATA_DIRECTORY_PATH_PROPERTY), s.dataDirectoryPath),
        timeZoneDataDirectoryName :=
          StringOr(At(document, TIME_ZONE_CATEGORY, DATA_DIRECTORY_NAME_PROPERTY), s.timeZoneDataDirectoryName),
        curlDataDirectoryName := StringOr(At(document, CURL_CATEGORY, DATA_DIRECTORY_NAME_PROPERTY), s.curlDataDirectoryName),
        connectionTimeout := CountOr(At(document, CURL_CATEGORY, CONNECTION_TIMEOUT_PROPERTY), s.connectionTimeout),
        networkTimeout := CountOr(At(document, CURL_CATEGORY, NETWORK_TIMEOUT_PROPERTY), s.networkTimeout),
        transferTimeout := CountOr(At(document, CURL_CATEGORY, TRANSFER_TIMEOUT_PROPERTY), s.transferTimeout),
        verboseRequestLogging := BoolOr(At(document, CURL_CATEGORY, VERBOSE_REQUEST_LOGGING_PROPERTY), s.verboseRequestLogging),
        downloadThrottlingEnabled :=
          BoolOr(At(document, DOWNLOAD_THROTTLING_CATEGORY, ENABLED_PROPERTY), s.downloadThrottlingEnabled),
        cacertLastDownloadedTimestamp :=
          TimeOr(At(document, DOWNLOAD_THROTTLING_CATEGORY, CACERT_LAST_DOWNLOADED_PROPERTY),
                 s.cacertLastDownloadedTimestamp, parseTime),
        cacertUpdateFrequency :=
          CountOr(At(document, DOWNLOAD_THROTTLING_CATEGORY, CACERT_UPDATE_FREQUENCY_PROPERTY), s.cacertUpdateFrequency),
        timeZoneDataLastDownloadedTimestamp :=
          TimeOr(At(document, DOWNLOAD_THROTTLING_CATEGORY, TIME_ZONE_DATA_LAST_DOWNLOADED_PROPERTY),
                 s.timeZoneDataLastDownloadedTimestamp, parseTime),
        timeZoneDataUpdateFrequency :=
          CountOr(At(document, DOWNLOAD_THROTTLING_CATEGORY, TIME_ZONE_DATA_UPDATE_FREQUENCY_PROPERTY), s.timeZoneDataUpdateFrequency),
        fileETags :=
          if HasObject(document, FILE_ETAGS_PROPERTY) then InsertETags(s.fileETags, Member(document, FILE_ETAGS_PROPERTY).members)
          else s.fileETags))
  }

  /** The top-level data directory and the "downloads" and "timeZone" categories. */
  function ReadDirectories(s: Settings, document: JSON): Settings {
    s.(dataDirectoryPath := StringOr(TopAt(document, DATA_DIRECTORY_PATH_PROPERTY), s.dataDirectoryPath),
       downloadsDirectoryPath := StringOr(At(document, DOWNLOADS_CATEGORY, DIRECTORY_PATH_PROPERTY), s.downloadsDirectoryPath),
       timeZoneDataDirectoryName :=
         StringOr(At(document, TIME_ZONE_CATEGORY, DATA_DIRECTORY_NAME_PROPERTY), s.timeZoneDataDirectoryName))
  }

  /** The "curl" category object. */
  function ReadCurl(s: Settings, category: JSON): Settings {
    s.(curlDataDirectoryName := StringOr(TopAt(category, DATA_DIRECTORY_NAME_PROPERTY), s.curlDataDirectoryName),
       connectionTimeout := CountOr(TopAt(category, CONNECTION_TIMEOUT_PROPERTY), s.connectionTimeout),
       networkTimeout := CountOr(TopAt(category, NETWORK_TIMEOUT_PROPERTY), s.networkTimeout),
       transferTimeout := CountOr(TopAt(category, TRANSFER_TIMEOUT_PROPERTY), s.transferTimeout),
       verboseRequestLogging := BoolOr(TopAt(category, VERBOSE_REQUEST_LOGGING_PROPERTY), s.verboseRequestLogging))
  }

  /** The "downloadThrottling" category object. */
  function ReadThrottling(s: Settings, category: JSON, parseTime: string -> Option<TimePoint>): Settings {
    s.(downloadThrottlingEnabled := BoolOr(TopAt(category, ENABLED_PROPERTY), s.downloadThrottlingEnabled),
       cacertLastDownloadedTimestamp :=
         TimeOr(TopAt(category, CACERT_LAST_DOWNLOADED_PROPERTY), s.cacertLastDownloadedTimestamp, parseTime),
       cacertUpdateFrequency := CountOr(TopAt(category, CACERT_UPDATE_FREQUENCY_PROPERTY), s.cacertUpdateFrequency),
       timeZoneDataLastDownloadedTimestamp :=
         TimeOr(TopAt(category, TIME_ZONE_DATA_LAST_DOWNLOADED_PROPERTY), s.timeZoneDataLastDownloadedTimestamp, parseTime),
       timeZoneDataUpdateFrequency :=
         CountOr(TopAt(category, TIME_ZONE_DATA_UPDATE_FREQUENCY_PROPERTY), s.timeZoneDataUpdateFrequency))
  }

  /** The category steps of parseFrom applied in the order the code takes them. */
  function ReadCategories(s: Settings, document: JSON, parseTime: string -> Option<TimePoint>): Settings
    requires ETagsWellTyped(document)
  {
    var s1 := ReadDirectories(s, document);
    var s2 := if HasObject(document, CURL_CATEGORY) then ReadCurl(s1, Member(document, CURL_CATEGORY)) else s1;
    var s3 := if HasObject(document, DOWNLOAD_THROTTLING_CATEGORY)
              then ReadThrottling(s2, Member(document, DOWNLOAD_THROTTLING_CATEGORY), parseTime) else s2;
    if HasObject(document, FILE_ETAGS_PROPERTY)
    then s3.(fileETags := InsertETags(s3.fileETags, Member(document, FILE_ETAGS_PROPERTY).members))
    else s3
  }

  /** Once the markers have passed, parseFrom is the category steps taken one after another. */
  lemma ParseSettingsAccepts(s: Settings, document: JSON, parseTime: string -> Option<TimePoint>)
    requires document.JObj? && FileMarkersOk(document, FILE_TYPE, FILE_FORMAT_VERSION)
    requires ETagsWellTyped(document)
    ensures ParseSettings(s, document, parseTime) == (true, ReadCategories(s, document, parseTime))
  {
  }

  /** File tags already held are never replaced by parseFrom, and none is removed. */
  lemma ParseKeepsETags(s: Settings, document: JSON, parseTime: string -> Option<TimePoint>)
    requires ETagsWellTyped(document)
    ensures var r := ParseSettings(s, document, parseTime).1;
      forall name :: name in s.fileETags ==> name in r.fileETags && r.fileETags[name] == s.fileETags[name]
  {
    if HasObject(document, FILE_ETAGS_PROPERTY) {
      InsertETagsSpec(s.fileETags, Member(document, FILE_ETAGS_PROPERTY).members);
    }
  }

  const KNOWN_TOP_LEVEL_NAMES := {FILE_TYPE_PROPERTY, FILE_FORMAT_VERSION_PROPERTY, DATA_DIRECTORY_PATH_PROPERTY,
                                  DOWNLOADS_CATEGORY, TIME_ZONE_CATEGORY, CURL_CATEGORY, DOWNLOAD_THROTTLING_CATEGORY,
                                  FILE_ETAGS_PROPERTY}

  /** An object that carries none of the known keys parses successfully and changes nothing. */
  lemma ParseToleratesUnknownKeys(s: Settings, members: seq<(string, JSON)>, parseTime: string -> Option<TimePoint>)
    requires forall i :: 0 <= i < |members| ==> members[i].0 !in KNOWN_TOP_LEVEL_NAMES
    ensures ETagsWellTyped(JObj(members))
    ensures ParseSettings(s, JObj(members), parseTime) == (true, s)
  {
    LookupAbsent(members, FILE_TYPE_PROPERTY);
    LookupAbsent(members, FILE_FORMAT_VERSION_PROPERTY);
    LookupAbsent(members, DATA_DIRECTORY_PATH_PROPERTY);
    LookupAbsent(members, DOWNLOADS_CATEGORY);
    LookupAbsent(members, TIME_ZONE_CATEGORY);
    LookupAbsent(members, CURL_CATEGORY);
    LookupAbsent(members, DOWNLOAD_THROTTLING_CATEGORY);
    LookupAbsent(members, FILE_ETAGS_PROPERTY);
  }

  // ---------------------------------------------------------------------
  // toJSON

  ghost function ETagMembers(tags: map<string, string>, keys: seq<string>): (r: seq<(string, JSON)>)
    requires forall i :: 0 <= i < |keys| ==> keys[i] in tags
    ensures |r| == |keys| && AllStrings(r)
    ensures forall i :: 0 <= i < |keys| ==> r[i] == (keys[i], JStr(tags[keys[i]]))
  {
    seq(|keys|, i requires 0 <= i < |keys| => (keys[i], JStr(tags[keys[i]])))
  }

  function OptionalTimeMember(name: string, timestamp: Option<TimePoint>, formatTime: TimePoint -> string): seq<(string, JSON)> {
    if timestamp.Some? then [(name, JStr(formatTime(timestamp.value)))] else []
  }

  function ThrottlingJson(s: Settings, formatTime: TimePoint -> string): JSON {
    JObj([(ENABLED_PROPERTY, JBool(s.downloadThrottlingEnabled))]
         + OptionalTimeMember(CACERT_LAST_DOWNLOADED_PROPERTY, s.cacertLastDownloadedTimestamp, formatTime)
         + [(CACERT_UPDATE_FREQUENCY_PROPERTY, JNum(s.cacertUpdateFrequency))]
         + OptionalTimeMember(TIME_ZONE_DATA_LAST_DOWNLOADED_PROPERTY, s.timeZoneDataLastDownloadedTimestamp, formatTime)
         + [(TIME_ZONE_DATA_UPDATE_FREQUENCY_PROPERTY, JNum(s.timeZoneDataUpdateFrequency))])
  }

  function CurlJson(s: Settings): JSON {
    JObj([(DATA_DIRECTORY_NAME_PROPERTY, JStr(s.curlDataDirectoryName)),
          (CONNECTION_TIMEOUT_PROPERTY, JNum(s.connectionTimeout)),
          (NETWORK_TIMEOUT_PROPERTY, JNum(s.networkTimeout)),
          (TRANSFER_TIMEOUT_PROPERTY, JNum(s.transferTimeout)),
          (VERBOSE_REQUEST_LOGGING_PROPERTY, JBool(s.verboseRequestLogging))])
  }

  /**
   * toJSON: markers, the current log level (an input here), every field,
   * and the file tags in ascending name order.
   */
  ghost function SettingsToJson(s: Settings, logLevel: string, formatTime: TimePoint -> string): JSON {
    JObj([(FILE_TYPE_PROPERTY, JStr(FILE_TYPE)),
          (FILE_FORMAT_VERSION_PROPERTY, JNum(FILE_FORMAT_VERSION)),
          (LOG_LEVEL_PROPERTY, JStr(logLevel)),
          (DATA_DIRECTORY_PATH_PROPERTY, JStr(s.dataDirectoryPath)),
          (DOWNLOADS_CATEGORY, JObj([(DIRECTORY_PATH_PROPERTY, JStr(s.downloadsDirectoryPath))])),
          (TIME_ZONE_CATEGORY, JObj([(DATA_DIRECTORY_NAME_PROPERTY, JStr(s.timeZoneDataDirectoryName))])),
          (CURL_CATEGORY, CurlJson(s)),
          (DOWNLOAD_THROTTLING_CATEGORY, ThrottlingJson(s, formatTime)),
          (FILE_ETAGS_PROPERTY, JObj(ETagMembers(s.fileETags, SortedKeys(s.fileETags.Keys))))])
  }

  /** Each timestamp is written exactly when it is present; the frequencies and the flag always are. */
  lemma ThrottlingJsonMembers(s: Settings, formatTime: TimePoint -> string)
    ensures var category := ThrottlingJson(s, formatTime);
      && HasMember(category, ENABLED_PROPERTY)
      && HasMember(category, CACERT_UPDATE_FREQUENCY_PROPERTY)
      && HasMember(category, TIME_ZONE_DATA_UPDATE_FREQUENCY_PROPERTY)
      && (HasMember(category, CACERT_LAST_DOWNLOADED_PROPERTY) <==> s.cacertLastDownloadedTimestamp.Some?)
      && (HasMember(category, TIME_ZONE_DATA_LAST_DOWNLOADED_PROPERTY) <==> s.timeZoneDataLastDownloadedTimestamp.Some?)
  {
    ThrottlingLookups(s, formatTime);
  }

  /** Lookup in five member lists joined: the first list holding the name wins. */
  lemma LookupInFive(a: seq<(string, JSON)>, b: seq<(string, JSON)>, c: seq<(string, JSON)>,
                     d: seq<(string, JSON)>, e: seq<(string, JSON)>, name: string)
    ensures Lookup(a + b + c + d + e, name) ==
              if Lookup(a, name).Some? then Lookup(a, name)
              else if Lookup(b, name).Some? then Lookup(b, name)
              else if Lookup(c, name).Some? then Lookup(c, name)
              else if Lookup(d, name).Some? then Lookup(d, name)
              else Lookup(e, name)
  {
    LookupAppend(a + b + c + d, e, name);
    LookupAppend(a + b + c, d, name);
    LookupAppend(a + b, c, name);
    LookupAppend(a, b, name);
  }

  lemma OptionalTimeMemberLookup(name: string, timestamp: Option<TimePoint>, formatTime: TimePoint -> string, key: string)
    ensures Lookup(OptionalTimeMember(name, timestamp, formatTime), key) ==
              if timestamp.Some? && name == key then Some(JStr(formatTime(timestamp.value))) else None
  {
    if timestamp.Some? {
      LookupSingle((name, JStr(formatTime(timestamp.value))), key);
    }
  }

  /** The five lookups in the download-throttling category. */
  lemma ThrottlingLookups(s: Settings, formatTime: TimePoint -> string)
    ensures var members := ThrottlingJson(s, formatTime).members;
      && Lookup(members, ENABLED_PROPERTY) == Some(JBool(s.downloadThrottlingEnabled))
      && Lookup(members, CACERT_LAST_DOWNLOADED_PROPERTY) ==
           (if s.cacertLastDownloadedTimestamp.Some? then Some(JStr(formatTime(s.cacertLastDownloadedTimestamp.value))) else None)
      && Lookup(members, CACERT_UPDATE_FREQUENCY_PROPERTY) == Some(JNum(s.cacertUpdateFrequency))
      && Lookup(members, TIME_ZONE_DATA_LAST_DOWNLOADED_PROPERTY) ==
           (if s.timeZoneDataLastDownloadedTimestamp.Some? then Some(JStr(formatTime(s.timeZoneDataLastDownloadedTimestamp.value))) else None)
      && Lookup(members, TIME_ZONE_DATA_UPDATE_FREQUENCY_PROPERTY) == Some(JNum(s.timeZoneDataUpdateFrequency))
  {
    var a := (ENABLED_PROPERTY, JBool(s.downloadThrottlingEnabled));
    var b := OptionalTimeMember(CACERT_LAST_DOWNLOADED_PROPERTY, s.cacertLastDownloadedTimestamp, formatTime);
    var c := (CACERT_UPDATE_FREQUENCY_PROPERTY, JNum(s.cacertUpdateFrequency));
    var d := OptionalTimeMember(TIME_ZONE_DATA_LAST_DOWNLOADED_PROPERTY, s.timeZoneDataLastDownloadedTimestamp, formatTime);
    var e := (TIME_ZONE_DATA_UPDATE_FREQUENCY_PROPERTY, JNum(s.timeZoneDataUpdateFrequency));
    var names := [ENABLED_PROPERTY, CACERT_LAST_DOWNLOADED_PROPERTY, CACERT_UPDATE_FREQUENCY_PROPERTY,
                  TIME_ZONE_DATA_LAST_DOWNLOADED_PROPERTY, TIME_ZONE_DATA_UPDATE_FREQUENCY_PROPERTY];
    for i := 0 to |names|
      invariant forall k :: 0 <= k < i ==>
        Lookup([a] + b + [c] + d + [e], names[k]) ==
          if a.0 == names[k] then Some(a.1)
          else if Lookup(b, names[k]).Some? then Lookup(b, names[k])
          else if c.0 == names[k] then Some(c.1)
          else if Lookup(d, names[k]).Some? then Lookup(d, names[k])
          else if e.0 == names[k] then Some(e.1)
          else None
    {
      LookupInFive([a], b, [c], d, [e], names[i]);
      LookupSingle(a, names[i]);
      LookupSingle(c, names[i]);
      LookupSingle(e, names[i]);
    }
    OptionalTimeMemberLookup(CACERT_LAST_DOWNLOADED_PROPERTY, s.cacertLastDownloadedTimestamp, formatTime, names[0]);
    OptionalTimeMemberLookup(CACERT_LAST_DOWNLOADED_PROPERTY, s.cacertLastDownloadedTimestamp, formatTime, names[1]);
    OptionalTimeMemberLookup(CACERT_LAST_DOWNLOADED_PROPERTY, s.cacertLastDownloadedTimestamp, formatTime, names[2]);
    OptionalTimeMemberLookup(CACERT_LAST_DOWNLOADED_PROPERTY, s.cacertLastDownloadedTimestamp, formatTime, names[3]);
    OptionalTimeMemberLookup(CACERT_LAST_DOWNLOADED_PROPERTY, s.cacertLastDownloadedTimestamp, formatTime, names[4]);
    OptionalTimeMemberLookup(TIME_ZONE_DATA_LAST_DOWNLOADED_PROPERTY, s.timeZoneDataLastDownloadedTimestamp, formatTime, names[0]);
    OptionalTimeMemberLookup(TIME_ZONE_DATA_LAST_DOWNLOADED_PROPERTY, s.timeZoneDataLastDownloadedTimestamp, formatTime, names[1]);
    OptionalTimeMemberLookup(TIME_ZONE_DATA_LAST_DOWNLOADED_PROPERTY, s.timeZoneDataLastDownloadedTimestamp, formatTime, names[2]);
    OptionalTimeMemberLookup(TIME_ZONE_DATA_LAST_DOWNLOADED_PROPERTY, s.timeZoneDataLastDownloadedTimestamp, formatTime, names[3]);
    OptionalTimeMemberLookup(TIME_ZONE_DATA_LAST_DOWNLOADED_PROPERTY, s.timeZoneDataLastDownloadedTimestamp, formatTime, names[4]);
  }

  /** The written file tags: exactly the given keys are found, each with its tag. */
  lemma {:induction false} ETagMembersRead(tags: map<string, string>, keys: seq<string>)
    requires forall i :: 0 <= i < |keys| ==> keys[i] in tags
    ensures forall name :: Lookup(ETagMembers(tags, keys), name).Some? <==> name in keys
    ensures forall name :: name in keys ==> Lookup(ETagMembers(tags, keys), name) == Some(JStr(tags[name]))
  {
    if keys != [] {
      var init := keys[..|keys| - 1];
      var last := keys[|keys| - 1];
      ETagMembersRead(tags, init);
      var members := ETagMembers(tags, keys);
      assert members == ETagMembers(tags, init) + [(last, JStr(tags[last]))];
      assert keys == init + [last];
      forall name
        ensures Lookup(members, name) ==
                  if name in init then Some(JStr(tags[name])) else if name == last then Some(JStr(tags[last])) else None
      {
        LookupAppend(ETagMembers(tags, init), [(last, JStr(tags[last]))], name);
        LookupSingle((last, JStr(tags[last])), name);
      }
    }
  }

  /** The top-level lookups in the document toJSON writes. */
  lemma SettingsJsonLookups(s: Settings, logLevel: string, formatTime: TimePoint -> string)
    ensures var members := SettingsToJson(s, logLevel, formatTime).members;
      && Lookup(members, FILE_TYPE_PROPERTY) == Some(JStr(FILE_TYPE))
      && Lookup(members, FILE_FORMAT_VERSION_PROPERTY) == Some(JNum(FILE_FORMAT_VERSION))
      && Lookup(members, DATA_DIRECTORY_PATH_PROPERTY) == Some(JStr(s.dataDirectoryPath))
      && Lookup(members, DOWNLOADS_CATEGORY) == Some(JObj([(DIRECTORY_PATH_PROPERTY, JStr(s.downloadsDirectoryPath))]))
      && Lookup(members, TIME_ZONE_CATEGORY) == Some(JObj([(DATA_DIRECTORY_NAME_PROPERTY, JStr(s.timeZoneDataDirectoryName))]))
      && Lookup(members, CURL_CATEGORY) == Some(CurlJson(s))
      && Lookup(members, DOWNLOAD_THROTTLING_CATEGORY) == Some(ThrottlingJson(s, formatTime))
      && Lookup(members, FILE_ETAGS_PROPERTY) == Some(JObj(ETagMembers(s.fileETags, SortedKeys(s.fileETags.Keys))))
  {
    var members := SettingsToJson(s, logLevel, formatTime).members;
    LookupFound(members, 0);
    LookupFound(members, 1);
    LookupFound(members, 3);
    LookupFound(members, 4);
    LookupFound(members, 5);
    LookupFound(members, 6);
    LookupFound(members, 7);
    LookupFound(members, 8);
  }

  lemma CurlJsonLookups(s: Settings)
    ensures var members := CurlJson(s).members;
      && Lookup(members, DATA_DIRECTORY_NAME_PROPERTY) == Some(JStr(s.curlDataDirectoryName))
      && Lookup(members, CONNECTION_TIMEOUT_PROPERTY) == Some(JNum(s.connectionTimeout))
      && Lookup(members, NETWORK_TIMEOUT_PROPERTY) == Some(JNum(s.networkTimeout))
      && Lookup(members, TRANSFER_TIMEOUT_PROPERTY) == Some(JNum(s.transferTimeout))
      && Lookup(members, VERBOSE_REQUEST_LOGGING_PROPERTY) == Some(JBool(s.verboseRequestLogging))
  {
    var members := CurlJson(s).members;
    LookupFound(members, 0);
    LookupFound(members, 1);
    LookupFound(members, 2);
    LookupFound(members, 3);
    LookupFound(members, 4);
  }

  /** A duration count that reads back unchanged. */
  predicate Readable(count: int) {
    0 <= count < TWO_TO_THE_63
  }

  /** The file tags toJSON writes, read back by the emplace loop into a map already holding tags, give the written map under the held one. */
  lemma ETagsReadBack(held: map<string, string>, tags: map<string, string>)
    ensures var keys := SortedKeys(tags.Keys);
      && (forall i :: 0 <= i < |keys| ==> keys[i] in tags)
      && AllStrings(ETagMembers(tags, keys))
      && InsertETags(held, ETagMembers(tags, keys)) == tags + held
  {
    var keys := SortedKeys(tags.Keys);
    var tagMembers := ETagMembers(tags, keys);
    var r := InsertETags(held, tagMembers);
    InsertETagsSpec(held, tagMembers);
    ETagMembersRead(tags, keys);
    SortedKeysCover(tags.Keys);
    assert forall name :: name in r <==> name in held || name in keys;
    assert forall name :: name in r <==> name in held || name in tags;
    forall name | name in r
      ensures r[name] == (tags + held)[name]
    {
      if name !in held {
        assert name in keys;
      }
    }
    assert r.Keys == (tags + held).Keys;
  }

  /**
   * toJSON then parseFrom onto any settings s0: every field comes back as
   * written when durations are non-negative and times survive formatting;
   * a timestamp that was not written keeps s0's value, and s0's file tags
   * win over the written ones.
   */
  lemma ToJsonThenParse(s0: Settings, s: Settings, logLevel: string,
                        parseTime: string -> Option<TimePoint>, formatTime: TimePoint -> string)
    requires forall t :: parseTime(formatTime(t)) == Some(t)
    requires Readable(s.connectionTimeout) && Readable(s.networkTimeout) && Readable(s.transferTimeout)
    requires Readable(s.cacertUpdateFrequency) && Readable(s.timeZoneDataUpdateFrequency)
    ensures ETagsWellTyped(SettingsToJson(s, logLevel, formatTime))
    ensures ParseSettings(s0, SettingsToJson(s, logLevel, formatTime), parseTime) ==
              (true, s.(cacertLastDownloadedTimestamp :=
                          if s.cacertLastDownloadedTimestamp.Some? then s.cacertLastDownloadedTimestamp else s0.cacertLastDownloadedTimestamp,
                        timeZoneDataLastDownloadedTimestamp :=
                          if s.timeZoneDataLastDownloadedTimestamp.Some? then s.timeZoneDataLastDownloadedTimestamp
                          else s0.timeZoneDataLastDownloadedTimestamp,
                        fileETags := s.fileETags + s0.fileETags))
  {
    var document := SettingsToJson(s, logLevel, formatTime);
    SettingsJsonLookups(s, logLevel, formatTime);
    CurlJsonLookups(s);
    ThrottlingLookups(s, formatTime);
    LookupSingle((DIRECTORY_PATH_PROPERTY, JStr(s.downloadsDirectoryPath)), DIRECTORY_PATH_PROPERTY);
    LookupSingle((DATA_DIRECTORY_NAME_PROPERTY, JStr(s.timeZoneDataDirectoryName)), DATA_DIRECTORY_NAME_PROPERTY);
    assert FileMarkersOk(document, FILE_TYPE, FILE_FORMAT_VERSION);
    ETagsReadBack(s0.fileETags, s.fileETags);
  }

  /** Settings saved from any state read back into the defaults as the same settings. */
  lemma SaveThenLoadOntoDefaults(s: Settings, logLevel: string,
                                 parseTime: string -> Option<TimePoint>, formatTime: TimePoint -> string)
    requires forall t :: parseTime(formatTime(t)) == Some(t)
    requires Readable(s.connectionTimeout) && Readable(s.networkTimeout) && Readable(s.transferTimeout)
    requires Readable(s.cacertUpdateFrequency) && Readable(s.timeZoneDataUpdateFrequency)
    ensures ETagsWellTyped(SettingsToJson(s, logLevel, formatTime))
    ensures ParseSettings(Defaults(), SettingsToJson(s, logLevel, formatTime), parseTime) == (true, s)
  {
    ToJsonThenParse(Defaults(), s, logLevel, parseTime, formatTime);
    assert s.fileETags + map[] == s.fileETags;
  }

  // ---------------------------------------------------------------------
  // Loading and saving, with the file system as an input

  /** A file written: the path it went to and the document it holds. */
  datatype SavedFile = SavedFile(path: string, document: JSON)

  /**
   * saveTo(path): refuses to replace an existing file unless told to, and
   * fails when the file cannot be opened for writing; otherwise writes
   * toJSON to that path.
   */
  ghost function SaveSettings(s: Settings, path: string, overwrite: bool, fileExists: bool, canOpen: bool,
                              logLevel: string, formatTime: TimePoint -> string): (r: Option<SavedFile>)
    ensures r.Some? <==> (overwrite || !fileExists) && canOpen
    ensures r.Some? ==> r.value == SavedFile(path, SettingsToJson(s, logLevel, formatTime))
  {
    if !overwrite && fileExists then None
    else if !canOpen then None
    else Some(SavedFile(path, SettingsToJson(s, logLevel, formatTime)))
  }

  /** What loadFrom leaves behind: its result, the settings, the loaded flag, and any file it wrote. */
  datatype LoadOutcome = LoadOutcome(ok: bool, settings: Settings, loaded: bool, written: Option<SavedFile>)

  /**
   * loadFrom(path, autoCreate): an empty path fails; a path that names no
   * regular file fails, after writing the current settings there when
   * autoCreate is set (saveTo with overwrite); an unreadable or malformed
   * file fails; otherwise parseFrom decides, and success marks the settings
   * loaded.
   */
  ghost function LoadSettings(s: Settings, loaded: bool, path: string, autoCreate: bool, files: FileSystem, canCreate: bool,
                              parseTime: string -> Option<TimePoint>, logLevel: string, formatTime: TimePoint -> string): (r: LoadOutcome)
    requires path in files && files[path].Document? ==> ETagsWellTyped(files[path].json)
    ensures r.loaded == (loaded || r.ok)
    ensures !r.ok ==> r.settings == s
    ensures r.ok ==> path in files && files[path].Document?
    ensures r.written.Some? ==> path != "" && path !in files && autoCreate && r.written.value.path == path
  {
    if path == "" then LoadOutcome(false, s, loaded, None)
    else if path !in files then
      LoadOutcome(false, s, loaded, if autoCreate then SaveSettings(s, path, true, false, canCreate, logLevel, formatTime) else None)
    else if !files[path].Document? then LoadOutcome(false, s, loaded, None)
    else
      var (ok, next) := ParseSettings(s, files[path].json, parseTime);
      LoadOutcome(ok, next, loaded || ok, None)
  }

  /** load(arguments): a non-empty first value of "f", else of "file", replaces the settings file path. */
  function ChosenPath(arguments: Option<ArgumentMap>, current: string): (r: string)
    ensures arguments.None? ==> r == current
    ensures r == current || r == GetFirstValue(arguments.value, "f") || r == GetFirstValue(arguments.value, "file")
    ensures arguments.Some? && GetFirstValue(arguments.value, "f") != "" ==> r == GetFirstValue(arguments.value, "f")
    ensures arguments.Some? && GetFirstValue(arguments.value, "f") == "" && GetFirstValue(arguments.value, "file") != "" ==>
              r == GetFirstValue(arguments.value, "file")
    ensures arguments.Some? && GetFirstValue(arguments.value, "f") == "" && GetFirstValue(arguments.value, "file") == "" ==>
              r == current
  {
    if arguments.None? then current
    else
      var first := GetFirstValue(arguments.value, "f");
      var alternate := if first == "" then GetFirstValue(arguments.value, "file") else first;
      if alternate == "" then current else alternate
  }

  // ---------------------------------------------------------------------
  // The settings manager

  class SettingsManager {
    var downloadsDirectoryPath: string
    var dataDirectoryPath: string
    var timeZoneDataDirectoryName: string
    var curlDataDirectoryName: string
    var connectionTimeout: int
    var networkTimeout: int
    var transferTimeout: int
    var verboseRequestLogging: bool
    var downloadThrottlingEnabled: bool
    var cacertLastDownloadedTimestamp: Option<TimePoint>
    var cacertUpdateFrequency: int
    var timeZoneDataLastDownloadedTimestamp: Option<TimePoint>
    var timeZoneDataUpdateFrequency: int
    var fileETags: map<string, string>
    var loaded: bool
    var filePath: string

    /** The settings fields as one value. */
    function Values(): Settings
      reads this
    {
      Settings(downloadsDirectoryPath, dataDirectoryPath, timeZoneDataDirectoryName, curlDataDirectoryName,
               connectionTimeout, networkTimeout, transferTimeout, verboseRequestLogging, downloadThrottlingEnabled,
               cacertLastDownloadedTimestamp, cacertUpdateFrequency, timeZoneDataLastDownloadedTimestamp,
               timeZoneDataUpdateFrequency, fileETags)
    }

    constructor ()
      ensures Values() == Defaults()
      ensures !loaded && filePath == DEFAULT_SETTINGS_FILE_PATH
    {
      downloadsDirectoryPath := DEFAULT_DOWNLOADS_DIRECTORY_PATH;
      dataDirectoryPath := DEFAULT_DATA_DIRECTORY_PATH;
      timeZoneDataDirectoryName := DEFAULT_TIME_ZONE_DATA_DIRECTORY_NAME;
      curlDataDirectoryName := DEFAULT_CURL_DATA_DIRECTORY_NAME;
      connectionTimeout := DEFAULT_CONNECTION_TIMEOUT;
      networkTimeout := DEFAULT_NETWORK_TIMEOUT;
      transferTimeout := DEFAULT_TRANSFER_TIMEOUT;
      verboseRequestLogging := DEFAULT_VERBOSE_REQUEST_LOGGING;
      downloadThrottlingEnabled := DEFAULT_DOWNLOAD_THROTTLING_ENABLED;
      cacertLastDownloadedTimestamp := None;
      cacertUpdateFrequency := DEFAULT_CACERT_UPDATE_FREQUENCY;
      timeZoneDataLastDownloadedTimestamp := None;
      timeZoneDataUpdateFrequency := DEFAULT_TIME_ZONE_DATA_UPDATE_FREQUENCY;
      fileETags := map[];
      loaded := false;
      filePath := DEFAULT_SETTINGS_FILE_PATH;
    }

    /** reset: every setting back to its default; the loaded flag and the file path are left alone. */
    method Reset()
      modifies this
      ensures Values() == Defaults()
      ensures loaded == old(loaded) && filePath == old(filePath)
    {
      downloadsDirectoryPath := DEFAULT_DOWNLOADS_DIRECTORY_PATH;
      dataDirectoryPath := DEFAULT_DATA_DIRECTORY_PATH;
      timeZoneDataDirectoryName := DEFAULT_TIME_ZONE_DATA_DIRECTORY_NAME;
      curlDataDirectoryName := DEFAULT_CURL_DATA_DIRECTORY_NAME;
      connectionTimeout := DEFAULT_CONNECTION_TIMEOUT;
      networkTimeout := DEFAULT_NETWORK_TIMEOUT;
      transferTimeout := DEFAULT_TRANSFER_TIMEOUT;
      verboseRequestLogging := DEFAULT_VERBOSE_REQUEST_LOGGING;
      downloadThrottlingEnabled := DEFAULT_DOWNLOAD_THROTTLING_ENABLED;
      cacertLastDownloadedTimestamp := None;
      cacertUpdateFrequency := DEFAULT_CACERT_UPDATE_FREQUENCY;
      timeZoneDataLastDownloadedTimestamp := None;
      timeZoneDataUpdateFrequency := DEFAULT_TIME_ZONE_DATA_UPDATE_FREQUENCY;
      fileETags := map[];
    }

    function IsLoaded(): bool
      reads this
    {
      loaded
    }

    /** The "downloadThrottling" category toJSON writes: a timestamp only when it is present. */
    method ThrottlingMembers(formatTime: TimePoint -> string) returns (members: seq<(string, JSON)>)
      ensures JObj(members) == ThrottlingJson(Values(), formatTime)
    {
      members := [(ENABLED_PROPERTY, JBool(downloadThrottlingEnabled))];
      if cacertLastDownloadedTimestamp.Some? {
        members := members + [(CACERT_LAST_DOWNLOADED_PROPERTY, JStr(formatTime(cacertLastDownloadedTimestamp.value)))];
      }
      members := members + [(CACERT_UPDATE_FREQUENCY_PROPERTY, JNum(cacertUpdateFrequency))];
      if timeZoneDataLastDownloadedTimestamp.Some? {
        members := members + [(TIME_ZONE_DATA_LAST_DOWNLOADED_PROPERTY, JStr(formatTime(timeZoneDataLastDownloadedTimestamp.value)))];
      }
      members := members + [(TIME_ZONE_DATA_UPDATE_FREQUENCY_PROPERTY, JNum(timeZoneDataUpdateFrequency))];
    }

    /** The "fileETags" category toJSON writes: every tag, in ascending order of name, as std::map iterates. */
    method ETagsMembers() returns (members: seq<(string, JSON)>)
      ensures members == ETagMembers(fileETags, SortedKeys(fileETags.Keys))
    {
      members := [];
      var remaining := fileETags.Keys;
      while remaining != {}
        invariant remaining <= fileETags.Keys
        invariant members + ETagMembers(fileETags, SortedKeys(remaining)) == ETagMembers(fileETags, SortedKeys(fileETags.Keys))
        decreases |remaining|
      {
        LeastExists(remaining);
        var name :| IsLeast(name, remaining);
        SortedKeysLeast(name, remaining);
        var rest := SortedKeys(remaining - {name});
        assert ETagMembers(fileETags, [name] + rest) == [(name, JStr(fileETags[name]))] + ETagMembers(fileETags, rest);
        members := members + [(name, JStr(fileETags[name]))];
        remaining := remaining - {name};
      }
      assert SortedKeys(remaining) == [];
      assert ETagMembers(fileETags, []) == [];
    }

    method ToJson(logLevel: string, formatTime: TimePoint -> string) returns (document: JSON)
      ensures document == SettingsToJson(Values(), logLevel, formatTime)
    {
      var curlMembers := [(DATA_DIRECTORY_NAME_PROPERTY, JStr(curlDataDirectoryName)),
                          (CONNECTION_TIMEOUT_PROPERTY, JNum(connectionTimeout)),
                          (NETWORK_TIMEOUT_PROPERTY, JNum(networkTimeout)),
                          (TRANSFER_TIMEOUT_PROPERTY, JNum(transferTimeout)),
                          (VERBOSE_REQUEST_LOGGING_PROPERTY, JBool(verboseRequestLogging))];

      var throttlingMembers := ThrottlingMembers(formatTime);
      var tagMembers := ETagsMembers();
      assert JObj(curlMembers) == CurlJson(Values());

      document := JObj([(FILE_TYPE_PROPERTY, JStr(FILE_TYPE)),
                        (FILE_FORMAT_VERSION_PROPERTY, JNum(FILE_FORMAT_VERSION)),
                        (LOG_LEVEL_PROPERTY, JStr(logLevel)),
                        (DATA_DIRECTORY_PATH_PROPERTY, JStr(dataDirectoryPath)),
                        (DOWNLOADS_CATEGORY, JObj([(DIRECTORY_PATH_PROPERTY, JStr(downloadsDirectoryPath))])),
                        (TIME_ZONE_CATEGORY, JObj([(DATA_DIRECTORY_NAME_PROPERTY, JStr(timeZoneDataDirectoryName))])),
                        (CURL_CATEGORY, JObj(curlMembers)),
                        (DOWNLOAD_THROTTLING_CATEGORY, JObj(throttlingMembers)),
                        (FILE_ETAGS_PROPERTY, JObj(tagMembers))]);
    }

    /** The top-level data directory and the "downloads" and "timeZone" categories of parseFrom. */
    method ParseDirectories(document: JSON)
      modifies this`dataDirectoryPath, this`downloadsDirectoryPath, this`timeZoneDataDirectoryName
      ensures Values() == ReadDirectories(old(Values()), document)
    {
      dataDirectoryPath := AssignString(dataDirectoryPath, document, DATA_DIRECTORY_PATH_PROPERTY).1;
      if HasObject(document, DOWNLOADS_CATEGORY) {
        var category := Member(document, DOWNLOADS_CATEGORY);
        downloadsDirectoryPath := AssignString(downloadsDirectoryPath, category, DIRECTORY_PATH_PROPERTY).1;
      }
      if HasObject(document, TIME_ZONE_CATEGORY) {
        var category := Member(document, TIME_ZONE_CATEGORY);
        timeZoneDataDirectoryName := AssignString(timeZoneDataDirectoryName, category, DATA_DIRECTORY_NAME_PROPERTY).1;
      }
    }

    /** The "curl" category of parseFrom: each timeout is read as an unsigned 64-bit count of seconds. */
    method ParseCurl(category: JSON)
      modifies this`curlDataDirectoryName, this`connectionTimeout, this`networkTimeout, this`transferTimeout,
               this`verboseRequestLogging
      ensures Values() == ReadCurl(old(Values()), category)
    {
      curlDataDirectoryName := AssignString(curlDataDirectoryName, category, DATA_DIRECTORY_NAME_PROPERTY).1;
      // The inline checks on the timeouts and the flag are assignChronoSetting's and assignBooleanSetting's.
      connectionTimeout := AssignChrono(connectionTimeout, category, CONNECTION_TIMEOUT_PROPERTY).1;
      networkTimeout := AssignChrono(networkTimeout, category, NETWORK_TIMEOUT_PROPERTY).1;
      transferTimeout := AssignChrono(transferTimeout, category, TRANSFER_TIMEOUT_PROPERTY).1;
      verboseRequestLogging := AssignBoolean(verboseRequestLogging, category, VERBOSE_REQUEST_LOGGING_PROPERTY).1;
    }

    /** The "downloadThrottling" category of parseFrom. */
    method ParseDownloadThrottling(category: JSON, parseTime: string -> Option<TimePoint>)
      modifies this`downloadThrottlingEnabled, this`cacertLastDownloadedTimestamp, this`cacertUpdateFrequency,
               this`timeZoneDataLastDownloadedTimestamp, this`timeZoneDataUpdateFrequency
      ensures Values() == ReadThrottling(old(Values()), category, parseTime)
    {
      downloadThrottlingEnabled := AssignBoolean(downloadThrottlingEnabled, category, ENABLED_PROPERTY).1;
      cacertLastDownloadedTimestamp :=
        AssignOptionalTimePoint(cacertLastDownloadedTimestamp, category, CACERT_LAST_DOWNLOADED_PROPERTY, parseTime).1;
      cacertUpdateFrequency := AssignChrono(cacertUpdateFrequency, category, CACERT_UPDATE_FREQUENCY_PROPERTY).1;
      timeZoneDataLastDownloadedTimestamp :=
        AssignOptionalTimePoint(timeZoneDataLastDownloadedTimestamp, category, TIME_ZONE_DATA_LAST_DOWNLOADED_PROPERTY, parseTime).1;
      timeZoneDataUpdateFrequency := AssignChrono(timeZoneDataUpdateFrequency, category, TIME_ZONE_DATA_UPDATE_FREQUENCY_PROPERTY).1;
    }

    /** The "fileETags" category of parseFrom: emplace each member, so a name already held keeps its tag. */
    method ParseFileETags(members: seq<(string, JSON)>)
      requires AllStrings(members)
      modifies this`fileETags
      ensures fileETags == InsertETags(old(fileETags), members)
    {
      for i := 0 to |members|
        invariant fileETags == InsertETags(old(fileETags), members[..i])
      {
        assert members[..i + 1][..i] == members[..i];
        var (name, value) := members[i];
        if name !in fileETags {
          fileETags := fileETags[name := value.s];
        }
      }
      assert members[..|members|] == members;
    }

    /** Everything parseFrom reads once the markers have passed, category by category. */
    method ParseFields(document: JSON, parseTime: string -> Option<TimePoint>)
      requires ETagsWellTyped(document)
      modifies this`dataDirectoryPath, this`downloadsDirectoryPath, this`timeZoneDataDirectoryName,
               this`curlDataDirectoryName, this`connectionTimeout, this`networkTimeout, this`transferTimeout,
               this`verboseRequestLogging, this`downloadThrottlingEnabled, this`cacertLastDownloadedTimestamp,
               this`cacertUpdateFrequency, this`timeZoneDataLastDownloadedTimestamp, this`timeZoneDataUpdateFrequency,
               this`fileETags
      ensures Values() == ReadCategories(old(Values()), document, parseTime)
    {
      ParseDirectories(document);
      if HasObject(document, CURL_CATEGORY) {
        ParseCurl(Member(document, CURL_CATEGORY));
      }
      if HasObject(document, DOWNLOAD_THROTTLING_CATEGORY) {
        ParseDownloadThrottling(Member(document, DOWNLOAD_THROTTLING_CATEGORY), parseTime);
      }
      if HasObject(document, FILE_ETAGS_PROPERTY) {
        ParseFileETags(Member(document, FILE_ETAGS_PROPERTY).members);
      }
    }

    method ParseFrom(document: JSON, parseTime: string -> Option<TimePoint>) returns (ok: bool)
      requires ETagsWellTyped(document)
      modifies this
      ensures (ok, Values()) == ParseSettings(old(Values()), document, parseTime)
      ensures loaded == old(loaded) && filePath == old(filePath)
    {
      if !document.JObj? {
        return false;
      }
      if HasMember(document, FILE_TYPE_PROPERTY) {
        var fileTypeValue := Member(document, FILE_TYPE_PROPERTY);
        if !fileTypeValue.JStr? || !EqualsIgnoreCase(fileTypeValue.s, FILE_TYPE) {
          return false;
        }
      }
      if HasMember(document, FILE_FORMAT_VERSION_PROPERTY) {
        var versionValue := Member(document, FILE_FORMAT_VERSION_PROPERTY);
        if !IsUint(versionValue) || versionValue.n != FILE_FORMAT_VERSION {
          return false;
        }
      }

      ParseFields(document, parseTime);
      ParseSettingsAccepts(old(Values()), document, parseTime);
      return true;
    }

    method SaveTo(path: string, overwrite: bool, fileExists: bool, canOpen: bool,
                  logLevel: string, formatTime: TimePoint -> string) returns (ok: bool, written: Option<SavedFile>)
      ensures written == SaveSettings(Values(), path, overwrite, fileExists, canOpen, logLevel, formatTime)
      ensures ok == written.Some?
    {
      if !overwrite && fileExists {
        return false, None;
      }
      if !canOpen {
        return false, None;
      }
      var document := ToJson(logLevel, formatTime);
      return true, Some(SavedFile(path, document));
    }

    /** save: saveTo the current settings file path. */
    method Save(overwrite: bool, fileExists: bool, canOpen: bool,
                logLevel: string, formatTime: TimePoint -> string) returns (ok: bool, written: Option<SavedFile>)
      ensures written == SaveSettings(Values(), filePath, overwrite, fileExists, canOpen, logLevel, formatTime)
      ensures ok == written.Some?
      ensures written.Some? ==> written.value.path == filePath
    {
      ok, written := SaveTo(filePath, overwrite, fileExists, canOpen, logLevel, formatTime);
    }

    method LoadFrom(path: string, autoCreate: bool, files: FileSystem, canCreate: bool,
                    parseTime: string -> Option<TimePoint>, logLevel: string, formatTime: TimePoint -> string)
      returns (ok: bool, written: Option<SavedFile>)
      requires path in files && files[path].Document? ==> ETagsWellTyped(files[path].json)
      modifies this
      ensures LoadOutcome(ok, Values(), loaded, written) ==
                LoadSettings(old(Values()), old(loaded), path, autoCreate, files, canCreate, parseTime, logLevel, formatTime)
      ensures filePath == old(filePath)
    {
      written := None;
      if path == "" {
        return false, None;
      }
      if path !in files {
        if autoCreate {
          // saveTo with overwrite: whether the path exists is not asked.
          var _, attempt := SaveTo(path, true, false, canCreate, logLevel, formatTime);
          written := attempt;
        }
        return false, written;
      }
      if !files[path].Document? {
        return false, None;
      }
      ok := ParseFrom(files[path].json, parseTime);
      if !ok {
        return false, None;
      }
      loaded := true;
      return true, None;
    }

    method Load(arguments: Option<ArgumentMap>, autoCreate: bool, files: FileSystem, canCreate: bool,
                parseTime: string -> Option<TimePoint>, logLevel: string, formatTime: TimePoint -> string)
      returns (ok: bool, written: Option<SavedFile>)
      requires var path := ChosenPath(arguments, filePath);
        path in files && files[path].Document? ==> ETagsWellTyped(files[path].json)
      modifies this
      ensures filePath == ChosenPath(arguments, old(filePath))
      ensures LoadOutcome(ok, Values(), loaded, written) ==
                LoadSettings(old(Values()), old(loaded), filePath, autoCreate, files, canCreate, parseTime, logLevel, formatTime)
    {
      if arguments.Some? {
        var alternateSettingsFilePath := GetFirstValue(arguments.value, "f");
        if alternateSettingsFilePath == "" {
          alternateSettingsFilePath := GetFirstValue(arguments.value, "file");
        }
        if alternateSettingsFilePath != "" {
          filePath := alternateSettingsFilePath;
        }
      }
      ok, written := LoadFrom(filePath, autoCreate, files, canCreate, parseTime, logLevel, formatTime);
    }
  }
}
