/**
 * `DbSyncConfig`: the settings of one synchronisation run, their defaults, and how
 * `set(config:)` reads them from a heterogeneous dictionary.
 */
module DbSyncConfigs {
  import opened Wrappers
  import opened Values

  /** `DbSyncDebugLevel`, an `Int`-backed enum. */
  datatype DbSyncDebugLevel = none | error | warning | info | verbose | trace {
    function RawValue(): (r: int)
      ensures 0 <= r <= 5
      ensures this == DbSyncDebugLevel.none ==> r == 0
      ensures this == error ==> r == 1
      ensures this == warning ==> r == 2
      ensures this == info ==> r == 3
      ensures this == verbose ==> r == 4
      ensures this == trace ==> r == 5
    {
      match this
      case none => 0
      case error => 1
      case warning => 2
      case info => 3
      case verbose => 4
      case trace => 5
    }

    /** The human-readable `description`. */
    function Description(): (d: string)
      ensures 4 <= |d| <= 7 && 'A' <= d[0] <= 'Z'
    {
      match this
      case none => "None"
      case error => "Error"
      case warning => "Warning"
      case info => "Info"
      case verbose => "Verbose"
      case trace => "Trace"
    }
  }

  /** `DbSyncDebugLevel(rawValue:)`, the failable initialiser. */
  function LevelFromRawValue(raw: int): (r: Option<DbSyncDebugLevel>)
    ensures r.Some? <==> 0 <= raw <= 5
    ensures r.Some? ==> r.value.RawValue() == raw
  {
    if raw == 0 then Some(DbSyncDebugLevel.none)
    else if raw == 1 then Some(error)
    else if raw == 2 then Some(warning)
    else if raw == 3 then Some(info)
    else if raw == 4 then Some(verbose)
    else if raw == 5 then Some(trace)
    else None
  }

  /** Every level survives the trip through its raw value, and levels differ in their raw values. */
  lemma {:induction false} RawValueRoundTrip(l: DbSyncDebugLevel, m: DbSyncDebugLevel)
    ensures LevelFromRawValue(l.RawValue()) == Some(l)
    ensures l.RawValue() == m.RawValue() ==> l == m
  {
    match l
    case none =>
    case error =>
    case warning =>
    case info =>
    case verbose =>
    case trace =>
  }

  /** ASCII lower-casing of one character. */
  function LowerChar(c: char): char {
    if 'A' <= c <= 'Z' then (c as int + 32) as char else c
  }

  /** ASCII lower-casing, standing in for `String.lowercased()`. */
  function ToLower(s: string): (r: string)
    ensures |r| == |s|
  {
    seq(|s|, i requires 0 <= i < |s| => LowerChar(s[i]))
  }

  /** The `switch debugLevelString.lowercased()` of `set(config:)`; `None` is its `default: break`. */
  function LevelFromString(text: string): (r: Option<DbSyncDebugLevel>)
    ensures r.Some? ==> |text| == 1 || |text| == |r.value.Description()|
    ensures r.Some? && |text| == 1 ==> r == LevelFromRawValue(text[0] as int - '0' as int)
  {
    var t := ToLower(text);
    assert |text| == 1 ==> t[0] == LowerChar(text[0]);
    if t == "none" || t == "0" then Some(DbSyncDebugLevel.none)
    else if t == "error" || t == "1" then Some(error)
    else if t == "warning" || t == "2" then Some(warning)
    else if t == "info" || t == "3" then Some(info)
    else if t == "verbose" || t == "4" then Some(verbose)
    else if t == "trace" || t == "5" then Some(trace)
    else None
  }

  /** A level's own description, whatever its case, parses back to that level. */
  lemma {:induction false} LevelFromDescription(l: DbSyncDebugLevel)
    ensures LevelFromString(l.Description()) == Some(l)
  {
    match l
    case none =>
      assert ToLower("None") == "none";
      assert LevelFromString("None") == Some(DbSyncDebugLevel.none);
    case error =>
      assert ToLower("Error") == "error";
      assert LevelFromString("Error") == Some(error);
    case warning =>
      assert ToLower("Warning") == "warning";
      assert LevelFromString("Warning") == Some(warning);
    case info =>
      assert ToLower("Info") == "info";
      assert LevelFromString("Info") == Some(info);
    case verbose =>
      assert ToLower("Verbose") == "verbose";
      assert LevelFromString("Verbose") == Some(verbose);
    case trace =>
      assert ToLower("Trace") == "trace";
      assert LevelFromString("Trace") == Some(trace);
  }

  /**
   * The whole `switch`: a string selects level `l` exactly when, lower-cased, it is `l`'s name
   * lower-cased, or it is the digit of `l`'s raw value; a string matching no level is ignored.
   */
  lemma {:induction false} LevelFromStringMatches(text: string, l: DbSyncDebugLevel)
    ensures LevelFromString(text) == Some(l) <==>
            ToLower(text) == ToLower(l.Description()) || text == [('0' as int + l.RawValue()) as char]
  {
    DigitIgnoresCase(text, ('0' as int + l.RawValue()) as char);
    match l
    case none => assert ToLower("None") == "none"; NoneMatches(text);
    case error => assert ToLower("Error") == "error"; ErrorMatches(text);
    case warning => assert ToLower("Warning") == "warning"; WarningMatches(text);
    case info => assert ToLower("Info") == "info"; InfoMatches(text);
    case verbose => assert ToLower("Verbose") == "verbose"; VerboseMatches(text);
    case trace => assert ToLower("Trace") == "trace"; TraceMatches(text);
  }

  // One arm of the switch per lemma: a level is picked by its lower-cased name or by its digit.
  lemma NoneMatches(text: string)
    ensures LevelFromString(text) == Some(DbSyncDebugLevel.none) <==> ToLower(text) == "none" || ToLower(text) == "0"
  {
  }

  lemma ErrorMatches(text: string)
    ensures LevelFromString(text) == Some(error) <==> ToLower(text) == "error" || ToLower(text) == "1"
  {
  }

  lemma WarningMatches(text: string)
    ensures LevelFromString(text) == Some(warning) <==> ToLower(text) == "warning" || ToLower(text) == "2"
  {
  }

  lemma InfoMatches(text: string)
    ensures LevelFromString(text) == Some(info) <==> ToLower(text) == "info" || ToLower(text) == "3"
  {
  }

  lemma VerboseMatches(text: string)
    ensures LevelFromString(text) == Some(verbose) <==> ToLower(text) == "verbose" || ToLower(text) == "4"
  {
  }

  lemma TraceMatches(text: string)
    ensures LevelFromString(text) == Some(trace) <==> ToLower(text) == "trace" || ToLower(text) == "5"
  {
  }

  /** Lower-casing leaves digits alone, so a string lower-cases to a digit only when it is that digit. */
  lemma DigitIgnoresCase(text: string, c: char)
    requires '0' <= c <= '9'
    ensures ToLower(text) == [c] <==> text == [c]
  {
    if |text| == 1 {
      assert ToLower(text)[0] == LowerChar(text[0]);
      assert text == [text[0]];
    }
  }

  /** Lower-casing a string that is already lower-cased changes nothing, so the match sees through case. */
  lemma LevelFromStringFoldsCase(text: string)
    ensures ToLower(ToLower(text)) == ToLower(text)
    ensures LevelFromString(ToLower(text)) == LevelFromString(text)
  {
    assert forall i | 0 <= i < |text| :: ToLower(ToLower(text))[i] == ToLower(text)[i];
  }

  /** The match ignores case: all capitals and mixed case select the same levels as the descriptions. */
  lemma LevelFromStringIgnoresCase()
    ensures LevelFromString("TRACE") == Some(trace)
    ensures LevelFromString("wArNiNg") == Some(warning)
    ensures LevelFromString("eRROR") == Some(error)
  {
    assert ToLower("TRACE") == "trace";
    assert ToLower("wArNiNg") == "warning";
    assert ToLower("eRROR") == "error";
  }

  /** A level's raw value written as one digit parses back to that level, like the `Int` entry does. */
  lemma {:induction false} LevelFromDigit(l: DbSyncDebugLevel)
    ensures LevelFromString([('0' as int + l.RawValue()) as char]) == LevelFromRawValue(l.RawValue())
  {
    match l
    case none =>
      assert ToLower("0") == "0";
      assert LevelFromString("0") == Some(DbSyncDebugLevel.none);
    case error =>
      assert ToLower("1") == "1";
      assert LevelFromString("1") == Some(error);
    case warning =>
      assert ToLower("2") == "2";
      assert LevelFromString("2") == Some(warning);
    case info =>
      assert ToLower("3") == "3";
      assert LevelFromString("3") == Some(info);
    case verbose =>
      assert ToLower("4") == "4";
      assert LevelFromString("4") == Some(verbose);
    case trace =>
      assert ToLower("5") == "5";
      assert LevelFromString("5") == Some(trace);
  }

  /** `ServerType`, of which the configuration keeps one. */
  datatype ServerType = none | aware | aware_micro | aware_x | aware_light

  /** The `serverType` branch of `set(config:)`: 0...4 select a type, any other `Int` selects `aware`. */
  function ServerTypeFromInt(i: int): (r: ServerType)
    ensures r == ServerType.aware <==> i == 1 || i < 0 || i > 4
    ensures i == 0 ==> r == ServerType.none
    ensures i == 2 ==> r == aware_micro
    ensures i == 3 ==> r == aware_x
    ensures i == 4 ==> r == aware_light
  {
    if i == 0 then ServerType.none
    else if i == 1 then aware
    else if i == 2 then aware_micro
    else if i == 3 then aware_x
    else if i == 4 then aware_light
    else aware
  }

  /** The value of every field of a `DbSyncConfig` that `set(config:)` can touch. */
  datatype SyncSettings = SyncSettings(
    removeAfterSync: bool,
    batchSize: int,
    markAsSynced: bool,
    skipSyncedData: bool,
    keepLastData: bool,
    deviceId: Option<string>,
    debug: bool,
    debugLevel: DbSyncDebugLevel,
    backgroundSession: bool,
    compactDataFormat: bool,
    serverType: ServerType,
    test: bool)

  /** The property initialisers of `DbSyncConfig`. */
  function Defaults(): (s: SyncSettings)
    ensures s.batchSize > 0
    ensures ApplyDictionary(s, map[]) == s
  {
    SyncSettings(false, 1000, false, false, false, None, false, info, true, false, aware, false)
  }

  /** The new `debugLevel` after `set(config:)` reads the `"debugLevel"` entry. */
  function DebugLevelEntry(d: Dict, previous: DbSyncDebugLevel): (r: DbSyncDebugLevel)
    ensures AsInt(d, "debugLevel").Some? ==>
      r == LevelFromRawValue(AsInt(d, "debugLevel").value).GetOr(previous)
    ensures AsString(d, "debugLevel").Some? ==>
      r == LevelFromString(AsString(d, "debugLevel").value).GetOr(previous)
    ensures AsInt(d, "debugLevel").None? && AsString(d, "debugLevel").None? ==> r == previous
  {
    match AsInt(d, "debugLevel")
    case Some(raw) => LevelFromRawValue(raw).GetOr(previous)
    case None =>
      match AsString(d, "debugLevel")
      case Some(text) => LevelFromString(text).GetOr(previous)
      case None => previous
  }

  /** The `removeAfterSync`, `batchSize` and `markAsSynced` entries of `set(config:)`. */
  function ApplyUploadEntries(s: SyncSettings, d: Dict): SyncSettings
  {
    s.(removeAfterSync := AsBool(d, "removeAfterSync").GetOr(s.removeAfterSync),
       batchSize := AsInt(d, "batchSize").GetOr(s.batchSize),
       markAsSynced := AsBool(d, "markAsSynced").GetOr(s.markAsSynced))
  }

  /** The `skipSyncedData`, `keepLastData` and `deviceId` entries of `set(config:)`. */
  function ApplyRetentionEntries(s: SyncSettings, d: Dict): SyncSettings
  {
    s.(skipSyncedData := AsBool(d, "skipSyncedData").GetOr(s.skipSyncedData),
       keepLastData := AsBool(d, "keepLastData").GetOr(s.keepLastData),
       deviceId := AsString(d, "deviceId"))
  }

  /** The `debug` and `debugLevel` entries of `set(config:)`. */
  function ApplyDebugEntries(s: SyncSettings, d: Dict): SyncSettings
  {
    s.(debug := AsBool(d, "debug").GetOr(s.debug),
       debugLevel := DebugLevelEntry(d, s.debugLevel))
  }

  /** The `test` and `serverType` entries of `set(config:)`. */
  function ApplyModeEntries(s: SyncSettings, d: Dict): SyncSettings
  {
    s.(test := AsBool(d, "test").GetOr(s.test),
       serverType := match AsInt(d, "serverType")
                     case Some(i) => ServerTypeFromInt(i)
                     case None => s.serverType)
  }

  /** What `set(config:)` makes of settings `s` given dictionary `d`, entry by entry in source order. */
  function ApplyDictionary(s: SyncSettings, d: Dict): (r: SyncSettings)
    ensures r.backgroundSession == s.backgroundSession && r.compactDataFormat == s.compactDataFormat
    ensures d == map[] ==> r == s.(deviceId := None)
  {
    ApplyModeEntries(ApplyDebugEntries(ApplyRetentionEntries(ApplyUploadEntries(s, d), d), d), d)
  }

  /** The upload entries are copied exactly when they have the expected Swift type; otherwise the field keeps its value. */
  lemma ApplyDictionaryUploadEntries(s: SyncSettings, d: Dict)
    ensures ApplyDictionary(s, d).removeAfterSync ==
      if "removeAfterSync" in d && d["removeAfterSync"].VBool? then d["removeAfterSync"].b else s.removeAfterSync
    ensures ApplyDictionary(s, d).batchSize ==
      if "batchSize" in d && d["batchSize"].VInt? then d["batchSize"].i else s.batchSize
    ensures ApplyDictionary(s, d).markAsSynced ==
      if "markAsSynced" in d && d["markAsSynced"].VBool? then d["markAsSynced"].b else s.markAsSynced
  {
    ApplyDictionaryUploadRemoveAfterSync(s, d);
    ApplyDictionaryUploadBatchSize(s, d);
    ApplyDictionaryUploadMarkAsSynced(s, d);
  }

  /** The `removeAfterSync` entry alone. */
  lemma ApplyDictionaryUploadRemoveAfterSync(s: SyncSettings, d: Dict)
    ensures ApplyDictionary(s, d).removeAfterSync ==
      if "removeAfterSync" in d && d["removeAfterSync"].VBool? then d["removeAfterSync"].b else s.removeAfterSync
  {
  }

  /** The `batchSize` entry alone. */
  lemma ApplyDictionaryUploadBatchSize(s: SyncSettings, d: Dict)
    ensures ApplyDictionary(s, d).batchSize ==
      if "batchSize" in d && d["batchSize"].VInt? then d["batchSize"].i else s.batchSize
  {
  }

  /** The `markAsSynced` entry alone. */
  lemma ApplyDictionaryUploadMarkAsSynced(s: SyncSettings, d: Dict)
    ensures ApplyDictionary(s, d).markAsSynced ==
      if "markAsSynced" in d && d["markAsSynced"].VBool? then d["markAsSynced"].b else s.markAsSynced
  {
  }

  /** The retention entries likewise; `deviceId` is always overwritten, with nil when the entry is not a string. */
  lemma ApplyDictionaryRetentionEntries(s: SyncSettings, d: Dict)
    ensures ApplyDictionary(s, d).skipSyncedData ==
      if "skipSyncedData" in d && d["skipSyncedData"].VBool? then d["skipSyncedData"].b else s.skipSyncedData
    ensures ApplyDictionary(s, d).keepLastData ==
      if "keepLastData" in d && d["keepLastData"].VBool? then d["keepLastData"].b else s.keepLastData
    ensures ApplyDictionary(s, d).deviceId ==
      if "deviceId" in d && d["deviceId"].VString? then Some(d["deviceId"].s) else None
  {
    ApplyDictionaryRetentionSkipSyncedData(s, d);
    ApplyDictionaryRetentionKeepLastData(s, d);
    ApplyDictionaryRetentionDeviceId(s, d);
  }

  /** The `skipSyncedData` entry alone. */
  lemma ApplyDictionaryRetentionSkipSyncedData(s: SyncSettings, d: Dict)
    ensures ApplyDictionary(s, d).skipSyncedData ==
      if "skipSyncedData" in d && d["skipSyncedData"].VBool? then d["skipSyncedData"].b else s.skipSyncedData
  {
  }

  /** The `keepLastData` entry alone. */
  lemma ApplyDictionaryRetentionKeepLastData(s: SyncSettings, d: Dict)
    ensures ApplyDictionary(s, d).keepLastData ==
      if "keepLastData" in d && d["keepLastData"].VBool? then d["keepLastData"].b else s.keepLastData
  {
  }

  /** The `deviceId` entry alone. */
  lemma ApplyDictionaryRetentionDeviceId(s: SyncSettings, d: Dict)
    ensures ApplyDictionary(s, d).deviceId ==
      if "deviceId" in d && d["deviceId"].VString? then Some(d["deviceId"].s) else None
  {
  }

  /**
   * The debug entries: an `Int` level is looked up by raw value, a `String` level by name or digit,
   * and an unknown level leaves the old one.
   */
  lemma ApplyDictionaryDebugEntries(s: SyncSettings, d: Dict)
    ensures ApplyDictionary(s, d).debug ==
      if "debug" in d && d["debug"].VBool? then d["debug"].b else s.debug
    ensures "debugLevel" in d && d["debugLevel"].VInt? ==>
      ApplyDictionary(s, d).debugLevel == LevelFromRawValue(d["debugLevel"].i).GetOr(s.debugLevel)
    ensures "debugLevel" in d && d["debugLevel"].VString? ==>
      ApplyDictionary(s, d).debugLevel == LevelFromString(d["debugLevel"].s).GetOr(s.debugLevel)
    ensures !("debugLevel" in d && (d["debugLevel"].VInt? || d["debugLevel"].VString?)) ==>
      ApplyDictionary(s, d).debugLevel == s.debugLevel
  {
  }

  /** The mode entries; `backgroundSession` and `compactDataFormat` are never read from the dictionary. */
  lemma ApplyDictionaryModeEntries(s: SyncSettings, d: Dict)
    ensures ApplyDictionary(s, d).test ==
      if "test" in d && d["test"].VBool? then d["test"].b else s.test
    ensures ApplyDictionary(s, d).serverType ==
      if "serverType" in d && d["serverType"].VInt? then ServerTypeFromInt(d["serverType"].i) else s.serverType
    ensures ApplyDictionary(s, d).backgroundSession == s.backgroundSession
    ensures ApplyDictionary(s, d).compactDataFormat == s.compactDataFormat
  {
  }

  /** Applying the same dictionary twice is the same as applying it once. */
  lemma ApplyDictionaryIsIdempotent(s: SyncSettings, d: Dict)
    ensures ApplyDictionary(ApplyDictionary(s, d), d) == ApplyDictionary(s, d)
  {
    var once := ApplyDictionary(s, d);
    ApplyDictionaryUploadEntries(s, d);
    ApplyDictionaryUploadEntries(once, d);
    ApplyDictionaryRetentionEntries(s, d);
    ApplyDictionaryRetentionEntries(once, d);
    ApplyDictionaryDebugEntries(s, d);
    ApplyDictionaryDebugEntries(once, d);
    ApplyDictionaryModeEntries(s, d);
    ApplyDictionaryModeEntries(once, d);
  }

  /** The dictionary of wrongly typed values in the library's tests leaves the defaults in place. */
  lemma WronglyTypedDictionaryKeepsDefaults()
    ensures ApplyDictionary(Defaults(), map["removeAfterSync" := VInt(1234), "batchSize" := VString("123"),
                                           "markAsSynced" := VInt(444), "skipSyncedData" := VInt(23),
                                           "keepLastData" := VInt(444), "deviceId" := VInt(123),
                                           "debug" := VString("hoge")]) == Defaults()
  {
  }

  class DbSyncConfig {
    var removeAfterSync: bool
    var batchSize: int
    var markAsSynced: bool
    var skipSyncedData: bool
    var keepLastData: bool
    var deviceId: Option<string>
    var debug: bool
    var debugLevel: DbSyncDebugLevel
    /** Whether a `progressHandler` closure is installed; the closure itself is not modelled. */
    var hasProgressHandler: bool
    var backgroundSession: bool
    var compactDataFormat: bool
    var serverType: ServerType
    var test: bool

    function Settings(): SyncSettings
      reads this
    {
      SyncSettings(removeAfterSync, batchSize, markAsSynced, skipSyncedData, keepLastData, deviceId,
                   debug, debugLevel, backgroundSession, compactDataFormat, serverType, test)
    }

    /** `init()`: every field at its default. */
    constructor ()
      ensures Settings() == Defaults() && !hasProgressHandler
    {
      removeAfterSync := false;
      batchSize := 1000;
      markAsSynced := false;
      skipSyncedData := false;
      keepLastData := false;
      deviceId := None;
      debug := false;
      debugLevel := info;
      hasProgressHandler := false;
      backgroundSession := true;
      compactDataFormat := false;
      serverType := aware;
      test := false;
    }

    /** `init(_ config:)`: the defaults, then `set(config:)`. */
    constructor FromDictionary(config: Dict)
      ensures Settings() == ApplyDictionary(Defaults(), config) && !hasProgressHandler
    {
      removeAfterSync := false;
      batchSize := 1000;
      markAsSynced := false;
      skipSyncedData := false;
      keepLastData := false;
      deviceId := None;
      debug := false;
      debugLevel := info;
      hasProgressHandler := false;
      backgroundSession := true;
      compactDataFormat := false;
      serverType := aware;
      test := false;
      new;
      Set(config);
    }

    /** `set(config:)`: copies each entry of the expected type, field by field. */
    method Set(config: Dict)
      modifies this
      ensures Settings() == ApplyDictionary(old(Settings()), config)
      ensures hasProgressHandler == old(hasProgressHandler)
    {
      SetUploadEntries(config);
      SetRetentionEntries(config);
      SetDebugEntries(config);
      SetModeEntries(config);
    }

    /** The upload entries of `set(config:)`, in source order. */
    method SetUploadEntries(config: Dict)
      modifies this
      ensures Settings() == ApplyUploadEntries(old(Settings()), config)
      ensures hasProgressHandler == old(hasProgressHandler)
    {
      removeAfterSync := AsBool(config, "removeAfterSync").GetOr(removeAfterSync);
      batchSize := AsInt(config, "batchSize").GetOr(batchSize);
      markAsSynced := AsBool(config, "markAsSynced").GetOr(markAsSynced);
    }

    /** The retention entries of `set(config:)`, in source order. */
    method SetRetentionEntries(config: Dict)
      modifies this
      ensures Settings() == ApplyRetentionEntries(old(Settings()), config)
      ensures hasProgressHandler == old(hasProgressHandler)
    {
      skipSyncedData := AsBool(config, "skipSyncedData").GetOr(skipSyncedData);
      keepLastData := AsBool(config, "keepLastData").GetOr(keepLastData);
      deviceId := AsString(config, "deviceId");
    }

    /** The debug entries of `set(config:)`, in source order. */
    method SetDebugEntries(config: Dict)
      modifies this
      ensures Settings() == ApplyDebugEntries(old(Settings()), config)
      ensures hasProgressHandler == old(hasProgressHandler)
    {
      debug := AsBool(config, "debug").GetOr(debug);
      if AsInt(config, "debugLevel").Some? {
        debugLevel := LevelFromRawValue(AsInt(config, "debugLevel").value).GetOr(debugLevel);
      } else if AsString(config, "debugLevel").Some? {
        debugLevel := LevelFromString(AsString(config, "debugLevel").value).GetOr(debugLevel);
      }
    }

    /** The mode entries of `set(config:)`, in source order. */
    method SetModeEntries(config: Dict)
      modifies this
      ensures Settings() == ApplyModeEntries(old(Settings()), config)
      ensures hasProgressHandler == old(hasProgressHandler)
    {
      test := AsBool(config, "test").GetOr(test);
      if AsInt(config, "serverType").Some? {
        serverType := ServerTypeFromInt(AsInt(config, "serverType").value);
      }
    }

    /** `apply(closure:)`: runs the closure on this configuration and returns the same instance. */
    method Apply(closure: SyncSettings -> SyncSettings) returns (r: DbSyncConfig)
      modifies this
      ensures r == this
      ensures Settings() == closure(old(Settings()))
      ensures hasProgressHandler == old(hasProgressHandler)
    {
      var s := closure(Settings());
      AssignUploadFields(s);
      AssignDebugFields(s);
      AssignModeFields(s);
      r := this;
    }

    /** The first third of writing settings `s` back into the fields. */
    method AssignUploadFields(s: SyncSettings)
      modifies this
      ensures Settings() == old(Settings()).(removeAfterSync := s.removeAfterSync, batchSize := s.batchSize,
                                             markAsSynced := s.markAsSynced, skipSyncedData := s.skipSyncedData)
      ensures hasProgressHandler == old(hasProgressHandler)
    {
      removeAfterSync, batchSize, markAsSynced, skipSyncedData := s.removeAfterSync, s.batchSize, s.markAsSynced, s.skipSyncedData;
    }

    /** The second third. */
    method AssignDebugFields(s: SyncSettings)
      modifies this
      ensures Settings() == old(Settings()).(keepLastData := s.keepLastData, deviceId := s.deviceId,
                                             debug := s.debug, debugLevel := s.debugLevel)
      ensures hasProgressHandler == old(hasProgressHandler)
    {
      keepLastData, deviceId, debug, debugLevel := s.keepLastData, s.deviceId, s.debug, s.debugLevel;
    }

    /** The last third. */
    method AssignModeFields(s: SyncSettings)
      modifies this
      ensures Settings() == old(Settings()).(backgroundSession := s.backgroundSession, compactDataFormat := s.compactDataFormat,
                                             serverType := s.serverType, test := s.test)
      ensures hasProgressHandler == old(hasProgressHandler)
    {
      backgroundSession, compactDataFormat, serverType, test := s.backgroundSession, s.compactDataFormat, s.serverType, s.test;
    }
  }
}
