/**
 * `SensorConfig`: the settings every sensor module starts from, the convenience
 * initialiser, `set(config:)` over a heterogeneous dictionary, and `verify()`.
 * `AwareUtils.getCommonDeviceId()` reads platform storage; its value is passed in.
 */
module SensorConfigs {
  import opened Wrappers
  import opened Values

  /** The value of every field of a `SensorConfig`. */
  datatype SensorSettings = SensorSettings(
    enabled: bool,
    debug: bool,
    labelText: string,       // `label`, a reserved word in Dafny
    deviceId: string,
    dbEncryptionKey: Option<string>,
    dbType: DatabaseType,
    dbPath: string,
    dbHost: Option<string>,
    dbTableName: Option<string>)

  /** The property initialisers of `SensorConfig`; `commonDeviceId` is what `getCommonDeviceId()` returns. */
  function Defaults(commonDeviceId: string): (s: SensorSettings)
    ensures !Verified(s) && !s.enabled && s.deviceId == commonDeviceId
  {
    SensorSettings(false, false, "", commonDeviceId, None, NONE, "aware", None, None)
  }

  /** `verify()`: a configuration is usable exactly when it names its table. */
  predicate Verified(s: SensorSettings)
  {
    s.dbTableName.Some?
  }

  /**
   * The two `dbType` statements of `set(config:)`: an `Int` 0 or 1 selects a back-end, any other
   * `Int` is ignored, and a `DatabaseType` value is taken as it is.
   */
  function DbTypeEntry(d: Dict, previous: DatabaseType): (r: DatabaseType)
    ensures "dbType" in d && d["dbType"] == VInt(0) ==> r == NONE
    ensures "dbType" in d && d["dbType"] == VInt(1) ==> r == SQLite
    ensures "dbType" in d && d["dbType"].VDatabaseType? ==> r == d["dbType"].t
    ensures !("dbType" in d && (d["dbType"] in {VInt(0), VInt(1)} || d["dbType"].VDatabaseType?)) ==> r == previous
  {
    var fromInt :=
      match AsInt(d, "dbType")
      case Some(i) => if i == 0 then NONE else if i == 1 then SQLite else previous
      case None => previous;
    AsDatabaseType(d, "dbType").GetOr(fromInt)
  }

  /** The `enabled`, `debug` and `label` entries of `set(config:)`. */
  function ApplyFlagEntries(s: SensorSettings, d: Dict): SensorSettings
  {
    s.(enabled := AsBool(d, "enabled").GetOr(s.enabled),
       debug := AsBool(d, "debug").GetOr(s.debug),
       labelText := AsString(d, "label").GetOr(s.labelText))
  }

  /** The `deviceId` and `dbEncryptionKey` entries of `set(config:)`. */
  function ApplyIdentityEntries(s: SensorSettings, d: Dict): SensorSettings
  {
    s.(deviceId := AsString(d, "deviceId").GetOr(s.deviceId),
       dbEncryptionKey := AsString(d, "dbEncryptionKey"))
  }

  /** The `dbType` and `dbPath` entries of `set(config:)`. */
  function ApplyStorageEntries(s: SensorSettings, d: Dict): SensorSettings
  {
    s.(dbType := DbTypeEntry(d, s.dbType),
       dbPath := AsString(d, "dbPath").GetOr(s.dbPath))
  }

  /** The `dbHost` and `dbTableName` entries of `set(config:)`. */
  function ApplyLocationEntries(s: SensorSettings, d: Dict): SensorSettings
  {
    s.(dbHost := if AsString(d, "dbHost").Some? then AsString(d, "dbHost") else s.dbHost,
       dbTableName := if AsString(d, "dbTableName").Some? then AsString(d, "dbTableName") else s.dbTableName)
  }

  /** What `set(config:)` makes of settings `s` given dictionary `d`, entry by entry in source order. */
  function ApplyDictionary(s: SensorSettings, d: Dict): (r: SensorSettings)
    ensures Verified(s) ==> Verified(r)
    ensures d == map[] ==> r == s.(dbEncryptionKey := None)
  {
    ApplyLocationEntries(ApplyStorageEntries(ApplyIdentityEntries(ApplyFlagEntries(s, d), d), d), d)
  }

  /** `enabled`, `debug` and `label` are copied exactly when they have the expected Swift type. */
  lemma ApplyDictionaryFlagEntries(s: SensorSettings, d: Dict)
    ensures ApplyDictionary(s, d).enabled ==
      if "enabled" in d && d["enabled"].VBool? then d["enabled"].b else s.enabled
    ensures ApplyDictionary(s, d).debug ==
      if "debug" in d && d["debug"].VBool? then d["debug"].b else s.debug
    ensures ApplyDictionary(s, d).labelText ==
      if "label" in d && d["label"].VString? then d["label"].s else s.labelText
  {
  }

  /** `deviceId` likewise; `dbEncryptionKey` is always overwritten, with nil when the entry is not a string. */
  lemma ApplyDictionaryIdentityEntries(s: SensorSettings, d: Dict)
    ensures ApplyDictionary(s, d).deviceId ==
      if "deviceId" in d && d["deviceId"].VString? then d["deviceId"].s else s.deviceId
    ensures ApplyDictionary(s, d).dbEncryptionKey ==
      if "dbEncryptionKey" in d && d["dbEncryptionKey"].VString? then Some(d["dbEncryptionKey"].s) else None
  {
  }

  /** `dbType` follows `DbTypeEntry`; `dbPath`, `dbHost` and `dbTableName` are copied only from strings. */
  lemma ApplyDictionaryStorageEntries(s: SensorSettings, d: Dict)
    ensures ApplyDictionary(s, d).dbType == DbTypeEntry(d, s.dbType)
    ensures ApplyDictionary(s, d).dbPath ==
      if "dbPath" in d && d["dbPath"].VString? then d["dbPath"].s else s.dbPath
  {
  }

  /** `dbHost` and `dbTableName` are copied only from strings and otherwise keep their value. */
  lemma ApplyDictionaryLocationEntries(s: SensorSettings, d: Dict)
    ensures ApplyDictionary(s, d).dbHost ==
      if "dbHost" in d && d["dbHost"].VString? then Some(d["dbHost"].s) else s.dbHost
    ensures ApplyDictionary(s, d).dbTableName ==
      if "dbTableName" in d && d["dbTableName"].VString? then Some(d["dbTableName"].s) else s.dbTableName
  {
  }

  /** A configuration passes `verify()` after `set(config:)` iff the dictionary names a table or it already had one. */
  lemma {:induction false} VerifiedAfterApply(s: SensorSettings, d: Dict)
    ensures Verified(ApplyDictionary(s, d)) <==>
      ("dbTableName" in d && d["dbTableName"].VString?) || Verified(s)
  {
    ApplyDictionaryLocationEntries(s, d);
  }

  /** A fresh configuration does not pass `verify()`: the table name has no default. */
  lemma DefaultsAreNotVerified(commonDeviceId: string)
    ensures !Verified(Defaults(commonDeviceId))
    ensures Defaults(commonDeviceId).dbPath == "aware" && Defaults(commonDeviceId).dbType == NONE
  {
  }

  /** The sequence of `set(config:)` calls of the library's `dbType` test. */
  lemma DbTypeSequence(commonDeviceId: string)
    ensures ApplyDictionary(Defaults(commonDeviceId), map["dbType" := VDatabaseType(NONE)]).dbType == NONE
    ensures ApplyDictionary(Defaults(commonDeviceId), map["dbType" := VInt(0)]).dbType == NONE
    ensures ApplyDictionary(Defaults(commonDeviceId), map["dbType" := VInt(1)]).dbType == SQLite
    ensures ApplyDictionary(Defaults(commonDeviceId), map["dbType" := VDatabaseType(SQLite)]).dbType == SQLite
  {
  }

  /** An `Int` other than 0 or 1 under `"dbType"` leaves the back-end as it was. */
  lemma {:induction false} OtherIntDbTypeIsIgnored(s: SensorSettings, i: int)
    requires i != 0 && i != 1
    ensures ApplyDictionary(s, map["dbType" := VInt(i)]).dbType == s.dbType
  {
    ApplyDictionaryStorageEntries(s, map["dbType" := VInt(i)]);
  }

  class SensorConfig {
    var enabled: bool
    var debug: bool
    var labelText: string
    var deviceId: string
    var dbEncryptionKey: Option<string>
    var dbType: DatabaseType
    var dbPath: string
    var dbHost: Option<string>
    var dbTableName: Option<string>

    function Settings(): SensorSettings
      reads this
    {
      SensorSettings(enabled, debug, labelText, deviceId, dbEncryptionKey, dbType, dbPath, dbHost, dbTableName)
    }

    /** `init()`: every property at its initial value. */
    constructor (commonDeviceId: string)
      ensures Settings() == Defaults(commonDeviceId)
    {
      enabled := false;
      debug := false;
      labelText := "";
      deviceId := commonDeviceId;
      dbEncryptionKey := None;
      dbType := NONE;
      dbPath := "aware";
      dbHost := None;
      dbTableName := None;
    }

    /** The convenience initialiser with defaulted arguments; nil `deviceId`, `dbPath` and `label` take their defaults. */
    constructor WithValues(dbType: DatabaseType, deviceId: Option<string>, dbPath: Option<string>,
                           enabled: bool, debug: bool, labelText: Option<string>, dbEncryptionKey: Option<string>,
                           dbHost: Option<string>, dbTableName: string, commonDeviceId: string)
      ensures Settings() == SensorSettings(enabled, debug, labelText.GetOr(""), deviceId.GetOr(commonDeviceId),
                                           dbEncryptionKey, dbType, dbPath.GetOr("aware"), dbHost, Some(dbTableName))
      ensures Verified(Settings())
    {
      this.deviceId := deviceId.GetOr(commonDeviceId);
      this.dbPath := dbPath.GetOr("aware");
      this.enabled := enabled;
      this.debug := debug;
      this.dbType := dbType;
      this.labelText := labelText.GetOr("");
      this.dbEncryptionKey := dbEncryptionKey;
      this.dbHost := dbHost;
      this.dbTableName := Some(dbTableName);
    }

    /** `init(_ config:)`: the initial values, then `set(config:)`. */
    constructor FromDictionary(config: Dict, commonDeviceId: string)
      ensures Settings() == ApplyDictionary(Defaults(commonDeviceId), config)
    {
      enabled := false;
      debug := false;
      labelText := "";
      deviceId := commonDeviceId;
      dbEncryptionKey := None;
      dbType := NONE;
      dbPath := "aware";
      dbHost := None;
      dbTableName := None;
      new;
      Set(config);
    }

    /** `set(config:)`: copies each entry of the expected type, field by field. */
    method Set(config: Dict)
      modifies this
      ensures Settings() == ApplyDictionary(old(Settings()), config)
    {
      SetFlagEntries(config);
      SetIdentityEntries(config);
      SetStorageEntries(config);
      SetLocationEntries(config);
    }

    /** The flag entries of `set(config:)`, in source order. */
    method SetFlagEntries(config: Dict)
      modifies this
      ensures Settings() == ApplyFlagEntries(old(Settings()), config)
    {
      enabled := AsBool(config, "enabled").GetOr(enabled);
      debug := AsBool(config, "debug").GetOr(debug);
      labelText := AsString(config, "label").GetOr(labelText);
    }

    /** The identity entries of `set(config:)`, in source order. */
    method SetIdentityEntries(config: Dict)
      modifies this
      ensures Settings() == ApplyIdentityEntries(old(Settings()), config)
    {
      deviceId := AsString(config, "deviceId").GetOr(deviceId);
      dbEncryptionKey := AsString(config, "dbEncryptionKey");
    }

    /** The storage entries of `set(config:)`, in source order. */
    method SetStorageEntries(config: Dict)
      modifies this
      ensures Settings() == ApplyStorageEntries(old(Settings()), config)
    {
      if AsInt(config, "dbType").Some? {
        var i := AsInt(config, "dbType").value;
        if i == 0 {
          dbType := NONE;
        } else if i == 1 {
          dbType := SQLite;
        }
      }
      if AsDatabaseType(config, "dbType").Some? {
        dbType := AsDatabaseType(config, "dbType").value;
      }
      dbPath := AsString(config, "dbPath").GetOr(dbPath);
    }

    /** The location entries of `set(config:)`, in source order. */
    method SetLocationEntries(config: Dict)
      modifies this
      ensures Settings() == ApplyLocationEntries(old(Settings()), config)
    {
      if AsString(config, "dbHost").Some? {
        dbHost := AsString(config, "dbHost");
      }
      if AsString(config, "dbTableName").Some? {
        dbTableName := AsString(config, "dbTableName");
      }
    }

    /** `verify()`: false exactly when `dbTableName` is nil. */
    method Verify() returns (ok: bool)
      ensures ok <==> Verified(Settings())
    {
      if dbTableName.None? {
        return false;
      }
      return true;
    }
  }
}
