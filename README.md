# AWARE iOS core: data synchronisation, configuration and utilities, in Dafny

This project models the core of the AWARE Framework's iOS core library: the part that
configures sensors and uploads what they have recorded to an AWARE server.

- **`DbSyncHelper`** (`sync_engine.dfy`, with `sync_cursors.dfy` and `sync_requests.dfy`) uploads
  one table in batches. Each table has a cursor, the id of the last record uploaded, kept in
  `UserDefaults` under `aware.sync.task.last_uploaded_id.<table>`.
  - A run reads the cursor and, on the first batch of a session, counts the records above it.
  - It then fetches up to `batchSize` records above the cursor and posts them as
    `device_id=…&data=<JSON>`. The JSON is row by row, or one column per key in the compact
    format, which leaves out `os`, `jsonVersion`, `deviceId` and `timezone`.
  - The session delegate judges the answer. Outside the 2xx range the task is cancelled.
    A body whose JSON `status` is 404 is a failure. Anything else, including an empty or
    unparseable body, is a success.
  - On success the helper counts the batch and deletes it if `removeAfterSync` is set. It then
    moves the cursor to the batch's last id, and either completes or queues the next batch.
  - The helper also answers for its state: stopping gracefully or at once, resetting,
    statistics and progress.
  - The record store is the in-memory `MockEngine` of the library's unit tests
    (`mock_engine.dfy`). Its `"id > N"` filter, `prefix(limit)` fetch, count and one-by-one
    delete are modelled exactly.
- **`DbSyncConfig`** (`db_sync_config.dfy`) holds the synchronisation settings, with their defaults
  and `set(config:)` over a `Dictionary<String, Any>`. An entry is taken only when it has the
  Swift type the source casts to.
- **`SensorConfig`** (`sensor_config.dfy`) holds the settings every sensor starts from. It also
  covers the convenience initialiser, `set(config:)` and `verify()`.
- **`DbSyncManager.Builder`** (`db_sync_manager.dfy`) builds the manager's configuration. The
  sensor list never holds two sensors with the same id.
- **`AwareUtils`** (`aware_utils.dfy`) covers `cleanHostName` and `getTimeZone`. Swift's `Int`
  division truncates toward zero, and the model writes that out.

Dictionaries are `map<string, Value>`, where `Value` keeps the Swift type an `as?` cast tells
apart for native Swift values (`values.dfy`). Class state that the source updates in place is class state here, with
methods proved against pure functions of the old state:
- `Finished`, `AfterResponse`, `AfterSend` and `BatchSession` for sessions;
- `CursorsAfterResponse` for the cursor store;
- `DropMatching` for the record store.

Lemmas then state what those functions promise. Among them:
- a cursor moves only forward, and only for an uploaded batch;
- when the store keeps its ids in ascending order (the mock store does not check this, and the
  SQL fetch of the library has no `ORDER BY`), the batch after a deleted batch is exactly the
  records the first one did not take;
- `set(config:)` is idempotent;
- the state names are injective;
- the upload percentage stays within 0..100 while no more records were uploaded than counted.

Five behaviours of the source are modelled as written:
- `progress` is never written outside `resetSyncState`, so `getCurrentProgress()` reports 0.0
  throughout (`BatchEnds`).
- `originalNumOfCandidates` is kept across sessions unless the helper is reset, so a later
  session reuses an earlier count (`CountKeptAcrossSessions`, `ResetRecounts`).
- `handleSyncCompletion` with no error records the failure as "Unknown sync error", but hands
  `nil` to the callbacks (`Finished`).
- `isLastBatch` is set by a short batch and cleared only by `resetSyncState`. A helper that is
  run again without a reset treats its next full batch as the last one too, and completes
  after it whatever is left in the store (`StickyLastBatchCompletes`).
- The statistics percentage is not clamped. With a count kept from an earlier session, the
  uploaded total can pass it, and the percentage goes above 100
  (`PercentageExceedsHundredAcrossSessions`).

## Model

| member | source | states |
|---|---|---|
| Values.AsBool | Sources/com.awareframework.ios.core/db/core/DbSyncConfig.swift:90-92 | `config[key] as? Bool`: a value exactly when the entry exists and is a Bool, and then it is that Bool |
| Values.AsInt | Sources/com.awareframework.ios.core/db/core/DbSyncConfig.swift:94-96 | `as? Int`: a value exactly when the entry is an Int, and then it is that Int |
| Values.AsInt64 | Tests/com.awareframework.ios.coreTests/DbSyncHelperTests.swift:38-41 | `item["id"] as? Int64`: a value exactly when the entry is an Int64, and then it is that Int64 |
| Values.AsString | Sources/com.awareframework.ios.core/db/core/DbSyncConfig.swift:110 | `as? String`: a value exactly when the entry is a String, and then it is that String |
| Values.AsDatabaseType | Sources/com.awareframework.ios.core/model/SensorConfig.swift:77-79 | `as? DatabaseType`: a value exactly when the entry is a DatabaseType, and then it is that value |
| AwareUtils.FirstOccurrence | Sources/com.awareframework.ios.core/util/AwareUtils.swift:54 | `range(of:)`: found exactly when the pattern occurs, at its first occurrence |
| AwareUtils.RemoveFirst | Sources/com.awareframework.ios.core/util/AwareUtils.swift:54-56 | `removeSubrange` of the first match: when the pattern occurs, the result is the text before its first occurrence followed by the text after it; unchanged otherwise |
| AwareUtils.CleanHostNameKeepsPlainHost | Sources/com.awareframework.ios.core/util/AwareUtils.swift:52-62 | a host containing neither "http://" nor "https://" comes back unchanged |
| AwareUtils.CleanHostNameLength | Sources/com.awareframework.ios.core/util/AwareUtils.swift:52-62 | the result loses 7 characters if "http://" occurs, then 8 more if "https://" occurs in what is left; never longer than the input |
| AwareUtils.CleanHostNameStripsHttp | Sources/com.awareframework.ios.core/util/AwareUtils.swift:52-62 | cleanHostName("http://" + h) == h for a host h without "https://" |
| AwareUtils.CleanHostNameStripsHttps | Sources/com.awareframework.ios.core/util/AwareUtils.swift:52-62 | cleanHostName("https://" + h) == h for a host h without "http://" |
| AwareUtils.CleanHostName | Sources/com.awareframework.ios.core/util/AwareUtils.swift:52-62 | never longer than the input; a host with neither scheme comes back as it is |
| AwareUtils.CleanHostNameStripsInnerHttp | Sources/com.awareframework.ios.core/util/AwareUtils.swift:52-62 | "http://" in the middle of a host is removed where it stands: cleanHostName(a + "http://" + b) == a + b when a has no "http://" and a + b no "https://" |
| AwareUtils.TruncDiv | Sources/com.awareframework.ios.core/util/AwareUtils.swift:21 | Swift `/` on Int rounds toward zero: for a >= 0 the remainder a - q*b lies in [0, b), for a < 0 in (-b, 0] |
| AwareUtils.TruncDivIsOdd | Sources/com.awareframework.ios.core/util/AwareUtils.swift:21 | truncating division is odd: (-a)/b == -(a/b) |
| AwareUtils.GetTimeZone | Sources/com.awareframework.ios.core/util/AwareUtils.swift:19-22 | the offset keeps the sign of secondsFromGMT, and less than an hour either way gives 0 |
| AwareUtils.GetTimeZoneIsHoursTruncated | Sources/com.awareframework.ios.core/util/AwareUtils.swift:19-22 | `secondsFromGMT/60/60` equals the offset divided by 3600, rounded toward zero |
| AwareUtils.GetTimeZoneOfMinusThreeThirty | Sources/com.awareframework.ios.core/util/AwareUtils.swift:19-22 | an offset of -12600 s gives -3, not -4 |
| DbSyncConfigs.DbSyncDebugLevel.RawValue | Sources/com.awareframework.ios.core/db/core/DbSyncConfig.swift:41-48 | none = 0, error = 1, warning = 2, info = 3, verbose = 4, trace = 5 |
| DbSyncConfigs.DbSyncDebugLevel.Description | Sources/com.awareframework.ios.core/db/core/DbSyncConfig.swift:50-59 | a capitalised name of 4 to 7 letters (LevelFromDescription reads it back) |
| DbSyncConfigs.LevelFromRawValue | Sources/com.awareframework.ios.core/db/core/DbSyncConfig.swift:41-48 | `DbSyncDebugLevel(rawValue:)`: defined exactly on 0..5 and inverse to the raw value |
| DbSyncConfigs.RawValueRoundTrip | Sources/com.awareframework.ios.core/db/core/DbSyncConfig.swift:41-48 | every level survives a raw-value round trip; raw values are distinct |
| DbSyncConfigs.ToLower | Sources/com.awareframework.ios.core/db/core/DbSyncConfig.swift:121 | `lowercased()`, on ASCII letters only, keeps the length (see Left out) |
| DbSyncConfigs.LevelFromString | Sources/com.awareframework.ios.core/db/core/DbSyncConfig.swift:116-130 | a match is either one character, a digit that gives the level with that raw value, or text as long as the level's name |
| DbSyncConfigs.LevelFromDescription | Sources/com.awareframework.ios.core/db/core/DbSyncConfig.swift:50-59 | each level's description, read back case-insensitively as a `debugLevel` string, gives that level |
| DbSyncConfigs.LevelFromStringMatches | Sources/com.awareframework.ios.core/db/core/DbSyncConfig.swift:120-129 | for every string and level: the string selects the level exactly when, lower-cased, it equals the level's name lower-cased, or it is the digit of the level's raw value; a string matching no level selects nothing |
| DbSyncConfigs.LevelFromStringFoldsCase | Sources/com.awareframework.ios.core/db/core/DbSyncConfig.swift:120-129 | lower-casing is idempotent, and the match of a string equals the match of its lower-cased form |
| DbSyncConfigs.LevelFromStringIgnoresCase | Sources/com.awareframework.ios.core/db/core/DbSyncConfig.swift:121-129 | "TRACE", "wArNiNg" and "eRROR" select trace, warning and error: case does not matter |
| DbSyncConfigs.LevelFromDigit | Sources/com.awareframework.ios.core/db/core/DbSyncConfig.swift:121-129 | the digit string of a raw value gives the same level as the Int |
| DbSyncConfigs.ServerTypeFromInt | Sources/com.awareframework.ios.core/db/core/DbSyncConfig.swift:136-150 | 0 gives none, 2 aware_micro, 3 aware_x, 4 aware_light; `aware` exactly for 1 and for any Int outside 0..4 |
| DbSyncConfigs.DebugLevelEntry | Sources/com.awareframework.ios.core/db/core/DbSyncConfig.swift:116-130 | an Int entry is looked up by raw value, else a String entry by name or digit; an unknown value keeps the old level |
| DbSyncConfigs.Defaults | Sources/com.awareframework.ios.core/db/core/DbSyncConfig.swift:64-79 | a positive batch size; `set(config:)` with an empty dictionary leaves the defaults as they are |
| DbSyncConfigs.ApplyDictionary | Sources/com.awareframework.ios.core/db/core/DbSyncConfig.swift:89-151 | backgroundSession and compactDataFormat are never read; an empty dictionary changes only deviceId, to nil |
| DbSyncConfigs.ApplyDictionaryUploadEntries | Sources/com.awareframework.ios.core/db/core/DbSyncConfig.swift:90-100 | removeAfterSync, batchSize, markAsSynced are copied exactly when correctly typed, otherwise kept |
| DbSyncConfigs.ApplyDictionaryRetentionEntries | Sources/com.awareframework.ios.core/db/core/DbSyncConfig.swift:102-110 | skipSyncedData and keepLastData are copied only when Bool; deviceId is always overwritten, nil when missing or not a String |
| DbSyncConfigs.ApplyDictionaryDebugEntries | Sources/com.awareframework.ios.core/db/core/DbSyncConfig.swift:112-130 | debug copied only when Bool; debugLevel as DebugLevelEntry, other types ignored |
| DbSyncConfigs.ApplyDictionaryModeEntries | Sources/com.awareframework.ios.core/db/core/DbSyncConfig.swift:132-150 | test copied only when Bool; serverType from any Int; backgroundSession and compactDataFormat never read |
| DbSyncConfigs.ApplyDictionaryIsIdempotent | Sources/com.awareframework.ios.core/db/core/DbSyncConfig.swift:89-151 | applying the same dictionary twice equals applying it once |
| DbSyncConfigs.WronglyTypedDictionaryKeepsDefaults | Tests/com.awareframework.ios.coreTests/com_awareframework_ios_coreTests.swift:75-91 | the wrongly typed dictionary of the tests leaves every default in place |
| DbSyncConfigs.DbSyncConfig.constructor | Sources/com.awareframework.ios.core/db/core/DbSyncConfig.swift:64-83 | a fresh configuration holds the defaults (batchSize 1000, debugLevel info, backgroundSession true, server aware, the rest false or nil) |
| DbSyncConfigs.DbSyncConfig.FromDictionary | Sources/com.awareframework.ios.core/db/core/DbSyncConfig.swift:85-87 | the defaults after `set(config:)` |
| DbSyncConfigs.DbSyncConfig.Set | Sources/com.awareframework.ios.core/db/core/DbSyncConfig.swift:89-151 | the new fields are ApplyDictionary of the old ones; the progress handler is untouched |
| DbSyncConfigs.DbSyncConfig.Apply | Sources/com.awareframework.ios.core/db/core/DbSyncConfig.swift:153-156 | the fields become the closure's result and the same instance is returned |
| SensorConfigs.DbTypeEntry | Sources/com.awareframework.ios.core/model/SensorConfig.swift:69-79 | Int 0 gives NONE, Int 1 gives SQLite, a DatabaseType is taken as is, anything else keeps the old value |
| SensorConfigs.Defaults | Sources/com.awareframework.ios.core/model/SensorConfig.swift:12-21 | disabled, with the common device id, and not verified |
| SensorConfigs.ApplyDictionary | Sources/com.awareframework.ios.core/model/SensorConfig.swift:50-91 | a verified configuration stays verified; an empty dictionary changes only dbEncryptionKey, to nil |
| SensorConfigs.ApplyDictionaryFlagEntries | Sources/com.awareframework.ios.core/model/SensorConfig.swift:51-61 | enabled, debug, label copied exactly when correctly typed |
| SensorConfigs.ApplyDictionaryIdentityEntries | Sources/com.awareframework.ios.core/model/SensorConfig.swift:63-67 | deviceId copied only from a String; dbEncryptionKey always overwritten, nil when not a String |
| SensorConfigs.ApplyDictionaryStorageEntries | Sources/com.awareframework.ios.core/model/SensorConfig.swift:69-83 | dbType follows DbTypeEntry; dbPath copied only from a String |
| SensorConfigs.ApplyDictionaryLocationEntries | Sources/com.awareframework.ios.core/model/SensorConfig.swift:85-91 | dbHost and dbTableName copied only from Strings, otherwise kept |
| SensorConfigs.VerifiedAfterApply | Sources/com.awareframework.ios.core/model/SensorConfig.swift:50-101 | after `set(config:)`, `verify()` holds iff the dictionary names a table or one was already set |
| SensorConfigs.DefaultsAreNotVerified | Sources/com.awareframework.ios.core/model/SensorConfig.swift:12-21 | a fresh configuration fails `verify()`; dbPath defaults to "aware" and dbType to NONE |
| SensorConfigs.DbTypeSequence | Tests/com.awareframework.ios.coreTests/com_awareframework_ios_coreTests.swift:95-110 | the dbType test sequence: NONE, Int 0, Int 1, SQLite give NONE, NONE, SQLite, SQLite |
| SensorConfigs.OtherIntDbTypeIsIgnored | Sources/com.awareframework.ios.core/model/SensorConfig.swift:69-75 | an Int other than 0 or 1 leaves dbType unchanged |
| SensorConfigs.SensorConfig.constructor | Sources/com.awareframework.ios.core/model/SensorConfig.swift:12-21 | the property initialisers |
| SensorConfigs.SensorConfig.WithValues | Sources/com.awareframework.ios.core/model/SensorConfig.swift:23-43 | nil deviceId, dbPath and label take their defaults; the result passes `verify()` |
| SensorConfigs.SensorConfig.FromDictionary | Sources/com.awareframework.ios.core/model/SensorConfig.swift:45-48 | the initial values after `set(config:)` |
| SensorConfigs.SensorConfig.Set | Sources/com.awareframework.ios.core/model/SensorConfig.swift:50-92 | the new fields are ApplyDictionary of the old ones |
| SensorConfigs.SensorConfig.Verify | Sources/com.awareframework.ios.core/model/SensorConfig.swift:95-101 | false exactly when dbTableName is nil |
| DbSyncManagers.WithSensorProperties | Sources/com.awareframework.ios.core/manager/DbSyncManager.swift:85-90 | adding a sensor keeps ids distinct, keeps the old list as a prefix, and adds exactly its id |
| DbSyncManagers.WithSensor | Sources/com.awareframework.ios.core/manager/DbSyncManager.swift:85-90 | the old list is a prefix, at most one sensor is added, and the id is present afterwards |
| DbSyncManagers.WithSensors | Sources/com.awareframework.ios.core/manager/DbSyncManager.swift:76-83 | the old list is a prefix and at most one sensor per element of the array is added |
| DbSyncManagers.WithoutId | Sources/com.awareframework.ios.core/manager/DbSyncManager.swift:92-99 | never longer than the old list, and no sensor in it has the target id |
| DbSyncManagers.WithSensorsProperties | Sources/com.awareframework.ios.core/manager/DbSyncManager.swift:76-83 | adding an array keeps ids distinct (also for duplicates inside the array), keeps the old list as a prefix, and adds exactly the array's ids |
| DbSyncManagers.WithoutIdHasIds | Sources/com.awareframework.ios.core/manager/DbSyncManager.swift:92-99 | after removal the ids present are the old ones minus the target |
| DbSyncManagers.WithoutAbsentId | Sources/com.awareframework.ios.core/manager/DbSyncManager.swift:92-99 | removing an absent id leaves the list as it is |
| DbSyncManagers.WithoutIdDeletesAt | Sources/com.awareframework.ios.core/manager/DbSyncManager.swift:92-99 | with distinct ids, removing the id of the sensor at k deletes exactly index k, the rest in order |
| DbSyncManagers.WithoutIdKeepsDistinct | Sources/com.awareframework.ios.core/manager/DbSyncManager.swift:92-99 | removal keeps ids distinct |
| DbSyncManagers.DbSyncManagerConfig.constructor | Sources/com.awareframework.ios.core/manager/DbSyncManager.swift:43-49 | defaults: interval 1.0, Wi-Fi only, not battery-only, debug off, level info, no sensors |
| DbSyncManagers.DbSyncManager.constructor | Sources/com.awareframework.ios.core/manager/DbSyncManager.swift:120-122 | the manager holds the given configuration |
| DbSyncManagers.Builder.constructor | Sources/com.awareframework.ios.core/manager/DbSyncManager.swift:53-54 | a builder over a fresh default configuration |
| DbSyncManagers.Builder.SetSyncInterval | Sources/com.awareframework.ios.core/manager/DbSyncManager.swift:56-64 | a positive interval is stored, any other keeps the old one; nothing else changes; returns the builder |
| DbSyncManagers.Builder.SetWifiOnly | Sources/com.awareframework.ios.core/manager/DbSyncManager.swift:66-69 | only the Wi-Fi flag changes; returns the builder |
| DbSyncManagers.Builder.SetBatteryOnly | Sources/com.awareframework.ios.core/manager/DbSyncManager.swift:71-74 | only the battery flag changes; returns the builder |
| DbSyncManagers.Builder.IsExist | Sources/com.awareframework.ios.core/manager/DbSyncManager.swift:101-108 | true exactly when a sensor with the target id is in the list |
| DbSyncManagers.Builder.AddSensor | Sources/com.awareframework.ios.core/manager/DbSyncManager.swift:85-90 | the list becomes WithSensor of the old one; ids stay distinct; interval, Wi-Fi, battery, debug and debugLevel unchanged |
| DbSyncManagers.Builder.AddSensors | Sources/com.awareframework.ios.core/manager/DbSyncManager.swift:76-83 | the list becomes WithSensors of the old one; ids stay distinct; interval, Wi-Fi, battery, debug and debugLevel unchanged |
| DbSyncManagers.Builder.Remove | Sources/com.awareframework.ios.core/manager/DbSyncManager.swift:92-99 | the list loses exactly the sensors with the target id; ids stay distinct; interval, Wi-Fi, battery, debug and debugLevel unchanged |
| DbSyncManagers.Builder.Build | Sources/com.awareframework.ios.core/manager/DbSyncManager.swift:110-112 | a new manager over the builder's configuration |
| MockEngines.CursorFilter | Sources/com.awareframework.ios.core/db/core/DbSyncHelper.swift:511 | the text "id > N" is read as a filter exactly when N is in 0..Int64.max (the regular expression reads no minus sign) |
| MockEngines.Matching | Tests/com.awareframework.ios.coreTests/DbSyncHelperTests.swift:36-43 | the filtered records all have an Int64 id above N, and there are no more of them than records |
| MockEngines.Unmatched | Tests/com.awareframework.ios.coreTests/DbSyncHelperTests.swift:36-43 | none of the records left out matches |
| MockEngines.DropMatching | Tests/com.awareframework.ios.coreTests/DbSyncHelperTests.swift:75-109 | removes at most k records, and none when k is 0 |
| MockEngines.FirstIndexWithId | Tests/com.awareframework.ios.coreTests/DbSyncHelperTests.swift:96-103 | `firstIndex(where:)`: the first record carrying the id, or none if no record does |
| MockEngines.MatchingPartitions | Tests/com.awareframework.ios.coreTests/DbSyncHelperTests.swift:36-43 | matching and non-matching records together are the store, as a multiset and in number |
| MockEngines.MatchingComplete | Tests/com.awareframework.ios.coreTests/DbSyncHelperTests.swift:36-43 | a record is a match as often as it is stored when it matches, never otherwise |
| MockEngines.DropMatchingProperties | Tests/com.awareframework.ios.coreTests/DbSyncHelperTests.swift:86-108 | deleting the first k matches keeps every non-match in order, leaves the remaining matches in order, and removes min(k, #matches) records |
| MockEngines.DropNothing | Tests/com.awareframework.ios.coreTests/DbSyncHelperTests.swift:86-108 | deleting no match leaves the store as it is |
| MockEngines.RemoveStep | Tests/com.awareframework.ios.coreTests/DbSyncHelperTests.swift:95-105 | one loop iteration of `remove` deletes exactly the next match |
| MockEngines.CursorSkipsBatch | Sources/com.awareframework.ios.core/db/core/DbSyncHelper.swift:510-514 | with ascending ids, the cursor at the id of the k-th match selects exactly the matches after the first k |
| MockEngines.NextBatchFollows | Sources/com.awareframework.ios.core/db/core/DbSyncHelper.swift:1003-1019 | for a store whose ids ascend in storage order: after a batch is uploaded and (optionally) deleted, the records above the new cursor are exactly those the batch did not take, with or without the deletion |
| MockEngines.DropBeyondMatches | Tests/com.awareframework.ios.coreTests/DbSyncHelperTests.swift:86-93 | `prefix(limit)` with limit past the matches deletes the same records as limit = #matches |
| MockEngines.MatchingNarrow | Tests/com.awareframework.ios.coreTests/DbSyncHelperTests.swift:36-43 | filtering by a higher bound after a lower one is filtering by the higher one |
| MockEngines.MatchingOfNumbered | Tests/com.awareframework.ios.coreTests/DbSyncHelperIntegrationTests.swift:84-94 | in a store with ids 1..n, the records above c are those from index c on |
| MockEngines.NumberedBatchEnds | Tests/com.awareframework.ios.coreTests/DbSyncHelperIntegrationTests.swift:81-104 | in a store with ids 1..n, a batch of at most L above c ends at id c + min(L, n - c) |
| MockEngines.IncrementalSyncCursors | Tests/com.awareframework.ios.coreTests/DbSyncHelperIntegrationTests.swift:81-104 | ids 1..100, cursor 50, batches of 25: the cursor goes to 75, then 100, then nothing is left |
| MockEngines.MockEngine.constructor | Tests/com.awareframework.ios.coreTests/DbSyncHelperTests.swift:17-20 | an empty store with both counters at 0 |
| MockEngines.MockEngine.Selected | Tests/com.awareframework.ios.coreTests/DbSyncHelperTests.swift:22-46 | the records an "id > N" filter selects, or all records for a nil or unread filter |
| MockEngines.MockEngine.Fetch | Tests/com.awareframework.ios.coreTests/DbSyncHelperTests.swift:22-49 | a prefix of the selected records, of length min(limit, #selected) |
| MockEngines.MockEngine.Count | Tests/com.awareframework.ios.coreTests/DbSyncHelperTests.swift:51-73 | #matches for "id > N", countResult otherwise |
| MockEngines.MockEngine.Remove | Tests/com.awareframework.ios.coreTests/DbSyncHelperTests.swift:75-109 | removeCallCount grows by exactly 1; for "id > N" the store becomes DropMatching (first min(limit, #matches) matches gone), otherwise unchanged |
| SyncCursors.CursorKey | Sources/com.awareframework.ios.core/db/core/DbSyncHelper.swift:55-57 | the key is the prefix, a dot, then the table name |
| SyncCursors.RetriesKey | Sources/com.awareframework.ios.core/db/core/DbSyncHelper.swift:404-406 | the retry-counter key ends with the table name |
| SyncCursors.CursorKeyInjective | Sources/com.awareframework.ios.core/db/core/DbSyncHelper.swift:55-81 | two tables share a cursor key iff they are the same table |
| SyncCursors.CursorAndRetriesKeysDiffer | Sources/com.awareframework.ios.core/db/core/DbSyncHelper.swift:404-406 | no retry-counter key is a cursor key |
| SyncCursors.IntegerFor | Sources/com.awareframework.ios.core/db/core/DbSyncHelper.swift:67-70 | `integer(forKey:)` gives 0 for a missing key |
| SyncCursors.LastUploadedId | Sources/com.awareframework.ios.core/db/core/DbSyncHelper.swift:67-71 | 0 for a table whose key is unset |
| SyncCursors.WithLastUploadedId | Sources/com.awareframework.ios.core/db/core/DbSyncHelper.swift:55-59 | the cursor key is added and every other key keeps its value |
| SyncCursors.GetAfterSet | Sources/com.awareframework.ios.core/db/core/DbSyncHelper.swift:55-70 | after set(v, t), get(t) is v and get of any other table is unchanged |
| SyncCursors.GetAfterClear | Sources/com.awareframework.ios.core/db/core/DbSyncHelper.swift:67-81 | after clear(t), get(t) is 0 and other tables are unchanged |
| SyncCursors.SetOverwrites | Sources/com.awareframework.ios.core/db/core/DbSyncHelper.swift:55-59 | a later set for the same table replaces an earlier one |
| SyncCursors.ClearRetriesKeepsCursors | Sources/com.awareframework.ios.core/db/core/DbSyncHelper.swift:404-406 | resetting the retry counter leaves every cursor unchanged |
| SyncCursors.UserDefaults.Integer | Sources/com.awareframework.ios.core/db/core/DbSyncHelper.swift:67-70 | 0 for a missing key, the stored value otherwise |
| SyncCursors.UserDefaults.SetInteger | Sources/com.awareframework.ios.core/db/core/DbSyncHelper.swift:56-57 | the store maps the key to the value, nothing else changes |
| SyncCursors.UserDefaults.RemoveObject | Sources/com.awareframework.ios.core/db/core/DbSyncHelper.swift:78-81 | the key is gone, nothing else changes |
| SyncCursors.SetLastUploadedId | Sources/com.awareframework.ios.core/db/core/DbSyncHelper.swift:55-59 | the store becomes WithLastUploadedId (see GetAfterSet) |
| SyncCursors.GetLastUploadedId | Sources/com.awareframework.ios.core/db/core/DbSyncHelper.swift:67-71 | the stored cursor, 0 when unset |
| SyncCursors.ClearLastUploadedId | Sources/com.awareframework.ios.core/db/core/DbSyncHelper.swift:78-81 | the store becomes WithoutLastUploadedId (see GetAfterClear) |
| SyncCursors.CursorRoundTrip | Tests/com.awareframework.ios.coreTests/DbSyncHelperTests.swift:483-506 | the unit tests' sequence: unset gives 0, then 100, then 200 |
| SyncRequests.TrimStart | Sources/com.awareframework.ios.core/db/core/DbSyncHelper.swift:250-251 | drops exactly the leading whitespace and newlines: a suffix whose first character is not whitespace |
| SyncRequests.TrimEnd | Sources/com.awareframework.ios.core/db/core/DbSyncHelper.swift:250-251 | drops exactly the trailing whitespace: a prefix whose last character is not whitespace |
| SyncRequests.Trim | Sources/com.awareframework.ios.core/db/core/DbSyncHelper.swift:250-251 | never longer than the input; empty, or starting and ending with a non-whitespace character |
| SyncRequests.TrimProperties | Sources/com.awareframework.ios.core/db/core/DbSyncHelper.swift:250-251 | the trimmed text is a slice of the input with only whitespace cut off either side, and starts and ends with non-whitespace |
| SyncRequests.TrimIdempotent | Sources/com.awareframework.ios.core/db/core/DbSyncHelper.swift:250-251 | trimming twice is trimming once |
| SyncRequests.Column | Sources/com.awareframework.ios.core/db/core/DbSyncHelper.swift:550-556 | a column is never longer than the batch |
| SyncRequests.Pivot | Sources/com.awareframework.ios.core/db/core/DbSyncHelper.swift:547-557 | no excluded key becomes a column, and no column is longer than the batch |
| SyncRequests.KeysOfMembers | Sources/com.awareframework.ios.core/db/core/DbSyncHelper.swift:550-556 | a key is collected iff some row has it |
| SyncRequests.ColumnOfAbsentKey | Sources/com.awareframework.ios.core/db/core/DbSyncHelper.swift:550-556 | a key no row has gets no values |
| SyncRequests.ColumnOfUniformRows | Sources/com.awareframework.ios.core/db/core/DbSyncHelper.swift:550-556 | when every row has the key, its column lists the rows' values in row order, one per row |
| SyncRequests.PivotKeys | Sources/com.awareframework.ios.core/db/core/DbSyncHelper.swift:547-557 | the compact columns are exactly the keys present in some row other than os, jsonVersion, deviceId and timezone |
| SyncRequests.AggregateColumns | Sources/com.awareframework.ios.core/db/core/DbSyncHelper.swift:547-557 | the nested loops build exactly Pivot(rows) |
| SyncRequests.AggregateRow | Sources/com.awareframework.ios.core/db/core/DbSyncHelper.swift:551-556 | the inner loop adds one row to the pivot of the rows before it |
| SyncRequests.PivotStep | Sources/com.awareframework.ios.core/db/core/DbSyncHelper.swift:551-556 | a map with the keys and columns of the pivot extended by one row is that pivot |
| SyncRequests.FormBody | Sources/com.awareframework.ios.core/db/core/DbSyncHelper.swift:567 | the body is "device_id=" + device id + "&data=" + data, each part at its offset |
| SyncRequests.RequestBody | Sources/com.awareframework.ios.core/db/core/DbSyncHelper.swift:567-572 | the body handler, when set, is applied to the form body |
| SyncRequests.BuildRequestBody | Sources/com.awareframework.ios.core/db/core/DbSyncHelper.swift:542-575 | a serialisation error is returned as an error; otherwise the body of the rows, or of their compact pivot, as RequestBody |
| SyncRequests.EndpointUrl | Sources/com.awareframework.ios.core/db/core/DbSyncHelper.swift:583-592 | starts with "https://" and ends with "/insert" |
| SyncRequests.EndpointUrlOfPlainHost | Sources/com.awareframework.ios.core/db/core/DbSyncHelper.swift:585-592 | the URL is "https://" + host + "/" + encoded table (the table itself if encoding fails) + "/insert" |
| SyncRequests.EndpointUrlDropsScheme | Sources/com.awareframework.ios.core/db/core/DbSyncHelper.swift:585-592 | a host given with "http://" or "https://" yields the same URL as the bare host |
| SyncRequests.ResponseDisposition | Sources/com.awareframework.ios.core/db/core/DbSyncHelper.swift:942-954 | allow exactly for statuses 200..<300 (the 2xx class of section 15.3 of RFC 9110), cancel otherwise |
| SyncRequests.EvaluateResponseState | Sources/com.awareframework.ios.core/db/core/DbSyncHelper.swift:1038-1075 | an error means failure; test mode without error means success |
| SyncRequests.OnlyNotFoundStatusFails | Sources/com.awareframework.ios.core/db/core/DbSyncHelper.swift:1055-1075 | without error and outside test mode, the upload fails iff the body parses with status 404 (empty or unparseable bodies succeed) |
| SyncRequests.Progress | Sources/com.awareframework.ios.core/db/core/DbSyncHelper.swift:680-684 | within [0, 1]; 1 when the first count is 0 or reached; otherwise uploaded/original |
| SyncRequests.ProgressMonotone | Sources/com.awareframework.ios.core/db/core/DbSyncHelper.swift:680-684 | uploading more never lowers the reported progress |
| SyncRequests.UploadProgress | Sources/com.awareframework.ios.core/db/core/DbSyncHelper.swift:1352-1353 | uploaded/original for a positive count, 0 otherwise; not clamped |
| SyncRequests.ProgressFiguresAgree | Sources/com.awareframework.ios.core/db/core/DbSyncHelper.swift:1352-1353 | the statistics figure equals the reported progress while the upload stays within the count; for a zero count one says 0 and the other 1 |
| SyncRequests.StateName | Sources/com.awareframework.ios.core/db/core/DbSyncHelper.swift:1322-1335 | "failed: " + description exactly for failures |
| SyncRequests.StateNameInjective | Sources/com.awareframework.ios.core/db/core/DbSyncHelper.swift:1322-1335 | two states have the same name iff they are equal under the source's `==` |
| SyncRequests.CanStop | Sources/com.awareframework.ios.core/db/core/DbSyncHelper.swift:1384-1391 | true exactly in active or failed |
| SyncRequests.StopGracefullyGuard | Sources/com.awareframework.ios.core/db/core/DbSyncHelper.swift:1137-1141 | proceeds exactly when canStop; otherwise reports true iff idle or completed |
| SyncRequests.RefusedStopReportsFalseOnlyWhileCancelling | Sources/com.awareframework.ios.core/db/core/DbSyncHelper.swift:1137-1141 | a refused graceful stop reports false iff the session is cancelling |
| SyncEngines.BodyOf | Sources/com.awareframework.ios.core/db/core/DbSyncHelper.swift:1062-1071 | no data iff nothing was received; unparseable iff bytes that do not parse |
| SyncEngines.CompletionError | Sources/com.awareframework.ios.core/db/core/DbSyncHelper.swift:942-954 | no error iff no transport error and a 2xx status (a cancelled response ends the task with an error) |
| SyncEngines.Finished | Sources/com.awareframework.ios.core/db/core/DbSyncHelper.swift:637-669 | Completed iff success, otherwise Failed; uploaded total and cursor copy kept; the event log only grows |
| SyncEngines.NextBatchQueued | Sources/com.awareframework.ios.core/db/core/DbSyncHelper.swift:674-705 | state and uploaded total kept; the event log grows and ends with the scheduled next run |
| SyncEngines.AfterResponse | Sources/com.awareframework.ios.core/db/core/DbSyncHelper.swift:1003-1023 | success adds the batch size to the total and forgets the last id; failure keeps the total and fails; the buffer is emptied; progress and cursor copy kept; the log only grows |
| SyncEngines.CursorsAfterResponse | Sources/com.awareframework.ios.core/db/core/DbSyncHelper.swift:1080-1088 | only a success with a known last id changes the store, and then the table's cursor reads that id |
| SyncEngines.AfterSend | Sources/com.awareframework.ios.core/db/core/DbSyncHelper.swift:777-816 | a serialisation error fails with that error and keeps the total; outside test mode a built request is sent and the state kept; cursor copy and progress kept; the log only grows |
| SyncEngines.BatchSession | Sources/com.awareframework.ios.core/db/core/DbSyncHelper.swift:719-817 | an empty batch completes; cursor copy and progress kept; the event log only grows |
| SyncEngines.Prepared | Sources/com.awareframework.ios.core/db/core/DbSyncHelper.swift:466-480 | the cursor is the one read; the count is taken and the total zeroed only while no count is set, otherwise nothing else changes |
| SyncEngines.Counted | Sources/com.awareframework.ios.core/db/core/DbSyncHelper.swift:724-775 | the batch size and last id are recorded; a short non-empty batch sets isLastBatch, which is never cleared here |
| SyncEngines.Reset | Sources/com.awareframework.ios.core/db/core/DbSyncHelper.swift:1232-1245 | idle, not the last batch, zero counts; cursor copy and event log kept |
| SyncEngines.ResetIsInitial | Sources/com.awareframework.ios.core/db/core/DbSyncHelper.swift:1232-1245 | a reset helper equals a fresh one apart from the cursor copy and the event log; resetting twice is resetting once |
| SyncEngines.ResetRecounts | Sources/com.awareframework.ios.core/db/core/DbSyncHelper.swift:473-480 | after a reset the next session takes a new count and starts from 0 uploaded |
| SyncEngines.CountKeptAcrossSessions | Sources/com.awareframework.ios.core/db/core/DbSyncHelper.swift:473-480 | without a reset, a new session keeps the earlier count and uploaded total |
| SyncEngines.BatchCursor | Sources/com.awareframework.ios.core/db/core/DbSyncHelper.swift:1080-1088 | after a batch the table's cursor is the id of its last record iff the batch was uploaded and that id is an Int64; every other table keeps its cursor |
| SyncEngines.UploadedBatchAdvancesCursor | Sources/com.awareframework.ios.core/db/core/DbSyncHelper.swift:510-514 | a batch fetched above the cursor moves it strictly forward when uploaded, and leaves it in place otherwise |
| SyncEngines.BatchEnds | Sources/com.awareframework.ios.core/db/core/DbSyncHelper.swift:719-817 | empty batch completes with progress 1.0 and completion(true); uploaded batch adds its size and completes iff last, else queues the next run; an uploaded last batch appends the request (outside test mode), then progress 1.0 and completion(true, nil); a rejected or unserialisable batch fails, keeps the uploaded total and tells the completion handler false last; no URL leaves the session as is; progress is never changed |
| SyncEngines.LastBatchFinishes | Sources/com.awareframework.ios.core/db/core/DbSyncHelper.swift:719-817 | an uploaded last batch appends the request (outside test mode), then progress 1.0 and completion(true, nil) |
| SyncEngines.FailedBatchKeepsCounts | Sources/com.awareframework.ios.core/db/core/DbSyncHelper.swift:719-817 | a failed batch keeps the uploaded total, records its size, and the completion handler, if any, is told false last |
| SyncEngines.StickyLastBatchCompletes | Sources/com.awareframework.ios.core/db/core/DbSyncHelper.swift:772-775 | once a short batch has set isLastBatch, a later full batch that uploads completes the session; with the flag clear the same batch would not be last |
| SyncEngines.TruncReal | Sources/com.awareframework.ios.core/db/core/DbSyncHelper.swift:1354 | `Int(Double)` rounds toward zero |
| SyncEngines.Statistics | Sources/com.awareframework.ios.core/db/core/DbSyncHelper.swift:1351-1368 | uploadProgress is UploadProgress, syncState is the state's name, the percentage is within 0..100 while uploaded <= counted and is 100 when all are uploaded |
| SyncEngines.PercentageBounds | Sources/com.awareframework.ios.core/db/core/DbSyncHelper.swift:1352-1354 | `Int(uploadProgress * 100)` lies in 0..100 for 0 <= uploaded <= original, and is 100 at the end |
| SyncEngines.PercentageExceedsHundredAcrossSessions | Sources/com.awareframework.ios.core/db/core/DbSyncHelper.swift:1352-1354 | the percentage is not clamped: a count of 10 kept from an earlier session with 10 already uploaded, then a last batch of 5, gives 150 |
| SyncEngines.DbSyncHelper.constructor | Sources/com.awareframework.ios.core/db/core/DbSyncHelper.swift:247-254 | host and table name are trimmed; the session starts idle with zero counters |
| SyncEngines.DbSyncHelper.IsSessionActive | Sources/com.awareframework.ios.core/db/core/DbSyncHelper.swift:159-180 | true iff active or cancelling and not stale; a stale session (more than 300 s) is forced to idle |
| SyncEngines.DbSyncHelper.SetSessionActive | Sources/com.awareframework.ios.core/db/core/DbSyncHelper.swift:181-189 | true: active with start time now; false: idle with start time 0 |
| SyncEngines.DbSyncHelper.StartSyncProcess | Sources/com.awareframework.ios.core/db/core/DbSyncHelper.swift:419-439 | retry counter cleared, completion stored, session active |
| SyncEngines.DbSyncHelper.GetUploadCandidates | Sources/com.awareframework.ios.core/db/core/DbSyncHelper.swift:510-514 | the fetch "id > cursor" with the limit; every record matches when the cursor can be read |
| SyncEngines.DbSyncHelper.RemoveUploadedCandidates | Sources/com.awareframework.ios.core/db/core/DbSyncHelper.swift:525-531 | one `remove("id > cursor", limit)` call |
| SyncEngines.DbSyncHelper.RequestFor | Sources/com.awareframework.ios.core/db/core/DbSyncHelper.swift:542-609 | an error iff serialisation fails; otherwise a request iff the URL text is accepted |
| SyncEngines.DbSyncHelper.HttpRequest | Sources/com.awareframework.ios.core/db/core/DbSyncHelper.swift:583-609 | nil iff the URL text is rejected; otherwise the request to EndpointUrl with the body, passed through the request handler |
| SyncEngines.DbSyncHelper.UpdateLastUploadedId | Sources/com.awareframework.ios.core/db/core/DbSyncHelper.swift:1080-1088 | writes the last candidate id to the cursor store when there is one, then forgets it |
| SyncEngines.DbSyncHelper.HandleSyncCompletion | Sources/com.awareframework.ios.core/db/core/DbSyncHelper.swift:637-669 | completed or failed (with "Unknown sync error" when no error is given), then progress 1.0/0.0 and completion events |
| SyncEngines.DbSyncHelper.HandleNextBatch | Sources/com.awareframework.ios.core/db/core/DbSyncHelper.swift:674-705 | reports Progress(total, original) if a handler is set, then schedules the next run |
| SyncEngines.DbSyncHelper.HandleUploadCompletion | Sources/com.awareframework.ios.core/db/core/DbSyncHelper.swift:617-629 | failure finishes as failed; success finishes as completed on the last batch, else queues the next batch |
| SyncEngines.DbSyncHelper.DidReceiveData | Sources/com.awareframework.ios.core/db/core/DbSyncHelper.swift:1119-1124 | received bytes are appended |
| SyncEngines.DbSyncHelper.RecordUpload | Sources/com.awareframework.ios.core/db/core/DbSyncHelper.swift:1003-1019 | total grows by the batch size; removal once iff removeAfterSync, from the previous cursor; then the cursor moves |
| SyncEngines.DbSyncHelper.DidCompleteWithError | Sources/com.awareframework.ios.core/db/core/DbSyncHelper.swift:987-1030 | the verdict of EvaluateResponseState drives the session (AfterResponse), the cursor store and the removal; the buffer is cleared |
| SyncEngines.DbSyncHelper.Upload | Sources/com.awareframework.ios.core/db/core/DbSyncHelper.swift:719-817 | records the batch; an empty batch completes; otherwise SendBatch; a request is in flight iff a URL was built outside test mode |
| SyncEngines.DbSyncHelper.RecordCandidates | Sources/com.awareframework.ios.core/db/core/DbSyncHelper.swift:727-737 | batch size and the Int64 id of its last record (nil otherwise) |
| SyncEngines.DbSyncHelper.SendBatch | Sources/com.awareframework.ios.core/db/core/DbSyncHelper.swift:778-816 | serialisation error fails with completion(false); a URL sends the request, or in test mode completes as success at once |
| SyncEngines.DbSyncHelper.PerformDataSync | Sources/com.awareframework.ios.core/db/core/DbSyncHelper.swift:460-496 | reads the cursor, counts once per session, fetches the batch above the cursor and uploads it |
| SyncEngines.DbSyncHelper.ReadCursor | Sources/com.awareframework.ios.core/db/core/DbSyncHelper.swift:466-480 | the cursor from the store, and the first count while none is set |
| SyncEngines.DbSyncHelper.SyncBatch | Sources/com.awareframework.ios.core/db/core/DbSyncHelper.swift:308-1030 | one whole batch ends in BatchSession; the cursor store is CursorsAfterResponse (see BatchCursor); removal happens once iff uploaded and removeAfterSync |
| SyncEngines.DbSyncHelper.Run | Sources/com.awareframework.ios.core/db/core/DbSyncHelper.swift:308-321 | starts the session, then performs one data sync |
| SyncEngines.DbSyncHelper.AnswerRequest | Sources/com.awareframework.ios.core/db/core/DbSyncHelper.swift:942-1030 | a 2xx response delivers its bytes; the completion then judges them as ResponseOk |
| SyncEngines.DbSyncHelper.ResetSyncState | Sources/com.awareframework.ios.core/db/core/DbSyncHelper.swift:1232-1245 | the session becomes Reset of the old one (idle, zero counters, isLastBatch false, no completion) |
| SyncEngines.DbSyncHelper.StopGracefully | Sources/com.awareframework.ios.core/db/core/DbSyncHelper.swift:1137-1180 | refused: state untouched, handler told idle-or-completed; accepted: reset and handler told true |
| SyncEngines.DbSyncHelper.StopImmediately | Sources/com.awareframework.ios.core/db/core/DbSyncHelper.swift:1190-1225 | the session is reset whatever its state, then the handler is called |
| SyncEngines.DbSyncHelper.ReturnToIdle | Sources/com.awareframework.ios.core/db/core/DbSyncHelper.swift:662-667 | the closure queued after a finished session sets idle |
| SyncEngines.DbSyncHelper.GetCurrentSyncState | Sources/com.awareframework.ios.core/db/core/DbSyncHelper.swift:1322-1335 | the state's name, which tells states apart (StateNameInjective) |
| SyncEngines.DbSyncHelper.GetCurrentProgress | Sources/com.awareframework.ios.core/db/core/DbSyncHelper.swift:1342-1344 | the progress field, which only ever holds 0.0 (see BatchEnds) |
| SyncEngines.DbSyncHelper.GetSyncStatistics | Sources/com.awareframework.ios.core/db/core/DbSyncHelper.swift:1351-1368 | the Statistics of the current session; percentage within 0..100 while uploaded <= counted |
| SyncEngines.DbSyncHelper.CanStopNow | Sources/com.awareframework.ios.core/db/core/DbSyncHelper.swift:1384-1391 | true exactly in active or failed |

## Left out

- Networking: `URLSession` and its data tasks are not modelled. The network is the `Outcome` parameter of `SyncBatch` and `AnswerRequest`: a status code, the body bytes, or a transport error. `didSendBodyData` only logs and is not modelled.
- Dispatch: queues, `DispatchQueue.main.async` and the delay before the next batch are not modelled. Callbacks are appended to an event log in the order they are queued. The 0.1 s return to idle is the separate method `ReturnToIdle`, and `cancelAllTasks` and `invalidateSession` are not modelled because they only touch the URL session.
- Clock: `Date()` is the `now` parameter of the methods that read it.
- SyncEngines.DbSyncHelper.StopGracefully: models the run in which the queued shutdown finishes before the timeout timer fires. The timeout path, which runs `stopImmediately` and reports `false`, is not modelled.
- The retry machinery (`handleConcurrentSyncAttempt`, the retry counter and its delays) is not modelled. Nothing reaches it, because the guard in `run` is commented out. Only `resetRetryCounters`, which `startSyncProcess` calls, is modelled.
- Values.Value: dictionary values are modelled as native Swift values, each answering exactly one `as?` cast. Entries bridged from Foundation as `NSNumber`, as `JSONSerialization` produces them, are not modelled: there a JSON `1` also passes `as? Bool` and a JSON `true` also passes `as? Int`, so `set(config:)` would take entries the model ignores.
- External library calls are parameters of `Environment`: `JSONSerialization`, the JSON parser of the response, percent-encoding, `URL(string:)` and `getCommonDeviceId()`. Only their results are used.
- SyncEngines.DbSyncHelper.HttpRequest: the request keeps only its URL and body. Cache policy, timeout, HTTP method and cellular access are not modelled.
- `Double` values are modelled as `real`: progress, percentages, intervals and times. Rounding of floating point is not modelled.
- The progress handler is modelled as the flag `hasProgressHandler`, and the completion handler as `hasCompletion`. The body and request handlers are fixed when the helper is made. The closure of `DbSyncConfig.apply` is a function on `SyncSettings`. The `dispatchQueue` setting is not modelled.
- MockEngines.MockEngine.Fetch and SyncEngines.DbSyncHelper.GetUploadCandidates require `limit >= 0`, because Swift's `prefix` traps on a negative length. So `DbSyncHelper` methods require `batchSize >= 0`.
- SensorConfigs.SensorSettings: the field `label` is called `labelText`, because `label` is reserved in Dafny.
- Logging (`log*`, `print`) is not modelled.
- DbSyncConfigs.ToLower: folds only the ASCII letters A-Z, where Swift's `lowercased()` folds all of Unicode (and can lengthen a string: U+0130 becomes two scalars). The `debugLevel` switch decides the same either way: its case labels are ASCII, none contains a 'k', and U+212A KELVIN SIGN, which lowercases to 'k', is the only non-ASCII character that lowercases into ASCII.
- The SQLite and Realm engines and the `Engine` protocol are not part of this model. The record store is the unit tests' `MockEngine`.
- `AwareSensor` is not part of this model. Only its `id`, the one property the builder reads, is kept.
- `getCommonDeviceId()` reads platform storage and is a parameter.
- The time-zone offset of `getTimeZone` is a parameter.
- `DbSyncManager`'s start, stop and sync scheduling (timers, reachability, battery state) are outside the modelled core. Only the configuration and `Builder` are modelled.
- Mutual exclusion between concurrent runs is not modelled. `SyncBatch` describes one batch from start to answer.
