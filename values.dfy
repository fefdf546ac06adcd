/**
 * The heterogeneous `Dictionary<String, Any>` the library passes around: configuration
 * dictionaries and database records alike. A value keeps the one Swift type that
 * `as?` casts distinguish.
 */
module Values {
  import opened Wrappers

  /** The storage back-ends a sensor can ask for (`DatabaseType`). */
  datatype DatabaseType = NONE | SQLite

  datatype Value =
    | VBool(b: bool)
    | VInt(i: int)          // Swift `Int`
    | VInt64(i: int)        // Swift `Int64`, the type of record ids
    | VString(s: string)
    | VDatabaseType(t: DatabaseType)
    | VOther                // anything else (a Double, an array, a nested dictionary, ...)

  type Dict = map<string, Value>

  /** `dict[key] as? Bool` */
  function AsBool(d: Dict, key: string): (r: Option<bool>)
    ensures r.Some? <==> key in d && d[key].VBool?
    ensures r.Some? ==> r.value == d[key].b
  {
    if key in d && d[key].VBool? then Some(d[key].b) else None
  }

  /** `dict[key] as? Int` */
  function AsInt(d: Dict, key: string): (r: Option<int>)
    ensures r.Some? <==> key in d && d[key].VInt?
    ensures r.Some? ==> r.value == d[key].i
  {
    if key in d && d[key].VInt? then Some(d[key].i) else None
  }

  /** `dict[key] as? Int64` */
  function AsInt64(d: Dict, key: string): (r: Option<int>)
    ensures r.Some? <==> key in d && d[key].VInt64?
    ensures r.Some? ==> r.value == d[key].i
  {
    if key in d && d[key].VInt64? then Some(d[key].i) else None
  }

  /** `dict[key] as? String` */
  function AsString(d: Dict, key: string): (r: Option<string>)
    ensures r.Some? <==> key in d && d[key].VString?
    ensures r.Some? ==> r.value == d[key].s
  {
    if key in d && d[key].VString? then Some(d[key].s) else None
  }

  /** `dict[key] as? DatabaseType` */
  function AsDatabaseType(d: Dict, key: string): (r: Option<DatabaseType>)
    ensures r.Some? <==> key in d && d[key].VDatabaseType?
    ensures r.Some? ==> r.value == d[key].t
  {
    if key in d && d[key].VDatabaseType? then Some(d[key].t) else None
  }
}
