/*
 * The per-table upload cursor (`DbSyncUtils`) and the retry counter key, kept in the
 * application's user-defaults store. The store is modelled as a mutable object holding a
 * map from key to integer; `integer(forKey:)` answers 0 for a key that holds nothing.
 */
module SyncCursors {

  /** Prefix of the cursor keys; the table name follows after a dot. */
  const LastUploadedIdPrefix: string := "aware.sync.task.last_uploaded_id"

  /** Prefix of the retry-counter keys; the table name follows after a dot. */
  const RetriesPrefix: string := "aware.sync.retries"

  /** The key under which the cursor of `table` is stored. */
  function CursorKey(table: string): (k: string)
    ensures |k| == |LastUploadedIdPrefix| + 1 + |table|
    ensures k[..|LastUploadedIdPrefix| + 1] == LastUploadedIdPrefix + "."
    ensures k[|LastUploadedIdPrefix| + 1..] == table
  {
    LastUploadedIdPrefix + "." + table
  }

  /** The key under which the retry counter of `table` is stored. */
  function RetriesKey(table: string): (k: string)
    ensures |k| == |RetriesPrefix| + 1 + |table|
    ensures k[|RetriesPrefix| + 1..] == table
  {
    RetriesPrefix + "." + table
  }

  /** Different tables never share a cursor key. */
  lemma CursorKeyInjective(a: string, b: string)
    ensures CursorKey(a) == CursorKey(b) <==> a == b
  {
    if CursorKey(a) == CursorKey(b) {
      var n := |LastUploadedIdPrefix| + 1;
      assert a == CursorKey(a)[n..] == CursorKey(b)[n..] == b;
    }
  }

  /** A retry counter never overwrites a cursor: the keys differ right after "aware.sync.". */
  lemma CursorAndRetriesKeysDiffer(a: string, b: string)
    ensures CursorKey(a) != RetriesKey(b)
  {
    assert CursorKey(a)[11] == 't';
    assert RetriesKey(b)[11] == 'r';
  }

  /** `integer(forKey:)`: the stored integer, or 0 for a missing key. */
  function IntegerFor(values: map<string, int>, key: string): (v: int)
    ensures key !in values ==> v == 0
    ensures key in values ==> v == values[key]
  {
    if key in values then values[key] else 0
  }

  /** `getLastUploadedId(for:)` on a store holding `values`. */
  function LastUploadedId(values: map<string, int>, table: string): (id: int)
    ensures CursorKey(table) !in values ==> id == 0
  {
    IntegerFor(values, CursorKey(table))
  }

  /** The store after `setLastUploadedId(id, for: table)`. */
  function WithLastUploadedId(values: map<string, int>, id: int, table: string): (r: map<string, int>)
    ensures r.Keys == values.Keys + {CursorKey(table)}
    ensures forall k | k in values && k != CursorKey(table) :: r[k] == values[k]
  {
    values[CursorKey(table) := id]
  }

  /** The store after `clearLastUploadedId(for: table)`. */
  function WithoutLastUploadedId(values: map<string, int>, table: string): map<string, int>
  {
    values - {CursorKey(table)}
  }

  /** Reading a cursor after writing it, for the same table or another one. */
  lemma GetAfterSet(values: map<string, int>, id: int, table: string, other: string)
    ensures LastUploadedId(WithLastUploadedId(values, id, table), other) ==
            if other == table then id else LastUploadedId(values, other)
  {
    CursorKeyInjective(table, other);
  }

  /** Reading a cursor after clearing it gives 0; other tables keep theirs. */
  lemma GetAfterClear(values: map<string, int>, table: string, other: string)
    ensures LastUploadedId(WithoutLastUploadedId(values, table), other) ==
            if other == table then 0 else LastUploadedId(values, other)
  {
    CursorKeyInjective(table, other);
  }

  /** A later write replaces an earlier one for the same table. */
  lemma SetOverwrites(values: map<string, int>, first: int, second: int, table: string)
    ensures WithLastUploadedId(WithLastUploadedId(values, first, table), second, table) ==
            WithLastUploadedId(values, second, table)
  {
  }

  /** Removing a retry counter leaves every cursor as it was. */
  lemma ClearRetriesKeepsCursors(values: map<string, int>, table: string, other: string)
    ensures LastUploadedId(values - {RetriesKey(table)}, other) == LastUploadedId(values, other)
  {
    CursorAndRetriesKeysDiffer(other, table);
  }

  /** The `UserDefaults.standard` store, restricted to integer entries. */
  class UserDefaults {
    var values: map<string, int>

    /** A store that holds nothing yet. */
    constructor ()
      ensures values == map[]
    {
      values := map[];
    }

    /** `integer(forKey:)`. */
    function Integer(key: string): (v: int)
      reads this
      ensures key !in values ==> v == 0
      ensures key in values ==> v == values[key]
    {
      IntegerFor(values, key)
    }

    /** `set(_:forKey:)` and `setValue(_:forKey:)`. */
    method SetInteger(key: string, v: int)
      modifies this
      ensures values == old(values)[key := v]
    {
      values := values[key := v];
    }

    /** `removeObject(forKey:)`. */
    method RemoveObject(key: string)
      modifies this
      ensures values == old(values) - {key}
    {
      values := values - {key};
    }
  }

  /** `DbSyncUtils.setLastUploadedId(_:for:)`. */
  method SetLastUploadedId(store: UserDefaults, id: int, table: string)
    modifies store
    ensures store.values == WithLastUploadedId(old(store.values), id, table)
  {
    store.SetInteger(CursorKey(table), id);
  }

  /** `DbSyncUtils.getLastUploadedId(for:)`. */
  method GetLastUploadedId(store: UserDefaults, table: string) returns (id: int)
    ensures id == LastUploadedId(store.values, table)
  {
    id := store.Integer(CursorKey(table));
  }

  /** `DbSyncUtils.clearLastUploadedId(for:)`. */
  method ClearLastUploadedId(store: UserDefaults, table: string)
    modifies store
    ensures store.values == WithoutLastUploadedId(old(store.values), table)
  {
    store.RemoveObject(CursorKey(table));
  }

  /** The cursor round trip in the unit tests: 0 when unset, the written value, then the rewritten one. */
  method CursorRoundTrip(table: string) returns (fresh0: int, first: int, second: int)
    ensures fresh0 == 0 && first == 100 && second == 200
  {
    var store := new UserDefaults();
    fresh0 := GetLastUploadedId(store, table);
    SetLastUploadedId(store, 100, table);
    first := GetLastUploadedId(store, table);
    SetLastUploadedId(store, 200, table);
    second := GetLastUploadedId(store, table);
  }
}
