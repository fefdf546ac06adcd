/**
 * `MockEngine`, the in-memory record store the synchronisation tests run against.
 * A record is a dictionary; its `"id"` entry, when it is an `Int64`, is the record's id.
 * A filter string is seen through what the mock's regular expression `id\s*>\s*(\d+)`
 * makes of it.
 */
module MockEngines {
  import opened Wrappers
  import opened Values

  type Record = Dict

  /** The largest `Int64`. */
  const Int64Max: int := 0x7fff_ffff_ffff_ffff

  /**
   * A filter string as the mock reads it: `"id > N"` with `N` a decimal `Int64`, or any other
   * text (the regular expression does not match, or the digits do not fit an `Int64`).
   * A nil filter is `None` of `Option<Filter>`.
   */
  datatype Filter = IdGreaterThan(n: int) | Unrecognised

  /** How the mock reads the text `"id > \(cursor)"`: a minus sign is not a digit. */
  function CursorFilter(cursor: int): (f: Filter)
    ensures f.IdGreaterThan? <==> 0 <= cursor <= Int64Max
    ensures f.IdGreaterThan? ==> f.n == cursor
  {
    if 0 <= cursor <= Int64Max then IdGreaterThan(cursor) else Unrecognised
  }

  /** `item["id"] as? Int64` */
  function IdOf(r: Record): Option<int>
  {
    AsInt64(r, "id")
  }

  /** The closure of `mockData.filter`: the record has an `Int64` id above `n`. */
  predicate Matches(r: Record, n: int)
  {
    IdOf(r).Some? && IdOf(r).value > n
  }

  /** The records of `data` that match `n`, in stored order. */
  function Matching(data: seq<Record>, n: int): (m: seq<Record>)
    ensures |m| <= |data|
    ensures forall i :: 0 <= i < |m| ==> Matches(m[i], n)
  {
    if data == [] then []
    else (if Matches(data[0], n) then [data[0]] else []) + Matching(data[1..], n)
  }

  /** The records of `data` that do not match `n`, in stored order. */
  function Unmatched(data: seq<Record>, n: int): (u: seq<Record>)
    ensures forall i :: 0 <= i < |u| ==> !Matches(u[i], n)
  {
    if data == [] then []
    else (if Matches(data[0], n) then [] else [data[0]]) + Unmatched(data[1..], n)
  }

  /** `data` without its first `k` matching records; the rest keep their order. */
  function DropMatching(data: seq<Record>, n: int, k: nat): (r: seq<Record>)
    ensures |data| - k <= |r| <= |data|
    ensures k == 0 ==> r == data
  {
    if data == [] then []
    else if Matches(data[0], n) && k > 0 then DropMatching(data[1..], n, k - 1)
    else [data[0]] + DropMatching(data[1..], n, k)
  }

  /** `firstIndex(where:)` with the closure of `remove`: the first record whose `Int64` id is `id`. */
  function FirstIndexWithId(s: seq<Record>, id: int): (r: Option<nat>)
    ensures r.Some? ==> r.value < |s| && IdOf(s[r.value]) == Some(id)
    ensures r.Some? ==> forall i :: 0 <= i < r.value ==> IdOf(s[i]) != Some(id)
    ensures r.None? ==> forall i :: 0 <= i < |s| ==> IdOf(s[i]) != Some(id)
  {
    if s == [] then None
    else if IdOf(s[0]) == Some(id) then Some(0)
    else match FirstIndexWithId(s[1..], id)
      case Some(j) => Some(j + 1)
      case None => None
  }

  function Min(a: int, b: int): int
  {
    if a <= b then a else b
  }

  /** Every record is either a match or not: the two filters split the store. */
  lemma {:induction false} MatchingPartitions(data: seq<Record>, n: int)
    ensures multiset(Matching(data, n)) + multiset(Unmatched(data, n)) == multiset(data)
    ensures |Matching(data, n)| + |Unmatched(data, n)| == |data|
  {
    if data != [] {
      MatchingPartitions(data[1..], n);
      assert data == [data[0]] + data[1..];
    }
  }

  /** A record occurs in the matches as often as in the store when it matches, and never otherwise. */
  lemma {:induction false} MatchingComplete(data: seq<Record>, n: int, r: Record)
    ensures multiset(Matching(data, n))[r] == if Matches(r, n) then multiset(data)[r] else 0
  {
    if data != [] {
      MatchingComplete(data[1..], n, r);
      assert data == [data[0]] + data[1..];
    }
  }

  /** `DropMatching` removes `min(k, #matches)` records, all of them matches, and keeps every other record in order. */
  lemma {:induction false} DropMatchingProperties(data: seq<Record>, n: int, k: nat)
    ensures Unmatched(DropMatching(data, n, k), n) == Unmatched(data, n)
    ensures Matching(DropMatching(data, n, k), n) == Matching(data, n)[Min(k, |Matching(data, n)|)..]
    ensures |DropMatching(data, n, k)| == |data| - Min(k, |Matching(data, n)|)
  {
    if data != [] {
      if Matches(data[0], n) && k > 0 {
        DropMatchingProperties(data[1..], n, k - 1);
      } else {
        DropMatchingProperties(data[1..], n, k);
        var rest := DropMatching(data[1..], n, k);
        assert ([data[0]] + rest)[1..] == rest;
      }
    }
  }

  /** Dropping no match leaves the store as it is. */
  lemma {:induction false} DropNothing(data: seq<Record>, n: int)
    ensures DropMatching(data, n, 0) == data
  {
    if data != [] {
      DropNothing(data[1..], n);
    }
  }

  /**
   * One iteration of `remove`'s loop: once the first `i` matches are gone, the first record
   * carrying the id of match `i` is match `i` itself, and deleting it drops match `i` too.
   */
  lemma {:induction false} RemoveStep(data: seq<Record>, n: int, i: nat)
    requires i < |Matching(data, n)|
    ensures FirstIndexWithId(DropMatching(data, n, i), IdOf(Matching(data, n)[i]).value).Some?
    ensures var rest := DropMatching(data, n, i);
            var j := FirstIndexWithId(rest, IdOf(Matching(data, n)[i]).value).value;
            rest[..j] + rest[j + 1..] == DropMatching(data, n, i + 1)
  {
    var id := IdOf(Matching(data, n)[i]).value;
    var tail := data[1..];
    if Matches(data[0], n) {
      if i == 0 {
        DropNothing(data, n);
        DropNothing(tail, n);
      } else {
        assert Matching(data, n)[i] == Matching(tail, n)[i - 1];
        RemoveStep(tail, n, i - 1);
      }
    } else {
      assert Matching(data, n) == Matching(tail, n);
      RemoveStep(tail, n, i);
      var rest := DropMatching(tail, n, i);
      assert DropMatching(data, n, i) == [data[0]] + rest;
      assert DropMatching(data, n, i + 1) == [data[0]] + DropMatching(tail, n, i + 1);
      FirstIndexPastOther(data[0], rest, id);
      DeleteAfterHead(data[0], rest, FirstIndexWithId(rest, id).value);
    }
  }

  /** A record with another id in front does not change which record is found, only its index. */
  lemma FirstIndexPastOther(x: Record, rest: seq<Record>, id: int)
    requires IdOf(x) != Some(id) && FirstIndexWithId(rest, id).Some?
    ensures FirstIndexWithId([x] + rest, id) == Some(FirstIndexWithId(rest, id).value + 1)
  {
    assert ([x] + rest)[1..] == rest;
  }

  /** Deleting index `j + 1` of `[x] + rest` is deleting index `j` of `rest`. */
  lemma DeleteAfterHead(x: Record, rest: seq<Record>, j: nat)
    requires j < |rest|
    ensures ([x] + rest)[..j + 1] + ([x] + rest)[j + 2..] == [x] + (rest[..j] + rest[j + 1..])
  {
  }

  /** The ids of a store strictly increase along it, every record carrying one. */
  predicate AscendingIds(data: seq<Record>)
  {
    (forall i :: 0 <= i < |data| ==> IdOf(data[i]).Some?) &&
    (forall i, j :: 0 <= i < j < |data| ==> IdOf(data[i]).value < IdOf(data[j]).value)
  }

  /**
   * In a store with ascending ids, moving the cursor to the id of the last of the first `k`
   * matches skips exactly those `k` matches: no record is skipped and none is fetched twice.
   */
  lemma {:induction false} CursorSkipsBatch(data: seq<Record>, n: int, k: nat)
    requires AscendingIds(data)
    requires 0 < k <= |Matching(data, n)|
    ensures Matching(data, IdOf(Matching(data, n)[k - 1]).value) == Matching(data, n)[k..]
  {
    var tail := data[1..];
    AscendingTail(data);
    var last := IdOf(Matching(data, n)[k - 1]).value;
    if Matches(data[0], n) {
      if k == 1 {
        SkipFirstMatch(data, n);
      } else {
        assert Matching(data, n)[k - 1] == Matching(tail, n)[k - 2];
        CursorSkipsBatch(tail, n, k - 1);
        assert !Matches(data[0], last) by {
          MatchingInStore(tail, n, k - 2);
        }
      }
    } else {
      assert Matching(data, n) == Matching(tail, n);
      CursorSkipsBatch(tail, n, k);
      assert !Matches(data[0], last) by {
        MatchingInStore(tail, n, k - 1);
      }
    }
  }

  /** The tail of an ascending store is ascending. */
  lemma AscendingTail(data: seq<Record>)
    requires AscendingIds(data) && data != []
    ensures AscendingIds(data[1..])
  {
    var tail := data[1..];
    forall i, j | 0 <= i < j < |tail|
      ensures IdOf(tail[i]).value < IdOf(tail[j]).value
    {
      assert tail[i] == data[i + 1] && tail[j] == data[j + 1];
    }
  }

  /** When the first record of an ascending store matches, the cursor at its id skips just that record. */
  lemma SkipFirstMatch(data: seq<Record>, n: int)
    requires AscendingIds(data) && data != [] && Matches(data[0], n)
    ensures Matching(data, IdOf(data[0]).value) == Matching(data, n)[1..]
  {
    var tail := data[1..];
    var last := IdOf(data[0]).value;
    AllAboveFirst(data);
    MatchingAll(tail, last);
    forall i | 0 <= i < |tail|
      ensures Matches(tail[i], n)
    {
      assert Matches(tail[i], last);
    }
    MatchingAll(tail, n);
    MatchingAboveFirst(data, n);
  }

  /** In an ascending store, every later record has an id above the first one's. */
  lemma AllAboveFirst(data: seq<Record>)
    requires AscendingIds(data) && data != []
    ensures forall i :: 0 <= i < |data[1..]| ==> Matches(data[1..][i], IdOf(data[0]).value)
  {
    forall i | 0 <= i < |data[1..]|
      ensures Matches(data[1..][i], IdOf(data[0]).value)
    {
      assert data[1..][i] == data[i + 1];
    }
  }

  /** When every record matches, the matches are the whole store. */
  lemma {:induction false} MatchingAll(data: seq<Record>, n: int)
    requires forall i :: 0 <= i < |data| ==> Matches(data[i], n)
    ensures Matching(data, n) == data
  {
    if data != [] {
      assert Matches(data[0], n);
      MatchingAll(data[1..], n);
    }
  }

  /** When the first record of a store matches, the matches after it are the matches of the rest. */
  lemma MatchingAboveFirst(data: seq<Record>, n: int)
    requires data != [] && Matches(data[0], n)
    ensures Matching(data, n)[1..] == Matching(data[1..], n)
  {
  }

  /** Each match of an ascending store's tail has an id above the store's first record. */
  lemma MatchingInStore(tail: seq<Record>, n: int, k: nat)
    requires k < |Matching(tail, n)|
    ensures exists i :: 0 <= i < |tail| && tail[i] == Matching(tail, n)[k]
  {
    MatchingComplete(tail, n, Matching(tail, n)[k]);
    assert Matching(tail, n)[k] in multiset(Matching(tail, n));
  }

  /** `MockEngine`: the records, the count to report for filters it does not read, and the number of `remove` calls. */
  class MockEngine {
    var mockData: seq<Record>
    var countResult: int
    var removeCallCount: int

    constructor ()
      ensures mockData == [] && countResult == 0 && removeCallCount == 0
    {
      mockData := [];
      countResult := 0;
      removeCallCount := 0;
    }

    /** The records a filter selects before `prefix(limit)`: all of them unless it reads as `id > N`. */
    function Selected(filter: Option<Filter>): (s: seq<Record>)
      reads this
      ensures filter.Some? && filter.value.IdGreaterThan? ==> s == Matching(mockData, filter.value.n)
      ensures !(filter.Some? && filter.value.IdGreaterThan?) ==> s == mockData
    {
      match filter
      case Some(IdGreaterThan(n)) => Matching(mockData, n)
      case _ => mockData
    }

    /** `fetch(filter:limit:)`: the selected records, in stored order, cut to `limit`. */
    function Fetch(filter: Option<Filter>, limit: int): (r: seq<Record>)
      reads this
      requires limit >= 0    // `prefix` traps on a negative length
      ensures |r| == Min(limit, |Selected(filter)|)
      ensures r == Selected(filter)[..|r|]
    {
      var s := Selected(filter);
      if |s| <= limit then s else s[..limit]
    }

    /** `count(filter:)`: the number of matches for `id > N`, `countResult` for any other filter. */
    function Count(filter: Option<Filter>): (c: int)
      reads this
      ensures filter.Some? && filter.value.IdGreaterThan? ==> c == |Matching(mockData, filter.value.n)|
      ensures !(filter.Some? && filter.value.IdGreaterThan?) ==> c == countResult
    {
      match filter
      case Some(IdGreaterThan(n)) => |Matching(mockData, n)|
      case _ => countResult
    }

    /** `remove(filter:limit:)`: counts the call, then deletes the first `limit` matches one by one by id. */
    method Remove(filter: Option<Filter>, limit: int)
      requires limit >= 0
      modifies this
      ensures removeCallCount == old(removeCallCount) + 1
      ensures countResult == old(countResult)
      ensures filter.Some? && filter.value.IdGreaterThan? ==>
        mockData == DropMatching(old(mockData), filter.value.n, limit)
      ensures !(filter.Some? && filter.value.IdGreaterThan?) ==> mockData == old(mockData)
    {
      removeCallCount := removeCallCount + 1;
      if filter.Some? && filter.value.IdGreaterThan? {
        var n := filter.value.n;
        ghost var original := mockData;
        var itemsToRemove := Fetch(filter, limit);
        var i := 0;
        DropNothing(original, n);
        while i < |itemsToRemove|
          invariant 0 <= i <= |itemsToRemove|
          invariant itemsToRemove == Matching(original, n)[..|itemsToRemove|]
          invariant mockData == DropMatching(original, n, i)
          invariant removeCallCount == old(removeCallCount) + 1
          invariant countResult == old(countResult)
        {
          RemoveStep(original, n, i);
          var index := FirstIndexWithId(mockData, IdOf(itemsToRemove[i]).value);
          if index.Some? {
            mockData := mockData[..index.value] + mockData[index.value + 1..];
          }
          i := i + 1;
        }
        DropBeyondMatches(original, n, |itemsToRemove|, limit);
      }
    }
  }

  /** Asking to drop more matches than there are drops the same records as asking for all of them. */
  lemma {:induction false} DropBeyondMatches(data: seq<Record>, n: int, k: nat, limit: nat)
    requires k == Min(limit, |Matching(data, n)|)
    ensures DropMatching(data, n, k) == DropMatching(data, n, limit)
  {
    if data != [] {
      if Matches(data[0], n) {
        if k > 0 {
          DropBeyondMatches(data[1..], n, k - 1, limit - 1);
        }
      } else {
        DropBeyondMatches(data[1..], n, k, limit);
      }
    }
  }
  /** Narrowing the matches of `n` to a higher bound `v` gives the matches of `v`. */
  lemma {:induction false} MatchingNarrow(data: seq<Record>, n: int, v: int)
    requires n <= v
    ensures Matching(Matching(data, n), v) == Matching(data, v)
  {
    if data != [] {
      MatchingNarrow(data[1..], n, v);
      if Matches(data[0], n) {
        var rest := Matching(data[1..], n);
        assert Matching(data, n) == [data[0]] + rest;
        assert ([data[0]] + rest)[0] == data[0] && ([data[0]] + rest)[1..] == rest;
      } else {
        assert !Matches(data[0], v);
        assert Matching(data, n) == Matching(data[1..], n);
        assert Matching(data, v) == Matching(data[1..], v);
      }
    }
  }

  /**
   * The batch after a deleted batch: in a store with ascending ids, once the first batch of
   * matches above `n` (at most `limit` of them) has been deleted, the records above the id of
   * the batch's last record are exactly the matches the batch did not take, both in the
   * store as it was and in the store after the deletion.
   */
  lemma NextBatchFollows(data: seq<Record>, n: int, limit: nat)
    requires AscendingIds(data)
    requires 0 < Min(limit, |Matching(data, n)|)
    ensures var m := Matching(data, n);
            var k := Min(limit, |m|);
            var v := IdOf(m[k - 1]).value;
            Matching(data, v) == m[k..] && Matching(DropMatching(data, n, limit), v) == m[k..]
  {
    var m := Matching(data, n);
    var k := Min(limit, |m|);
    var v := IdOf(m[k - 1]).value;
    CursorSkipsBatch(data, n, k);
    assert Matches(m[k - 1], n);
    var rest := DropMatching(data, n, limit);
    DropMatchingProperties(data, n, limit);
    MatchingNarrow(rest, n, v);
    assert Matching(rest, n) == m[k..];
    MatchingAll(m[k..], v);
  }
  /** A store whose records carry the ids 1, 2, 3, ... in order, as the tests build them. */
  predicate NumberedFromOne(data: seq<Record>)
  {
    forall i :: 0 <= i < |data| ==> IdOf(data[i]) == Some(i + 1)
  }

  /** When the first `j` records do not match and the rest do, the matches are the records from `j` on. */
  lemma {:induction false} MatchingSplit(data: seq<Record>, n: int, j: nat)
    requires j <= |data|
    requires forall i :: 0 <= i < j ==> !Matches(data[i], n)
    requires forall i :: j <= i < |data| ==> Matches(data[i], n)
    ensures Matching(data, n) == data[j..]
  {
    if j == 0 {
      MatchingAll(data, n);
    } else {
      assert !Matches(data[0], n);
      MatchingSplit(data[1..], n, j - 1);
      assert data[1..][j - 1..] == data[j..];
    }
  }

  /** In a store numbered from 1, the records above cursor `c` are the records from index `c` on. */
  lemma MatchingOfNumbered(data: seq<Record>, c: int)
    requires NumberedFromOne(data) && 0 <= c <= |data|
    ensures Matching(data, c) == data[c..]
  {
    MatchingSplit(data, c, c);
  }

  /** In a store numbered from 1, a batch of at most `limit` records above `c` ends at id `c + k`, `k` its length. */
  lemma NumberedBatchEnds(data: seq<Record>, c: int, limit: nat)
    requires NumberedFromOne(data) && 0 <= c < |data| && limit > 0
    ensures var m := Matching(data, c);
            var k := Min(limit, |m|);
            k == Min(limit, |data| - c) && k > 0 && IdOf(m[k - 1]) == Some(c + k)
  {
    MatchingOfNumbered(data, c);
  }

  /**
   * The incremental sync of the integration tests: ids 1 to 100, cursor 50, batches of 25.
   * The first batch moves the cursor to 75, the second to 100, and then nothing is left.
   */
  lemma IncrementalSyncCursors(data: seq<Record>)
    requires NumberedFromOne(data) && |data| == 100
    ensures |Matching(data, 50)| == 50 && IdOf(Matching(data, 50)[24]) == Some(75)
    ensures |Matching(data, 75)| == 25 && IdOf(Matching(data, 75)[24]) == Some(100)
    ensures Matching(data, 100) == []
  {
    MatchingOfNumbered(data, 50);
    NumberedBatchEnds(data, 50, 25);
    assert Min(25, |data| - 50) == 25;
    NumberedBatchEnds(data, 75, 25);
    assert Min(25, |data| - 75) == 25;
    MatchingOfNumbered(data, 75);
    MatchingOfNumbered(data, 100);
  }
}
