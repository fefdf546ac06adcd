/*
 * The decisions and payloads of one upload in `DbSyncHelper`: input normalisation, the
 * compact column format, the form body, the endpoint URL, the classification of the
 * server's answer, the progress formula and the sync-state queries.
 */
module SyncRequests {
  import opened Wrappers
  import opened Values
  import opened AwareUtils

  // ---------------------------------------------------------------------------------------
  // Input normalisation: `trimmingCharacters(in: .whitespacesAndNewlines)`

  /** The characters of `.whitespacesAndNewlines`: the Unicode separators and the controls U+0009 to U+000D and U+0085. */
  predicate IsWhitespace(c: char)
  {
    c == ' ' || ('\t' <= c <= '\r') || c == '\U{0085}' || c == '\U{00A0}' || c == '\U{1680}' ||
    ('\U{2000}' <= c <= '\U{200A}') || c == '\U{2028}' || c == '\U{2029}' ||
    c == '\U{202F}' || c == '\U{205F}' || c == '\U{3000}'
  }

  /** Drops the leading whitespace. */
  function TrimStart(s: string): (r: string)
    ensures |r| <= |s| && r == s[|s| - |r|..]
    ensures forall i :: 0 <= i < |s| - |r| ==> IsWhitespace(s[i])
    ensures r == [] || !IsWhitespace(r[0])
  {
    if |s| > 0 && IsWhitespace(s[0]) then TrimStart(s[1..]) else s
  }

  /** Drops the trailing whitespace. */
  function TrimEnd(s: string): (r: string)
    ensures |r| <= |s| && r == s[..|r|]
    ensures forall i :: |r| <= i < |s| ==> IsWhitespace(s[i])
    ensures r == [] || !IsWhitespace(r[|r| - 1])
  {
    if |s| > 0 && IsWhitespace(s[|s| - 1]) then TrimEnd(s[..|s| - 1]) else s
  }

  /** `trimmingCharacters(in: .whitespacesAndNewlines)`, applied to the host and the table name. */
  function Trim(s: string): (r: string)
    ensures |r| <= |s|
    ensures r == [] || (!IsWhitespace(r[0]) && !IsWhitespace(r[|r| - 1]))
  {
    var t := TrimStart(s);
    assert TrimEnd(t) == [] || TrimEnd(t)[0] == t[0];
    TrimEnd(t)
  }

  /** Trimming keeps one contiguous piece of the input, drops only whitespace, and leaves none at either end. */
  lemma TrimProperties(s: string)
    ensures exists i, j :: 0 <= i <= j <= |s| && Trim(s) == s[i..j] &&
                           (forall k :: 0 <= k < i ==> IsWhitespace(s[k])) &&
                           (forall k :: j <= k < |s| ==> IsWhitespace(s[k]))
    ensures Trim(s) == [] || (!IsWhitespace(Trim(s)[0]) && !IsWhitespace(Trim(s)[|Trim(s)| - 1]))
  {
    var t := TrimStart(s);
    var i := |s| - |t|;
    var r := TrimEnd(t);
    assert r == s[i..i + |r|];
    forall k | i + |r| <= k < |s| ensures IsWhitespace(s[k]) {
      assert s[k] == t[k - i];
    }
    if r != [] {
      assert r[0] == t[0];
    }
  }

  /** Trimming twice is trimming once. */
  lemma TrimIdempotent(s: string)
    ensures Trim(Trim(s)) == Trim(s)
  {
    var r := Trim(s);
    if r != [] {
      assert r[0] == TrimStart(s)[0];
      assert TrimStart(r) == r;
      assert TrimEnd(r) == r;
    }
  }

  // ---------------------------------------------------------------------------------------
  // The compact data format

  /** Keys left out of the compact format. */
  const ExcludedCompactFields: set<string> := {"os", "jsonVersion", "deviceId", "timezone"}

  /** The values of `key` in the rows that have it, in row order. */
  function Column(rows: seq<Dict>, key: string): (c: seq<Value>)
    ensures |c| <= |rows|
  {
    if rows == [] then []
    else Column(rows[..|rows| - 1], key) + (if key in rows[|rows| - 1] then [rows[|rows| - 1][key]] else [])
  }

  /** Every key of every row. */
  function KeysOf(rows: seq<Dict>): set<string>
  {
    if rows == [] then {} else KeysOf(rows[..|rows| - 1]) + rows[|rows| - 1].Keys
  }

  /** The column-wise payload: one column per key outside `excluded`. */
  function PivotExcluding(rows: seq<Dict>, excluded: set<string>): map<string, seq<Value>>
  {
    map k | k in KeysOf(rows) && k !in excluded :: Column(rows, k)
  }

  /** The compact payload. */
  function Pivot(rows: seq<Dict>): (p: map<string, seq<Value>>)
    ensures forall k | k in p :: k !in ExcludedCompactFields && |p[k]| <= |rows|
  {
    PivotExcluding(rows, ExcludedCompactFields)
  }

  /** A key belongs to some row exactly when it is in `KeysOf`. */
  lemma {:induction false} KeysOfMembers(rows: seq<Dict>, k: string)
    ensures k in KeysOf(rows) <==> exists i :: 0 <= i < |rows| && k in rows[i]
  {
    if rows != [] {
      var init := rows[..|rows| - 1];
      KeysOfMembers(init, k);
      if k in KeysOf(init) {
        var i :| 0 <= i < |init| && k in init[i];
        assert rows[i] == init[i];
      }
      if exists i :: 0 <= i < |rows| && k in rows[i] {
        var i :| 0 <= i < |rows| && k in rows[i];
        if i < |init| {
          assert init[i] == rows[i];
        }
      }
    }
  }

  /** A key no row has gets an empty column. */
  lemma {:induction false} ColumnOfAbsentKey(rows: seq<Dict>, k: string)
    requires k !in KeysOf(rows)
    ensures Column(rows, k) == []
  {
    if rows != [] {
      ColumnOfAbsentKey(rows[..|rows| - 1], k);
    }
  }

  /** When every row has `key`, its column holds exactly one value per row, in row order. */
  lemma {:induction false} ColumnOfUniformRows(rows: seq<Dict>, key: string)
    requires forall i :: 0 <= i < |rows| ==> key in rows[i]
    ensures |Column(rows, key)| == |rows|
    ensures forall i :: 0 <= i < |rows| ==> Column(rows, key)[i] == rows[i][key]
  {
    if rows != [] {
      var init := rows[..|rows| - 1];
      ColumnOfUniformRows(init, key);
    }
  }

  /** The compact payload has a column for each non-excluded key some row has, and for no other key. */
  lemma PivotKeys(rows: seq<Dict>, k: string)
    ensures k in Pivot(rows) <==> k !in ExcludedCompactFields && exists i :: 0 <= i < |rows| && k in rows[i]
  {
    KeysOfMembers(rows, k);
  }

  /** The nested loops of `buildRequestBody` that fill `aggregatedData`, one row at a time. */
  method AggregateColumns(rows: seq<Dict>) returns (aggregated: map<string, seq<Value>>)
    ensures aggregated == Pivot(rows)
  {
    aggregated := map[];
    var i := 0;
    while i < |rows|
      invariant 0 <= i <= |rows|
      invariant aggregated == Pivot(rows[..i])
    {
      assert rows[..i + 1] == rows[..i] + [rows[i]];
      aggregated := AggregateRow(aggregated, rows[..i], rows[i], ExcludedCompactFields);
      i := i + 1;
    }
    assert rows[..|rows|] == rows;
  }

  /** The inner loop: appends each non-excluded entry of `row` to its column, in whatever order the dictionary yields them. */
  method AggregateRow(aggregated: map<string, seq<Value>>, done: seq<Dict>, row: Dict, excluded: set<string>)
    returns (r: map<string, seq<Value>>)
    requires aggregated == PivotExcluding(done, excluded)
    ensures r == PivotExcluding(done + [row], excluded)
  {
    r := aggregated;
    var pending := row.Keys;
    while pending != {}
      invariant pending <= row.Keys
      invariant forall k :: k in r <==> (k in KeysOf(done) || k in row.Keys - pending) && k !in excluded
      invariant forall k :: k in r ==> r[k] == Column(done, k) + (if k in row.Keys - pending then [row[k]] else [])
      decreases pending
    {
      var key :| key in pending;
      if key !in excluded {
        if key !in r {
          ColumnOfAbsentKey(done, key);
        }
        var column := if key in r then r[key] else [];
        r := r[key := column + [row[key]]];
      }
      pending := pending - {key};
    }
    PivotStep(r, done, row, excluded);
  }

  /** A map that holds, for each key of the rows so far plus `row`, the old column extended by `row`'s value is the next pivot. */
  lemma PivotStep(r: map<string, seq<Value>>, done: seq<Dict>, row: Dict, excluded: set<string>)
    requires forall k :: k in r <==> (k in KeysOf(done) || k in row) && k !in excluded
    requires forall k :: k in r ==> r[k] == Column(done, k) + (if k in row then [row[k]] else [])
    ensures r == PivotExcluding(done + [row], excluded)
  {
    var all := done + [row];
    assert all[..|all| - 1] == done && all[|all| - 1] == row;
    assert r.Keys == PivotExcluding(all, excluded).Keys;
  }

  // ---------------------------------------------------------------------------------------
  // The request body and the endpoint

  /** What gets serialised: the rows as they are, or the compact columns. */
  datatype Payload = Rows(rows: seq<Dict>) | Columns(columns: map<string, seq<Value>>)

  /** The form-encoded body before the body handler: `device_id=<id>&data=<json>`. */
  function FormBody(deviceId: string, data: string): (b: string)
    ensures |b| == 16 + |deviceId| + |data|
    ensures b[..10] == "device_id=" && b[10..10 + |deviceId|] == deviceId
    ensures b[10 + |deviceId|..16 + |deviceId|] == "&data=" && b[16 + |deviceId|..] == data
  {
    "device_id=" + deviceId + "&data=" + data
  }

  /** The body after the optional `createHttpRequestBodyHandler`. */
  function RequestBody(deviceId: string, data: string, handler: Option<string -> string>): (b: string)
    ensures handler.None? ==> b == FormBody(deviceId, data)
    ensures handler.Some? ==> b == handler.value(FormBody(deviceId, data))
  {
    match handler
    case None => FormBody(deviceId, data)
    case Some(h) => h(FormBody(deviceId, data))
  }

  /**
   * `buildRequestBody`: serialise the rows, or their compact columns, and wrap the JSON text
   * in the form body. The serialiser and the device id come from outside.
   */
  method BuildRequestBody(rows: seq<Dict>, compact: bool, deviceId: string,
                          serialize: Payload -> Result<string, string>,
                          handler: Option<string -> string>) returns (body: Result<string, string>)
    ensures var json := serialize(if compact then Columns(Pivot(rows)) else Rows(rows));
            (body.Failure? <==> json.Failure?) &&
            (json.Failure? ==> body.error == json.error) &&
            (json.Success? ==> body.value == RequestBody(deviceId, json.value, handler))
  {
    var json: Result<string, string>;
    if compact {
      var aggregated := AggregateColumns(rows);
      json := serialize(Columns(aggregated));
    } else {
      json := serialize(Rows(rows));
    }
    if json.Failure? {
      return Failure(json.error);
    }
    var requestStr := FormBody(deviceId, json.value);
    if handler.Some? {
      requestStr := handler.value(requestStr);
    }
    body := Success(requestStr);
  }

  /** The endpoint `https://<host>/<table>/insert`; the percent-encoder is given, and a nil encoding keeps the table name. */
  function EndpointUrl(host: string, table: string, percentEncode: string -> Option<string>): (u: string)
    ensures |u| >= |Https| + 1 + |"/insert"|
    ensures u[..|Https|] == Https && u[|u| - |"/insert"|..] == "/insert"
  {
    Https + CleanHostName(host) + "/" + percentEncode(table).GetOr(table) + "/insert"
  }

  /** A host without a scheme goes into the URL as it is. */
  lemma EndpointUrlOfPlainHost(host: string, table: string, percentEncode: string -> Option<string>)
    requires !Contains(host, Http) && !Contains(host, Https)
    ensures EndpointUrl(host, table, percentEncode) == Https + host + "/" + percentEncode(table).GetOr(table) + "/insert"
  {
    CleanHostNameKeepsPlainHost(host);
  }

  /** A host given with either scheme yields the same URL as the bare host: the scheme is never doubled. */
  lemma EndpointUrlDropsScheme(h: string, table: string, percentEncode: string -> Option<string>)
    requires !Contains(h, Http) && !Contains(h, Https)
    ensures EndpointUrl(Https + h, table, percentEncode) == EndpointUrl(h, table, percentEncode)
    ensures EndpointUrl(Http + h, table, percentEncode) == EndpointUrl(h, table, percentEncode)
  {
    CleanHostNameKeepsPlainHost(h);
    CleanHostNameStripsHttps(h);
    CleanHostNameStripsHttp(h);
  }

  // ---------------------------------------------------------------------------------------
  // The server's answer

  /** What `urlSession(_:dataTask:didReceive:completionHandler:)` tells the session to do. */
  datatype Disposition = Allow | Cancel

  /** Only a status in the 2xx class (section 15.3 of RFC 9110) lets the body through. */
  function ResponseDisposition(statusCode: int): (d: Disposition)
    ensures d == Allow <==> 200 <= statusCode < 300
  {
    if 200 <= statusCode < 300 then Allow else Cancel
  }

  /**
   * The bytes collected in `receivedData`, as the JSON parser sees them: nothing, text that
   * does not parse, or a document whose `status` reads as the given integer (`intValue` is
   * 0 when the field is missing or not a number).
   */
  datatype ReceivedBody = NoData | Unparseable | Json(status: int)

  /** The `status` value by which the server reports a failed insert. */
  const HttpNotFoundStatus := 404

  /** `evaluateResponseState`: whether an upload that ended with `error` counts as a success. */
  function EvaluateResponseState(error: Option<string>, test: bool, body: ReceivedBody): (ok: bool)
    ensures error.Some? ==> !ok
    ensures error.None? && test ==> ok
  {
    if error.Some? then false
    else if test then true
    else match body
      case NoData => true
      case Unparseable => true
      case Json(status) => status != HttpNotFoundStatus
  }

  /** Outside test mode, a finished transfer fails exactly when the body is JSON with status 404. */
  lemma OnlyNotFoundStatusFails(body: ReceivedBody)
    ensures !EvaluateResponseState(None, false, body) <==> body == Json(404)
  {
  }

  // ---------------------------------------------------------------------------------------
  // Progress

  /** The progress reported before the next batch: the uploaded share of the session's first count, clamped to [0, 1], or 1 when that count is 0. */
  function Progress(uploaded: int, original: int): (p: real)
    ensures 0.0 <= p <= 1.0
    ensures original <= 0 ==> p == 1.0
    ensures 0 < original <= uploaded ==> p == 1.0
    ensures 0 <= uploaded <= original && 0 < original ==> p == uploaded as real / original as real
  {
    if original > 0 then
      var ratio := uploaded as real / original as real;
      if ratio < 0.0 then 0.0 else if ratio > 1.0 then 1.0 else ratio
    else 1.0
  }

  /** For a fixed first count, uploading more never lowers the progress. */
  lemma ProgressMonotone(u1: int, u2: int, original: int)
    requires u1 <= u2
    ensures Progress(u1, original) <= Progress(u2, original)
  {
    if original > 0 {
      var o := original as real;
      assert u1 as real / o <= u2 as real / o by {
        assert u1 as real <= u2 as real;
        DivideMonotone(u1 as real, u2 as real, o);
      }
    }
  }

  lemma DivideMonotone(a: real, b: real, d: real)
    requires a <= b && d > 0.0
    ensures a / d <= b / d
  {
    assert a / d * d == a;
    assert b / d * d == b;
  }

  /** `uploadProgress` in `getSyncStatistics`: not clamped, and 0 rather than 1 when the first count is 0. */
  function UploadProgress(uploaded: int, original: int): (p: real)
    ensures original <= 0 ==> p == 0.0
    ensures original > 0 ==> p * original as real == uploaded as real
  {
    if original > 0 then uploaded as real / original as real else 0.0
  }

  /** The two progress figures agree while the upload stays within the first count, and differ when that count is 0. */
  lemma ProgressFiguresAgree(uploaded: int, original: int)
    ensures 0 <= uploaded <= original && original > 0 ==> UploadProgress(uploaded, original) == Progress(uploaded, original)
    ensures original <= 0 ==> UploadProgress(uploaded, original) == 0.0 && Progress(uploaded, original) == 1.0
  {
  }

  // ---------------------------------------------------------------------------------------
  // Sync state

  /** `SyncState`; a failure carries its error's description, which is also what `==` compares. */
  datatype SyncState = Idle | Active | Cancelling | Completed | Failed(description: string)

  /** `getCurrentSyncState`. */
  function StateName(s: SyncState): (name: string)
    ensures s.Failed? <==> |name| >= 8 && name[..8] == "failed: "
    ensures s.Failed? ==> name[8..] == s.description
  {
    match s
    case Idle => "idle"
    case Active => "active"
    case Cancelling => assert "cancelling"[7] != ' '; "cancelling"
    case Completed => assert "completed"[1] != 'a'; "completed"
    case Failed(d) => "failed: " + d
  }

  /** Different states are reported under different names. */
  lemma StateNameInjective(a: SyncState, b: SyncState)
    ensures StateName(a) == StateName(b) <==> a == b
  {
    if StateName(a) == StateName(b) && a.Failed? && b.Failed? {
      assert a.description == StateName(a)[8..] == StateName(b)[8..] == b.description;
    }
  }

  /** `canStop`. */
  function CanStop(s: SyncState): (r: bool)
    ensures r <==> s.Active? || s.Failed?
  {
    match s
    case Active => true
    case Failed(_) => true
    case Idle => false
    case Completed => false
    case Cancelling => false
  }

  /**
   * The guard of `stopGracefully`: `None` when the stop goes ahead, otherwise the value
   * passed straight to the handler.
   */
  function StopGracefullyGuard(s: SyncState): (r: Option<bool>)
    ensures r.None? <==> CanStop(s)
    ensures r == Some(true) <==> s.Idle? || s.Completed?
  {
    if CanStop(s) then None else Some(s == Idle || s == Completed)
  }

  /** A stop refused by the guard reports `false` only while a stop is already under way. */
  lemma RefusedStopReportsFalseOnlyWhileCancelling(s: SyncState)
    ensures StopGracefullyGuard(s) == Some(false) <==> s.Cancelling?
  {
  }
}
