/*
 * `DbSyncHelper`: the incremental batch upload of one table. Each batch reads the table's
 * cursor, fetches the records above it, sends them, and on success advances the cursor to
 * the last record sent (deleting the sent records first when asked to).
 *
 * The record store is the in-memory `MockEngine`; the cursor store is `UserDefaults`.
 * The network is an input: a batch's request is recorded as an event, and the answer
 * arrives through the delegate methods. Callbacks are recorded in the same event log.
 */
module SyncEngines {
  import opened Wrappers
  import opened Values
  import opened MockEngines
  import opened SyncCursors
  import opened SyncRequests
  import opened DbSyncConfigs

  /** A session that has been active or cancelling for longer than this many seconds is reset. */
  const SyncTimeout: real := 300.0

  /** The description of the error `handleSyncCompletion` makes up when it is given none. */
  const UnknownSyncError := "Unknown sync error"

  /** The description of the error a session reports for a task the delegate cancelled. */
  const CancelledError := "cancelled"

  /** The part of a `URLRequest` the model keeps: where it goes and what it carries. */
  datatype Request = Request(url: string, body: string)

  /** What the helper does that is seen from outside. */
  datatype Event =
    | RequestSent(request: Request)                         // `task.resume()`
    | ProgressReported(value: real, error: Option<string>)  // `config.progressHandler`
    | CompletionCalled(success: bool, error: Option<string>) // the completion handler of `run`
    | NextBatchScheduled                                     // `run` queued again by `handleNextBatch`
    | StopReported(completed: bool)                          // the handler of `stopGracefully`
    | StoppedImmediately                                     // the handler of `stopImmediately`

  /** The library calls the model leaves abstract. */
  datatype Environment = Environment(
    deviceId: string,                             // `AwareUtils.getCommonDeviceId()`
    serialize: Payload -> Result<string, string>, // `JSONSerialization`, as UTF-8 text
    percentEncode: string -> Option<string>,      // `addingPercentEncoding(withAllowedCharacters:)`
    urlAccepted: string -> bool,                  // whether `URL(string:)` accepts the text
    parseStatus: seq<bv8> -> Option<int>)         // `JSON(data:)["status"].intValue`, or nil when parsing throws

  /** How `evaluateResponseState` reads the collected bytes. */
  function BodyOf(data: seq<bv8>, parseStatus: seq<bv8> -> Option<int>): (b: ReceivedBody)
    ensures b.NoData? <==> data == []
    ensures b.Unparseable? <==> data != [] && parseStatus(data).None?
  {
    if data == [] then NoData
    else match parseStatus(data)
      case None => Unparseable
      case Some(status) => Json(status)
  }

  /** What the network does with one request: the status line, the body bytes, or a transport error. */
  datatype Outcome = Outcome(statusCode: int, data: seq<bv8>, transportError: Option<string>)

  /** The error `didCompleteWithError` receives: the transport error, or a cancellation when the delegate refused the status. */
  function CompletionError(o: Outcome): (e: Option<string>)
    ensures e.None? <==> o.transportError.None? && 200 <= o.statusCode < 300
  {
    if o.transportError.Some? then o.transportError
    else if ResponseDisposition(o.statusCode) == Cancel then Some(CancelledError)
    else None
  }

  /** Whether a request that met `o`, after `prior` bytes were already buffered, counts as uploaded. */
  function ResponseOk(o: Outcome, prior: seq<bv8>, test: bool, parseStatus: seq<bv8> -> Option<int>): bool
  {
    EvaluateResponseState(CompletionError(o), test, BodyOf(prior + o.data, parseStatus))
  }

  /** The mutable state of a helper, as one value. */
  datatype Session = Session(
    syncState: SyncState,
    syncStartTime: real,
    isLastBatch: bool,
    lastUploadedId: int,
    idOfLastCandidate: Option<int>,
    progress: real,
    currentNumOfCandidates: int,
    originalNumOfCandidates: int,
    totalUploadedRecords: int,
    receivedData: seq<bv8>,
    hasCompletion: bool,
    events: seq<Event>)

  function InitialSession(): Session
  {
    Session(Idle, 0.0, false, 0, None, 0.0, 0, 0, 0, [], false, [])
  }

  /** The callbacks of a finished session, in the order they are queued on the main thread. */
  function FinishEvents(hasProgressHandler: bool, hasCompletion: bool, success: bool, error: Option<string>): seq<Event>
  {
    (if hasProgressHandler then [ProgressReported(if success then 1.0 else 0.0, error)] else []) +
    (if hasCompletion then [CompletionCalled(success, error)] else [])
  }

  /** `log` is `earlier` with events appended: the helper never takes back what it has done. */
  predicate Extends(log: seq<Event>, earlier: seq<Event>)
  {
    |earlier| <= |log| && log[..|earlier|] == earlier
  }

  /** `handleSyncCompletion(success:error:)`. */
  function Finished(s: Session, hasProgressHandler: bool, success: bool, error: Option<string>): (r: Session)
    ensures r.syncState == Completed <==> success
    ensures !success ==> r.syncState.Failed?
    ensures r.totalUploadedRecords == s.totalUploadedRecords && r.lastUploadedId == s.lastUploadedId
    ensures Extends(r.events, s.events)
  {
    s.(syncState := if success then Completed else Failed(error.GetOr(UnknownSyncError)),
       events := s.events + FinishEvents(hasProgressHandler, s.hasCompletion, success, error))
  }

  /** `handleNextBatch()`: the progress so far is reported, and the next `run` is queued. */
  function NextBatchQueued(s: Session, hasProgressHandler: bool): (r: Session)
    ensures r.syncState == s.syncState && r.totalUploadedRecords == s.totalUploadedRecords
    ensures Extends(r.events, s.events) && |r.events| > 0 && r.events[|r.events| - 1] == NextBatchScheduled
  {
    s.(events := s.events +
       (if hasProgressHandler then [ProgressReported(Progress(s.totalUploadedRecords, s.originalNumOfCandidates), None)] else []) +
       [NextBatchScheduled])
  }

  /** The session after `didCompleteWithError` with the given verdict. */
  function AfterResponse(s: Session, ok: bool, error: Option<string>, hasProgressHandler: bool): (r: Session)
    ensures ok ==> r.totalUploadedRecords == s.totalUploadedRecords + s.currentNumOfCandidates && r.idOfLastCandidate.None?
    ensures !ok ==> r.totalUploadedRecords == s.totalUploadedRecords && r.syncState.Failed?
    ensures r.receivedData == [] && r.progress == s.progress && r.lastUploadedId == s.lastUploadedId
    ensures Extends(r.events, s.events)
  {
    if ok then
      var s1 := s.(totalUploadedRecords := s.totalUploadedRecords + s.currentNumOfCandidates,
                   idOfLastCandidate := None, receivedData := []);
      if s.isLastBatch then Finished(s1, hasProgressHandler, true, error) else NextBatchQueued(s1, hasProgressHandler)
    else Finished(s.(receivedData := []), hasProgressHandler, false, error)
  }

  /** The cursor store after `didCompleteWithError`: only a success with a known last id moves the cursor. */
  function CursorsAfterResponse(values: map<string, int>, s: Session, ok: bool, table: string): (r: map<string, int>)
    ensures !(ok && s.idOfLastCandidate.Some?) ==> r == values
    ensures ok && s.idOfLastCandidate.Some? ==> LastUploadedId(r, table) == s.idOfLastCandidate.value
  {
    if ok && s.idOfLastCandidate.Some? then WithLastUploadedId(values, s.idOfLastCandidate.value, table) else values
  }

  /** The records left by `remove(filter: "id > \(cursor)", limit:)`. */
  function RemovedBy(data: seq<Record>, cursor: int, limit: nat): seq<Record>
  {
    match CursorFilter(cursor)
    case IdGreaterThan(n) => DropMatching(data, n, limit)
    case Unrecognised => data
  }

  /** Whether `upload` treats the request as answered at once: test mode, with a request built. */
  predicate Delivers(request: Result<Option<Request>, string>, test: bool)
  {
    request.Success? && request.value.Some? && test
  }

  /**
   * The session after `upload` has tried to send a non-empty batch: failed on a
   * serialisation error, unchanged when no request could be built, waiting for the answer
   * after the request went out, or already past a successful answer in test mode.
   */
  function AfterSend(s: Session, request: Result<Option<Request>, string>, test: bool, hasProgressHandler: bool): (r: Session)
    ensures request.Failure? ==> r.syncState == Failed(request.error) && r.totalUploadedRecords == s.totalUploadedRecords
    ensures request.Success? && request.value.Some? && !test ==>
              r.events == s.events + [RequestSent(request.value.value)] && r.syncState == s.syncState
    ensures r.lastUploadedId == s.lastUploadedId && r.progress == s.progress
    ensures Extends(r.events, s.events)
  {
    match request
    case Failure(e) =>
      s.(syncState := Failed(e), events := s.events + (if s.hasCompletion then [CompletionCalled(false, Some(e))] else []))
    case Success(None) => s
    case Success(Some(r)) =>
      if test then AfterResponse(s, true, None, hasProgressHandler) else s.(events := s.events + [RequestSent(r)])
  }

  /** Whether a batch counts as uploaded: it was not empty, a request was built, and test mode or the server accepted it. */
  predicate Uploaded(batch: seq<Record>, request: Result<Option<Request>, string>, test: bool,
                     o: Outcome, prior: seq<bv8>, parseStatus: seq<bv8> -> Option<int>)
  {
    batch != [] && request.Success? && request.value.Some? && (test || ResponseOk(o, prior, false, parseStatus))
  }

  /**
   * The session after one whole batch, from the session `s0` that `upload` starts from: an
   * empty batch completes; a request that went out is answered as `o` says; otherwise the
   * session is where `upload` left it.
   */
  function BatchSession(s0: Session, batch: seq<Record>, request: Result<Option<Request>, string>, test: bool,
                        hasProgressHandler: bool, o: Outcome, parseStatus: seq<bv8> -> Option<int>): (r: Session)
    ensures batch == [] ==> r.syncState == Completed
    ensures r.lastUploadedId == s0.lastUploadedId && r.progress == s0.progress
    ensures Extends(r.events, s0.events)
  {
    if batch == [] then Finished(s0, hasProgressHandler, true, None)
    else if request.Success? && request.value.Some? && !test then
      AfterResponse(AfterSend(s0, request, test, hasProgressHandler), ResponseOk(o, s0.receivedData, false, parseStatus),
                    CompletionError(o), hasProgressHandler)
    else AfterSend(s0, request, test, hasProgressHandler)
  }

  /** The session after `performDataSync` has read the cursor `c0` and, on the first batch of a session, the count `count`. */
  function Prepared(s: Session, c0: int, count: int): (r: Session)
    ensures r.lastUploadedId == c0 && r.events == s.events && r.syncState == s.syncState
    ensures s.originalNumOfCandidates == 0 ==> r.originalNumOfCandidates == count && r.totalUploadedRecords == 0
    ensures s.originalNumOfCandidates != 0 ==> r == s.(lastUploadedId := c0)
  {
    if s.originalNumOfCandidates == 0 then s.(lastUploadedId := c0, originalNumOfCandidates := count, totalUploadedRecords := 0)
    else s.(lastUploadedId := c0)
  }

  /** The session after `upload` has looked at its candidates, before it builds a request. */
  function Counted(s: Session, candidates: seq<Record>, batchSize: int): (r: Session)
    ensures r.currentNumOfCandidates == |candidates|
    ensures candidates != [] ==> r.idOfLastCandidate == IdOf(candidates[|candidates| - 1])
    ensures s.isLastBatch ==> r.isLastBatch
    ensures 0 < |candidates| < batchSize ==> r.isLastBatch
    ensures r.events == s.events && r.syncState == s.syncState && r.totalUploadedRecords == s.totalUploadedRecords
  {
    s.(currentNumOfCandidates := |candidates|,
       idOfLastCandidate := if candidates == [] then None else IdOf(candidates[|candidates| - 1]),
       isLastBatch := s.isLastBatch || 0 < |candidates| < batchSize)
  }

  /** `resetSyncState()`: back to idle with no batch, counts or completion; the cursor copy and the event log stay. */
  function Reset(s: Session): (r: Session)
    ensures r.syncState == Idle && !r.isLastBatch && r.originalNumOfCandidates == 0 && r.totalUploadedRecords == 0
    ensures r.events == s.events && r.lastUploadedId == s.lastUploadedId
  {
    Session(syncState := Idle, syncStartTime := 0.0, isLastBatch := false, lastUploadedId := s.lastUploadedId,
            idOfLastCandidate := None, progress := 0.0, currentNumOfCandidates := 0, originalNumOfCandidates := 0,
            totalUploadedRecords := 0, receivedData := [], hasCompletion := false, events := s.events)
  }

  /** A reset helper is a freshly made one, apart from the cursor it last read and what it has already done. */
  lemma ResetIsInitial(s: Session)
    ensures Reset(s) == InitialSession().(lastUploadedId := s.lastUploadedId, events := s.events)
    ensures Reset(Reset(s)) == Reset(s)
  {
  }

  /** After a reset the next session counts its candidates afresh, and its progress starts from nothing. */
  lemma ResetRecounts(s: Session, c0: int, count: int)
    ensures Prepared(Reset(s), c0, count).originalNumOfCandidates == count
    ensures Prepared(Reset(s), c0, count).totalUploadedRecords == 0
  {
  }

  /** Without a reset, a later session keeps the first count of an earlier one. */
  lemma CountKeptAcrossSessions(s: Session, c0: int, count: int)
    requires s.originalNumOfCandidates != 0
    ensures Prepared(s, c0, count).originalNumOfCandidates == s.originalNumOfCandidates
    ensures Prepared(s, c0, count).totalUploadedRecords == s.totalUploadedRecords
  {
  }

  /**
   * The cursors after one batch: the table's cursor moves to the id of the batch's last
   * record exactly when the batch was uploaded and that record carries an `Int64` id; every
   * other table keeps its cursor.
   */
  lemma BatchCursor(values: map<string, int>, s: Session, batch: seq<Record>, batchSize: int,
                    uploaded: bool, table: string, other: string)
    ensures LastUploadedId(CursorsAfterResponse(values, Counted(s, batch, batchSize), uploaded, table), other) ==
            if other == table && uploaded && batch != [] && IdOf(batch[|batch| - 1]).Some?
            then IdOf(batch[|batch| - 1]).value
            else LastUploadedId(values, other)
  {
    if uploaded && batch != [] && IdOf(batch[|batch| - 1]).Some? {
      GetAfterSet(values, IdOf(batch[|batch| - 1]).value, table, other);
    }
  }

  /**
   * A batch fetched above the cursor `c0` moves the cursor strictly forward when it is
   * uploaded and leaves it at `c0` otherwise: no record is sent twice by a later batch.
   */
  lemma UploadedBatchAdvancesCursor(values: map<string, int>, s: Session, batch: seq<Record>, batchSize: int,
                                    uploaded: bool, table: string)
    requires forall i :: 0 <= i < |batch| ==> Matches(batch[i], LastUploadedId(values, table))
    ensures var c1 := LastUploadedId(CursorsAfterResponse(values, Counted(s, batch, batchSize), uploaded, table), table);
            (uploaded && batch != [] ==> c1 > LastUploadedId(values, table)) &&
            (!(uploaded && batch != []) ==> c1 == LastUploadedId(values, table))
  {
    BatchCursor(values, s, batch, batchSize, uploaded, table, table);
    if batch != [] {
      assert Matches(batch[|batch| - 1], LastUploadedId(values, table));
    }
  }

  /**
   * How one batch ends, for a session that `run` made active: an empty batch completes at
   * once; an uploaded batch is counted and completes the session exactly when it is the last
   * one (short, or flagged earlier), and otherwise queues the next `run`; a rejected or
   * unserialisable batch fails the session; a batch for which no URL could be made leaves
   * the session waiting where `upload` put it.
   */
  lemma BatchEnds(s: Session, batch: seq<Record>, batchSize: int, request: Result<Option<Request>, string>,
                  test: bool, hasProgressHandler: bool, o: Outcome, parseStatus: seq<bv8> -> Option<int>)
    requires s.syncState == Active
    ensures var s0 := Counted(s, batch, batchSize);
            var r := BatchSession(s0, batch, request, test, hasProgressHandler, o, parseStatus);
            var uploaded := Uploaded(batch, request, test, o, s.receivedData, parseStatus);
            var last := s.isLastBatch || |batch| < batchSize;
            (batch == [] ==> r.syncState == Completed &&
                             r.events == s.events + FinishEvents(hasProgressHandler, s.hasCompletion, true, None)) &&
            (uploaded ==> r.totalUploadedRecords == s.totalUploadedRecords + |batch| &&
                          r.receivedData == [] && r.idOfLastCandidate.None? &&
                          r.syncState == (if last then Completed else Active) &&
                          (!last ==> r.events[|r.events| - 1] == NextBatchScheduled)) &&
            (batch != [] && !uploaded && request != Success(None) ==> r.syncState.Failed?) &&
            (batch != [] && request == Success(None) ==> r == s0)
            && r.progress == s.progress
    ensures var r := BatchSession(Counted(s, batch, batchSize), batch, request, test, hasProgressHandler, o, parseStatus);
            Uploaded(batch, request, test, o, s.receivedData, parseStatus) && (s.isLastBatch || |batch| < batchSize) ==>
              r.events == s.events + (if test then [] else [RequestSent(request.value.value)]) +
                          FinishEvents(hasProgressHandler, s.hasCompletion, true, None)
    ensures var r := BatchSession(Counted(s, batch, batchSize), batch, request, test, hasProgressHandler, o, parseStatus);
            batch != [] && !Uploaded(batch, request, test, o, s.receivedData, parseStatus) && request != Success(None) ==>
              r.totalUploadedRecords == s.totalUploadedRecords && r.currentNumOfCandidates == |batch| &&
              (s.hasCompletion ==> |r.events| > 0 && r.events[|r.events| - 1].CompletionCalled? &&
                                   !r.events[|r.events| - 1].success)
  {
    if Uploaded(batch, request, test, o, s.receivedData, parseStatus) && (s.isLastBatch || |batch| < batchSize) {
      LastBatchFinishes(s, batch, batchSize, request, test, hasProgressHandler, o, parseStatus);
    }
    if batch != [] && !Uploaded(batch, request, test, o, s.receivedData, parseStatus) && request != Success(None) {
      FailedBatchKeepsCounts(s, batch, batchSize, request, test, hasProgressHandler, o, parseStatus);
    }
  }

  /** The events of an uploaded last batch: the request, if one went out, then the finishing callbacks with no error. */
  lemma LastBatchFinishes(s: Session, batch: seq<Record>, batchSize: int, request: Result<Option<Request>, string>,
                          test: bool, hasProgressHandler: bool, o: Outcome, parseStatus: seq<bv8> -> Option<int>)
    requires Uploaded(batch, request, test, o, s.receivedData, parseStatus) && (s.isLastBatch || |batch| < batchSize)
    ensures var r := BatchSession(Counted(s, batch, batchSize), batch, request, test, hasProgressHandler, o, parseStatus);
            r.events == s.events + (if test then [] else [RequestSent(request.value.value)]) +
                        FinishEvents(hasProgressHandler, s.hasCompletion, true, None)
  {
  }

  /** A failed batch adds nothing to the uploaded total, and the completion handler, if any, is told `false` last. */
  lemma FailedBatchKeepsCounts(s: Session, batch: seq<Record>, batchSize: int, request: Result<Option<Request>, string>,
                               test: bool, hasProgressHandler: bool, o: Outcome, parseStatus: seq<bv8> -> Option<int>)
    requires batch != [] && !Uploaded(batch, request, test, o, s.receivedData, parseStatus) && request != Success(None)
    ensures var r := BatchSession(Counted(s, batch, batchSize), batch, request, test, hasProgressHandler, o, parseStatus);
            r.totalUploadedRecords == s.totalUploadedRecords && r.currentNumOfCandidates == |batch| &&
            (s.hasCompletion ==> |r.events| > 0 && r.events[|r.events| - 1].CompletionCalled? &&
                                 !r.events[|r.events| - 1].success)
  {
  }

  /**
   * `isLastBatch` is only ever set during a session: once a short batch has been seen, a later
   * full batch that uploads completes the session too, whatever is left in the store, until
   * `resetSyncState` clears the flag.
   */
  lemma StickyLastBatchCompletes(s: Session, batch: seq<Record>, batchSize: int, request: Result<Option<Request>, string>,
                                 test: bool, hasProgressHandler: bool, o: Outcome, parseStatus: seq<bv8> -> Option<int>)
    requires s.syncState == Active && s.isLastBatch
    requires |batch| == batchSize
    requires Uploaded(batch, request, test, o, s.receivedData, parseStatus)
    ensures Counted(s, batch, batchSize).isLastBatch
    ensures BatchSession(Counted(s, batch, batchSize), batch, request, test, hasProgressHandler, o, parseStatus).syncState
            == Completed
    ensures !Counted(s.(isLastBatch := false), batch, batchSize).isLastBatch
  {
  }

  /** The dictionary `getSyncStatistics` returns, one field per key. */
  datatype SyncStatistics = SyncStatistics(
    tableName: string,
    originalNumOfCandidates: int,
    currentNumOfCandidates: int,
    totalUploadedRecords: int,
    lastUploadedId: int,
    isLastBatch: bool,
    progress: real,
    uploadProgress: real,
    uploadPercentage: int,
    syncState: string)

  /** `Int(x)` for a `Double`: the integer part, rounded toward zero. */
  function TruncReal(x: real): (n: int)
    ensures 0.0 <= x ==> n == x.Floor
    ensures x < 0.0 ==> n == -((-x).Floor)
  {
    if 0.0 <= x then x.Floor else -((-x).Floor)
  }

  /** The statistics of a helper in session `s`; the percentage is within 0..100 while no more records were uploaded than counted. */
  function Statistics(s: Session, tableName: string): (st: SyncStatistics)
    ensures st.uploadProgress == UploadProgress(s.totalUploadedRecords, s.originalNumOfCandidates)
    ensures st.syncState == StateName(s.syncState)
    ensures 0 <= s.totalUploadedRecords <= s.originalNumOfCandidates ==> 0 <= st.uploadPercentage <= 100
    ensures s.originalNumOfCandidates > 0 && s.totalUploadedRecords == s.originalNumOfCandidates ==> st.uploadPercentage == 100
  {
    var up := UploadProgress(s.totalUploadedRecords, s.originalNumOfCandidates);
    PercentageBounds(s.totalUploadedRecords, s.originalNumOfCandidates);
    SyncStatistics(tableName, s.originalNumOfCandidates, s.currentNumOfCandidates, s.totalUploadedRecords,
                   s.lastUploadedId, s.isLastBatch, s.progress, up, TruncReal(up * 100.0), StateName(s.syncState))
  }

  lemma SelfQuotient(x: real)
    requires x > 0.0
    ensures x / x == 1.0
  {
  }

  /** Bounds of `Int(uploadProgress * 100)`. */
  lemma PercentageBounds(uploaded: int, original: int)
    ensures 0 <= uploaded <= original ==> 0 <= TruncReal(UploadProgress(uploaded, original) * 100.0) <= 100
    ensures original > 0 && uploaded == original ==> TruncReal(UploadProgress(uploaded, original) * 100.0) == 100
  {
    if 0 <= uploaded <= original && original > 0 {
      var p := UploadProgress(uploaded, original);
      assert p == uploaded as real / original as real;
      DivideMonotone(uploaded as real, original as real, original as real);
      assert p <= 1.0;
      if uploaded == original {
        SelfQuotient(original as real);
        assert p == original as real / original as real == 1.0;
        assert p * 100.0 == 100.0;
      }
    }
  }

  /**
   * The percentage is not clamped: a session that keeps an earlier count of 10 with 10 records
   * already uploaded, then uploads a last batch of 5, reports 150.
   */
  lemma PercentageExceedsHundredAcrossSessions(s: Session, c0: int, count: int, batch: seq<Record>, tableName: string)
    requires s.originalNumOfCandidates == 10 && s.totalUploadedRecords == 10 && |batch| == 5
    ensures Statistics(AfterResponse(Counted(Prepared(s, c0, count), batch, 1000), true, None, false), tableName)
              .uploadPercentage == 150
  {
    var r := AfterResponse(Counted(Prepared(s, c0, count), batch, 1000), true, None, false);
    assert r.totalUploadedRecords == 15 && r.originalNumOfCandidates == 10;
    assert UploadProgress(15, 10) == 1.5;
  }

  class DbSyncHelper {
    const engine: MockEngine
    const defaults: UserDefaults
    const host: string
    const tableName: string
    const config: DbSyncConfig
    const env: Environment
    const bodyHandler: Option<string -> string>       // `createHttpRequestBodyHandler`
    const requestHandler: Option<Request -> Request>  // `createURLRequestHandler`

    var syncState: SyncState
    var syncStartTime: real
    var isLastBatch: bool
    var lastUploadedId: int
    var idOfLastCandidate: Option<int>
    var progress: real
    var currentNumOfCandidates: int
    var originalNumOfCandidates: int
    var totalUploadedRecords: int
    var receivedData: seq<bv8>
    var hasCompletion: bool    // whether `completion` is set
    var events: seq<Event>

    function State(): Session
      reads this
    {
      Session(syncState, syncStartTime, isLastBatch, lastUploadedId, idOfLastCandidate, progress,
              currentNumOfCandidates, originalNumOfCandidates, totalUploadedRecords, receivedData,
              hasCompletion, events)
    }

    /** `init(engine:host:tableName:config:)`: host and table name are trimmed of whitespace. */
    constructor (engine: MockEngine, defaults: UserDefaults, host: string, tableName: string,
                 config: DbSyncConfig, env: Environment,
                 bodyHandler: Option<string -> string>, requestHandler: Option<Request -> Request>)
      ensures this.engine == engine && this.defaults == defaults && this.config == config && this.env == env
      ensures this.bodyHandler == bodyHandler && this.requestHandler == requestHandler
      ensures this.host == Trim(host) && this.tableName == Trim(tableName)
      ensures State() == InitialSession()
    {
      this.engine := engine;
      this.defaults := defaults;
      this.host := Trim(host);
      this.tableName := Trim(tableName);
      this.config := config;
      this.env := env;
      this.bodyHandler := bodyHandler;
      this.requestHandler := requestHandler;
      syncState := Idle;
      syncStartTime := 0.0;
      isLastBatch := false;
      lastUploadedId := 0;
      idOfLastCandidate := None;
      progress := 0.0;
      currentNumOfCandidates := 0;
      originalNumOfCandidates := 0;
      totalUploadedRecords := 0;
      receivedData := [];
      hasCompletion := false;
      events := [];
    }

    // -------------------------------------------------------------------------------------
    // Session activity

    /** The getter of `isSessionActive` at time `now`: a session active or cancelling for more than 300 s is forced back to idle. */
    method IsSessionActive(now: real) returns (active: bool)
      modifies this
      ensures var running := old(syncState).Active? || old(syncState).Cancelling?;
              var stale := old(syncStartTime) > 0.0 && now - old(syncStartTime) > SyncTimeout;
              (active <==> running && !stale) &&
              State() == if running && stale then old(State()).(syncState := Idle, syncStartTime := 0.0) else old(State())
    {
      match syncState {
        case Active =>
          active := CheckTimeout(now);
        case Cancelling =>
          active := CheckTimeout(now);
        case _ =>
          active := false;
      }
    }

    /** The timeout test of the getter, for a running session. */
    method CheckTimeout(now: real) returns (active: bool)
      modifies this
      ensures var stale := old(syncStartTime) > 0.0 && now - old(syncStartTime) > SyncTimeout;
              (active <==> !stale) &&
              State() == if stale then old(State()).(syncState := Idle, syncStartTime := 0.0) else old(State())
    {
      if syncStartTime > 0.0 && now - syncStartTime > SyncTimeout {
        syncState := Idle;
        syncStartTime := 0.0;
        return false;
      }
      return true;
    }

    /** The setter of `isSessionActive` at time `now`. */
    method SetSessionActive(value: bool, now: real)
      modifies this
      ensures State() == old(State()).(syncState := if value then Active else Idle,
                                       syncStartTime := if value then now else 0.0)
    {
      if value {
        syncState := Active;
        syncStartTime := now;
      } else {
        syncState := Idle;
        syncStartTime := 0.0;
      }
    }

    /** `startSyncProcess`: clears the retry counter, keeps the completion, and marks the session active. */
    method StartSyncProcess(withCompletion: bool, now: real)
      modifies this, defaults
      ensures defaults.values == old(defaults.values) - {RetriesKey(tableName)}
      ensures State() == old(State()).(hasCompletion := withCompletion, syncState := Active, syncStartTime := now)
    {
      defaults.RemoveObject(RetriesKey(tableName));
      hasCompletion := withCompletion;
      SetSessionActive(true, now);
    }

    // -------------------------------------------------------------------------------------
    // One batch

    /** `getUploadCandidates`: the records above the cursor, at most `limit` of them, in stored order. */
    method GetUploadCandidates(cursor: int, limit: int) returns (candidates: seq<Record>)
      requires limit >= 0
      ensures candidates == engine.Fetch(Some(CursorFilter(cursor)), limit)
      ensures 0 <= cursor <= Int64Max ==> forall i :: 0 <= i < |candidates| ==> Matches(candidates[i], cursor)
    {
      candidates := engine.Fetch(Some(CursorFilter(cursor)), limit);
    }

    /** `removeUploadedCandidates`. */
    method RemoveUploadedCandidates(cursor: int, limit: int)
      requires limit >= 0
      modifies engine
      ensures engine.removeCallCount == old(engine.removeCallCount) + 1
      ensures engine.countResult == old(engine.countResult)
      ensures engine.mockData == RemovedBy(old(engine.mockData), cursor, limit)
    {
      engine.Remove(Some(CursorFilter(cursor)), limit);
    }

    /** The request `upload` would hand to the session for `candidates`: a serialisation error, no request (the URL is refused), or the request. */
    function RequestFor(candidates: seq<Record>): (r: Result<Option<Request>, string>)
      reads config`compactDataFormat
      ensures r.Failure? <==> env.serialize(if config.compactDataFormat then Columns(Pivot(candidates)) else Rows(candidates)).Failure?
      ensures r.Success? ==> (r.value.Some? <==> env.urlAccepted(EndpointUrl(host, tableName, env.percentEncode)))
    {
      var json := env.serialize(if config.compactDataFormat then Columns(Pivot(candidates)) else Rows(candidates));
      if json.Failure? then Failure(json.error)
      else Success(HttpRequest(RequestBody(env.deviceId, json.value, bodyHandler)))
    }

    /** `buildHTTPRequest`: the POST to the table's insert endpoint, or nil when the URL text is refused. */
    function HttpRequest(body: string): (r: Option<Request>)
      ensures r.Some? <==> env.urlAccepted(EndpointUrl(host, tableName, env.percentEncode))
      ensures r.Some? && requestHandler.None? ==> r.value == Request(EndpointUrl(host, tableName, env.percentEncode), body)
      ensures r.Some? && requestHandler.Some? ==> r.value == requestHandler.value(Request(EndpointUrl(host, tableName, env.percentEncode), body))
    {
      var url := EndpointUrl(host, tableName, env.percentEncode);
      if !env.urlAccepted(url) then None
      else
        var request := Request(url, body);
        Some(if requestHandler.Some? then requestHandler.value(request) else request)
    }

    /** `updateLastUploadedId`: stores the last candidate's id, if there is one, as the table's cursor. */
    method UpdateLastUploadedId()
      modifies this, defaults
      ensures defaults.values == CursorsAfterResponse(old(defaults.values), old(State()), true, tableName)
      ensures State() == old(State()).(idOfLastCandidate := None)
    {
      if idOfLastCandidate.Some? {
        SetLastUploadedId(defaults, idOfLastCandidate.value, tableName);
        idOfLastCandidate := None;
      }
    }

    /** `handleSyncCompletion`. */
    method HandleSyncCompletion(success: bool, error: Option<string>)
      modifies this
      ensures State() == Finished(old(State()), config.hasProgressHandler, success, error)
    {
      syncState := if success then Completed else Failed(error.GetOr(UnknownSyncError));
      events := events + FinishEvents(config.hasProgressHandler, hasCompletion, success, error);
    }

    /** `handleNextBatch`. */
    method HandleNextBatch()
      modifies this
      ensures State() == NextBatchQueued(old(State()), config.hasProgressHandler)
    {
      if config.hasProgressHandler {
        var p := Progress(totalUploadedRecords, originalNumOfCandidates);
        events := events + [ProgressReported(p, None)];
      }
      events := events + [NextBatchScheduled];
    }

    /** `handleUploadCompletion`. */
    method HandleUploadCompletion(responseState: bool, error: Option<string>)
      modifies this
      ensures State() == if !responseState then Finished(old(State()), config.hasProgressHandler, false, error)
                         else if old(isLastBatch) then Finished(old(State()), config.hasProgressHandler, true, error)
                         else NextBatchQueued(old(State()), config.hasProgressHandler)
    {
      if responseState {
        if isLastBatch {
          HandleSyncCompletion(true, error);
        } else {
          HandleNextBatch();
        }
      } else {
        HandleSyncCompletion(false, error);
      }
    }

    /** `urlSession(_:dataTask:didReceive:)`: the bytes are appended to the buffer. */
    method DidReceiveData(data: seq<bv8>)
      modifies this
      ensures State() == old(State()).(receivedData := old(receivedData) + data)
    {
      receivedData := receivedData + data;
    }

    /** The success branch of `didCompleteWithError`: count the batch, delete it if configured, move the cursor. */
    method RecordUpload()
      requires config.batchSize >= 0
      modifies this, engine, defaults
      ensures State() == old(State()).(totalUploadedRecords := old(totalUploadedRecords) + old(currentNumOfCandidates),
                                       idOfLastCandidate := None)
      ensures defaults.values == CursorsAfterResponse(old(defaults.values), old(State()), true, tableName)
      ensures engine.removeCallCount == old(engine.removeCallCount) + (if config.removeAfterSync then 1 else 0)
      ensures engine.mockData == (if config.removeAfterSync
                                  then RemovedBy(old(engine.mockData), old(lastUploadedId), config.batchSize)
                                  else old(engine.mockData))
      ensures engine.countResult == old(engine.countResult)
    {
      totalUploadedRecords := totalUploadedRecords + currentNumOfCandidates;
      if config.removeAfterSync {
        RemoveUploadedCandidates(lastUploadedId, config.batchSize);
      }
      UpdateLastUploadedId();
    }

    /**
     * `urlSession(_:task:didCompleteWithError:)`: on success the batch is counted, deleted if
     * configured, and the cursor moved; in every case the buffer is cleared and the session
     * goes on to the next batch, completes, or fails.
     */
    method DidCompleteWithError(error: Option<string>)
      requires config.batchSize >= 0
      modifies this, engine, defaults
      ensures var ok := EvaluateResponseState(error, config.test, BodyOf(old(receivedData), env.parseStatus));
              State() == AfterResponse(old(State()), ok, error, config.hasProgressHandler) &&
              defaults.values == CursorsAfterResponse(old(defaults.values), old(State()), ok, tableName) &&
              engine.removeCallCount == old(engine.removeCallCount) + (if ok && config.removeAfterSync then 1 else 0) &&
              engine.mockData == (if ok && config.removeAfterSync
                                  then RemovedBy(old(engine.mockData), old(lastUploadedId), config.batchSize)
                                  else old(engine.mockData))
      ensures engine.countResult == old(engine.countResult)
    {
      var responseState := EvaluateResponseState(error, config.test, BodyOf(receivedData, env.parseStatus));
      if responseState {
        AcceptResponse(error);
      } else {
        RejectResponse(error);
      }
    }

    /** The success path of `didCompleteWithError`: count and record the batch, then go on or finish. */
    method AcceptResponse(error: Option<string>)
      requires config.batchSize >= 0
      modifies this, engine, defaults
      ensures State() == AfterResponse(old(State()), true, error, config.hasProgressHandler)
      ensures defaults.values == CursorsAfterResponse(old(defaults.values), old(State()), true, tableName)
      ensures engine.removeCallCount == old(engine.removeCallCount) + (if config.removeAfterSync then 1 else 0)
      ensures engine.mockData == (if config.removeAfterSync
                                  then RemovedBy(old(engine.mockData), old(lastUploadedId), config.batchSize)
                                  else old(engine.mockData))
      ensures engine.countResult == old(engine.countResult)
    {
      RecordUpload();
      receivedData := [];
      HandleUploadCompletion(true, error);
    }

    /** The failure path of `didCompleteWithError`: drop the buffered bytes and fail the session. */
    method RejectResponse(error: Option<string>)
      modifies this
      ensures State() == AfterResponse(old(State()), false, error, config.hasProgressHandler)
    {
      receivedData := [];
      HandleUploadCompletion(false, error);
    }

    /**
     * `upload`: records the batch, completes at once on an empty batch, and otherwise hands
     * the batch to `SendBatch`. `inFlight` tells whether a task was resumed.
     */
    method Upload(candidates: seq<Record>) returns (inFlight: bool)
      requires config.batchSize >= 0
      modifies this, engine, defaults
      ensures var s0 := Counted(old(State()), candidates, config.batchSize);
              var request := old(RequestFor(candidates));
              var delivered := candidates != [] && Delivers(request, config.test);
              (inFlight <==> candidates != [] && request.Success? && request.value.Some? && !config.test) &&
              (candidates == [] ==> State() == Finished(s0, config.hasProgressHandler, true, None)) &&
              (candidates != [] ==> State() == AfterSend(s0, request, config.test, config.hasProgressHandler)) &&
              defaults.values == CursorsAfterResponse(old(defaults.values), s0, delivered, tableName) &&
              engine.removeCallCount == old(engine.removeCallCount) + (if delivered && config.removeAfterSync then 1 else 0) &&
              engine.mockData == (if delivered && config.removeAfterSync
                                  then RemovedBy(old(engine.mockData), s0.lastUploadedId, config.batchSize)
                                  else old(engine.mockData))
      ensures engine.countResult == old(engine.countResult)
    {
      RecordCandidates(candidates);
      if |candidates| == 0 {
        syncState := Completed;
        events := events + FinishEvents(config.hasProgressHandler, hasCompletion, true, None);
        return false;
      }
      if |candidates| < config.batchSize {
        isLastBatch := true;
      }
      ghost var s0 := State();
      assert s0 == Counted(old(State()), candidates, config.batchSize);
      inFlight := SendBatch(candidates);
    }

    /** The first lines of `upload`: the batch size and the id of its last record, when that is an `Int64`. */
    method RecordCandidates(candidates: seq<Record>)
      modifies this
      ensures State() == old(State()).(currentNumOfCandidates := |candidates|,
                                       idOfLastCandidate := if candidates == [] then None else IdOf(candidates[|candidates| - 1]))
    {
      currentNumOfCandidates := |candidates|;
      idOfLastCandidate := None;
      if candidates != [] {
        var candidateId := IdOf(candidates[|candidates| - 1]);
        if candidateId.Some? {
          idOfLastCandidate := candidateId;
        }
      }
    }

    /** The `do`/`catch` of `upload` for a non-empty batch. */
    method SendBatch(candidates: seq<Record>) returns (inFlight: bool)
      requires config.batchSize >= 0 && candidates != []
      modifies this, engine, defaults
      ensures var s0 := old(State());
              var request := old(RequestFor(candidates));
              var delivered := Delivers(request, config.test);
              (inFlight <==> request.Success? && request.value.Some? && !config.test) &&
              State() == AfterSend(s0, request, config.test, config.hasProgressHandler) &&
              defaults.values == CursorsAfterResponse(old(defaults.values), s0, delivered, tableName) &&
              engine.removeCallCount == old(engine.removeCallCount) + (if delivered && config.removeAfterSync then 1 else 0) &&
              engine.mockData == (if delivered && config.removeAfterSync
                                  then RemovedBy(old(engine.mockData), s0.lastUploadedId, config.batchSize)
                                  else old(engine.mockData))
      ensures engine.countResult == old(engine.countResult)
    {
      inFlight := false;
      var requestBody := BuildRequestBody(candidates, config.compactDataFormat, env.deviceId, env.serialize, bodyHandler);
      if requestBody.Failure? {
        syncState := Failed(requestBody.error);
        if hasCompletion {
          events := events + [CompletionCalled(false, Some(requestBody.error))];
        }
        return;
      }
      var request := HttpRequest(requestBody.value);
      if request.Some? {
        if !config.test {
          events := events + [RequestSent(request.value)];
          inFlight := true;
        } else {
          DidCompleteWithError(None);
        }
      }
    }

    /**
     * `performDataSync`: reads the table's cursor, takes the first count of the session when
     * there is none yet, fetches the batch above the cursor and uploads it.
     */
    method PerformDataSync() returns (inFlight: bool)
      requires config.batchSize >= 0
      modifies this, engine, defaults
      ensures var c0 := LastUploadedId(old(defaults.values), tableName);
              var batch := old(engine.Fetch(Some(CursorFilter(c0)), config.batchSize));
              var s0 := Counted(Prepared(old(State()), c0, old(engine.Count(Some(CursorFilter(c0))))), batch, config.batchSize);
              var request := RequestFor(batch);
              var delivered := batch != [] && Delivers(request, config.test);
              (inFlight <==> batch != [] && request.Success? && request.value.Some? && !config.test) &&
              (batch == [] ==> State() == Finished(s0, config.hasProgressHandler, true, None)) &&
              (batch != [] ==> State() == AfterSend(s0, request, config.test, config.hasProgressHandler)) &&
              defaults.values == CursorsAfterResponse(old(defaults.values), s0, delivered, tableName) &&
              engine.removeCallCount == old(engine.removeCallCount) + (if delivered && config.removeAfterSync then 1 else 0) &&
              engine.mockData == (if delivered && config.removeAfterSync
                                  then RemovedBy(old(engine.mockData), c0, config.batchSize)
                                  else old(engine.mockData))
      ensures engine.countResult == old(engine.countResult)
    {
      ReadCursor();
      var candidates := GetUploadCandidates(lastUploadedId, config.batchSize);
      inFlight := Upload(candidates);
    }

    /** The first lines of `performDataSync`: the cursor, and the session's first count when there is none yet. */
    method ReadCursor()
      modifies this
      ensures var c0 := LastUploadedId(defaults.values, tableName);
              State() == Prepared(old(State()), c0, engine.Count(Some(CursorFilter(c0))))
    {
      lastUploadedId := GetLastUploadedId(defaults, tableName);
      if originalNumOfCandidates == 0 {
        originalNumOfCandidates := engine.Count(Some(CursorFilter(lastUploadedId)));
        totalUploadedRecords := 0;
      }
    }

    /**
     * One batch of a sync session: `run` (which starts the session), `performDataSync`,
     * `upload`, and, for a request that went out, the delegate calls with which the network
     * answers it as `outcome` says.
     */
    method SyncBatch(withCompletion: bool, now: real, outcome: Outcome)
      requires config.batchSize >= 0
      modifies this, engine, defaults
      ensures var c0 := LastUploadedId(old(defaults.values), tableName);
              var batch := old(engine.Fetch(Some(CursorFilter(c0)), config.batchSize));
              var started := old(State()).(hasCompletion := withCompletion, syncState := Active, syncStartTime := now);
              var s0 := Counted(Prepared(started, c0, old(engine.Count(Some(CursorFilter(c0))))), batch, config.batchSize);
              var request := RequestFor(batch);
              var uploaded := Uploaded(batch, request, config.test, outcome, old(receivedData), env.parseStatus);
              State() == BatchSession(s0, batch, request, config.test, config.hasProgressHandler, outcome, env.parseStatus) &&
              defaults.values == CursorsAfterResponse(old(defaults.values) - {RetriesKey(tableName)}, s0, uploaded, tableName) &&
              engine.removeCallCount == old(engine.removeCallCount) + (if uploaded && config.removeAfterSync then 1 else 0) &&
              engine.mockData == (if uploaded && config.removeAfterSync
                                  then RemovedBy(old(engine.mockData), c0, config.batchSize)
                                  else old(engine.mockData))
    {
      ClearRetriesKeepsCursors(defaults.values, tableName, tableName);
      var inFlight := Run(withCompletion, now);
      if inFlight {
        AnswerRequest(outcome);
      }
    }

    /**
     * `run`: starts the session and, once the queued workflow gets to it, performs the data
     * sync of one batch.
     */
    method Run(withCompletion: bool, now: real) returns (inFlight: bool)
      requires config.batchSize >= 0
      modifies this, engine, defaults
      ensures var values1 := old(defaults.values) - {RetriesKey(tableName)};
              var c0 := LastUploadedId(values1, tableName);
              var batch := old(engine.Fetch(Some(CursorFilter(c0)), config.batchSize));
              var started := old(State()).(hasCompletion := withCompletion, syncState := Active, syncStartTime := now);
              var s0 := Counted(Prepared(started, c0, old(engine.Count(Some(CursorFilter(c0))))), batch, config.batchSize);
              var request := RequestFor(batch);
              var delivered := batch != [] && Delivers(request, config.test);
              (inFlight <==> batch != [] && request.Success? && request.value.Some? && !config.test) &&
              (batch == [] ==> State() == Finished(s0, config.hasProgressHandler, true, None)) &&
              (batch != [] ==> State() == AfterSend(s0, request, config.test, config.hasProgressHandler)) &&
              defaults.values == CursorsAfterResponse(values1, s0, delivered, tableName) &&
              engine.removeCallCount == old(engine.removeCallCount) + (if delivered && config.removeAfterSync then 1 else 0) &&
              engine.mockData == (if delivered && config.removeAfterSync
                                  then RemovedBy(old(engine.mockData), c0, config.batchSize)
                                  else old(engine.mockData))
      ensures engine.countResult == old(engine.countResult)
    {
      StartSyncProcess(withCompletion, now);
      inFlight := PerformDataSync();
    }

    /** The delegate calls for a request that went out: the response (refused outside 2xx), its bytes, and the completion. */
    method AnswerRequest(outcome: Outcome)
      requires config.batchSize >= 0
      modifies this, engine, defaults
      ensures var ok := ResponseOk(outcome, old(receivedData), config.test, env.parseStatus);
              State() == AfterResponse(old(State()), ok, CompletionError(outcome), config.hasProgressHandler) &&
              defaults.values == CursorsAfterResponse(old(defaults.values), old(State()), ok, tableName) &&
              engine.removeCallCount == old(engine.removeCallCount) + (if ok && config.removeAfterSync then 1 else 0) &&
              engine.mockData == (if ok && config.removeAfterSync
                                  then RemovedBy(old(engine.mockData), old(lastUploadedId), config.batchSize)
                                  else old(engine.mockData))
      ensures engine.countResult == old(engine.countResult)
    {
      var error := CompletionError(outcome);
      if error.None? {
        DidReceiveData(outcome.data);
      }
      DidCompleteWithError(error);
    }

    // -------------------------------------------------------------------------------------
    // Stopping and reporting

    /** `resetSyncState()`. */
    method ResetSyncState()
      modifies this
      ensures State() == Reset(old(State()))
    {
      ClearSession();
      ClearCounts();
    }

    /** The first half of `resetSyncState()`: state, start time, buffer, completion and last-batch flag. */
    method ClearSession()
      modifies this
      ensures State() == old(State()).(syncState := Idle, syncStartTime := 0.0, receivedData := [],
                                       hasCompletion := false, isLastBatch := false)
    {
      syncState, syncStartTime, receivedData, hasCompletion, isLastBatch := Idle, 0.0, [], false, false;
    }

    /** The second half of `resetSyncState()`: the counts, the progress and the id of the last candidate. */
    method ClearCounts()
      modifies this
      ensures State() == old(State()).(currentNumOfCandidates := 0, originalNumOfCandidates := 0,
                                       totalUploadedRecords := 0, progress := 0.0, idOfLastCandidate := None)
    {
      currentNumOfCandidates, originalNumOfCandidates, totalUploadedRecords := 0, 0, 0;
      progress, idOfLastCandidate := 0.0, None;
    }

    /**
     * `stopGracefully(timeout:handler:)`, with the queued shutdown running before the
     * timeout: a session that cannot stop is left alone and the handler told whether it is
     * idle or completed; otherwise the session passes through cancelling, is reset, and the
     * handler is told `true`.
     */
    method StopGracefully(hasHandler: bool)
      modifies this
      ensures var report := if CanStop(old(syncState)) then Some(true) else StopGracefullyGuard(old(syncState));
              var told := if hasHandler then [StopReported(report.value)] else [];
              State() == if CanStop(old(syncState)) then Reset(old(State())).(events := old(events) + told)
                         else old(State()).(events := old(events) + told)
    {
      var guard := StopGracefullyGuard(syncState);
      if guard.Some? {
        if hasHandler {
          events := events + [StopReported(guard.value)];
        }
        return;
      }
      syncState := Cancelling;
      ResetSyncState();
      if hasHandler {
        events := events + [StopReported(true)];
      }
    }

    /** `stopImmediately(_:)` (and the legacy `stop(_:)`): the session is cancelled and reset whatever its state. */
    method StopImmediately(hasHandler: bool)
      modifies this
      ensures State() == Reset(old(State())).(events := old(events) + if hasHandler then [StoppedImmediately] else [])
    {
      syncState := Cancelling;
      ResetSyncState();
      if hasHandler {
        events := events + [StoppedImmediately];
      }
    }

    /** The closure `handleSyncCompletion` queues for 0.1 s later: the finished session goes back to idle. */
    method ReturnToIdle()
      modifies this
      ensures State() == old(State()).(syncState := Idle)
    {
      syncState := Idle;
    }

    /** `getCurrentSyncState()`: a name that tells every state apart (see `StateNameInjective`). */
    method GetCurrentSyncState() returns (name: string)
      ensures name == StateName(syncState)
    {
      name := StateName(syncState);
    }

    /** `getCurrentProgress()`. */
    method GetCurrentProgress() returns (p: real)
      ensures p == progress
    {
      p := progress;
    }

    /** `getSyncStatistics()`. */
    method GetSyncStatistics() returns (stats: SyncStatistics)
      ensures stats == Statistics(State(), tableName)
      ensures 0 <= totalUploadedRecords <= originalNumOfCandidates ==> 0 <= stats.uploadPercentage <= 100
    {
      stats := Statistics(State(), tableName);
    }

    /** `canStop()`. */
    method CanStopNow() returns (r: bool)
      ensures r <==> syncState.Active? || syncState.Failed?
    {
      r := CanStop(syncState);
    }
  }
}
