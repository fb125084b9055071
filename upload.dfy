/**
 * `resumable_upload`: the loop that drives a resumable video upload to a final
 * response, retrying transient failures with exponential backoff, and then
 * attaches the uploaded video to a playlist.
 *
 * The world outside the loop is given as oracles: `chunks` lists what successive
 * calls of `next_chunk()` produce, `ins` what the one `playlistItems().insert(...)
 * .execute()` call produces. What the loop does to the world is recorded as a log
 * of events: each `next_chunk()` call, each playlist insert with its arguments and
 * each sleep with its upper bound `2**retry`.
 */
module UploadLoop {
  import opened Wrappers

  /** `MAX_RETRIES`. */
  const MaxRetries: nat := 10

  /** `RETRIABLE_STATUS_CODES`: the 5xx statuses that are retried. */
  const RetriableStatusCodes: set<int> := {500, 502, 503, 504}

  /** An exception raised by `next_chunk()` or by the playlist insert. */
  datatype Failure =
    | HttpError(status: int)   // the API client's HttpError, with its HTTP status
    | TransportError           // one of RETRIABLE_EXCEPTIONS: httplib2, http.client and I/O faults

  /** One result of `next_chunk()`. */
  datatype Chunk =
    | InProgress                       // (status, None): the upload is not finished
    | Final(hasId: bool, id: string)   // the final response; hasId says whether 'id' is in it
    | Failed(failure: Failure)

  /** The result of the playlist insert. */
  datatype InsertResult = Inserted | InsertFailed(failure: Failure)

  datatype Event =
    | ChunkCall
    | PlaylistInsert(playlistId: string, videoId: string)
    | Sleep(maxSleep: nat)

  datatype ExitReason = UnexpectedResponse | RetriesExhausted

  /** How `resumable_upload` ends. */
  datatype Outcome =
    | Returned                 // normal return
    | Exited(reason: ExitReason)   // `exit(...)`
    | Raised(status: int)      // a non-retriable HttpError propagates
    | OutOfInput               // the oracle ran out while the loop still waited for a response

  datatype Run = Run(outcome: Outcome, log: seq<Event>)

  /** The except clauses: which failures set `error` instead of propagating. */
  predicate IsRetriable(f: Failure) {
    match f
    case HttpError(status) => status in RetriableStatusCodes
    case TransportError => true
  }

  /** A chunk after which the loop calls `next_chunk()` again (unless retries run out). */
  predicate Continues(c: Chunk) {
    c.InProgress? || (c.Failed? && IsRetriable(c.failure))
  }

  function Pow2(n: nat): (r: nat)
    ensures r >= 1
  {
    if n == 0 then 1 else 2 * Pow2(n - 1)
  }

  /** `bounds` are the consecutive powers `2**from`, `2**(from + 1)`, ... */
  predicate PowersFrom(bounds: seq<nat>, from: nat) {
    bounds == [] || (bounds[0] == Pow2(from) && PowersFrom(bounds[1..], from + 1))
  }

  lemma {:induction false} PowersFromAt(bounds: seq<nat>, from: nat, k: nat)
    requires PowersFrom(bounds, from) && k < |bounds|
    ensures bounds[k] == Pow2(from + k)
  {
    if k > 0 {
      PowersFromAt(bounds[1..], from + 1, k - 1);
    }
  }

  lemma PowersCons(bound: nat, bounds: seq<nat>, from: nat)
    requires bound == Pow2(from) && PowersFrom(bounds, from + 1)
    ensures PowersFrom([bound] + bounds, from)
  {
    assert ([bound] + bounds)[1..] == bounds;
  }

  // ----- measures of a log -----

  function Calls(log: seq<Event>): nat {
    if log == [] then 0 else (if log[0].ChunkCall? then 1 else 0) + Calls(log[1..])
  }

  function Sleeps(log: seq<Event>): seq<nat> {
    if log == [] then [] else (if log[0].Sleep? then [log[0].maxSleep] else []) + Sleeps(log[1..])
  }

  function Inserts(log: seq<Event>): seq<Event> {
    if log == [] then [] else (if log[0].PlaylistInsert? then [log[0]] else []) + Inserts(log[1..])
  }

  lemma {:induction false} CallsAppend(a: seq<Event>, b: seq<Event>)
    ensures Calls(a + b) == Calls(a) + Calls(b)
  {
    if a != [] {
      assert (a + b)[1..] == a[1..] + b;
      CallsAppend(a[1..], b);
    } else {
      assert a + b == b;
    }
  }

  lemma {:induction false} SleepsAppend(a: seq<Event>, b: seq<Event>)
    ensures Sleeps(a + b) == Sleeps(a) + Sleeps(b)
  {
    if a != [] {
      assert (a + b)[1..] == a[1..] + b;
      SleepsAppend(a[1..], b);
    } else {
      assert a + b == b;
    }
  }

  lemma {:induction false} InsertsAppend(a: seq<Event>, b: seq<Event>)
    ensures Inserts(a + b) == Inserts(a) + Inserts(b)
  {
    if a != [] {
      assert (a + b)[1..] == a[1..] + b;
      InsertsAppend(a[1..], b);
    } else {
      assert a + b == b;
    }
  }

  /** The measures of a log add up over its parts. */
  lemma LogAppend(a: seq<Event>, b: seq<Event>)
    ensures Calls(a + b) == Calls(a) + Calls(b)
    ensures Sleeps(a + b) == Sleeps(a) + Sleeps(b)
    ensures Inserts(a + b) == Inserts(a) + Inserts(b)
  {
    CallsAppend(a, b);
    SleepsAppend(a, b);
    InsertsAppend(a, b);
  }

  function Prepend(events: seq<Event>, r: Run): Run {
    Run(r.outcome, events + r.log)
  }

  lemma PrependPrepend(a: seq<Event>, b: seq<Event>, r: Run)
    ensures Prepend(a, Prepend(b, r)) == Prepend(a + b, r)
  {
    assert a + (b + r.log) == (a + b) + r.log;
  }

  // ----- one iteration of the loop -----

  /** What the `try` block of one iteration leaves behind. */
  datatype Attempt = Attempt(
    response: bool,          // `response` is no longer None
    error: bool,             // an except clause assigned `error`
    halt: Option<Outcome>,   // `exit(...)` or a re-raised HttpError ended the call
    events: seq<Event>)

  /** The except clauses applied to a failure raised inside the `try` block. */
  function Catch(f: Failure, response: bool, events: seq<Event>): Attempt {
    if IsRetriable(f) then Attempt(response, true, None, events)
    else Attempt(response, false, Some(Raised(f.status)), events)
  }

  /** The `try` block: call `next_chunk()` and, on a final response, attach the video or exit. */
  function TryChunk(c: Chunk, ins: InsertResult, playlistId: string): Attempt {
    match c
    case InProgress => Attempt(false, false, None, [ChunkCall])
    case Final(hasId, id) =>
      if !hasId then Attempt(true, false, Some(Exited(UnexpectedResponse)), [ChunkCall])
      else
        var events := [ChunkCall, PlaylistInsert(playlistId, id)];
        (match ins
         case Inserted => Attempt(true, false, None, events)
         case InsertFailed(f) => Catch(f, true, events))
    case Failed(f) => Catch(f, false, [ChunkCall])
  }

  /** Where an iteration leaves the loop: finished, or back at the loop test with a new `retry`. */
  datatype Step = Finished(run: Run) | Again(events: seq<Event>, retry: nat)

  /** The rest of an iteration after the `try` block: the `if error is not None` backoff and the loop test. */
  function Iterate(a: Attempt, error: bool, retry: nat): Step {
    if a.halt.Some? then Finished(Run(a.halt.value, a.events))
    else if !error then
      if a.response then Finished(Run(Returned, a.events)) else Again(a.events, retry)
    else if retry + 1 > MaxRetries then Finished(Run(Exited(RetriesExhausted), a.events))
    else
      var events := a.events + [Sleep(Pow2(retry + 1))];
      if a.response then Finished(Run(Returned, events)) else Again(events, retry + 1)
  }

  /** The backoff block adds at most one sleep, with bound `2**(retry + 1)`, and only when `error` is set. */
  lemma IterateShape(a: Attempt, error: bool, retry: nat)
    ensures var bound := Pow2(retry + 1);
      match Iterate(a, error, retry)
      case Finished(r) =>
        r.log == a.events || (error && retry + 1 <= MaxRetries && r.log == a.events + [Sleep(bound)])
      case Again(events, retry') =>
        (!error && events == a.events && retry' == retry)
        || (error && retry' == retry + 1 <= MaxRetries && events == a.events + [Sleep(bound)])
  {
  }

  /**
   * The loop from its test with `chunks[i..]` still to come, `error` set or not and
   * the current `retry`. As in the source, `error` is never cleared once set.
   */
  function Drive(chunks: seq<Chunk>, ins: InsertResult, playlistId: string, i: nat, error: bool, retry: nat): Run
    requires i <= |chunks|
    decreases |chunks| - i, 1
  {
    if i == |chunks| then Run(OutOfInput, []) else Turn(chunks, ins, playlistId, i, error, retry)
  }

  /**
   * One turn of the loop on chunk `i`: the `try` block, then the backoff and the
   * loop test, which either leaves the loop or goes back to its test at chunk `i + 1`.
   */
  function Turn(chunks: seq<Chunk>, ins: InsertResult, playlistId: string, i: nat, error: bool, retry: nat): Run
    requires i < |chunks|
    decreases |chunks| - i, 0
  {
    var a := TryChunk(chunks[i], ins, playlistId);
    var err := error || a.error;
    match Iterate(a, err, retry)
    case Finished(r) => r
    case Again(events, retry') => Prepend(events, Drive(chunks, ins, playlistId, i + 1, err, retry'))
  }

  lemma DriveUnfold(chunks: seq<Chunk>, ins: InsertResult, playlistId: string, i: nat, error: bool, retry: nat)
    requires i < |chunks|
    ensures Drive(chunks, ins, playlistId, i, error, retry) == Turn(chunks, ins, playlistId, i, error, retry)
  {
  }

  /** A turn whose `try` block ended the call ends the whole call there. */
  lemma TurnHalted(chunks: seq<Chunk>, ins: InsertResult, playlistId: string, i: nat, error: bool, retry: nat,
                   before: seq<Event>, halt: Option<Outcome>, log: seq<Event>)
    requires i < |chunks|
    requires var a := TryChunk(chunks[i], ins, playlistId);
      halt == a.halt && log == before + a.events && halt.Some?
    ensures Prepend(before, Drive(chunks, ins, playlistId, i, error, retry)) == Run(halt.value, log)
  {
    DriveUnfold(chunks, ins, playlistId, i, error, retry);
  }

  /**
   * A turn as the driver takes it, with the events `before` it already logged: after
   * the `try` block and the backoff, the call exits when retries ran out, returns
   * when a response came back, and otherwise goes back to the loop test at chunk
   * `i + 1` with `error` and `retry` as the turn left them.
   */
  lemma TurnAfter(chunks: seq<Chunk>, ins: InsertResult, playlistId: string, i: nat, error: bool, retry: nat,
                  before: seq<Event>, response: bool, failed: bool, log: seq<Event>,
                  retry': nat, log': seq<Event>, exhausted: bool)
    requires i < |chunks|
    requires var a := TryChunk(chunks[i], ins, playlistId);
      response == a.response && failed == a.error && a.halt.None? && log == before + a.events
    requires !(error || failed) ==> retry' == retry && log' == log && !exhausted
    requires error || failed ==> retry' == retry + 1 && exhausted == (retry' > MaxRetries)
    requires error || failed ==> log' == if exhausted then log else log + [Sleep(Pow2(retry'))]
    ensures var whole := Prepend(before, Drive(chunks, ins, playlistId, i, error, retry));
      && (exhausted ==> whole == Run(Exited(RetriesExhausted), log'))
      && (!exhausted && response ==> whole == Run(Returned, log'))
      && (!exhausted && !response ==> whole == Prepend(log', Drive(chunks, ins, playlistId, i + 1, error || failed, retry')))
  {
    var a := TryChunk(chunks[i], ins, playlistId);
    var err := error || failed;
    DriveUnfold(chunks, ins, playlistId, i, error, retry);
    if !exhausted && !response {
      var rest := Drive(chunks, ins, playlistId, i + 1, err, retry');
      if err {
        var events := a.events + [Sleep(Pow2(retry'))];
        assert log' == before + events;
        PrependPrepend(before, events, rest);
      } else {
        PrependPrepend(before, a.events, rest);
      }
    }
  }

  /** A whole call of `resumable_upload`: `response = None`, `error = None`, `retry = 0`. */
  function Upload(chunks: seq<Chunk>, ins: InsertResult, playlistId: string): Run {
    Drive(chunks, ins, playlistId, 0, false, 0)
  }

  /**
   * The `try` block of one iteration with its except clauses: call `next_chunk()`;
   * on a final response with an id, insert the video into the playlist; on a final
   * response without one, exit. A retriable failure sets `failed` (the source's
   * `error = ...`); any other HttpError is re-raised, reported in `halt`.
   */
  method TryBlock(c: Chunk, ins: InsertResult, playlistId: string, log: seq<Event>)
    returns (response: Option<Chunk>, failed: bool, halt: Option<Outcome>, log': seq<Event>)
    ensures var a := TryChunk(c, ins, playlistId);
      && response.Some? == a.response && failed == a.error && halt == a.halt
      && log' == log + a.events
  {
    response, failed, halt := None, false, None;
    log' := log + [ChunkCall];
    match c {
      case InProgress =>
      case Final(hasId, id) =>
        response := Some(c);
        if hasId {
          log' := log' + [PlaylistInsert(playlistId, id)];
          match ins {
            case Inserted =>
            case InsertFailed(f) =>
              if IsRetriable(f) {
                failed := true;
              } else {
                halt := Some(Raised(f.status));
              }
          }
        } else {
          halt := Some(Exited(UnexpectedResponse));
        }
      case Failed(f) =>
        if IsRetriable(f) {
          failed := true;
        } else {
          halt := Some(Raised(f.status));
        }
    }
  }

  /**
   * The backoff block `if error is not None:`: count a retry and either give up
   * (`exhausted`, the source's `exit(...)`) or sleep up to `2**retry` seconds.
   */
  method Backoff(error: bool, retry: nat, log: seq<Event>) returns (retry': nat, log': seq<Event>, exhausted: bool)
    ensures !error ==> retry' == retry && log' == log && !exhausted
    ensures error ==> retry' == retry + 1 && exhausted == (retry' > MaxRetries)
    ensures error ==> log' == if exhausted then log else log + [Sleep(Pow2(retry'))]
  {
    retry', log', exhausted := retry, log, false;
    if error {
      retry' := retry + 1;
      if retry' > MaxRetries {
        exhausted := true;
        return;
      }
      var maxSleep := Pow2(retry');
      log' := log + [Sleep(maxSleep)];
    }
  }

  /**
   * One iteration of the `while response is None` loop on chunk `i`, with `log` the
   * events so far: the `try` block, then the backoff. `stop` is how the call ends
   * inside the iteration, if it does; otherwise the loop test comes next.
   */
  method LoopTurn(chunks: seq<Chunk>, ins: InsertResult, playlistId: string, i: nat, error: bool, retry: nat, log: seq<Event>)
    returns (response: Option<Chunk>, error': bool, retry': nat, log': seq<Event>, stop: Option<Outcome>)
    requires i < |chunks|
    ensures var whole := Prepend(log, Drive(chunks, ins, playlistId, i, error, retry));
      && (stop.Some? ==> whole == Run(stop.value, log'))
      && (stop.None? && response.Some? ==> whole == Run(Returned, log'))
      && (stop.None? && response.None? ==> whole == Prepend(log', Drive(chunks, ins, playlistId, i + 1, error', retry')))
  {
    var failed, halt;
    response, failed, halt, log' := TryBlock(chunks[i], ins, playlistId, log);
    error', retry' := error, retry;
    if halt.Some? {
      TurnHalted(chunks, ins, playlistId, i, error, retry, log, halt, log');
      return response, error', retry', log', halt;
    }
    ghost var tried := log';
    var exhausted;
    retry', log', exhausted := Backoff(error || failed, retry, log');
    TurnAfter(chunks, ins, playlistId, i, error, retry, log, response.Some?, failed, tried, retry', log', exhausted);
    error' := error || failed;
    stop := if exhausted then Some(Exited(RetriesExhausted)) else None;
  }

  /** `resumable_upload(insert_request, youtube, playlist_id)`, step by step. */
  method ResumableUpload(chunks: seq<Chunk>, ins: InsertResult, playlistId: string) returns (r: Run)
    ensures r == Upload(chunks, ins, playlistId)
  {
    var response: Option<Chunk> := None;
    var error := false;
    var retry: nat := 0;
    var i: nat := 0;
    var log: seq<Event> := [];
    ghost var whole := Upload(chunks, ins, playlistId);
    while response.None?
      invariant i <= |chunks|
      invariant response.None? ==> whole == Prepend(log, Drive(chunks, ins, playlistId, i, error, retry))
      invariant response.Some? ==> whole == Run(Returned, log)
      decreases |chunks| - i
    {
      if i == |chunks| {
        return Run(OutOfInput, log);
      }
      var stop;
      response, error, retry, log, stop := LoopTurn(chunks, ins, playlistId, i, error, retry, log);
      if stop.Some? {
        return Run(stop.value, log);
      }
      i := i + 1;
    }
    r := Run(Returned, log);
  }

  // ----- the except clauses -----

  /**
   * A failure from `next_chunk()` is absorbed (it sets `error` and the loop goes
   * on) exactly when it is a transport fault or an HTTP 500, 502, 503 or 504, all
   * of them server errors; any other HTTP status propagates at once.
   */
  lemma Classification(f: Failure, ins: InsertResult, playlistId: string)
    ensures IsRetriable(f) <==> f.TransportError? || f.status in {500, 502, 503, 504}
    ensures f.HttpError? && IsRetriable(f) ==> 500 <= f.status < 600
    ensures var a := TryChunk(Failed(f), ins, playlistId);
      && a.events == [ChunkCall] && !a.response
      && a.error == IsRetriable(f)
      && a.halt == if IsRetriable(f) then None else Some(Raised(f.status))
  {
  }

  /** A non-retriable HttpError from `next_chunk()` ends the call with no further call and no sleep. */
  lemma FatalStopsAtOnce(chunks: seq<Chunk>, ins: InsertResult, playlistId: string, i: nat, error: bool, retry: nat)
    requires i < |chunks| && chunks[i].Failed? && !IsRetriable(chunks[i].failure)
    ensures Drive(chunks, ins, playlistId, i, error, retry) == Run(Raised(chunks[i].failure.status), [ChunkCall])
  {
    DriveUnfold(chunks, ins, playlistId, i, error, retry);
  }

  /** Before any error, an in-progress chunk costs one call: no retry, no sleep. */
  lemma ProgressBeforeErrorIsFree(chunks: seq<Chunk>, ins: InsertResult, playlistId: string, i: nat, retry: nat)
    requires i < |chunks| && chunks[i] == InProgress
    ensures Drive(chunks, ins, playlistId, i, false, retry) == Prepend([ChunkCall], Drive(chunks, ins, playlistId, i + 1, false, retry))
  {
    DriveUnfold(chunks, ins, playlistId, i, false, retry);
  }

  /**
   * The playlist insert sits inside the `try`: a retriable failure there is slept
   * on, but the loop ends because `response` is already set, so the insert is not
   * tried again.
   */
  lemma InsertFailureNotRetried(chunks: seq<Chunk>, ins: InsertResult, playlistId: string, i: nat, error: bool, retry: nat)
    requires i < |chunks| && chunks[i].Final? && chunks[i].hasId
    requires ins.InsertFailed? && IsRetriable(ins.failure)
    ensures var events := [ChunkCall, PlaylistInsert(playlistId, chunks[i].id)];
      Drive(chunks, ins, playlistId, i, error, retry) ==
        if retry < MaxRetries then Run(Returned, events + [Sleep(Pow2(retry + 1))])
        else Run(Exited(RetriesExhausted), events)
  {
    DriveUnfold(chunks, ins, playlistId, i, error, retry);
  }

  // ----- measures of the events of one iteration -----

  lemma OneEvent(e: Event)
    ensures Calls([e]) == if e.ChunkCall? then 1 else 0
    ensures Sleeps([e]) == if e.Sleep? then [e.maxSleep] else []
    ensures Inserts([e]) == if e.PlaylistInsert? then [e] else []
  {
    assert [e][1..] == [];
  }

  lemma AttemptEvents(c: Chunk, ins: InsertResult, playlistId: string)
    ensures var a := TryChunk(c, ins, playlistId);
      && Calls(a.events) == 1 && Sleeps(a.events) == []
      && (a.halt.Some? ==> a.halt.value.Raised? || a.halt.value == Exited(UnexpectedResponse))
      && Inserts(a.events) == if c.Final? && c.hasId then [PlaylistInsert(playlistId, c.id)] else []
  {
    OneEvent(ChunkCall);
    if c.Final? && c.hasId {
      var e := PlaylistInsert(playlistId, c.id);
      OneEvent(e);
      LogAppend([ChunkCall], [e]);
      assert TryChunk(c, ins, playlistId).events == [ChunkCall] + [e];
    }
  }

  lemma SleepEvents(events: seq<Event>, bound: nat)
    ensures Calls(events + [Sleep(bound)]) == Calls(events)
    ensures Sleeps(events + [Sleep(bound)]) == Sleeps(events) + [bound]
    ensures Inserts(events + [Sleep(bound)]) == Inserts(events)
  {
    LogAppend(events, [Sleep(bound)]);
    OneEvent(Sleep(bound));
  }

  // ----- the backoff schedule -----

  lemma {:induction false} Pow2Doubles(n: nat)
    ensures Pow2(n + 1) == 2 * Pow2(n)
  {
  }

  lemma {:induction false} Pow2Monotone(m: nat, n: nat)
    requires m <= n
    ensures Pow2(m) <= Pow2(n)
    decreases n - m
  {
    if m < n {
      Pow2Monotone(m + 1, n);
    }
  }

  /**
   * One turn of the backoff, apart from the rest of the loop: given what the rest
   * sleeps (`later`) when the loop goes on, the sleeps from this turn on keep the
   * schedule `2**(retry + 1)`, `2**(retry + 2)`, ...
   */
  lemma StepSleeps(a: Attempt, error: bool, retry: nat, later: seq<nat>, laterExhausted: bool)
    requires Sleeps(a.events) == [] && retry <= MaxRetries && a.halt != Some(Exited(RetriesExhausted))
    requires var step := Iterate(a, error, retry);
      step.Again? ==> step.retry + |later| <= MaxRetries && PowersFrom(later, step.retry + 1)
    requires var step := Iterate(a, error, retry);
      step.Again? && laterExhausted ==> step.retry + |later| == MaxRetries
    ensures var step := Iterate(a, error, retry);
      var s := if step.Finished? then Sleeps(step.run.log) else Sleeps(step.events) + later;
      retry + |s| <= MaxRetries && PowersFrom(s, retry + 1)
    ensures var step := Iterate(a, error, retry);
      var s := if step.Finished? then Sleeps(step.run.log) else Sleeps(step.events) + later;
      (if step.Finished? then step.run.outcome == Exited(RetriesExhausted) else laterExhausted) ==>
        retry + |s| == MaxRetries
  {
    var bound := Pow2(retry + 1);
    SleepEvents(a.events, bound);
    IterateShape(a, error, retry);
    var step := Iterate(a, error, retry);
    if step.Finished? {
      if step.run.log != a.events {
        assert Sleeps(step.run.log) == [bound] + [];
        PowersCons(bound, [], retry + 1);
      }
    } else if step.retry == retry + 1 {
      assert Sleeps(step.events) + later == [bound] + later;
      PowersCons(bound, later, retry + 1);
    } else {
      assert Sleeps(step.events) + later == later;
    }
  }

  /**
   * From any state of the loop with `retry <= MAX_RETRIES`, the sleeps that follow
   * have the bounds `2**(retry + 1)`, `2**(retry + 2)`, ... and there are at most
   * `MAX_RETRIES - retry` of them; exactly that many when the call gives up.
   */
  lemma {:induction false} SleepSchedule(chunks: seq<Chunk>, ins: InsertResult, playlistId: string, i: nat, error: bool, retry: nat)
    requires i <= |chunks| && retry <= MaxRetries
    ensures var d := Drive(chunks, ins, playlistId, i, error, retry);
      var s := Sleeps(d.log);
      && retry + |s| <= MaxRetries && PowersFrom(s, retry + 1)
      && (d.outcome == Exited(RetriesExhausted) ==> retry + |s| == MaxRetries)
    decreases |chunks| - i, 1
  {
    if i < |chunks| {
      DriveUnfold(chunks, ins, playlistId, i, error, retry);
      TurnSleeps(chunks, ins, playlistId, i, error, retry);
    }
  }

  /** The same schedule from the start of a turn. */
  lemma {:induction false} TurnSleeps(chunks: seq<Chunk>, ins: InsertResult, playlistId: string, i: nat, error: bool, retry: nat)
    requires i < |chunks| && retry <= MaxRetries
    ensures var d := Turn(chunks, ins, playlistId, i, error, retry);
      var s := Sleeps(d.log);
      && retry + |s| <= MaxRetries && PowersFrom(s, retry + 1)
      && (d.outcome == Exited(RetriesExhausted) ==> retry + |s| == MaxRetries)
    decreases |chunks| - i, 0
  {
    var a := TryChunk(chunks[i], ins, playlistId);
    var err := error || a.error;
    var step := Iterate(a, err, retry);
    AttemptEvents(chunks[i], ins, playlistId);
    if step.Again? {
      SleepSchedule(chunks, ins, playlistId, i + 1, err, step.retry);
      AgainSleeps(a, err, retry, Drive(chunks, ins, playlistId, i + 1, err, step.retry));
    } else {
      StepSleeps(a, err, retry, [], false);
    }
  }

  /** A turn that goes on, in front of a rest that keeps the schedule from the next `retry`. */
  lemma AgainSleeps(a: Attempt, error: bool, retry: nat, rest: Run)
    requires Sleeps(a.events) == [] && retry <= MaxRetries && a.halt != Some(Exited(RetriesExhausted))
    requires Iterate(a, error, retry).Again?
    requires var next := Iterate(a, error, retry).retry;
      var s := Sleeps(rest.log);
      && next + |s| <= MaxRetries && PowersFrom(s, next + 1)
      && (rest.outcome == Exited(RetriesExhausted) ==> next + |s| == MaxRetries)
    ensures var d := Prepend(Iterate(a, error, retry).events, rest);
      var s := Sleeps(d.log);
      && retry + |s| <= MaxRetries && PowersFrom(s, retry + 1)
      && (d.outcome == Exited(RetriesExhausted) ==> retry + |s| == MaxRetries)
  {
    var step := Iterate(a, error, retry);
    SleepsAppend(step.events, rest.log);
    StepSleeps(a, error, retry, Sleeps(rest.log), rest.outcome == Exited(RetriesExhausted));
  }

  /**
   * A whole call sleeps at most MAX_RETRIES times; the k-th sleep (from 1) has the
   * bound `2**k`, so the bounds lie between 2 and 1024 and double from one sleep
   * to the next.
   */
  lemma BackoffBounds(chunks: seq<Chunk>, ins: InsertResult, playlistId: string)
    ensures var s := Sleeps(Upload(chunks, ins, playlistId).log);
      && |s| <= MaxRetries
      && (forall k :: 0 <= k < |s| ==> s[k] == Pow2(k + 1) && 2 <= s[k] <= 1024)
      && (forall k :: 0 < k < |s| ==> s[k] == 2 * s[k - 1])
  {
    SleepSchedule(chunks, ins, playlistId, 0, false, 0);
    var s := Sleeps(Upload(chunks, ins, playlistId).log);
    forall k | 0 <= k < |s|
      ensures s[k] == Pow2(k + 1) && 2 <= s[k] <= 1024
    {
      PowersFromAt(s, 1, k);
      Pow2Monotone(1, k + 1);
      Pow2Monotone(k + 1, MaxRetries);
      assert Pow2(MaxRetries) == 1024;
    }
    forall k | 0 < k < |s|
      ensures s[k] == 2 * s[k - 1]
    {
      PowersFromAt(s, 1, k);
      PowersFromAt(s, 1, k - 1);
      Pow2Doubles(k);
    }
  }

  // ----- the shape of a whole call -----

  /** The playlist insert a chunk leads to: one, with the response's id, for a final response holding an id. */
  function InsertOf(c: Chunk, playlistId: string): seq<Event> {
    if c.Final? && c.hasId then [PlaylistInsert(playlistId, c.id)] else []
  }

  /** A playlist insert whose failure is re-raised. */
  predicate InsertFatal(ins: InsertResult) {
    ins.InsertFailed? && !IsRetriable(ins.failure)
  }

  /** How a call can end on the last chunk it reads. */
  predicate EndsOn(c: Chunk, ins: InsertResult, outcome: Outcome) {
    match outcome
    case Returned => c.Final? && c.hasId && !InsertFatal(ins)
    case Exited(reason) =>
      if reason == UnexpectedResponse then c.Final? && !c.hasId
      else Continues(c) || (c.Final? && c.hasId && !InsertFatal(ins))
    case Raised(status) =>
      || (c.Failed? && !IsRetriable(c.failure) && c.failure.status == status)
      || (c.Final? && c.hasId && InsertFatal(ins) && ins.failure.status == status)
    case OutOfInput => false
  }

  /**
   * The loop from chunk `i` on read `Calls` chunks, at least one unless there was
   * none to read, and it ran out of input only after reading all of them.
   */
  predicate Reads(chunks: seq<Chunk>, i: nat, d: Run) {
    var n := Calls(d.log);
    && i + n <= |chunks|
    && (d.outcome == OutOfInput ==> i + n == |chunks|)
    && (d.outcome != OutOfInput ==> n >= 1)
  }

  /** Every chunk the loop read but the last let it go on; all of them did if it ran out of input. */
  predicate GoesOn(chunks: seq<Chunk>, i: nat, d: Run) {
    && (forall k :: i <= k < |chunks| && k < i + Calls(d.log) - 1 ==> Continues(chunks[k]))
    && (d.outcome == OutOfInput ==> forall k :: i <= k < |chunks| ==> Continues(chunks[k]))
  }

  /** The last chunk read decides how the call ended and whether the video went into the playlist. */
  predicate LastDecides(chunks: seq<Chunk>, ins: InsertResult, playlistId: string, i: nat, d: Run)
    requires Reads(chunks, i, d)
  {
    if d.outcome == OutOfInput then Inserts(d.log) == []
    else
      var last := chunks[i + Calls(d.log) - 1];
      EndsOn(last, ins, d.outcome) && Inserts(d.log) == InsertOf(last, playlistId)
  }

  predicate Shaped(chunks: seq<Chunk>, ins: InsertResult, playlistId: string, i: nat, d: Run) {
    Reads(chunks, i, d) && GoesOn(chunks, i, d) && LastDecides(chunks, ins, playlistId, i, d)
  }

  /** A `try` block that neither ended the call nor got a response read a chunk that lets the loop go on. */
  lemma AttemptContinues(c: Chunk, ins: InsertResult, playlistId: string)
    ensures var a := TryChunk(c, ins, playlistId);
      a.halt.None? && !a.response ==> Continues(c)
  {
  }

  lemma {:induction false} RunShape(chunks: seq<Chunk>, ins: InsertResult, playlistId: string, i: nat, error: bool, retry: nat)
    requires i <= |chunks|
    ensures Shaped(chunks, ins, playlistId, i, Drive(chunks, ins, playlistId, i, error, retry))
    decreases |chunks| - i, 1
  {
    if i < |chunks| {
      DriveUnfold(chunks, ins, playlistId, i, error, retry);
      TurnShape(chunks, ins, playlistId, i, error, retry);
    }
  }

  lemma {:induction false} TurnShape(chunks: seq<Chunk>, ins: InsertResult, playlistId: string, i: nat, error: bool, retry: nat)
    requires i < |chunks|
    ensures Shaped(chunks, ins, playlistId, i, Turn(chunks, ins, playlistId, i, error, retry))
    decreases |chunks| - i, 0
  {
    var a := TryChunk(chunks[i], ins, playlistId);
    var err := error || a.error;
    var step := Iterate(a, err, retry);
    AttemptEvents(chunks[i], ins, playlistId);
    SleepEvents(a.events, Pow2(retry + 1));
    IterateShape(a, err, retry);
    if step.Again? {
      RunShape(chunks, ins, playlistId, i + 1, err, step.retry);
      AttemptContinues(chunks[i], ins, playlistId);
      ShapedPrepend(chunks, ins, playlistId, i, step.events, Drive(chunks, ins, playlistId, i + 1, err, step.retry));
    } else {
      ShapedLast(chunks, ins, playlistId, i, step.run);
    }
  }

  /** A turn that lets the loop go on adds one call and no insert in front of the rest. */
  lemma ShapedPrepend(chunks: seq<Chunk>, ins: InsertResult, playlistId: string, i: nat, events: seq<Event>, rest: Run)
    requires i < |chunks| && Continues(chunks[i])
    requires Calls(events) == 1 && Inserts(events) == []
    requires Shaped(chunks, ins, playlistId, i + 1, rest)
    ensures Shaped(chunks, ins, playlistId, i, Prepend(events, rest))
  {
    var d := Prepend(events, rest);
    LogAppend(events, rest.log);
    assert d.outcome == rest.outcome && Calls(d.log) == Calls(rest.log) + 1 && Inserts(d.log) == Inserts(rest.log);
    ReadsOneMore(chunks, i, rest, d);
    GoesOnOneMore(chunks, i, rest, d);
    LastDecidesOneMore(chunks, ins, playlistId, i, rest, d);
  }

  lemma ReadsOneMore(chunks: seq<Chunk>, i: nat, rest: Run, d: Run)
    requires i < |chunks| && Reads(chunks, i + 1, rest)
    requires d.outcome == rest.outcome && Calls(d.log) == Calls(rest.log) + 1
    ensures Reads(chunks, i, d)
  {
  }

  lemma GoesOnOneMore(chunks: seq<Chunk>, i: nat, rest: Run, d: Run)
    requires i < |chunks| && Continues(chunks[i]) && GoesOn(chunks, i + 1, rest)
    requires d.outcome == rest.outcome && Calls(d.log) == Calls(rest.log) + 1
    ensures GoesOn(chunks, i, d)
  {
    forall k | i < k < |chunks| && k < i + Calls(d.log) - 1
      ensures Continues(chunks[k])
    {
      assert i + 1 <= k < (i + 1) + Calls(rest.log) - 1;
    }
  }

  lemma LastDecidesOneMore(chunks: seq<Chunk>, ins: InsertResult, playlistId: string, i: nat, rest: Run, d: Run)
    requires i < |chunks| && Reads(chunks, i + 1, rest) && Reads(chunks, i, d)
    requires LastDecides(chunks, ins, playlistId, i + 1, rest)
    requires d.outcome == rest.outcome && Calls(d.log) == Calls(rest.log) + 1 && Inserts(d.log) == Inserts(rest.log)
    ensures LastDecides(chunks, ins, playlistId, i, d)
  {
    assert i + Calls(d.log) - 1 == (i + 1) + Calls(rest.log) - 1;
  }

  /** A turn that ends the call reads one chunk, which decides the outcome and the insert. */
  lemma ShapedLast(chunks: seq<Chunk>, ins: InsertResult, playlistId: string, i: nat, r: Run)
    requires i < |chunks|
    requires var a := TryChunk(chunks[i], ins, playlistId);
      && Calls(r.log) == 1 && Inserts(r.log) == Inserts(a.events) && r.outcome != OutOfInput
      && (if a.halt.Some? then r.outcome == a.halt.value
          else r.outcome == Exited(RetriesExhausted) || (a.response && r.outcome == Returned))
    requires Inserts(TryChunk(chunks[i], ins, playlistId).events) == InsertOf(chunks[i], playlistId)
    ensures Shaped(chunks, ins, playlistId, i, r)
  {
  }

  // ----- the sticky error -----

  /** The call returned normally or ran out of input: it did not stop inside a turn. */
  predicate Quiet(outcome: Outcome) {
    outcome == Returned || outcome == OutOfInput
  }

  /**
   * Once `error` is set it stays set: from then on every turn sleeps, except the
   * turn in which the call stops by exiting or raising. So the calls outnumber the
   * sleeps by exactly one when the call stops that way, and match them otherwise.
   */
  lemma {:induction false} StickyError(chunks: seq<Chunk>, ins: InsertResult, playlistId: string, i: nat, retry: nat)
    requires i <= |chunks|
    ensures var d := Drive(chunks, ins, playlistId, i, true, retry);
      Calls(d.log) == |Sleeps(d.log)| + if Quiet(d.outcome) then 0 else 1
    decreases |chunks| - i, 1
  {
    if i < |chunks| {
      DriveUnfold(chunks, ins, playlistId, i, true, retry);
      TurnSticky(chunks, ins, playlistId, i, retry);
    }
  }

  lemma {:induction false} TurnSticky(chunks: seq<Chunk>, ins: InsertResult, playlistId: string, i: nat, retry: nat)
    requires i < |chunks|
    ensures var d := Turn(chunks, ins, playlistId, i, true, retry);
      Calls(d.log) == |Sleeps(d.log)| + if Quiet(d.outcome) then 0 else 1
    decreases |chunks| - i, 0
  {
    var a := TryChunk(chunks[i], ins, playlistId);
    var step := Iterate(a, true, retry);
    AttemptEvents(chunks[i], ins, playlistId);
    SleepEvents(a.events, Pow2(retry + 1));
    if step.Again? {
      var rest := Drive(chunks, ins, playlistId, i + 1, true, step.retry);
      StickyError(chunks, ins, playlistId, i + 1, step.retry);
      LogAppend(step.events, rest.log);
      StickyStep(a, retry, Calls(rest.log), |Sleeps(rest.log)|, Quiet(rest.outcome));
    } else {
      StickyStep(a, retry, 0, 0, true);
    }
  }

  /** One turn with `error` set, apart from the rest of the loop. */
  lemma StickyStep(a: Attempt, retry: nat, laterCalls: nat, laterSleeps: nat, laterQuiet: bool)
    requires Calls(a.events) == 1 && Sleeps(a.events) == []
    requires a.halt.Some? ==> a.halt.value.Raised? || a.halt.value == Exited(UnexpectedResponse)
    requires Calls(a.events + [Sleep(Pow2(retry + 1))]) == 1
    requires Sleeps(a.events + [Sleep(Pow2(retry + 1))]) == [Pow2(retry + 1)]
    requires laterCalls == laterSleeps + if laterQuiet then 0 else 1
    ensures match Iterate(a, true, retry)
      case Finished(r) => Calls(r.log) == |Sleeps(r.log)| + if Quiet(r.outcome) then 0 else 1
      case Again(events, _) =>
        Calls(events) + laterCalls == |Sleeps(events)| + laterSleeps + if laterQuiet then 0 else 1
  {
  }

  // ----- without failures -----

  /**
   * When no chunk fails and the playlist insert succeeds, `error` is never set: the
   * call never sleeps and ends by returning, by the unexpected-response exit or by
   * running out of input.
   */
  lemma {:induction false} NoFailureNoSleep(chunks: seq<Chunk>, playlistId: string, i: nat, retry: nat)
    requires i <= |chunks|
    requires forall k :: i <= k < |chunks| ==> !chunks[k].Failed?
    ensures var d := Drive(chunks, Inserted, playlistId, i, false, retry);
      && Sleeps(d.log) == []
      && (d.outcome == Returned || d.outcome == Exited(UnexpectedResponse) || d.outcome == OutOfInput)
    decreases |chunks| - i
  {
    if i < |chunks| {
      var a := TryChunk(chunks[i], Inserted, playlistId);
      DriveUnfold(chunks, Inserted, playlistId, i, false, retry);
      AttemptEvents(chunks[i], Inserted, playlistId);
      assert !a.error && (a.halt.Some? ==> a.halt.value == Exited(UnexpectedResponse));
      if !a.response && a.halt.None? {
        var rest := Drive(chunks, Inserted, playlistId, i + 1, false, retry);
        NoFailureNoSleep(chunks, playlistId, i + 1, retry);
        LogAppend(a.events, rest.log);
      }
    }
  }

  // ----- runs of retriable failures -----

  /** The log of `n` turns that each read a retriable failure with `error` set: a call, then a sleep. */
  function TransientLog(retry: nat, n: nat): seq<Event>
    decreases n
  {
    if n == 0 then [] else [ChunkCall, Sleep(Pow2(retry + 1))] + TransientLog(retry + 1, n - 1)
  }

  /** The chunks `chunks[i..i + n]` are all retriable failures. */
  predicate Transients(chunks: seq<Chunk>, i: nat, n: nat)
    requires i + n <= |chunks|
  {
    forall k :: i <= k < i + n ==> chunks[k].Failed? && IsRetriable(chunks[k].failure)
  }

  /** A retriable failure with a retry to spare costs one call and one sleep and leaves `error` set. */
  lemma TransientTurn(chunks: seq<Chunk>, ins: InsertResult, playlistId: string, i: nat, error: bool, retry: nat)
    requires i < |chunks| && chunks[i].Failed? && IsRetriable(chunks[i].failure) && retry < MaxRetries
    ensures Drive(chunks, ins, playlistId, i, error, retry) ==
      Prepend([ChunkCall, Sleep(Pow2(retry + 1))], Drive(chunks, ins, playlistId, i + 1, true, retry + 1))
  {
    DriveUnfold(chunks, ins, playlistId, i, error, retry);
  }

  /**
   * `n` retriable failures in a row, with retries to spare, each cost one call and
   * one sleep and leave `error` set and `retry` raised by `n`.
   */
  lemma {:induction false} TransientRun(chunks: seq<Chunk>, ins: InsertResult, playlistId: string, i: nat, n: nat, error: bool, retry: nat)
    requires i + n <= |chunks| && retry + n <= MaxRetries && Transients(chunks, i, n)
    ensures Drive(chunks, ins, playlistId, i, error, retry) ==
      Prepend(TransientLog(retry, n), Drive(chunks, ins, playlistId, i + n, error || n > 0, retry + n))
    decreases n
  {
    if n == 0 {
      var rest := Drive(chunks, ins, playlistId, i, error, retry);
      assert [] + rest.log == rest.log;
    } else {
      var turn := [ChunkCall, Sleep(Pow2(retry + 1))];
      var mid := Drive(chunks, ins, playlistId, i + 1, true, retry + 1);
      var rest := Drive(chunks, ins, playlistId, i + n, true, retry + n);
      TransientTurn(chunks, ins, playlistId, i, error, retry);
      assert Transients(chunks, i + 1, n - 1);
      TransientRun(chunks, ins, playlistId, i + 1, n - 1, true, retry + 1);
      assert mid == Prepend(TransientLog(retry + 1, n - 1), rest);
      assert TransientLog(retry, n) == turn + TransientLog(retry + 1, n - 1);
      PrependPrepend(turn, TransientLog(retry + 1, n - 1), rest);
    }
  }

  /**
   * A final response with an id and a good playlist insert, read while `error` is
   * set: the backoff still runs. With a retry to spare the call sleeps once more and
   * returns; with none left it exits as if retries had run out, after the upload and
   * the insert have both succeeded.
   */
  lemma SuccessWithErrorSet(chunks: seq<Chunk>, playlistId: string, i: nat, retry: nat)
    requires i < |chunks| && chunks[i].Final? && chunks[i].hasId
    ensures var events := [ChunkCall, PlaylistInsert(playlistId, chunks[i].id)];
      Drive(chunks, Inserted, playlistId, i, true, retry) ==
        if retry < MaxRetries then Run(Returned, events + [Sleep(Pow2(retry + 1))])
        else Run(Exited(RetriesExhausted), events)
  {
    DriveUnfold(chunks, Inserted, playlistId, i, true, retry);
  }

  /** A retriable failure with no retry left ends the call. */
  lemma FailureWithNoRetryLeft(chunks: seq<Chunk>, ins: InsertResult, playlistId: string, i: nat, error: bool)
    requires i < |chunks| && chunks[i].Failed? && IsRetriable(chunks[i].failure)
    ensures Drive(chunks, ins, playlistId, i, error, MaxRetries) == Run(Exited(RetriesExhausted), [ChunkCall])
  {
    DriveUnfold(chunks, ins, playlistId, i, error, MaxRetries);
  }

  /**
   * Two retriable failures (two HTTP 503 errors, say) and then the final response:
   * three sleeps, with the bounds 2, 4 and 8, because the backoff also runs in the
   * turn that got the response.
   */
  lemma TwoErrorsThenSuccess(chunks: seq<Chunk>, playlistId: string)
    requires |chunks| == 3 && Transients(chunks, 0, 2) && chunks[2].Final? && chunks[2].hasId
    ensures Upload(chunks, Inserted, playlistId) ==
      Run(Returned, [ChunkCall, Sleep(2), ChunkCall, Sleep(4), ChunkCall, PlaylistInsert(playlistId, chunks[2].id), Sleep(8)])
  {
    TransientRun(chunks, Inserted, playlistId, 0, 2, false, 0);
    SuccessWithErrorSet(chunks, playlistId, 2, 2);
    assert TransientLog(0, 2) == [ChunkCall, Sleep(2), ChunkCall, Sleep(4)];
  }

  /**
   * `MAX_RETRIES + 1` retriable failures in a row: each of the first `MAX_RETRIES`
   * is followed by a sleep, and the next one gives up.
   */
  lemma AlwaysFailing(chunks: seq<Chunk>, ins: InsertResult, playlistId: string)
    requires |chunks| > MaxRetries && Transients(chunks, 0, MaxRetries + 1)
    ensures Upload(chunks, ins, playlistId) == Run(Exited(RetriesExhausted), TransientLog(0, MaxRetries) + [ChunkCall])
  {
    TransientRun(chunks, ins, playlistId, 0, MaxRetries, false, 0);
    FailureWithNoRetryLeft(chunks, ins, playlistId, MaxRetries, true);
  }

  /**
   * `MAX_RETRIES` retriable failures and then a final response whose playlist insert
   * succeeds: because `error` is never cleared, the call still exits with retries
   * exhausted, after the video was uploaded and attached.
   */
  lemma StickyErrorExitsAfterAttach(chunks: seq<Chunk>, playlistId: string)
    requires |chunks| == MaxRetries + 1 && Transients(chunks, 0, MaxRetries)
    requires chunks[MaxRetries].Final? && chunks[MaxRetries].hasId
    ensures Upload(chunks, Inserted, playlistId) ==
      Run(Exited(RetriesExhausted), TransientLog(0, MaxRetries) + [ChunkCall, PlaylistInsert(playlistId, chunks[MaxRetries].id)])
  {
    TransientRun(chunks, Inserted, playlistId, 0, MaxRetries, false, 0);
    SuccessWithErrorSet(chunks, playlistId, MaxRetries, MaxRetries);
  }

  // ----- the loop with `error` cleared in each iteration -----

  /**
   * The loop as evidently intended: `error` describes the current iteration only,
   * so it is cleared before each `try` block; `retry` still counts every failure.
   */
  function DriveFixed(chunks: seq<Chunk>, ins: InsertResult, playlistId: string, i: nat, retry: nat): Run
    requires i <= |chunks|
    decreases |chunks| - i, 1
  {
    if i == |chunks| then Run(OutOfInput, []) else TurnFixed(chunks, ins, playlistId, i, retry)
  }

  /** One turn of the corrected loop: the `try` block sees `error` cleared. */
  function TurnFixed(chunks: seq<Chunk>, ins: InsertResult, playlistId: string, i: nat, retry: nat): Run
    requires i < |chunks|
    decreases |chunks| - i, 0
  {
    var a := TryChunk(chunks[i], ins, playlistId);
    match Iterate(a, a.error, retry)
    case Finished(r) => r
    case Again(events, retry') => Prepend(events, DriveFixed(chunks, ins, playlistId, i + 1, retry'))
  }

  /**
   * With `error` cleared, a final response whose playlist insert succeeds always
   * ends the call by returning, without a sleep, however many retries came before.
   */
  lemma FixedSuccessReturns(chunks: seq<Chunk>, playlistId: string, i: nat, retry: nat)
    requires i < |chunks| && chunks[i].Final? && chunks[i].hasId
    ensures DriveFixed(chunks, Inserted, playlistId, i, retry) ==
      Run(Returned, [ChunkCall, PlaylistInsert(playlistId, chunks[i].id)])
  {
    assert DriveFixed(chunks, Inserted, playlistId, i, retry) == TurnFixed(chunks, Inserted, playlistId, i, retry);
  }

  lemma FixedTransientTurn(chunks: seq<Chunk>, ins: InsertResult, playlistId: string, i: nat, retry: nat)
    requires i < |chunks| && chunks[i].Failed? && IsRetriable(chunks[i].failure) && retry < MaxRetries
    ensures DriveFixed(chunks, ins, playlistId, i, retry) ==
      Prepend([ChunkCall, Sleep(Pow2(retry + 1))], DriveFixed(chunks, ins, playlistId, i + 1, retry + 1))
  {
    assert DriveFixed(chunks, ins, playlistId, i, retry) == TurnFixed(chunks, ins, playlistId, i, retry);
  }

  /** The corrected loop goes through a run of retriable failures as the source does. */
  lemma {:induction false} FixedTransientRun(chunks: seq<Chunk>, ins: InsertResult, playlistId: string, i: nat, n: nat, retry: nat)
    requires i + n <= |chunks| && retry + n <= MaxRetries && Transients(chunks, i, n)
    ensures DriveFixed(chunks, ins, playlistId, i, retry) ==
      Prepend(TransientLog(retry, n), DriveFixed(chunks, ins, playlistId, i + n, retry + n))
    decreases n
  {
    if n == 0 {
      var rest := DriveFixed(chunks, ins, playlistId, i, retry);
      assert [] + rest.log == rest.log;
    } else {
      var turn := [ChunkCall, Sleep(Pow2(retry + 1))];
      var mid := DriveFixed(chunks, ins, playlistId, i + 1, retry + 1);
      var rest := DriveFixed(chunks, ins, playlistId, i + n, retry + n);
      FixedTransientTurn(chunks, ins, playlistId, i, retry);
      assert Transients(chunks, i + 1, n - 1);
      FixedTransientRun(chunks, ins, playlistId, i + 1, n - 1, retry + 1);
      assert mid == Prepend(TransientLog(retry + 1, n - 1), rest);
      assert TransientLog(retry, n) == turn + TransientLog(retry + 1, n - 1);
      PrependPrepend(turn, TransientLog(retry + 1, n - 1), rest);
    }
  }

  /** On the input of `StickyErrorExitsAfterAttach` the corrected loop returns normally. */
  lemma FixedRecoversAfterTransients(chunks: seq<Chunk>, playlistId: string)
    requires |chunks| == MaxRetries + 1 && Transients(chunks, 0, MaxRetries)
    requires chunks[MaxRetries].Final? && chunks[MaxRetries].hasId
    ensures DriveFixed(chunks, Inserted, playlistId, 0, 0) ==
      Run(Returned, TransientLog(0, MaxRetries) + [ChunkCall, PlaylistInsert(playlistId, chunks[MaxRetries].id)])
  {
    FixedTransientRun(chunks, Inserted, playlistId, 0, MaxRetries, 0);
    FixedSuccessReturns(chunks, playlistId, MaxRetries, MaxRetries);
  }
}
