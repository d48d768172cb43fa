/** The `forward_snapshot` resource: a snapshot collected for a network, optionally waited on until
    it is processed. Its Terraform state is an object the operations update in place; the SDK
    calls are function parameters, and the waiting loop reads what happened while it waited
    (ticks with their poll results, cancellation, the timeout) from a schedule of events. */
module SnapshotResource {
  import opened Wrappers
  import opened Text
  import opened Framework
  import opened Client
  import opened Snapshots
  import opened IntentCheckResource

  /** The Terraform state of a snapshot. */
  class SnapshotResourceModel {
    var id: TfString
    var networkId: TfString
    var note: TfString
    var waitForProcessed: TfBool
    var pollIntervalSeconds: TfInt
    var timeoutSeconds: TfInt
    var state: TfString
    var creationDateMillis: TfInt
    var processedAtMillis: TfInt
    var restoredAtMillis: TfInt

    /** The attributes `updateSnapshotState` writes show `snapshot`: a blank state as null, a nil
        timestamp as null. */
    predicate Shows(snapshot: Snapshot)
      reads this
    {
      && state == BlankOrNull(snapshot.state)
      && creationDateMillis == PointerOrNull(snapshot.creationDateMillis)
      && processedAtMillis == PointerOrNull(snapshot.processedAtMillis)
      && restoredAtMillis == PointerOrNull(snapshot.restoredAtMillis)
    }

    /** The attributes the API does not report are as they were. */
    twostate predicate KeepsInputs()
      reads this
    {
      && id == old(id) && networkId == old(networkId) && note == old(note)
      && waitForProcessed == old(waitForProcessed)
      && pollIntervalSeconds == old(pollIntervalSeconds) && timeoutSeconds == old(timeoutSeconds)
    }

    /** The attributes the API reports are as they were. */
    twostate predicate KeepsReported()
      reads this
    {
      && state == old(state) && creationDateMillis == old(creationDateMillis)
      && processedAtMillis == old(processedAtMillis) && restoredAtMillis == old(restoredAtMillis)
    }
  }

  /** Nothing the API reports is lost in the state, except a state that is only white space. */
  lemma ShownSnapshotReadsBack(model: SnapshotResourceModel, snapshot: Snapshot)
    requires model.Shows(snapshot)
    ensures !AllSpace(snapshot.state) ==> StringOrEmpty(model.state) == snapshot.state
    ensures model.state.Null? <==> AllSpace(snapshot.state)
    ensures Pointer(model.creationDateMillis) == snapshot.creationDateMillis
    ensures Pointer(model.processedAtMillis) == snapshot.processedAtMillis
    ensures Pointer(model.restoredAtMillis) == snapshot.restoredAtMillis
  {
  }

  /** `updateSnapshotState`. */
  method UpdateSnapshotState(model: SnapshotResourceModel, snapshot: Snapshot)
    modifies model
    ensures model.Shows(snapshot) && model.KeepsInputs()
  {
    model.state := BlankOrNull(snapshot.state);
    model.creationDateMillis := PointerOrNull(snapshot.creationDateMillis);
    model.processedAtMillis := PointerOrNull(snapshot.processedAtMillis);
    model.restoredAtMillis := PointerOrNull(snapshot.restoredAtMillis);
  }

  /** `defaultInt`: the fallback for a null or unknown attribute. */
  function DefaultInt(value: TfInt, fallback: int): (r: int)
    ensures value.Known? ==> r == value.value
    ensures !value.Known? ==> r == fallback
  {
    if value.Null? || value.Unknown? then fallback else value.value
  }

  // ---------------------------------------------------------------- durations

  const SecondNanos: int := 1000000000

  /** Go's `int64` arithmetic: the value taken modulo 2^64 into [-2^63, 2^63). */
  function Wrap64(x: int): (r: int)
    ensures -0x8000_0000_0000_0000 <= r < 0x8000_0000_0000_0000
    ensures -0x8000_0000_0000_0000 <= x < 0x8000_0000_0000_0000 ==> r == x
  {
    (x + 0x8000_0000_0000_0000) % 0x1_0000_0000_0000_0000 - 0x8000_0000_0000_0000
  }

  /** `time.Duration(n) * time.Second`, in nanoseconds, wrapping like the `int64` it is. */
  function Seconds(n: int): int
  {
    Wrap64(n * SecondNanos)
  }

  /** Within the range of a duration the conversion is exact, so it is positive exactly for a
      positive number of seconds; the largest such number is 9223372036. */
  lemma SecondsExact(n: int)
    requires -9223372036 <= n <= 9223372036
    ensures Seconds(n) == n * SecondNanos
    ensures Seconds(n) > 0 <==> n > 0
  {
  }

  // ---------------------------------------------------------------- waiting

  /** What the `select` of `waitForProcessed` sees, in order: the context is done (with its
      error), the timeout fires, or the ticker fires and `GetSnapshot` answers `poll`. Each poll
      is the answer of `GetSnapshot(networkId, snapshotId)` for the snapshot just created; the
      schedule is given, so that link is not enforced by the model. */
  datatype Event = Cancelled(err: Error) | TimedOut | Tick(poll: Result<Snapshot>)

  /** The error the wait reports when the timeout fires. */
  const TimeoutError: Error := Fail("snapshot processing timed out")

  /** The error the wait reports for a snapshot whose processing failed. */
  function FailedError(snapshotId: string): Error
  {
    Fail("snapshot " + snapshotId + " failed")
  }

  /** An error whose text, lower-cased, mentions "not found": the snapshot is gone. */
  predicate SaysNotFound(e: Error)
  {
    Contains(Lower(e.msg), "not found")
  }

  /** An event after which the loop polls again: a tick whose poll failed for another reason
      than a missing snapshot, or found it neither processed nor failed. */
  predicate Continues(e: Event)
  {
    && e.Tick?
    && match e.poll
       case Err(err) => !SaysNotFound(err)
       case Ok(s) => !EqualFold(s.state, "PROCESSED") && !EqualFold(s.state, "FAILED")
  }

  /** How a wait ends: with the error it returns (none for success) and the last snapshot it
      read, which is what the state shows. */
  datatype WaitEnd = WaitEnd(err: Option<Error>, seen: Option<Snapshot>)

  /** The snapshot an event makes the state show, if any. */
  function SeenAfter(e: Event, seen: Option<Snapshot>): Option<Snapshot>
  {
    if e.Tick? && e.poll.Ok? then Some(e.poll.value) else seen
  }

  /** What an event that stops the wait makes it return. */
  function StopError(e: Event, snapshotId: string): Option<Error>
  {
    match e
    case Cancelled(err) => Some(err)
    case TimedOut => Some(TimeoutError)
    case Tick(poll) =>
      match poll
      case Err(err) => Some(err)
      case Ok(s) => if EqualFold(s.state, "PROCESSED") then None else Some(FailedError(snapshotId))
  }

  /** The wait over a schedule, `seen` being what the state shows so far. The timer always fires
      in the end: a schedule that runs out before anything stops the wait ends in the timeout. */
  function WaitFrom(events: seq<Event>, snapshotId: string, seen: Option<Snapshot>): WaitEnd
    decreases |events|
  {
    if events == [] then WaitEnd(Some(TimeoutError), seen)
    else if Continues(events[0]) then WaitFrom(events[1..], snapshotId, SeenAfter(events[0], seen))
    else WaitEnd(StopError(events[0], snapshotId), SeenAfter(events[0], seen))
  }

  /** One event of the wait: it continues the wait with the rest of the schedule, or decides it. */
  lemma WaitStep(events: seq<Event>, snapshotId: string, seen: Option<Snapshot>)
    requires events != []
    ensures Continues(events[0]) ==> WaitFrom(events, snapshotId, seen) == WaitFrom(events[1..], snapshotId, SeenAfter(events[0], seen))
    ensures !Continues(events[0]) ==> WaitFrom(events, snapshotId, seen) == WaitEnd(StopError(events[0], snapshotId), SeenAfter(events[0], seen))
  {
  }

  /** The snapshot the state shows after the first `events`: that of the last successful poll. */
  function LastSeen(events: seq<Event>, seen: Option<Snapshot>): Option<Snapshot>
    decreases |events|
  {
    if events == [] then seen else SeenAfter(events[|events| - 1], LastSeen(events[..|events| - 1], seen))
  }

  lemma {:induction false} LastSeenStep(events: seq<Event>, e: Event, seen: Option<Snapshot>)
    ensures LastSeen([e] + events, seen) == LastSeen(events, SeenAfter(e, seen))
    decreases |events|
  {
    if events != [] {
      var init := events[..|events| - 1];
      assert ([e] + events)[..|[e] + events| - 1] == [e] + init;
      LastSeenStep(init, e, seen);
    }
  }

  /** The first event that does not continue the wait decides it: the wait returns what that
      event stops it with, and the state shows the last snapshot read up to it. */
  lemma {:induction false} FirstStopDecides(events: seq<Event>, k: nat, snapshotId: string, seen: Option<Snapshot>)
    requires k < |events| && !Continues(events[k])
    requires forall j :: 0 <= j < k ==> Continues(events[j])
    ensures WaitFrom(events, snapshotId, seen) == WaitEnd(StopError(events[k], snapshotId), LastSeen(events[..k + 1], seen))
    decreases k
  {
    if k == 0 {
      assert events[..1] == [events[0]] + [];
      LastSeenStep([], events[0], seen);
    } else {
      var rest := events[1..];
      assert forall j :: 0 <= j < k - 1 ==> Continues(rest[j]) by {
        forall j | 0 <= j < k - 1 ensures Continues(rest[j]) { assert rest[j] == events[j + 1]; }
      }
      FirstStopDecides(rest, k - 1, snapshotId, SeenAfter(events[0], seen));
      assert events[..k + 1] == [events[0]] + rest[..k];
      LastSeenStep(rest[..k], events[0], seen);
    }
  }

  /** A schedule in which every event continues the wait times out, showing the last snapshot read. */
  lemma {:induction false} AllContinueTimesOut(events: seq<Event>, snapshotId: string, seen: Option<Snapshot>)
    requires forall j :: 0 <= j < |events| ==> Continues(events[j])
    ensures WaitFrom(events, snapshotId, seen) == WaitEnd(Some(TimeoutError), LastSeen(events, seen))
    decreases |events|
  {
    if events != [] {
      var rest := events[1..];
      assert forall j :: 0 <= j < |rest| ==> Continues(rest[j]) by {
        forall j | 0 <= j < |rest| ensures Continues(rest[j]) { assert rest[j] == events[j + 1]; }
      }
      AllContinueTimesOut(rest, snapshotId, SeenAfter(events[0], seen));
      assert events == [events[0]] + rest;
      LastSeenStep(rest, events[0], seen);
    }
  }

  /** A wait succeeds only on a poll that read the snapshot as PROCESSED (in any case), and the
      state then shows that snapshot. */
  lemma {:induction false} SuccessMeansProcessed(events: seq<Event>, snapshotId: string, seen: Option<Snapshot>)
    ensures var end := WaitFrom(events, snapshotId, seen);
      end.err.None? ==> end.seen.Some? && EqualFold(end.seen.value.state, "PROCESSED")
    decreases |events|
  {
    if events != [] && Continues(events[0]) {
      SuccessMeansProcessed(events[1..], snapshotId, SeenAfter(events[0], seen));
    }
  }

  /** A poll that finds the snapshot gone ends the wait with that poll's error, and the state
      keeps showing the last snapshot read before it. */
  lemma GoneSnapshotStopsWait(events: seq<Event>, err: Error, snapshotId: string, seen: Option<Snapshot>)
    requires events != [] && events[0] == Tick(Err(err)) && SaysNotFound(err)
    ensures WaitFrom(events, snapshotId, seen) == WaitEnd(Some(err), seen)
  {
  }

  /** `waitForProcessed`, polling through the schedule `events`. `time.NewTicker` demands a
      positive interval; the timer of `time.After(timeout)` is the `TimedOut` event, wherever it
      falls in the schedule, so the timeout itself is chosen by the caller (see `Create`). */
  method WaitForProcessed(model: SnapshotResourceModel, snapshotId: string, interval: int, events: seq<Event>)
    returns (err: Option<Error>)
    requires interval > 0
    modifies model
    ensures var end := WaitFrom(events, snapshotId, None);
      && err == end.err
      && model.KeepsInputs()
      && (end.seen.Some? ==> model.Shows(end.seen.value))
      && (end.seen.None? ==> model.KeepsReported())
  {
    ghost var seen: Option<Snapshot> := None;
    var i := 0;
    while i < |events|
      invariant 0 <= i <= |events|
      invariant WaitFrom(events, snapshotId, None) == WaitFrom(events[i..], snapshotId, seen)
      invariant model.KeepsInputs()
      invariant seen.Some? ==> model.Shows(seen.value)
      invariant seen.None? ==> model.KeepsReported()
    {
      var event := events[i];
      assert events[i..][0] == event && events[i..][1..] == events[i + 1..];
      WaitStep(events[i..], snapshotId, seen);
      match event {
        case Cancelled(e) =>
          return Some(e);
        case TimedOut =>
          return Some(TimeoutError);
        case Tick(poll) =>
          if poll.Err? {
            if Contains(Lower(poll.error.msg), "not found") {
              return Some(poll.error);
            }
          } else {
            var snapshot := poll.value;
            UpdateSnapshotState(model, snapshot);
            seen := Some(snapshot);
            if EqualFold(snapshot.state, "PROCESSED") {
              return None;
            }
            if EqualFold(snapshot.state, "FAILED") {
              return Some(FailedError(snapshotId));
            }
          }
      }
      i := i + 1;
    }
    err := Some(TimeoutError);
  }

  // ---------------------------------------------------------------- CRUD

  /** `CreateSnapshot(ctx, networkID, request)`. */
  type CreateCall = (string, SnapshotCreateRequest) -> Result<Snapshot>

  const DefaultPollIntervalSeconds: int := 10
  const DefaultTimeoutSeconds: int := 600

  /** With the poll interval or the timeout left null or unknown, the wait ticks every 10 s and
      gives up after 600 s. */
  lemma UnsetWaitSettings(value: TfInt)
    requires value.Null? || value.Unknown?
    ensures Seconds(DefaultInt(value, DefaultPollIntervalSeconds)) == 10 * SecondNanos
    ensures Seconds(DefaultInt(value, DefaultTimeoutSeconds)) == 600 * SecondNanos
  {
    SecondsExact(DefaultPollIntervalSeconds);
    SecondsExact(DefaultTimeoutSeconds);
  }

  /** `Create`. `crashed` is the panic of `time.NewTicker` when the poll interval, as a duration,
      is not positive: the provider stops there, with no diagnostic. When a diagnostic is
      reported the framework discards the plan. `timeout` is the duration the wait's timer is
      set to (zero when no wait began); the schedule `events` says when that timer fires. */
  method Create(plan: SnapshotResourceModel, create: CreateCall, events: seq<Event>)
    returns (diag: Option<Diagnostic>, crashed: bool, waited: bool, timeout: int)
    modifies plan
    ensures var created := create(old(StringOrEmpty(plan.networkId)), SnapshotCreateRequest(old(StringOrEmpty(plan.note))));
      && (created.Err? ==> diag == Some(Diagnostic(None, "Error creating snapshot", created.error.msg))
                           && !crashed && !waited && timeout == 0 && unchanged(plan))
      && (created.Ok? ==>
            var wait := old(plan.waitForProcessed) == Known(true);
            var interval := Seconds(DefaultInt(old(plan.pollIntervalSeconds), DefaultPollIntervalSeconds));
            var end := WaitFrom(events, created.value.id, None);
            && plan.id == Known(created.value.id)
            && plan.networkId == old(plan.networkId) && plan.note == old(plan.note)
            && plan.waitForProcessed == old(plan.waitForProcessed)
            && plan.pollIntervalSeconds == old(plan.pollIntervalSeconds) && plan.timeoutSeconds == old(plan.timeoutSeconds)
            && (crashed <==> wait && interval <= 0)
            && (waited <==> wait && interval > 0)
            && timeout == (if waited then Seconds(DefaultInt(old(plan.timeoutSeconds), DefaultTimeoutSeconds)) else 0)
            && (!waited ==> plan.Shows(created.value) && diag.None?)
            && (waited ==> diag == (if end.err.None? then None else Some(Diagnostic(None, "Error waiting for snapshot", end.err.value.msg))))
            && (waited ==> plan.Shows(if end.seen.Some? then end.seen.value else created.value)))
  {
    var request := SnapshotCreateRequest("");
    if !plan.note.Null? && !plan.note.Unknown? {
      request := request.(note := plan.note.value);
    }
    var created := create(StringOrEmpty(plan.networkId), request);
    if created.Err? {
      return Some(Diagnostic(None, "Error creating snapshot", created.error.msg)), false, false, 0;
    }
    var snapshot := created.value;
    plan.id := Known(snapshot.id);
    UpdateSnapshotState(plan, snapshot);
    var wait := !plan.waitForProcessed.Null? && ValueOr(plan.waitForProcessed, false);
    crashed, waited, timeout := false, false, 0;
    if wait {
      var pollInterval := DefaultInt(plan.pollIntervalSeconds, DefaultPollIntervalSeconds);
      var timeoutSeconds := DefaultInt(plan.timeoutSeconds, DefaultTimeoutSeconds);
      if Seconds(pollInterval) <= 0 {
        return None, true, false, 0;
      }
      waited, timeout := true, Seconds(timeoutSeconds);
      var pollErr := WaitForProcessed(plan, snapshot.id, Seconds(pollInterval), events);
      if pollErr.Some? {
        return Some(Diagnostic(None, "Error waiting for snapshot", pollErr.value.msg)), false, true, timeout;
      }
    }
    diag := None;
  }

  /** `GetSnapshot(ctx, networkID, snapshotID)`. */
  type GetCall = (string, string) -> Result<Snapshot>

  /** `Read`: a snapshot whose error says "not found" is dropped from the state; any other error
      is reported and the state kept. */
  method Read(state: SnapshotResourceModel, get: GetCall) returns (removed: bool, diag: Option<Diagnostic>)
    modifies state
    ensures var got := get(old(StringOrEmpty(state.networkId)), old(StringOrEmpty(state.id)));
      && (got.Err? && SaysNotFound(got.error) ==> removed && diag == None && unchanged(state))
      && (got.Err? && !SaysNotFound(got.error) ==>
            !removed && diag == Some(Diagnostic(None, "Error reading snapshot", got.error.msg)) && unchanged(state))
      && (got.Ok? ==> !removed && diag == None && state.Shows(got.value) && state.KeepsInputs())
  {
    var got := get(StringOrEmpty(state.networkId), StringOrEmpty(state.id));
    if got.Err? {
      if Contains(Lower(got.error.msg), "not found") {
        return true, None;
      }
      return false, Some(Diagnostic(None, "Error reading snapshot", got.error.msg));
    }
    UpdateSnapshotState(state, got.value);
    removed, diag := false, None;
  }

  /** A snapshot the server answers 404 for is read as gone. */
  lemma MissingSnapshotIsGone(body: string, snapshotId: string, decode: string -> Result<Snapshot>)
    ensures var got := GetSnapshotAnswer(Ok(Response(404, body)), snapshotId, decode);
      got.Err? && SaysNotFound(got.error)
  {
    SnapshotNotFoundSaysNotFound(snapshotId);
  }

  /** `DeleteSnapshot(ctx, snapshotID)`: the error, if any. */
  type DeleteCall = string -> Option<Error>

  /** `Delete`: a not-found error is not reported. */
  method Delete(state: SnapshotResourceModel, delete: DeleteCall) returns (diag: Option<Diagnostic>)
    ensures var err := delete(StringOrEmpty(state.id));
      && (diag.None? <==> err.None? || IsNotFoundError(err))
      && (diag.Some? ==> diag.value == Diagnostic(None, "Error deleting snapshot", err.value.msg))
  {
    var err := delete(StringOrEmpty(state.id));
    if err.Some? && !IsNotFoundError(err) {
      return Some(Diagnostic(None, "Error deleting snapshot", err.value.msg));
    }
    diag := None;
  }

  /** The two IDs an import sets. */
  datatype ImportedIds = ImportedIds(networkId: string, snapshotId: string)

  const InvalidImport: Diagnostic := Diagnostic(None, "Invalid import format", "Use: network_id/snapshot_id")

  /** `ImportState`: the import ID must be `network_id/snapshot_id`, with exactly one slash. */
  function ImportState(importId: string): (r: Diagnosed<ImportedIds>)
    ensures r.Valid? <==> Occurrences(importId, '/') == 1
    ensures r.Invalid? ==> r.diag == InvalidImport
    ensures r.Valid? ==> r.value.networkId + "/" + r.value.snapshotId == importId
    ensures r.Valid? ==> '/' !in r.value.networkId && '/' !in r.value.snapshotId
  {
    var parts := Split(importId, '/');
    if |parts| != 2 then Invalid(InvalidImport)
    else
      JoinSplit(importId, '/');
      assert parts[1..] == [parts[1]];
      Valid(ImportedIds(parts[0], parts[1]))
  }

  /** Importing `n/s` sets exactly `n` and `s`, for any IDs without a slash. */
  lemma ImportStateRoundTrip(networkId: string, snapshotId: string)
    requires '/' !in networkId && '/' !in snapshotId
    ensures ImportState(networkId + "/" + snapshotId) == Valid(ImportedIds(networkId, snapshotId))
  {
    SplitTwo(networkId, snapshotId, '/');
    assert networkId + "/" + snapshotId == networkId + ['/'] + snapshotId;
  }
}
