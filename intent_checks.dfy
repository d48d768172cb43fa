/** The intent-check accessors of the SDK: list, add, get and deactivate the intent checks of a
    snapshot. Each one trims its IDs and refuses empty ones before anything is sent, builds its
    path and query, and accepts only status 200. */
module IntentChecks {
  import opened Wrappers
  import opened Text
  import opened UrlValues
  import opened Client
  import opened Api

  /** A check as the API reports it (the fields the provider reads). */
  datatype CheckResult = CheckResult(
    id: string,
    name: string,
    status: string,
    priority: string,
    description: string,
    note: string,
    enabled: Option<bool>,
    perfMonitoringEnabled: Option<bool>,
    tags: seq<string>,
    numViolations: Option<int>,
    creationDateMillis: Option<int>,
    executionDateMillis: Option<int>,
    executionDuration: Option<int>,
    definition: Json)

  /** A single check together with its diagnosis, kept as JSON. */
  datatype CheckResultWithDiagnosis = CheckResultWithDiagnosis(check: CheckResult, diagnosis: Option<Json>)

  datatype CheckListOptions = CheckListOptions(types: seq<string>, statuses: seq<string>, priorities: seq<string>)

  /** The payload of a new check; a nil definition map is `None`. */
  datatype NewCheckRequest = NewCheckRequest(
    definition: Option<Json>,
    enabled: Option<bool>,
    name: string,
    note: string,
    perfMonitoringEnabled: Option<bool>,
    priority: string,
    tags: seq<string>)

  function ChecksPath(snapshotId: string): seq<string>
  {
    ["api", "snapshots", snapshotId, "checks"]
  }

  function CheckPath(snapshotId: string, checkId: string): seq<string>
  {
    ["api", "snapshots", snapshotId, "checks", checkId]
  }

  /** The filters a check listing sends: the surviving statuses, priorities and types, in order. */
  function CheckFilterQuery(opts: CheckListOptions): Values
  {
    AddEach(AddEach(AddEach(map[], "status", FilterTrimmed(opts.statuses)), "priority", FilterTrimmed(opts.priorities)),
            "type", FilterTrimmed(opts.types))
  }

  /** Exactly the non-blank filters reach the query, trimmed and in order, each under its own
      key; and the path gets a query string exactly when some filter survives. */
  lemma CheckFilterQueryContents(opts: CheckListOptions)
    ensures var q := CheckFilterQuery(opts);
      && q.Keys <= {"status", "priority", "type"}
      && All(q, "status") == FilterTrimmed(opts.statuses)
      && All(q, "priority") == FilterTrimmed(opts.priorities)
      && All(q, "type") == FilterTrimmed(opts.types)
      && WellFormed(q)
      && (Encodes(q) <==> FilterTrimmed(opts.statuses) != [] || FilterTrimmed(opts.priorities) != [] || FilterTrimmed(opts.types) != [])
  {
    var st, pr, ty := FilterTrimmed(opts.statuses), FilterTrimmed(opts.priorities), FilterTrimmed(opts.types);
    var q0: Values := map[];
    var q1 := AddEach(q0, "status", st);
    var q2 := AddEach(q1, "priority", pr);
    var q := AddEach(q2, "type", ty);
    assert !Encodes(q0);
    AddEachKeepsWellFormed(q0, "status", st);
    AddEachKeepsWellFormed(q1, "priority", pr);
    AddEachKeepsWellFormed(q2, "type", ty);
  }

  /** `ListSnapshotChecks`. */
  method ListSnapshotChecks(send: Send<()>, decode: string -> Result<seq<CheckResult>>, snapshotId: string, opts: CheckListOptions)
    returns (r: Result<seq<CheckResult>>, sent: Option<ApiRequest<()>>)
    ensures TrimSpace(snapshotId) == "" ==> r == Err(Fail("snapshotID must be provided")) && sent == None
    ensures TrimSpace(snapshotId) != "" ==>
      && sent == Some(ApiRequest(Get, ChecksPath(TrimSpace(snapshotId)), CheckFilterQuery(opts), None))
      && r == Interpret(send(sent.value), {200}, "execute request", "retrieving checks", false, decode, "decode checks response")
  {
    var id := TrimSpace(snapshotId);
    if id == "" {
      return Err(Fail("snapshotID must be provided")), None;
    }
    var query: Values := map[];
    query := AddTrimmed(query, "status", opts.statuses);
    query := AddTrimmed(query, "priority", opts.priorities);
    query := AddTrimmed(query, "type", opts.types);
    var request := ApiRequest(Get, ChecksPath(id), query, None);
    sent := Some(request);
    r := Interpret(send(request), {200}, "execute request", "retrieving checks", false, decode, "decode checks response");
  }

  /** `AddSnapshotCheck`: the snapshot ID is checked before the definition. */
  method AddSnapshotCheck(send: Send<NewCheckRequest>, decode: string -> Result<CheckResult>, snapshotId: string,
                          body: NewCheckRequest, persistent: Option<bool>)
    returns (r: Result<CheckResult>, sent: Option<ApiRequest<NewCheckRequest>>)
    ensures TrimSpace(snapshotId) == "" ==> r == Err(Fail("snapshotID must be provided")) && sent == None
    ensures TrimSpace(snapshotId) != "" && body.definition.None? ==> r == Err(Fail("definition must be provided")) && sent == None
    ensures TrimSpace(snapshotId) != "" && body.definition.Some? ==>
      && sent.Some?
      && sent.value.verb == Post && sent.value.segments == ChecksPath(TrimSpace(snapshotId)) && sent.value.body == Some(body)
      && (persistent.None? ==> sent.value.query == map[])
      && (persistent.Some? ==> sent.value.query == map["persistent" := [BoolToString(persistent.value)]])
      && r == Interpret(send(sent.value), {200}, "create check request failed", "creating check", false, decode, "decode create check response")
  {
    var id := TrimSpace(snapshotId);
    if id == "" {
      return Err(Fail("snapshotID must be provided")), None;
    }
    if body.definition.None? {
      return Err(Fail("definition must be provided")), None;
    }
    var query: Values := map[];
    if persistent.Some? {
      query := Set(query, "persistent", BoolToString(persistent.value));
    }
    var request := ApiRequest(Post, ChecksPath(id), query, Some(body));
    sent := Some(request);
    r := Interpret(send(request), {200}, "create check request failed", "creating check", false, decode, "decode create check response");
  }

  /** `GetSnapshotCheck`. */
  method GetSnapshotCheck(send: Send<()>, decode: string -> Result<CheckResultWithDiagnosis>, snapshotId: string, checkId: string)
    returns (r: Result<CheckResultWithDiagnosis>, sent: Option<ApiRequest<()>>)
    ensures (TrimSpace(snapshotId) == "" || TrimSpace(checkId) == "") ==>
      r == Err(Fail("snapshotID and checkID must be provided")) && sent == None
    ensures TrimSpace(snapshotId) != "" && TrimSpace(checkId) != "" ==>
      && sent == Some(ApiRequest(Get, CheckPath(TrimSpace(snapshotId), TrimSpace(checkId)), map[], None))
      && r == Interpret(send(sent.value), {200}, "retrieve check request failed", "retrieving check", false, decode, "decode check response")
  {
    var sid := TrimSpace(snapshotId);
    var cid := TrimSpace(checkId);
    if sid == "" || cid == "" {
      return Err(Fail("snapshotID and checkID must be provided")), None;
    }
    var request := ApiRequest(Get, CheckPath(sid, cid), map[], None);
    sent := Some(request);
    r := Interpret(send(request), {200}, "retrieve check request failed", "retrieving check", false, decode, "decode check response");
  }

  /** `DeactivateSnapshotCheck`: the result is the error, if any. */
  method DeactivateSnapshotCheck(send: Send<()>, snapshotId: string, checkId: string)
    returns (r: Option<Error>, sent: Option<ApiRequest<()>>)
    ensures (TrimSpace(snapshotId) == "" || TrimSpace(checkId) == "") ==>
      r == Some(Fail("snapshotID and checkID must be provided")) && sent == None
    ensures TrimSpace(snapshotId) != "" && TrimSpace(checkId) != "" ==>
      && sent == Some(ApiRequest(Delete, CheckPath(TrimSpace(snapshotId), TrimSpace(checkId)), map[], None))
      && r == Acknowledge(send(sent.value), {200}, "deactivate check request failed", "deactivating check")
  {
    var sid := TrimSpace(snapshotId);
    var cid := TrimSpace(checkId);
    if sid == "" || cid == "" {
      return Some(Fail("snapshotID and checkID must be provided")), None;
    }
    var request := ApiRequest(Delete, CheckPath(sid, cid), map[], None);
    sent := Some(request);
    r := Acknowledge(send(request), {200}, "deactivate check request failed", "deactivating check");
  }

  /** `DeactivateSnapshotChecks`: every check of the snapshot. */
  method DeactivateSnapshotChecks(send: Send<()>, snapshotId: string)
    returns (r: Option<Error>, sent: Option<ApiRequest<()>>)
    ensures TrimSpace(snapshotId) == "" ==> r == Some(Fail("snapshotID must be provided")) && sent == None
    ensures TrimSpace(snapshotId) != "" ==>
      && sent == Some(ApiRequest(Delete, ChecksPath(TrimSpace(snapshotId)), map[], None))
      && r == Acknowledge(send(sent.value), {200}, "deactivate checks request failed", "deactivating checks")
  {
    var id := TrimSpace(snapshotId);
    if id == "" {
      return Some(Fail("snapshotID must be provided")), None;
    }
    var request := ApiRequest(Delete, ChecksPath(id), map[], None);
    sent := Some(request);
    r := Acknowledge(send(request), {200}, "deactivate checks request failed", "deactivating checks");
  }
}
