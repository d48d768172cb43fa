/** The snapshot accessors of the SDK: list, create, get and delete the snapshots of a network,
    with each accessor's own rule for which statuses mean success. */
module Snapshots {
  import opened Wrappers
  import opened Text
  import opened UrlValues
  import opened Client
  import opened Api

  datatype Snapshot = Snapshot(
    id: string,
    state: string,
    processingTrigger: string,
    parentSnapshotId: string,
    note: string,
    favoritedBy: string,
    favoritedByUserId: string,
    creationDateMillis: Option<int>,
    processedAtMillis: Option<int>,
    restoredAtMillis: Option<int>,
    favoritedAtMillis: Option<int>,
    isDraft: Option<bool>)

  datatype SnapshotListOptions = SnapshotListOptions(limit: Option<int>, includeArchived: Option<bool>)

  datatype SnapshotCreateRequest = SnapshotCreateRequest(note: string)

  function NetworkSnapshotsPath(networkId: string): seq<string>
  {
    ["api", "networks", networkId, "snapshots"]
  }

  /** The query of a snapshot listing: `limit` and `includeArchived` when set. */
  function ListQuery(opts: SnapshotListOptions): (q: Values)
    ensures "limit" in q <==> opts.limit.Some?
    ensures "includeArchived" in q <==> opts.includeArchived.Some?
    ensures q.Keys <= {"limit", "includeArchived"}
    ensures opts.limit.Some? ==> q["limit"] == [IntToString(opts.limit.value)]
    ensures opts.includeArchived.Some? ==> q["includeArchived"] == [BoolToString(opts.includeArchived.value)]
  {
    var q: Values := if opts.limit.Some? then map["limit" := [IntToString(opts.limit.value)]] else map[];
    if opts.includeArchived.Some? then q["includeArchived" := [BoolToString(opts.includeArchived.value)]] else q
  }

  /** The limit the server receives is the one asked for: its decimal text reads back as it. */
  lemma ListQueryLimitRoundTrip(opts: SnapshotListOptions)
    requires opts.limit.Some?
    ensures ParseInt(ListQuery(opts)["limit"][0]) == Some(opts.limit.value)
  {
    IntToStringRoundTrip(opts.limit.value);
  }

  /** `ListSnapshots`; `decode` yields the payload's `snapshots` list. */
  method ListSnapshots(send: Send<()>, decode: string -> Result<seq<Snapshot>>, networkId: string, opts: SnapshotListOptions)
    returns (r: Result<seq<Snapshot>>, sent: Option<ApiRequest<()>>)
    ensures TrimSpace(networkId) == "" ==> r == Err(Fail("networkID must be provided")) && sent == None
    ensures TrimSpace(networkId) != "" ==>
      && sent == Some(ApiRequest(Get, NetworkSnapshotsPath(TrimSpace(networkId)), ListQuery(opts), None))
      && (HasQueryString(sent.value) <==> opts.limit.Some? || opts.includeArchived.Some?)
      && r == Interpret(send(sent.value), {200}, "execute request", "retrieving snapshots", false, decode, "decode snapshots response")
  {
    var id := TrimSpace(networkId);
    if id == "" {
      return Err(Fail("networkID must be provided")), None;
    }
    var query: Values := map[];
    if opts.limit.Some? {
      query := Set(query, "limit", IntToString(opts.limit.value));
    }
    if opts.includeArchived.Some? {
      query := Set(query, "includeArchived", BoolToString(opts.includeArchived.value));
    }
    assert query == ListQuery(opts);
    var request := ApiRequest(Get, NetworkSnapshotsPath(id), query, None);
    assert opts.limit.Some? ==> query["limit"] != [];
    assert opts.includeArchived.Some? ==> query["includeArchived"] != [];
    sent := Some(request);
    r := Interpret(send(request), {200}, "execute request", "retrieving snapshots", false, decode, "decode snapshots response");
  }

  /** The statuses that mean a snapshot collection was started. */
  const CreateAccepted: set<int> := {200, 201, 202}

  /** `CreateSnapshot`: accepted with 200, 201 or 202. */
  method CreateSnapshot(send: Send<SnapshotCreateRequest>, decode: string -> Result<Snapshot>, networkId: string, body: SnapshotCreateRequest)
    returns (r: Result<Snapshot>, sent: Option<ApiRequest<SnapshotCreateRequest>>)
    ensures TrimSpace(networkId) == "" ==> r == Err(Fail("networkID must be provided")) && sent == None
    ensures TrimSpace(networkId) != "" ==>
      && sent == Some(ApiRequest(Post, NetworkSnapshotsPath(TrimSpace(networkId)), map[], Some(body)))
      && r == Interpret(send(sent.value), CreateAccepted, "execute snapshot create request", "creating snapshot", false, decode, "decode snapshot create response")
  {
    var id := TrimSpace(networkId);
    if id == "" {
      return Err(Fail("networkID must be provided")), None;
    }
    var request := ApiRequest(Post, NetworkSnapshotsPath(id), map[], Some(body));
    sent := Some(request);
    r := Interpret(send(request), CreateAccepted, "execute snapshot create request", "creating snapshot", false, decode, "decode snapshot create response");
  }

  /** Exactly 200, 201 and 202 let a created snapshot through; 204 or any 3xx, 4xx or 5xx is an error. */
  lemma CreateSnapshotStatuses(done: Result<Response>, decode: string -> Result<Snapshot>)
    requires done.Ok? && decode(done.value.body).Ok?
    ensures Interpret(done, CreateAccepted, "execute snapshot create request", "creating snapshot", false, decode, "decode snapshot create response").Ok?
        <==> done.value.status == 200 || done.value.status == 201 || done.value.status == 202
  {
  }

  /** The error `GetSnapshot` reports for a 404, naming the (trimmed) snapshot ID. */
  function SnapshotNotFound(snapshotId: string): Error
  {
    Fail("snapshot " + snapshotId + " not found")
  }

  /** Its text, lower-cased, contains "not found": the snapshot resource relies on this. */
  lemma SnapshotNotFoundSaysNotFound(snapshotId: string)
    ensures Contains(Lower(SnapshotNotFound(snapshotId).msg), "not found")
    ensures !SnapshotNotFound(snapshotId).canceled
  {
    LowerConcat("snapshot " + snapshotId, " not found");
    assert Lower(" not found") == " not found";
    ContainsInfix(Lower("snapshot " + snapshotId + " "), "not found", "");
    assert Lower("snapshot " + snapshotId + " not found") == Lower("snapshot " + snapshotId + " ") + "not found" + "" by {
      LowerConcat("snapshot " + snapshotId + " ", "not found");
      assert "snapshot " + snapshotId + " not found" == "snapshot " + snapshotId + " " + "not found";
    }
  }

  function SnapshotPath(networkId: string, snapshotId: string): seq<string>
  {
    ["api", "networks", networkId, "snapshots", snapshotId]
  }

  /** How `GetSnapshot` reads the client's answer: a 404 is "not found", any other status but 200
      is a status error. */
  function GetSnapshotAnswer(done: Result<Response>, snapshotId: string, decode: string -> Result<Snapshot>): (r: Result<Snapshot>)
    ensures done.Ok? && done.value.status == 404 ==> r == Err(SnapshotNotFound(snapshotId))
    ensures !(done.Ok? && done.value.status == 404) ==>
      r == Interpret(done, {200}, "execute snapshot get request", "retrieving snapshot", false, decode, "decode snapshot response")
  {
    if done.Ok? && done.value.status == 404 then Err(SnapshotNotFound(snapshotId))
    else Interpret(done, {200}, "execute snapshot get request", "retrieving snapshot", false, decode, "decode snapshot response")
  }

  /** `GetSnapshot`: both IDs are required. */
  method GetSnapshot(send: Send<()>, decode: string -> Result<Snapshot>, networkId: string, snapshotId: string)
    returns (r: Result<Snapshot>, sent: Option<ApiRequest<()>>)
    ensures (TrimSpace(networkId) == "" || TrimSpace(snapshotId) == "") ==>
      r == Err(Fail("networkID and snapshotID must be provided")) && sent == None
    ensures TrimSpace(networkId) != "" && TrimSpace(snapshotId) != "" ==>
      && sent == Some(ApiRequest(Get, SnapshotPath(TrimSpace(networkId), TrimSpace(snapshotId)), map[], None))
      && r == GetSnapshotAnswer(send(sent.value), TrimSpace(snapshotId), decode)
  {
    var nid := TrimSpace(networkId);
    var sid := TrimSpace(snapshotId);
    if nid == "" || sid == "" {
      return Err(Fail("networkID and snapshotID must be provided")), None;
    }
    var request := ApiRequest(Get, SnapshotPath(nid, sid), map[], None);
    sent := Some(request);
    r := GetSnapshotAnswer(send(request), sid, decode);
  }

  /** The statuses after which a snapshot counts as deleted; a 404 means it is already gone. */
  const DeleteAccepted: set<int> := {200, 204, 404}

  /** `DeleteSnapshot`. */
  method DeleteSnapshot(send: Send<()>, snapshotId: string) returns (r: Option<Error>, sent: Option<ApiRequest<()>>)
    ensures TrimSpace(snapshotId) == "" ==> r == Some(Fail("snapshotID must be provided")) && sent == None
    ensures TrimSpace(snapshotId) != "" ==>
      && sent == Some(ApiRequest(Delete, ["api", "snapshots", TrimSpace(snapshotId)], map[], None))
      && r == Acknowledge(send(sent.value), DeleteAccepted, "execute snapshot delete request", "deleting snapshot")
  {
    var id := TrimSpace(snapshotId);
    if id == "" {
      return Some(Fail("snapshotID must be provided")), None;
    }
    var request := ApiRequest(Delete, ["api", "snapshots", id], map[], None);
    sent := Some(request);
    var done := send(request);
    if done.Ok? && done.value.status == 404 {
      return None, sent;
    }
    r := Acknowledge(done, {200, 204}, "execute snapshot delete request", "deleting snapshot");
  }
}
