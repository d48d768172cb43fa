/** The Network Query Engine (NQE) accessors of the SDK: run a query against a network or a
    snapshot, list the query library, and diff a query's results between two snapshots. */
module Nqe {
  import opened Wrappers
  import opened Text
  import opened UrlValues
  import opened Client
  import opened Api

  /** Row limiting; sorting and column filters are never set by the provider and are not modelled. */
  datatype NqeQueryOptions = NqeQueryOptions(limit: Option<int>, offset: Option<int>)

  /** The body of a query run; a nil parameter map is `None`. */
  datatype NqeQueryRequest = NqeQueryRequest(
    query: Option<string>,
    queryId: Option<string>,
    commitId: Option<string>,
    parameters: Option<map<string, Json>>,
    queryOptions: Option<NqeQueryOptions>)

  datatype NqeRunResult = NqeRunResult(snapshotId: string, items: seq<Json>, totalNumItems: Option<int>)

  /** A stored query of the NQE library. */
  datatype NqeQuery = NqeQuery(queryId: string, repository: string, path: string, intent: string)

  datatype NqeDiffRequest = NqeDiffRequest(
    queryId: string,
    commitId: Option<string>,
    options: Option<NqeQueryOptions>,
    parameters: Option<map<string, Json>>)

  datatype NqeDiffResult = NqeDiffResult(rows: seq<Json>, totalNumRows: Option<int>)

  /** The scope of a query run: `snapshotId` and `networkId`, each when non-empty. */
  function ScopeQuery(networkId: string, snapshotId: string): (q: Values)
    ensures "snapshotId" in q <==> snapshotId != ""
    ensures "networkId" in q <==> networkId != ""
    ensures q.Keys <= {"snapshotId", "networkId"}
    ensures snapshotId != "" ==> q["snapshotId"] == [snapshotId]
    ensures networkId != "" ==> q["networkId"] == [networkId]
  {
    var q: Values := if snapshotId != "" then map["snapshotId" := [snapshotId]] else map[];
    if networkId != "" then q["networkId" := [networkId]] else q
  }

  /** A nil parameter map is sent as an empty one; a given one is sent as it is. */
  function DefaultParameters(p: Option<map<string, Json>>): (r: Option<map<string, Json>>)
    ensures r.Some?
    ensures p.Some? ==> r == p
    ensures p.None? ==> r.value == map[]
  {
    if p.None? then Some(map[]) else p
  }

  /** `RunNQEQuery`: the query text or ID is checked first, then that a scope was given. */
  method RunNqeQuery(send: Send<NqeQueryRequest>, decode: string -> Result<NqeRunResult>, networkId: string,
                     snapshotId: string, body: NqeQueryRequest)
    returns (r: Result<NqeRunResult>, sent: Option<ApiRequest<NqeQueryRequest>>)
    ensures body.query.None? && body.queryId.None? ==> r == Err(Fail("either query or query_id must be provided")) && sent == None
    ensures (body.query.Some? || body.queryId.Some?) && snapshotId == "" && networkId == "" ==>
      r == Err(Fail("either snapshotID or networkID must be supplied")) && sent == None
    ensures (body.query.Some? || body.queryId.Some?) && (snapshotId != "" || networkId != "") ==>
      && sent == Some(ApiRequest(Post, ["api", "nqe"], ScopeQuery(networkId, snapshotId),
                                 Some(body.(parameters := DefaultParameters(body.parameters)))))
      && HasQueryString(sent.value)
      && r == Interpret(send(sent.value), {200}, "execute NQE request", "running NQE query", true, decode, "decode NQE response")
  {
    if body.query.None? && body.queryId.None? {
      return Err(Fail("either query or query_id must be provided")), None;
    }
    var payload := body;
    if payload.parameters.None? {
      payload := payload.(parameters := Some(map[]));
    }
    var query: Values := map[];
    if snapshotId != "" {
      query := Set(query, "snapshotId", snapshotId);
    }
    if networkId != "" {
      query := Set(query, "networkId", networkId);
    }
    if snapshotId == "" && networkId == "" {
      return Err(Fail("either snapshotID or networkID must be supplied")), None;
    }
    assert query == ScopeQuery(networkId, snapshotId);
    assert snapshotId != "" ==> query["snapshotId"] != [];
    assert networkId != "" ==> query["networkId"] != [];
    var request := ApiRequest(Post, ["api", "nqe"], query, Some(payload));
    sent := Some(request);
    r := Interpret(send(request), {200}, "execute NQE request", "running NQE query", true, decode, "decode NQE response");
  }

  /** `ListNQEQueries`: `dir` is sent, untrimmed, only when it is not blank. */
  method ListNqeQueries(send: Send<()>, decode: string -> Result<seq<NqeQuery>>, dir: string)
    returns (r: Result<seq<NqeQuery>>, sent: ApiRequest<()>)
    ensures sent.verb == Get && sent.segments == ["api", "nqe", "queries"] && sent.body == None
    ensures AllSpace(dir) ==> sent.query == map[] && !HasQueryString(sent)
    ensures !AllSpace(dir) ==> sent.query == map["dir" := [dir]]
    ensures r == Interpret(send(sent), {200}, "list NQE queries request failed", "listing NQE queries", true, decode, "decode NQE query list")
  {
    var query: Values := map[];
    if TrimSpace(dir) != "" {
      query := Set(query, "dir", dir);
    }
    sent := ApiRequest(Get, ["api", "nqe", "queries"], query, None);
    r := Interpret(send(sent), {200}, "list NQE queries request failed", "listing NQE queries", true, decode, "decode NQE query list");
  }

  /** `RunNQEDiff`: both trimmed snapshot IDs, then the query ID, are required. */
  method RunNqeDiff(send: Send<NqeDiffRequest>, decode: string -> Result<NqeDiffResult>, beforeSnapshotId: string,
                    afterSnapshotId: string, body: NqeDiffRequest)
    returns (r: Result<NqeDiffResult>, sent: Option<ApiRequest<NqeDiffRequest>>)
    ensures (TrimSpace(beforeSnapshotId) == "" || TrimSpace(afterSnapshotId) == "") ==>
      r == Err(Fail("beforeSnapshotID and afterSnapshotID must be provided")) && sent == None
    ensures TrimSpace(beforeSnapshotId) != "" && TrimSpace(afterSnapshotId) != "" && body.queryId == "" ==>
      r == Err(Fail("queryId must be provided")) && sent == None
    ensures TrimSpace(beforeSnapshotId) != "" && TrimSpace(afterSnapshotId) != "" && body.queryId != "" ==>
      && sent == Some(ApiRequest(Post, ["api", "nqe-diffs", TrimSpace(beforeSnapshotId), TrimSpace(afterSnapshotId)], map[],
                                 Some(body.(parameters := DefaultParameters(body.parameters)))))
      && r == Interpret(send(sent.value), {200}, "execute NQE diff request", "running NQE diff", true, decode, "decode NQE diff response")
  {
    var before := TrimSpace(beforeSnapshotId);
    var after := TrimSpace(afterSnapshotId);
    if before == "" || after == "" {
      return Err(Fail("beforeSnapshotID and afterSnapshotID must be provided")), None;
    }
    if body.queryId == "" {
      return Err(Fail("queryId must be provided")), None;
    }
    var payload := body;
    if payload.parameters.None? {
      payload := payload.(parameters := Some(map[]));
    }
    var request := ApiRequest(Post, ["api", "nqe-diffs", before, after], map[], Some(payload));
    sent := Some(request);
    r := Interpret(send(request), {200}, "execute NQE diff request", "running NQE diff", true, decode, "decode NQE diff response");
  }
}
