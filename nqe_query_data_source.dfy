/** The `forward_nqe_query` data source: run an NQE query against a network or a snapshot and
    keep the rows as JSON texts. The SDK call is the function parameter `run`; JSON decoding of a
    parameter value is `unmarshal`, and the framework's own diagnostic for a parameter map element
    that cannot be read as a string is `conversionFailure`. */
module NqeQueryDataSource {
  import opened Wrappers
  import opened Framework
  import opened Api
  import opened Nqe

  /** `types.Map` of strings: the map itself may be null or unknown, and so may each element. */
  type TfMap = TfValue<map<string, TfString>>

  datatype NqeQueryModel = NqeQueryModel(
    snapshotId: TfString,
    networkId: TfString,
    query: TfString,
    queryId: TfString,
    commitId: TfString,
    parameters: TfMap,
    limit: TfInt,
    offset: TfInt,
    resultSnapshotId: TfString,
    totalItems: TfInt,
    itemsJson: TfList)

  // ---------------------------------------------------------------- the request

  /** `Parameters.ElementsAs(ctx, &map[string]string{}, false)`: the element values, or `None`
      when some element is null or unknown. */
  function KnownEntries(m: map<string, TfString>): (r: Option<map<string, string>>)
    ensures r.Some? <==> forall k :: k in m ==> m[k].Known?
    ensures r.Some? ==> r.value.Keys == m.Keys && forall k :: k in m ==> r.value[k] == m[k].value
  {
    if forall k :: k in m ==> m[k].Known? then Some(map k | k in m :: m[k].value) else None
  }

  /** The diagnostic for a parameter whose value is not JSON, reported against that map entry.
      The key is written between plain double quotes. */
  function InvalidParameter(key: string, err: Error): Diagnostic
  {
    Diagnostic(Some("parameters[\"" + key + "\"]"), "Invalid Parameter JSON",
               "Parameter \"" + key + "\" must be valid JSON: " + err.msg)
  }

  const InvalidLimit: Diagnostic := Diagnostic(Some("limit"), "Invalid Limit", "limit must be zero or positive.")
  const InvalidOffset: Diagnostic := Diagnostic(Some("offset"), "Invalid Offset", "offset must be zero or positive.")

  /** Every parameter value decodes. */
  predicate AllDecode(params: map<string, string>, unmarshal: string -> Result<Json>)
  {
    forall k :: k in params ==> unmarshal(params[k]).Ok?
  }

  /** The decoded parameters. */
  function Decoded(params: map<string, string>, unmarshal: string -> Result<Json>): (r: map<string, Json>)
    requires AllDecode(params, unmarshal)
    ensures r.Keys == params.Keys
  {
    map k | k in params :: unmarshal(params[k]).value
  }

  /** The decoding loop of `expandNqeRequest`. Go visits a map in no fixed order, so when several
      values are not JSON, which of them is reported is not determined. */
  method DecodeParameters(params: map<string, string>, unmarshal: string -> Result<Json>)
    returns (r: Diagnosed<map<string, Json>>)
    ensures r.Valid? <==> AllDecode(params, unmarshal)
    ensures r.Valid? ==> r.value == Decoded(params, unmarshal)
    ensures r.Invalid? ==> exists k :: k in params && unmarshal(params[k]).Err? && r.diag == InvalidParameter(k, unmarshal(params[k]).error)
  {
    var decoded: map<string, Json> := map[];
    var pending := params.Keys;
    while pending != {}
      invariant pending <= params.Keys
      invariant decoded.Keys == params.Keys - pending
      invariant forall k :: k in decoded ==> unmarshal(params[k]) == Ok(decoded[k])
      decreases |pending|
    {
      var k :| k in pending;
      var value := unmarshal(params[k]);
      if value.Err? {
        return Invalid(InvalidParameter(k, value.error));
      }
      decoded := decoded[k := value.value];
      pending := pending - {k};
    }
    r := Valid(decoded);
  }

  /** A known limit or offset; `None` when it is null or unknown. */
  function Bound(v: TfInt): Option<int>
  {
    if v.Known? then Some(v.value) else None
  }

  /** The parameter strings: none for a null or unknown map, `None` when an element cannot be read. */
  function Entries(data: NqeQueryModel): Option<map<string, string>>
  {
    if data.parameters.Known? then KnownEntries(data.parameters.value) else Some(map[])
  }

  predicate Negative(v: TfInt)
  {
    v.Known? && v.value < 0
  }

  /** The request passes every check of `expandNqeRequest`. */
  predicate RequestAccepted(data: NqeQueryModel, unmarshal: string -> Result<Json>)
  {
    Entries(data).Some? && AllDecode(Entries(data).value, unmarshal) && !Negative(data.limit) && !Negative(data.offset)
  }

  /** The request `expandNqeRequest` builds from an accepted model: the query, its ID and its commit
      when known, the decoded parameters when the map is known, and the row options when a limit or
      an offset is known. */
  predicate ExpandedRequest(data: NqeQueryModel, unmarshal: string -> Result<Json>, req: NqeQueryRequest)
    requires RequestAccepted(data, unmarshal)
  {
    && req.query == Pointer(data.query) && req.queryId == Pointer(data.queryId)
    && req.commitId == Pointer(data.commitId)
    && req.parameters == (if data.parameters.Known? then Some(Decoded(Entries(data).value, unmarshal)) else None)
    && (req.queryOptions.Some? <==> data.limit.Known? || data.offset.Known?)
    && (req.queryOptions.Some? ==> req.queryOptions.value == NqeQueryOptions(Bound(data.limit), Bound(data.offset)))
  }

  /** The diagnostic of a refused request, in the order of `expandNqeRequest`'s checks: an unreadable
      parameter map, then a parameter that is not JSON, then a negative limit, then a negative offset. */
  predicate Refusal(data: NqeQueryModel, conversionFailure: Diagnostic, unmarshal: string -> Result<Json>, d: Diagnostic)
  {
    var entries := Entries(data);
    if entries.None? then d == conversionFailure
    else if !AllDecode(entries.value, unmarshal) then
      exists k :: k in entries.value && unmarshal(entries.value[k]).Err? &&
                  d == InvalidParameter(k, unmarshal(entries.value[k]).error)
    else if Negative(data.limit) then d == InvalidLimit
    else Negative(data.offset) && d == InvalidOffset
  }

  /** The parameter step of `expandNqeRequest`: nothing for a null or unknown map; otherwise every
      element must be a string and every string JSON. */
  method ExpandParameters(parameters: TfMap, conversionFailure: Diagnostic, unmarshal: string -> Result<Json>)
    returns (r: Diagnosed<Option<map<string, Json>>>)
    ensures !parameters.Known? ==> r == Valid(None)
    ensures parameters.Known? ==> var entries := KnownEntries(parameters.value);
      && (entries.None? ==> r == Invalid(conversionFailure))
      && (entries.Some? && AllDecode(entries.value, unmarshal) ==> r == Valid(Some(Decoded(entries.value, unmarshal))))
      && (entries.Some? && !AllDecode(entries.value, unmarshal) ==>
            r.Invalid? && exists k :: k in entries.value && unmarshal(entries.value[k]).Err? &&
                                      r.diag == InvalidParameter(k, unmarshal(entries.value[k]).error))
  {
    if parameters.Null? || parameters.Unknown? {
      return Valid(None);
    }
    var params := KnownEntries(parameters.value);
    if params.None? {
      return Invalid(conversionFailure);
    }
    var decoded := DecodeParameters(params.value, unmarshal);
    if decoded.Invalid? {
      return Invalid(decoded.diag);
    }
    r := Valid(Some(decoded.value));
  }

  /** The row-limiting step of `expandNqeRequest`: a known limit, then a known offset, must not be
      negative; the options are sent when either is known. */
  method ExpandQueryOptions(limitValue: TfInt, offsetValue: TfInt) returns (r: Diagnosed<Option<NqeQueryOptions>>)
    ensures Negative(limitValue) ==> r == Invalid(InvalidLimit)
    ensures !Negative(limitValue) && Negative(offsetValue) ==> r == Invalid(InvalidOffset)
    ensures r.Valid? <==> !Negative(limitValue) && !Negative(offsetValue)
    ensures r.Valid? ==> (r.value.Some? <==> limitValue.Known? || offsetValue.Known?)
    ensures r.Valid? && r.value.Some? ==> r.value.value == NqeQueryOptions(Bound(limitValue), Bound(offsetValue))
  {
    var limit: Option<int> := None;
    if !limitValue.Null? && !limitValue.Unknown? {
      if limitValue.value < 0 {
        return Invalid(InvalidLimit);
      }
      limit := Some(limitValue.value);
    }
    var offset: Option<int> := None;
    if !offsetValue.Null? && !offsetValue.Unknown? {
      if offsetValue.value < 0 {
        return Invalid(InvalidOffset);
      }
      offset := Some(offsetValue.value);
    }
    if limit.Some? || offset.Some? {
      return Valid(Some(NqeQueryOptions(limit, offset)));
    }
    r := Valid(None);
  }

  /** `expandNqeRequest`: the query, its ID and its commit are copied when known; then the
      parameters, the limit and the offset are checked, in that order. */
  method ExpandNqeRequest(data: NqeQueryModel, conversionFailure: Diagnostic, unmarshal: string -> Result<Json>)
    returns (r: Diagnosed<NqeQueryRequest>)
    ensures var entries := Entries(data);
      var decodes := entries.Some? && AllDecode(entries.value, unmarshal);
      && (entries.None? ==> r == Invalid(conversionFailure))
      && (entries.Some? && !decodes ==>
            r.Invalid? && exists k :: k in entries.value && unmarshal(entries.value[k]).Err? &&
                                      r.diag == InvalidParameter(k, unmarshal(entries.value[k]).error))
      && (decodes && Negative(data.limit) ==> r == Invalid(InvalidLimit))
      && (decodes && !Negative(data.limit) && Negative(data.offset) ==> r == Invalid(InvalidOffset))
      && (r.Valid? <==> RequestAccepted(data, unmarshal))
      && (r.Invalid? ==> Refusal(data, conversionFailure, unmarshal, r.diag))
      && (r.Valid? ==> ExpandedRequest(data, unmarshal, r.value))
  {
    var req := NqeQueryRequest(None, None, None, None, None);
    if !data.query.Null? && !data.query.Unknown? {
      req := req.(query := Some(data.query.value));
    }
    if !data.queryId.Null? && !data.queryId.Unknown? {
      req := req.(queryId := Some(data.queryId.value));
    }
    if !data.commitId.Null? && !data.commitId.Unknown? {
      req := req.(commitId := Some(data.commitId.value));
    }
    var parameters := ExpandParameters(data.parameters, conversionFailure, unmarshal);
    if parameters.Invalid? {
      return Invalid(parameters.diag);
    }
    var options := ExpandQueryOptions(data.limit, data.offset);
    if options.Invalid? {
      return Invalid(options.diag);
    }
    r := Valid(req.(parameters := parameters.value, queryOptions := options.value));
  }

  /** Whatever passes the request checks asks for no negative row limit or offset. */
  lemma ExpandedBoundsNonNegative(data: NqeQueryModel, options: NqeQueryOptions)
    requires !Negative(data.limit) && !Negative(data.offset)
    requires options == NqeQueryOptions(Bound(data.limit), Bound(data.offset))
    ensures options.limit.Some? ==> options.limit.value >= 0 && data.limit == Known(options.limit.value)
    ensures options.offset.Some? ==> options.offset.value >= 0 && data.offset == Known(options.offset.value)
    ensures options.limit.None? <==> !data.limit.Known?
  {
  }

  // ---------------------------------------------------------------- the result

  /** The text kept for one row: an empty raw row becomes the empty object. */
  function ItemText(raw: Json): (t: string)
    ensures t != ""
    ensures raw != "" ==> t == raw
  {
    if |raw| == 0 then "{}" else raw
  }

  /** The texts kept for the rows: one per row, in order, each never empty. */
  function ItemTexts(rows: seq<Json>): (items: seq<TfString>)
    ensures |items| == |rows|
    ensures forall i :: 0 <= i < |rows| ==> items[i] == Known(ItemText(rows[i]))
  {
    seq(|rows|, i requires 0 <= i < |rows| => Known(ItemText(rows[i])))
  }

  /** The loop of `Read` over the rows. */
  method ItemsJson(rows: seq<Json>) returns (items: seq<TfString>)
    ensures items == ItemTexts(rows)
  {
    items := [];
    for i := 0 to |rows|
      invariant |items| == i
      invariant forall j :: 0 <= j < i ==> items[j] == Known(ItemText(rows[j]))
    {
      var encoded := rows[i];
      if |encoded| == 0 {
        items := items + [Known("{}")];
        continue;
      }
      items := items + [Known(encoded)];
    }
  }

  /** `RunNQEQuery(ctx, networkID, snapshotID, body)`. */
  type RunQuery = (string, string, NqeQueryRequest) -> Result<NqeRunResult>

  const MissingNetworkOrSnapshot: Diagnostic :=
    Diagnostic(None, "Missing Network Or Snapshot", "Provide either network_id or snapshot_id to execute an NQE query.")
  const MissingQuery: Diagnostic :=
    Diagnostic(Some("query"), "Missing Query", "Either query or query_id must be provided to execute an NQE query.")

  /** A run that was called with what it was called with. */
  datatype RunCall = RunCall(networkId: string, snapshotId: string, body: NqeQueryRequest)

  /** `Read`: `called` is the call to the API, if one was made. The network ID used is the data
      source's own when known (even if empty), the provider's otherwise. */
  method Read(data: NqeQueryModel, providerNetworkId: string, run: RunQuery, conversionFailure: Diagnostic,
              unmarshal: string -> Result<Json>)
    returns (r: Diagnosed<NqeQueryModel>, called: Option<RunCall>)
    ensures var networkId := ValueOr(data.networkId, providerNetworkId);
      var noScope := networkId == "" && StringOrEmpty(data.snapshotId) == "";
      var noQuery := StringOrEmpty(data.query) == "" && StringOrEmpty(data.queryId) == "";
      && (noScope ==> r == Invalid(MissingNetworkOrSnapshot) && called == None)
      && (!noScope && noQuery ==> r == Invalid(MissingQuery) && called == None)
      && (!noScope && !noQuery && !RequestAccepted(data, unmarshal) ==>
            r.Invalid? && called == None && Refusal(data, conversionFailure, unmarshal, r.diag))
      && (called.Some? <==> !noScope && !noQuery && RequestAccepted(data, unmarshal))
      && (called.Some? ==> called.value.networkId == networkId && called.value.snapshotId == StringOrEmpty(data.snapshotId))
      && (called.Some? ==> RequestAccepted(data, unmarshal) && ExpandedRequest(data, unmarshal, called.value.body))
      && (called.Some? ==> var result := run(networkId, StringOrEmpty(data.snapshotId), called.value.body);
            && (result.Err? ==> r == Invalid(Diagnostic(None, "Unable to Execute NQE Query", result.error.msg)))
            && (result.Ok? ==> var rows := result.value.items;
                  && r.Valid?
                  && r == Valid(data.(networkId := Known(networkId),
                                      resultSnapshotId := StringOrNull(result.value.snapshotId),
                                      totalItems := Known(if result.value.totalNumItems.Some? then result.value.totalNumItems.value else |rows|),
                                      itemsJson := Known(ItemTexts(rows))))))
  {
    var networkId := providerNetworkId;
    if !data.networkId.Null? && !data.networkId.Unknown? {
      networkId := data.networkId.value;
    }
    if networkId == "" && (data.snapshotId.Null? || StringOrEmpty(data.snapshotId) == "") {
      return Invalid(MissingNetworkOrSnapshot), None;
    }
    if (data.query.Null? || StringOrEmpty(data.query) == "") && (data.queryId.Null? || StringOrEmpty(data.queryId) == "") {
      return Invalid(MissingQuery), None;
    }
    var body := ExpandNqeRequest(data, conversionFailure, unmarshal);
    if body.Invalid? {
      return Invalid(body.diag), None;
    }
    called := Some(RunCall(networkId, StringOrEmpty(data.snapshotId), body.value));
    var result := run(networkId, StringOrEmpty(data.snapshotId), body.value);
    if result.Err? {
      return Invalid(Diagnostic(None, "Unable to Execute NQE Query", result.error.msg)), called;
    }
    var items := ItemsJson(result.value.items);
    var total := if result.value.totalNumItems.Some? then result.value.totalNumItems.value else |result.value.items|;
    var resultSnapshotId: TfString := Known(result.value.snapshotId);
    if result.value.snapshotId == "" {
      resultSnapshotId := Null;
    }
    r := Valid(data.(networkId := Known(networkId), resultSnapshotId := resultSnapshotId,
                     totalItems := Known(total), itemsJson := Known(items)));
  }
}
