/** The `forward_path_analysis` data source: search the paths between a source and a destination
    and keep them as JSON texts. The SDK call is the function parameter `search`, and JSON encoding
    of one path is `marshal`. The Terraform model's attributes are split into what the
    configuration gives (`PathAnalysisConfig`) and what `Read` computes (`PathAnalysisOutputs`). */
module PathAnalysisDataSource {
  import opened Wrappers
  import opened Framework
  import opened PathAnalysis

  datatype PathAnalysisConfig = PathAnalysisConfig(
    networkId: TfString,
    from: TfString,
    srcIp: TfString,
    dstIp: TfString,
    intent: TfString,
    snapshotId: TfString,
    ipProto: TfInt,
    srcPort: TfString,
    dstPort: TfString,
    icmpType: TfInt,
    tcpFin: TfInt,
    tcpSyn: TfInt,
    tcpRst: TfInt,
    tcpPsh: TfInt,
    tcpAck: TfInt,
    tcpUrg: TfInt,
    appId: TfString,
    userId: TfString,
    userGroupId: TfString,
    url: TfString,
    includeTags: TfBool,
    includeNetworkFunctions: TfBool,
    maxCandidates: TfInt,
    maxResults: TfInt,
    maxReturnResults: TfInt,
    maxSeconds: TfInt)

  /** `unrecognized_values`: a map from the three identity kinds to the values the API did not
      recognise. */
  type Unrecognized = map<string, seq<string>>

  datatype PathAnalysisOutputs = PathAnalysisOutputs(
    srcIpLocationType: TfString,
    dstIpLocationType: TfString,
    timedOut: TfBool,
    queryUrl: TfString,
    pathsJson: TfList,
    returnPathsJson: TfList,
    unrecognized: TfValue<Unrecognized>)

  datatype PathAnalysisModel = PathAnalysisModel(config: PathAnalysisConfig, outputs: PathAnalysisOutputs)

  // ---------------------------------------------------------------- the search parameters

  /** The `setInt` closure: the destination is overwritten only by a known value. */
  function SetInt(dst: Option<int>, value: TfInt): (r: Option<int>)
    ensures value.Known? ==> r == Some(value.value)
    ensures !value.Known? ==> r == dst
  {
    if !value.Null? && !value.Unknown? then Some(value.value) else dst
  }

  /** The parameters `buildPathParams` gives for a configuration. */
  function PathParams(m: PathAnalysisConfig): PathSearchParams
  {
    PathSearchParams(
      StringOrEmpty(m.from), StringOrEmpty(m.srcIp), ValueOr(m.dstIp, ""), StringOrEmpty(m.intent),
      StringOrEmpty(m.snapshotId), Pointer(m.ipProto), StringOrEmpty(m.srcPort), StringOrEmpty(m.dstPort),
      Pointer(m.icmpType),
      PathTcpFlags(Pointer(m.tcpFin), Pointer(m.tcpSyn), Pointer(m.tcpRst), Pointer(m.tcpPsh), Pointer(m.tcpAck), Pointer(m.tcpUrg)),
      StringOrEmpty(m.appId), StringOrEmpty(m.userId), StringOrEmpty(m.userGroupId), StringOrEmpty(m.url),
      Pointer(m.includeTags), Pointer(m.includeNetworkFunctions),
      Pointer(m.maxCandidates), Pointer(m.maxResults), Pointer(m.maxReturnResults), Pointer(m.maxSeconds))
  }

  /** Every integer option is set exactly when its attribute is known, and then to its value. */
  lemma ParamsIntegers(m: PathAnalysisConfig)
    ensures var p := PathParams(m);
      && (p.ipProto.Some? <==> m.ipProto.Known?) && (p.ipProto.Some? ==> p.ipProto.value == m.ipProto.value)
      && (p.icmpType.Some? <==> m.icmpType.Known?) && (p.icmpType.Some? ==> p.icmpType.value == m.icmpType.value)
      && (p.tcpFlags.fin.Some? <==> m.tcpFin.Known?) && (p.tcpFlags.fin.Some? ==> p.tcpFlags.fin.value == m.tcpFin.value)
      && (p.tcpFlags.syn.Some? <==> m.tcpSyn.Known?) && (p.tcpFlags.syn.Some? ==> p.tcpFlags.syn.value == m.tcpSyn.value)
      && (p.tcpFlags.rst.Some? <==> m.tcpRst.Known?) && (p.tcpFlags.rst.Some? ==> p.tcpFlags.rst.value == m.tcpRst.value)
      && (p.tcpFlags.psh.Some? <==> m.tcpPsh.Known?) && (p.tcpFlags.psh.Some? ==> p.tcpFlags.psh.value == m.tcpPsh.value)
      && (p.tcpFlags.ack.Some? <==> m.tcpAck.Known?) && (p.tcpFlags.ack.Some? ==> p.tcpFlags.ack.value == m.tcpAck.value)
      && (p.tcpFlags.urg.Some? <==> m.tcpUrg.Known?) && (p.tcpFlags.urg.Some? ==> p.tcpFlags.urg.value == m.tcpUrg.value)
      && (p.maxCandidates.Some? <==> m.maxCandidates.Known?) && (p.maxCandidates.Some? ==> p.maxCandidates.value == m.maxCandidates.value)
      && (p.maxResults.Some? <==> m.maxResults.Known?) && (p.maxResults.Some? ==> p.maxResults.value == m.maxResults.value)
      && (p.maxReturnPathResults.Some? <==> m.maxReturnResults.Known?) && (p.maxReturnPathResults.Some? ==> p.maxReturnPathResults.value == m.maxReturnResults.value)
      && (p.maxSeconds.Some? <==> m.maxSeconds.Known?) && (p.maxSeconds.Some? ==> p.maxSeconds.value == m.maxSeconds.value)
  {
  }

  /** Both flags are set exactly when known; every string option is its attribute's value, ""
      when null or unknown; the destination is copied as `ValueString()` gives it. */
  lemma ParamsStringsAndFlags(m: PathAnalysisConfig)
    ensures var p := PathParams(m);
      && (p.includeTags.Some? <==> m.includeTags.Known?) && (p.includeTags.Some? ==> p.includeTags.value == m.includeTags.value)
      && (p.includeNetworkFunctions.Some? <==> m.includeNetworkFunctions.Known?)
      && (p.includeNetworkFunctions.Some? ==> p.includeNetworkFunctions.value == m.includeNetworkFunctions.value)
      && (m.from.Known? ==> p.from == m.from.value) && (!m.from.Known? ==> p.from == "")
      && (m.srcIp.Known? ==> p.srcIp == m.srcIp.value) && (!m.srcIp.Known? ==> p.srcIp == "")
      && (m.dstIp.Known? ==> p.dstIp == m.dstIp.value) && (!m.dstIp.Known? ==> p.dstIp == "")
      && (m.url.Known? ==> p.url == m.url.value) && (!m.url.Known? ==> p.url == "")
  {
  }

  /** A known integer option reaches the API as its decimal text; an unset one is not sent. */
  lemma ConfiguredProtocolIsSent(m: PathAnalysisConfig)
    ensures var q := PathQuery(PathParams(m));
      && ("ipProto" in q <==> m.ipProto.Known?)
      && (m.ipProto.Known? ==> q["ipProto"] == [DecimalParam(Some(m.ipProto.value)).value])
  {
    PathQueryContents(PathParams(m), 5);
  }

  /** `buildPathParams`: the string options first, then every integer through `setInt`, then the
      two flags when known. */
  method BuildPathParams(m: PathAnalysisConfig) returns (params: PathSearchParams)
    ensures params == PathParams(m)
  {
    params := PathSearchParams(StringOrEmpty(m.from), StringOrEmpty(m.srcIp), ValueOr(m.dstIp, ""), StringOrEmpty(m.intent),
                               StringOrEmpty(m.snapshotId), None, StringOrEmpty(m.srcPort), StringOrEmpty(m.dstPort), None,
                               PathTcpFlags(None, None, None, None, None, None),
                               StringOrEmpty(m.appId), StringOrEmpty(m.userId), StringOrEmpty(m.userGroupId), StringOrEmpty(m.url),
                               None, None, None, None, None, None);
    params := params.(ipProto := SetInt(params.ipProto, m.ipProto));
    params := params.(icmpType := SetInt(params.icmpType, m.icmpType));
    var flags := params.tcpFlags;
    flags := flags.(fin := SetInt(flags.fin, m.tcpFin));
    flags := flags.(syn := SetInt(flags.syn, m.tcpSyn));
    flags := flags.(rst := SetInt(flags.rst, m.tcpRst));
    flags := flags.(psh := SetInt(flags.psh, m.tcpPsh));
    flags := flags.(ack := SetInt(flags.ack, m.tcpAck));
    flags := flags.(urg := SetInt(flags.urg, m.tcpUrg));
    params := params.(tcpFlags := flags);
    params := params.(maxCandidates := SetInt(params.maxCandidates, m.maxCandidates));
    params := params.(maxResults := SetInt(params.maxResults, m.maxResults));
    params := params.(maxReturnPathResults := SetInt(params.maxReturnPathResults, m.maxReturnResults));
    params := params.(maxSeconds := SetInt(params.maxSeconds, m.maxSeconds));
    if !m.includeTags.Null? && !m.includeTags.Unknown? {
      params := params.(includeTags := Some(m.includeTags.value));
    }
    if !m.includeNetworkFunctions.Null? && !m.includeNetworkFunctions.Unknown? {
      params := params.(includeNetworkFunctions := Some(m.includeNetworkFunctions.value));
    }
  }

  // ---------------------------------------------------------------- the result

  /** Every path encoded, or the first encoding error. */
  function MarshalAll(paths: seq<Path>, marshal: Path -> Result<string>): (r: Result<seq<string>>)
    ensures r.Ok? ==> |r.value| == |paths| && forall i :: 0 <= i < |paths| ==> marshal(paths[i]) == Ok(r.value[i])
    ensures r.Ok? <==> forall i :: 0 <= i < |paths| ==> marshal(paths[i]).Ok?
    ensures r.Err? ==> exists i :: 0 <= i < |paths| && marshal(paths[i]) == Err(r.error) &&
                                   forall j :: 0 <= j < i ==> marshal(paths[j]).Ok?
    decreases |paths|
  {
    if paths == [] then Ok([])
    else
      var first := marshal(paths[0]);
      var rest := MarshalAll(paths[1..], marshal);
      assert forall i :: 1 <= i < |paths| ==> paths[i] == paths[1..][i - 1];
      if first.Err? then Err(first.error)
      else if rest.Err? then
        assert exists i :: 0 <= i < |paths| && marshal(paths[i]) == Err(rest.error) &&
                           forall j :: 0 <= j < i ==> marshal(paths[j]).Ok? by {
          var i' :| 0 <= i' < |paths[1..]| && marshal(paths[1..][i']) == Err(rest.error) &&
                    forall j :: 0 <= j < i' ==> marshal(paths[1..][j]).Ok?;
          assert marshal(paths[i' + 1]) == Err(rest.error);
          assert forall j :: 1 <= j < i' + 1 ==> marshal(paths[j]).Ok?;
        }
        Err(rest.error)
      else Ok([first.value] + rest.value)
  }

  /** `marshalPaths`: no paths is a null list; otherwise one text per path, in order, or the
      diagnostic of the first path that cannot be encoded. */
  method MarshalPaths(paths: seq<Path>, marshal: Path -> Result<string>) returns (r: Diagnosed<TfList>)
    ensures paths == [] ==> r == Valid(Null)
    ensures paths != [] && MarshalAll(paths, marshal).Ok? ==> r == Valid(StringList(MarshalAll(paths, marshal).value))
    ensures paths != [] && MarshalAll(paths, marshal).Err? ==>
      r == Invalid(Diagnostic(None, "Failed to marshal path", MarshalAll(paths, marshal).error.msg))
  {
    if |paths| == 0 {
      return Valid(Null);
    }
    var values: seq<string> := [];
    for i := 0 to |paths|
      invariant |values| == i
      invariant forall j :: 0 <= j < i ==> marshal(paths[j]) == Ok(values[j])
    {
      var b := marshal(paths[i]);
      if b.Err? {
        MarshalAllFailsAt(paths, marshal, i);
        return Invalid(Diagnostic(None, "Failed to marshal path", b.error.msg));
      }
      values := values + [b.value];
    }
    assert values == MarshalAll(paths, marshal).value;
    r := Valid(StringList(values));
  }

  /** The first path that cannot be encoded gives the error. */
  lemma MarshalAllFailsAt(paths: seq<Path>, marshal: Path -> Result<string>, i: nat)
    requires i < |paths| && marshal(paths[i]).Err?
    requires forall j :: 0 <= j < i ==> marshal(paths[j]).Ok?
    ensures MarshalAll(paths, marshal) == Err(marshal(paths[i]).error)
  {
    var r := MarshalAll(paths, marshal);
    var k :| 0 <= k < |paths| && marshal(paths[k]) == Err(r.error) && forall j :: 0 <= j < k ==> marshal(paths[j]).Ok?;
    assert k == i;
  }

  /** A path list written out reads back as the encoded paths: the encodings, in order, and
      nothing for no paths. */
  lemma MarshalledPathsReadBack(paths: seq<Path>, marshal: Path -> Result<string>)
    requires MarshalAll(paths, marshal).Ok?
    ensures ElementStrings(StringList(MarshalAll(paths, marshal).value)) == MarshalAll(paths, marshal).value
    ensures StringList(MarshalAll(paths, marshal).value).Null? <==> paths == []
  {
    StringListRoundTrip(MarshalAll(paths, marshal).value);
  }

  /** The keys of `unrecognized_values`. */
  const UnrecognizedKeys: set<string> := {"app_id", "user_id", "user_group_id"}

  /** `marshalUnrecognized`: exactly the three keys, each with its list. */
  function MarshalUnrecognized(values: PathUnrecognizedValue): (m: Unrecognized)
    ensures m.Keys == UnrecognizedKeys
    ensures m["app_id"] == values.appId && m["user_id"] == values.userId && m["user_group_id"] == values.userGroupId
  {
    map["app_id" := values.appId, "user_id" := values.userId, "user_group_id" := values.userGroupId]
  }

  // ---------------------------------------------------------------- Read

  /** `SearchPaths(ctx, networkID, params)`. */
  type SearchCall = (string, PathSearchParams) -> Result<PathSearchResult>

  datatype SearchRequest = SearchRequest(networkId: string, params: PathSearchParams)

  const MissingSource: Diagnostic := Diagnostic(Some("from"), "Invalid configuration", "Either from or src_ip must be supplied.")

  /** The list attribute a sequence of paths becomes when all of them encode. */
  function PathsList(paths: seq<Path>, marshal: Path -> Result<string>): TfList
  {
    if paths == [] || MarshalAll(paths, marshal).Err? then Null else StringList(MarshalAll(paths, marshal).value)
  }

  /** Some path, forward or returning, cannot be encoded. */
  predicate Unencodable(result: PathSearchResult, marshal: Path -> Result<string>)
  {
    || (result.info.paths != [] && MarshalAll(result.info.paths, marshal).Err?)
    || (result.returnPathInfo.paths != [] && MarshalAll(result.returnPathInfo.paths, marshal).Err?)
  }

  /** The error of the first path that cannot be encoded, the forward paths first. */
  function MarshalFailure(result: PathSearchResult, marshal: Path -> Result<string>): Error
    requires Unencodable(result, marshal)
  {
    if result.info.paths != [] && MarshalAll(result.info.paths, marshal).Err? then MarshalAll(result.info.paths, marshal).error
    else MarshalAll(result.returnPathInfo.paths, marshal).error
  }

  /** The outputs of a search whose paths all encode: every reported value known. */
  function Outputs(result: PathSearchResult, marshal: Path -> Result<string>): PathAnalysisOutputs
  {
    PathAnalysisOutputs(Known(result.srcIpLocationType), Known(result.dstIpLocationType), Known(result.timedOut),
                        Known(result.queryUrl), PathsList(result.info.paths, marshal),
                        PathsList(result.returnPathInfo.paths, marshal), Known(MarshalUnrecognized(result.unrecognized)))
  }

  /** `Read`: only a configuration with neither `from` nor `src_ip` (both null) is refused before
      the search; the outputs are the search's, its paths encoded. */
  method Read(data: PathAnalysisModel, search: SearchCall, marshal: Path -> Result<string>)
    returns (r: Diagnosed<PathAnalysisModel>, called: Option<SearchRequest>)
    ensures data.config.from.Null? && data.config.srcIp.Null? ==> r == Invalid(MissingSource) && called == None
    ensures !(data.config.from.Null? && data.config.srcIp.Null?) ==>
      && called == Some(SearchRequest(StringOrEmpty(data.config.networkId), PathParams(data.config)))
      && var result := search(StringOrEmpty(data.config.networkId), PathParams(data.config));
         && (result.Err? ==> r == Invalid(Diagnostic(None, "Error executing path analysis", result.error.msg)))
         && (result.Ok? ==> (r.Invalid? <==> Unencodable(result.value, marshal)))
         && (result.Ok? && r.Invalid? ==> r.diag == Diagnostic(None, "Failed to marshal path", MarshalFailure(result.value, marshal).msg))
         && (result.Ok? && r.Valid? ==> r == Valid(data.(outputs := Outputs(result.value, marshal))))
  {
    if data.config.from.Null? && data.config.srcIp.Null? {
      return Invalid(MissingSource), None;
    }
    var params := BuildPathParams(data.config);
    called := Some(SearchRequest(StringOrEmpty(data.config.networkId), params));
    var result := search(StringOrEmpty(data.config.networkId), params);
    if result.Err? {
      return Invalid(Diagnostic(None, "Error executing path analysis", result.error.msg)), called;
    }
    var found := result.value;
    var pathsJson := MarshalPaths(found.info.paths, marshal);
    if pathsJson.Invalid? {
      return Invalid(pathsJson.diag), called;
    }
    var returnJson := MarshalPaths(found.returnPathInfo.paths, marshal);
    if returnJson.Invalid? {
      return Invalid(returnJson.diag), called;
    }
    var unrecognized := MarshalUnrecognized(found.unrecognized);
    r := Valid(data.(outputs := PathAnalysisOutputs(Known(found.srcIpLocationType), Known(found.dstIpLocationType),
                                                    Known(found.timedOut), Known(found.queryUrl), pathsJson.value,
                                                    returnJson.value, Known(unrecognized))));
  }
}
