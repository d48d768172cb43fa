/** The path-analysis accessor of the SDK: search the paths of a network between a source and a
    destination, with the search's options sent as query parameters. */
module PathAnalysis {
  import opened Wrappers
  import opened Text
  import opened UrlValues
  import opened Client
  import opened Api

  datatype PathTcpFlags = PathTcpFlags(fin: Option<int>, syn: Option<int>, rst: Option<int>, psh: Option<int>, ack: Option<int>, urg: Option<int>)

  datatype PathSearchParams = PathSearchParams(
    from: string,
    srcIp: string,
    dstIp: string,
    intent: string,
    snapshotId: string,
    ipProto: Option<int>,
    srcPort: string,
    dstPort: string,
    icmpType: Option<int>,
    tcpFlags: PathTcpFlags,
    appId: string,
    userId: string,
    userGroupId: string,
    url: string,
    includeTags: Option<bool>,
    includeNetworkFunctions: Option<bool>,
    maxCandidates: Option<int>,
    maxResults: Option<int>,
    maxReturnPathResults: Option<int>,
    maxSeconds: Option<int>)

  /** A path, kept as the JSON the API returned for it. */
  type Path = Json

  datatype PathCollection = PathCollection(paths: seq<Path>, totalHitsType: string, totalHitsValue: int)

  datatype PathUnrecognizedValue = PathUnrecognizedValue(appId: seq<string>, userId: seq<string>, userGroupId: seq<string>)

  datatype PathSearchResult = PathSearchResult(
    srcIpLocationType: string,
    dstIpLocationType: string,
    info: PathCollection,
    returnPathInfo: PathCollection,
    timedOut: bool,
    queryUrl: string,
    unrecognized: PathUnrecognizedValue)

  /** A string parameter is sent when it is not empty. */
  function NonEmpty(s: string): Option<string>
  {
    if s == "" then None else Some(s)
  }

  /** An integer parameter is sent, in decimal, when it is set (`addInt`). */
  function DecimalParam(v: Option<int>): Option<string>
  {
    if v.Some? then Some(IntToString(v.value)) else None
  }

  /** A boolean parameter is sent, as "true" or "false", when it is set. */
  function BoolParam(v: Option<bool>): Option<string>
  {
    if v.Some? then Some(BoolToString(v.value)) else None
  }

  /** The number of query parameters a path search can send. */
  const ParamCount: nat := 25

  /** The key of each query parameter, in the order the search sets them, group by group. */
  function ParamName(i: nat): string
  {
    if i < 5 then EndpointName(i) else if i < 9 then ProtocolName(i - 5)
    else if i < 15 then TcpFlagName(i - 9) else if i < 19 then IdentityName(i - 15)
    else LimitName(i - 19)
  }

  function EndpointName(i: nat): string
  {
    if i == 0 then "from" else if i == 1 then "srcIp" else if i == 2 then "dstIp" else if i == 3 then "intent" else "snapshotId"
  }

  function ProtocolName(i: nat): string
  {
    if i == 0 then "ipProto" else if i == 1 then "srcPort" else if i == 2 then "dstPort" else "icmpType"
  }

  function TcpFlagName(i: nat): string
  {
    if i == 0 then "fin" else if i == 1 then "syn" else if i == 2 then "rst" else if i == 3 then "psh" else if i == 4 then "ack" else "urg"
  }

  function IdentityName(i: nat): string
  {
    if i == 0 then "appId" else if i == 1 then "userId" else if i == 2 then "userGroupId" else "url"
  }

  function LimitName(i: nat): string
  {
    if i == 0 then "includeTags" else if i == 1 then "includeNetworkFunctions" else if i == 2 then "maxCandidates"
    else if i == 3 then "maxResults" else if i == 4 then "maxReturnPathResults" else "maxSeconds"
  }

  /** The text each query parameter sends, if any, in the same order. */
  function ParamValue(p: PathSearchParams, i: nat): Option<string>
  {
    if i < 5 then EndpointValue(p, i) else if i < 9 then ProtocolValue(p, i - 5)
    else if i < 15 then TcpFlagValue(p.tcpFlags, i - 9) else if i < 19 then IdentityValue(p, i - 15)
    else LimitValue(p, i - 19)
  }

  function EndpointValue(p: PathSearchParams, i: nat): Option<string>
  {
    if i == 0 then NonEmpty(p.from) else if i == 1 then NonEmpty(p.srcIp) else if i == 2 then Some(p.dstIp)
    else if i == 3 then NonEmpty(p.intent) else NonEmpty(p.snapshotId)
  }

  function ProtocolValue(p: PathSearchParams, i: nat): Option<string>
  {
    if i == 0 then DecimalParam(p.ipProto) else if i == 1 then NonEmpty(p.srcPort) else if i == 2 then NonEmpty(p.dstPort)
    else DecimalParam(p.icmpType)
  }

  function TcpFlagValue(f: PathTcpFlags, i: nat): Option<string>
  {
    DecimalParam(if i == 0 then f.fin else if i == 1 then f.syn else if i == 2 then f.rst else if i == 3 then f.psh else if i == 4 then f.ack else f.urg)
  }

  function IdentityValue(p: PathSearchParams, i: nat): Option<string>
  {
    NonEmpty(if i == 0 then p.appId else if i == 1 then p.userId else if i == 2 then p.userGroupId else p.url)
  }

  function LimitValue(p: PathSearchParams, i: nat): Option<string>
  {
    if i == 0 then BoolParam(p.includeTags) else if i == 1 then BoolParam(p.includeNetworkFunctions)
    else DecimalParam(if i == 2 then p.maxCandidates else if i == 3 then p.maxResults else if i == 4 then p.maxReturnPathResults else p.maxSeconds)
  }

  lemma ParamNamesDistinct()
    ensures forall i: nat, j: nat :: i < j < ParamCount ==> ParamName(i) != ParamName(j)
  {
  }

  /** `query.Set(key, value)` when there is a value. */
  function SetIfPresent(q: Values, key: string, value: Option<string>): (r: Values)
    ensures value.None? ==> r == q
    ensures value.Some? ==> r == Set(q, key, value.value)
  {
    if value.Some? then Set(q, key, value.value) else q
  }

  /** The parameters of a search from the `i`-th on, set one after the other onto `q`. */
  function SetRange(q: Values, p: PathSearchParams, i: nat): Values
    decreases ParamCount - i
  {
    if i >= ParamCount then q else SetRange(SetIfPresent(q, ParamName(i), ParamValue(p, i)), p, i + 1)
  }

  /** The query of a path search. */
  function PathQuery(p: PathSearchParams): Values
  {
    SetRange(map[], p, 0)
  }

  /** `key` is in `q` exactly when there is a value for it, and then it holds that one value. */
  ghost predicate Sends(q: Values, key: string, value: Option<string>)
  {
    (key in q <==> value.Some?) && (value.Some? ==> q[key] == [value.value])
  }

  /** Setting other keys leaves what `key` holds alone. */
  lemma {:induction false} SetRangeKeeps(q: Values, p: PathSearchParams, i: nat, key: string)
    requires forall j: nat :: i <= j < ParamCount ==> ParamName(j) != key
    ensures var r := SetRange(q, p, i); (key in r <==> key in q) && (key in q ==> r[key] == q[key])
    decreases ParamCount - i
  {
    if i < ParamCount {
      SetRangeKeeps(SetIfPresent(q, ParamName(i), ParamValue(p, i)), p, i + 1, key);
    }
  }

  /** A parameter whose key no later parameter uses, and which is not yet in the query, is sent
      exactly when it has a value. */
  lemma {:induction false} SetRangeSends(q: Values, p: PathSearchParams, i: nat, k: nat)
    requires i <= k < ParamCount && ParamName(k) !in q
    requires forall j: nat :: i <= j < ParamCount && j != k ==> ParamName(j) != ParamName(k)
    ensures Sends(SetRange(q, p, i), ParamName(k), ParamValue(p, k))
    decreases ParamCount - i
  {
    var q1 := SetIfPresent(q, ParamName(i), ParamValue(p, i));
    if i == k {
      SetRangeKeeps(q1, p, i + 1, ParamName(k));
    } else {
      SetRangeSends(q1, p, i + 1, k);
    }
  }

  /** Setting parameters adds no key but theirs. */
  lemma {:induction false} SetRangeKeys(q: Values, p: PathSearchParams, i: nat, key: string)
    requires key in SetRange(q, p, i)
    ensures key in q || exists j: nat :: i <= j < ParamCount && ParamName(j) == key
    decreases ParamCount - i
  {
    if i < ParamCount {
      SetRangeKeys(SetIfPresent(q, ParamName(i), ParamValue(p, i)), p, i + 1, key);
    }
  }

  /** Each parameter of a search is sent exactly when it has a value, as that value. */
  lemma PathQueryContents(p: PathSearchParams, k: nat)
    requires k < ParamCount
    ensures Sends(PathQuery(p), ParamName(k), ParamValue(p, k))
  {
    ParamNamesDistinct();
    SetRangeSends(map[], p, 0, k);
  }

  /** Nothing but the search's own parameters is sent. */
  lemma PathQueryKeys(p: PathSearchParams, key: string)
    requires key in PathQuery(p)
    ensures exists j: nat :: j < ParamCount && ParamName(j) == key
  {
    SetRangeKeys(map[], p, 0, key);
  }

  /** The destination is always sent, as given. */
  lemma PathQuerySendsDestination(p: PathSearchParams)
    ensures "dstIp" in PathQuery(p) && PathQuery(p)["dstIp"] == [p.dstIp]
  {
    PathQueryContents(p, 2);
  }

  /** A number sent in decimal reads back as itself. */
  lemma DecimalParamRoundTrip(v: Option<int>)
    requires v.Some?
    ensures ParseInt(DecimalParam(v).value) == v
  {
    IntToStringRoundTrip(v.value);
  }

  /** Setting the `k`-th parameter, by its key and value, then the rest. */
  lemma SetRangeStep(q: Values, p: PathSearchParams, k: nat, key: string, value: Option<string>)
    requires k < ParamCount && ParamName(k) == key && ParamValue(p, k) == value
    ensures SetRange(q, p, k) == SetRange(SetIfPresent(q, key, value), p, k + 1)
  {
  }

  /** The endpoints: `from` and `srcIp` when given, always `dstIp`, then `intent` and `snapshotId`. */
  function SetEndpoints(q: Values, p: PathSearchParams): (r: Values)
    ensures SetRange(r, p, 5) == SetRange(q, p, 0)
  {
    var q1 := SetIfPresent(q, "from", NonEmpty(p.from));
    var q2 := SetIfPresent(q1, "srcIp", NonEmpty(p.srcIp));
    var q3 := SetIfPresent(q2, "dstIp", Some(p.dstIp));
    var q4 := SetIfPresent(q3, "intent", NonEmpty(p.intent));
    var q5 := SetIfPresent(q4, "snapshotId", NonEmpty(p.snapshotId));
    calc {
      SetRange(q, p, 0);
    == { SetRangeStep(q, p, 0, "from", NonEmpty(p.from)); }
      SetRange(q1, p, 1);
    == { SetRangeStep(q1, p, 1, "srcIp", NonEmpty(p.srcIp)); }
      SetRange(q2, p, 2);
    == { SetRangeStep(q2, p, 2, "dstIp", Some(p.dstIp)); }
      SetRange(q3, p, 3);
    == { SetRangeStep(q3, p, 3, "intent", NonEmpty(p.intent)); }
      SetRange(q4, p, 4);
    == { SetRangeStep(q4, p, 4, "snapshotId", NonEmpty(p.snapshotId)); }
      SetRange(q5, p, 5);
    }
    q5
  }

  /** The IP protocol, the ports and the ICMP type. */
  function SetProtocol(q: Values, p: PathSearchParams): (r: Values)
    ensures SetRange(r, p, 9) == SetRange(q, p, 5)
  {
    var q1 := SetIfPresent(q, "ipProto", DecimalParam(p.ipProto));
    var q2 := SetIfPresent(q1, "srcPort", NonEmpty(p.srcPort));
    var q3 := SetIfPresent(q2, "dstPort", NonEmpty(p.dstPort));
    var q4 := SetIfPresent(q3, "icmpType", DecimalParam(p.icmpType));
    calc {
      SetRange(q, p, 5);
    == { SetRangeStep(q, p, 5, "ipProto", DecimalParam(p.ipProto)); }
      SetRange(q1, p, 6);
    == { SetRangeStep(q1, p, 6, "srcPort", NonEmpty(p.srcPort)); }
      SetRange(q2, p, 7);
    == { SetRangeStep(q2, p, 7, "dstPort", NonEmpty(p.dstPort)); }
      SetRange(q3, p, 8);
    == { SetRangeStep(q3, p, 8, "icmpType", DecimalParam(p.icmpType)); }
      SetRange(q4, p, 9);
    }
    q4
  }

  /** The TCP flags, each through `addInt`. */
  function SetTcpFlags(q: Values, p: PathSearchParams): (r: Values)
    ensures SetRange(r, p, 15) == SetRange(q, p, 9)
  {
    var q1 := SetIfPresent(q, "fin", DecimalParam(p.tcpFlags.fin));
    var q2 := SetIfPresent(q1, "syn", DecimalParam(p.tcpFlags.syn));
    var q3 := SetIfPresent(q2, "rst", DecimalParam(p.tcpFlags.rst));
    var q4 := SetIfPresent(q3, "psh", DecimalParam(p.tcpFlags.psh));
    var q5 := SetIfPresent(q4, "ack", DecimalParam(p.tcpFlags.ack));
    var q6 := SetIfPresent(q5, "urg", DecimalParam(p.tcpFlags.urg));
    calc {
      SetRange(q, p, 9);
    == { SetRangeStep(q, p, 9, "fin", DecimalParam(p.tcpFlags.fin)); }
      SetRange(q1, p, 10);
    == { SetRangeStep(q1, p, 10, "syn", DecimalParam(p.tcpFlags.syn)); }
      SetRange(q2, p, 11);
    == { SetRangeStep(q2, p, 11, "rst", DecimalParam(p.tcpFlags.rst)); }
      SetRange(q3, p, 12);
    == { SetRangeStep(q3, p, 12, "psh", DecimalParam(p.tcpFlags.psh)); }
      SetRange(q4, p, 13);
    == { SetRangeStep(q4, p, 13, "ack", DecimalParam(p.tcpFlags.ack)); }
      SetRange(q5, p, 14);
    == { SetRangeStep(q5, p, 14, "urg", DecimalParam(p.tcpFlags.urg)); }
      SetRange(q6, p, 15);
    }
    q6
  }

  /** The application, user, user group and URL. */
  function SetIdentities(q: Values, p: PathSearchParams): (r: Values)
    ensures SetRange(r, p, 19) == SetRange(q, p, 15)
  {
    var q1 := SetIfPresent(q, "appId", NonEmpty(p.appId));
    var q2 := SetIfPresent(q1, "userId", NonEmpty(p.userId));
    var q3 := SetIfPresent(q2, "userGroupId", NonEmpty(p.userGroupId));
    var q4 := SetIfPresent(q3, "url", NonEmpty(p.url));
    calc {
      SetRange(q, p, 15);
    == { SetRangeStep(q, p, 15, "appId", NonEmpty(p.appId)); }
      SetRange(q1, p, 16);
    == { SetRangeStep(q1, p, 16, "userId", NonEmpty(p.userId)); }
      SetRange(q2, p, 17);
    == { SetRangeStep(q2, p, 17, "userGroupId", NonEmpty(p.userGroupId)); }
      SetRange(q3, p, 18);
    == { SetRangeStep(q3, p, 18, "url", NonEmpty(p.url)); }
      SetRange(q4, p, 19);
    }
    q4
  }

  /** The inclusion switches and the result limits. */
  function SetLimits(q: Values, p: PathSearchParams): (r: Values)
    ensures SetRange(r, p, 25) == SetRange(q, p, 19)
  {
    var q1 := SetIfPresent(q, "includeTags", BoolParam(p.includeTags));
    var q2 := SetIfPresent(q1, "includeNetworkFunctions", BoolParam(p.includeNetworkFunctions));
    var q3 := SetIfPresent(q2, "maxCandidates", DecimalParam(p.maxCandidates));
    var q4 := SetIfPresent(q3, "maxResults", DecimalParam(p.maxResults));
    var q5 := SetIfPresent(q4, "maxReturnPathResults", DecimalParam(p.maxReturnPathResults));
    var q6 := SetIfPresent(q5, "maxSeconds", DecimalParam(p.maxSeconds));
    calc {
      SetRange(q, p, 19);
    == { SetRangeStep(q, p, 19, "includeTags", BoolParam(p.includeTags)); }
      SetRange(q1, p, 20);
    == { SetRangeStep(q1, p, 20, "includeNetworkFunctions", BoolParam(p.includeNetworkFunctions)); }
      SetRange(q2, p, 21);
    == { SetRangeStep(q2, p, 21, "maxCandidates", DecimalParam(p.maxCandidates)); }
      SetRange(q3, p, 22);
    == { SetRangeStep(q3, p, 22, "maxResults", DecimalParam(p.maxResults)); }
      SetRange(q4, p, 23);
    == { SetRangeStep(q4, p, 23, "maxReturnPathResults", DecimalParam(p.maxReturnPathResults)); }
      SetRange(q5, p, 24);
    == { SetRangeStep(q5, p, 24, "maxSeconds", DecimalParam(p.maxSeconds)); }
      SetRange(q6, p, 25);
    }
    q6
  }

  /** The five groups, set in order onto an empty query, give the query of the search. */
  lemma BuildsPathQuery(p: PathSearchParams)
    ensures SetLimits(SetIdentities(SetTcpFlags(SetProtocol(SetEndpoints(map[], p), p), p), p), p) == PathQuery(p)
  {
  }

  /** The query statements of `SearchPaths`, group by group; the query always carries the
      destination, so it is never empty. */
  method BuildPathQuery(p: PathSearchParams) returns (query: Values)
    ensures query == PathQuery(p) && Encodes(query)
  {
    query := map[];
    query := SetEndpoints(query, p);
    query := SetProtocol(query, p);
    query := SetTcpFlags(query, p);
    query := SetIdentities(query, p);
    query := SetLimits(query, p);
    BuildsPathQuery(p);
    PathQuerySendsDestination(p);
    assert query["dstIp"] != [];
  }

  /** `SearchPaths`: the trimmed network ID, then the destination, then a source (a `from`
      location or a source IP) are required; the options are sent as query parameters. */
  method SearchPaths(send: Send<()>, decode: string -> Result<PathSearchResult>, networkId: string, p: PathSearchParams)
    returns (r: Result<PathSearchResult>, sent: Option<ApiRequest<()>>)
    ensures TrimSpace(networkId) == "" ==> r == Err(Fail("networkID must be provided")) && sent == None
    ensures TrimSpace(networkId) != "" && p.dstIp == "" ==> r == Err(Fail("dstIP must be provided")) && sent == None
    ensures TrimSpace(networkId) != "" && p.dstIp != "" && p.from == "" && p.srcIp == "" ==>
      r == Err(Fail("either from or srcIp must be provided")) && sent == None
    ensures TrimSpace(networkId) != "" && p.dstIp != "" && (p.from != "" || p.srcIp != "") ==>
      && sent == Some(ApiRequest(Get, ["api", "networks", TrimSpace(networkId), "paths"], PathQuery(p), None))
      && HasQueryString(sent.value)
      && r == Interpret(send(sent.value), {200}, "execute path search request", "searching paths", false, decode, "decode path search response")
  {
    var id := TrimSpace(networkId);
    if id == "" {
      return Err(Fail("networkID must be provided")), None;
    }
    if p.dstIp == "" {
      return Err(Fail("dstIP must be provided")), None;
    }
    if p.from == "" && p.srcIp == "" {
      return Err(Fail("either from or srcIp must be provided")), None;
    }
    var query := BuildPathQuery(p);
    var request := ApiRequest(Get, ["api", "networks", id, "paths"], query, None);
    sent := Some(request);
    r := Interpret(send(request), {200}, "execute path search request", "searching paths", false, decode, "decode path search response");
  }
}
