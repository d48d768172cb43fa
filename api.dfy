/** What every SDK accessor shares: the request it asks the client to send, the trimmed-filter rule
    for query parameters, and how it turns the client's answer into a result.

    An accessor hands its method, path and body to `NewRequest` and then to `Do`; here that pair
    is the function `send`, from the request to what `Do` returned. A path is kept as its list of
    segments before `url.PathEscape` is applied to the IDs (escaping is injective and not modelled),
    and the query as the multimap it encodes. JSON decoding is a function parameter `decode`
    from the response body to the decoded value. */
module Api {
  import opened Wrappers
  import opened Text
  import opened UrlValues
  import opened Client

  const Get: string := "GET"
  const Post: string := "POST"
  const Delete: string := "DELETE"

  /** A JSON document, kept as its text. */
  type Json = string

  datatype ApiRequest<B> = ApiRequest(verb: string, segments: seq<string>, query: Values, body: Option<B>)

  /** The path carries "?" and the encoded query exactly when the query encodes to something. */
  predicate HasQueryString<B>(r: ApiRequest<B>)
  {
    Encodes(r.query)
  }

  /** An accessor's link to the client: `NewRequest` then `Do`. */
  type Send<!B> = ApiRequest<B> -> Result<Response>

  // ---------------------------------------------------------------- filter values

  /** The values of `xs`, trimmed, with the ones that trim to nothing dropped, in order. */
  function FilterTrimmed(xs: seq<string>): (r: seq<string>)
    ensures |r| <= |xs|
    ensures forall i :: 0 <= i < |r| ==> r[i] != "" && TrimSpace(r[i]) == r[i]
  {
    if xs == [] then []
    else
      var t := TrimSpace(xs[|xs| - 1]);
      TrimSpaceIdempotent(xs[|xs| - 1]);
      FilterTrimmed(xs[..|xs| - 1]) + (if t == "" then [] else [t])
  }

  /** A value survives the filter exactly when it is the trimmed form of some non-blank input. */
  lemma {:induction false} FilterTrimmedMembers(xs: seq<string>, v: string)
    ensures v in FilterTrimmed(xs) <==> exists i :: 0 <= i < |xs| && TrimSpace(xs[i]) == v && v != ""
  {
    if xs != [] {
      var init := xs[..|xs| - 1];
      FilterTrimmedMembers(init, v);
      if v in FilterTrimmed(init) {
        var i :| 0 <= i < |init| && TrimSpace(init[i]) == v && v != "";
        assert xs[i] == init[i];
      }
      if exists i :: 0 <= i < |xs| && TrimSpace(xs[i]) == v && v != "" {
        var i :| 0 <= i < |xs| && TrimSpace(xs[i]) == v && v != "";
        if i < |xs| - 1 {
          assert init[i] == xs[i];
        }
      }
    }
  }

  /** Nothing survives exactly when every input is blank. */
  lemma FilterTrimmedEmpty(xs: seq<string>)
    ensures FilterTrimmed(xs) == [] <==> forall i :: 0 <= i < |xs| ==> AllSpace(xs[i])
  {
    if FilterTrimmed(xs) != [] {
      FilterTrimmedMembers(xs, FilterTrimmed(xs)[0]);
    } else {
      forall i | 0 <= i < |xs| ensures AllSpace(xs[i]) {
        FilterTrimmedMembers(xs, TrimSpace(xs[i]));
      }
    }
  }

  /** `for _, v := range xs { v = strings.TrimSpace(v); if v != "" { query.Add(key, v) } }`. */
  method AddTrimmed(q: Values, key: string, xs: seq<string>) returns (r: Values)
    ensures r == AddEach(q, key, FilterTrimmed(xs))
  {
    r := q;
    for i := 0 to |xs|
      invariant r == AddEach(q, key, FilterTrimmed(xs[..i]))
    {
      var v := TrimSpace(xs[i]);
      ghost var done := FilterTrimmed(xs[..i]);
      assert xs[..i + 1][..i] == xs[..i];
      assert FilterTrimmed(xs[..i + 1]) == done + (if v == "" then [] else [v]);
      if v != "" {
        AddEachStep(q, key, done, v);
        r := Add(r, key, v);
      } else {
        assert done + [] == done;
      }
    }
    assert xs[..|xs|] == xs;
  }

  // ---------------------------------------------------------------- responses

  /** `io.ReadAll(io.LimitReader(resp.Body, 1<<14))`: at most the first 16 KiB of the body. */
  const ErrorBodyLimit: nat := 16384

  function ErrorBody(body: string): (r: string)
    ensures |r| <= ErrorBodyLimit && HasPrefix(body, r)
    ensures |body| <= ErrorBodyLimit ==> r == body
  {
    if |body| <= ErrorBodyLimit then body else body[..ErrorBodyLimit]
  }

  /** `fmt.Errorf("unexpected status %d <action>: %s", status, body)`; the NQE accessors trim the
      body first. */
  function StatusError(status: int, action: string, body: string, trimBody: bool): Error
  {
    var text := ErrorBody(body);
    Fail("unexpected status " + IntToString(status) + " " + action + ": " + (if trimBody then TrimSpace(text) else text))
  }

  /** A status error names the status in decimal, so any "unexpected status 404 ..." error
      contains "404". */
  lemma StatusErrorNamesStatus(status: int, action: string, body: string, trimBody: bool)
    ensures Contains(StatusError(status, action, body, trimBody).msg, IntToString(status))
    ensures !StatusError(status, action, body, trimBody).canceled
  {
    var text := ErrorBody(body);
    var tail := " " + action + ": " + (if trimBody then TrimSpace(text) else text);
    assert StatusError(status, action, body, trimBody).msg == "unexpected status " + IntToString(status) + tail;
    ContainsInfix("unexpected status ", IntToString(status), tail);
  }

  /** The answer to a request whose response is decoded: the client's error wrapped in
      `failure`, a status error for a status outside `ok`, a decode error wrapped in
      `decodeFailure`, or the decoded value. */
  function Interpret<T>(done: Result<Response>, ok: set<int>, failure: string, action: string, trimBody: bool,
                        decode: string -> Result<T>, decodeFailure: string): (r: Result<T>)
    ensures r.Ok? <==> done.Ok? && done.value.status in ok && decode(done.value.body).Ok?
    ensures r.Ok? ==> r.value == decode(done.value.body).value
    ensures done.Err? ==> r == Err(Wrap(failure, done.error))
    ensures done.Ok? && done.value.status !in ok ==>
      r == Err(StatusError(done.value.status, action, done.value.body, trimBody))
    ensures done.Ok? && done.value.status in ok && decode(done.value.body).Err? ==>
      r == Err(Wrap(decodeFailure, decode(done.value.body).error))
  {
    match done
    case Err(e) => Err(Wrap(failure, e))
    case Ok(response) =>
      if response.status !in ok then Err(StatusError(response.status, action, response.body, trimBody))
      else
        match decode(response.body)
        case Err(e) => Err(Wrap(decodeFailure, e))
        case Ok(v) => Ok(v)
  }

  /** The answer to a request whose response body is not read: nothing on success. */
  function Acknowledge(done: Result<Response>, ok: set<int>, failure: string, action: string): (r: Option<Error>)
    ensures r.None? <==> done.Ok? && done.value.status in ok
    ensures done.Err? ==> r == Some(Wrap(failure, done.error))
    ensures done.Ok? && done.value.status !in ok ==> r == Some(StatusError(done.value.status, action, done.value.body, false))
  {
    match done
    case Err(e) => Some(Wrap(failure, e))
    case Ok(response) => if response.status in ok then None else Some(StatusError(response.status, action, response.body, false))
  }
}
