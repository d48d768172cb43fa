/** The Forward Networks API client: configuration normalisation (`NewClient`), the headers every
    request carries (`NewRequest`), the retryable-status rule and the retry loop of `Do`.
    Durations are integers of nanoseconds, as Go's `time.Duration` is. The HTTP transport is a
    function from the attempt number to what that attempt observed, and the request's context
    is a function telling, for each retry, whether the context ended during the wait before it. */
module Client {
  import opened Wrappers
  import opened Text
  import opened Urls

  const DefaultUserAgent: string := "terraform-provider-forward/dev"
  const DefaultMaxRetries: int := 3
  const Millisecond: int := 1_000_000
  const DefaultRetryDelay: int := 500 * Millisecond

  datatype Config = Config(
    baseUrl: string,
    apiKey: string,
    insecure: bool,
    userAgent: string,
    maxRetries: int,
    retryDelay: int)

  datatype Client = Client(
    baseUrl: Url,
    apiKey: string,
    userAgent: string,
    maxRetries: int,
    retryDelay: int)

  /** What `NewClient` guarantees of every client it returns. */
  predicate Normalised(c: Client)
  {
    && c.baseUrl.scheme != ""
    && c.apiKey != ""
    && c.userAgent != "" && TrimSpace(c.userAgent) == c.userAgent
    && c.maxRetries >= 1
    && c.retryDelay > 0
  }

  lemma DefaultUserAgentIsTrimmed()
    ensures TrimSpace(DefaultUserAgent) == DefaultUserAgent
  {
    var s := DefaultUserAgent;
    assert !IsSpace(s[0]) && !IsSpace(s[|s| - 1]);
    assert TrimLeft(s) == s;
    assert TrimRight(s) == s;
  }

  /** The retry count `NewClient` settles on: non-positive values mean the default of 3. */
  function EffectiveMaxRetries(configured: int): (r: int)
    ensures r >= 1
    ensures configured > 0 ==> r == configured
    ensures configured <= 0 ==> r == DefaultMaxRetries
  {
    if configured > 0 then configured else DefaultMaxRetries
  }

  /** `NewClient`: validate the base URL and API key, then fill in the defaults. The errors are
      reported in this order: empty base URL, unparsable base URL, missing scheme, empty API key.
      The HTTP client and its TLS settings are not modelled. */
  method NewClient(cfg: Config) returns (r: Result<Client>)
    ensures var parsed := Parse(cfg.baseUrl);
      if cfg.baseUrl == "" then r == Err(Fail("base URL must be provided"))
      else if parsed.Err? then r == Err(Wrap("unable to parse base URL", parsed.error))
      else if parsed.value.scheme == "" then r == Err(Fail("base URL must include an HTTP or HTTPS scheme"))
      else if cfg.apiKey == "" then r == Err(Fail("API key must be provided"))
      else r.Ok?
    ensures r.Ok? ==> var parsed := Parse(cfg.baseUrl).value; var c := r.value;
      && c.baseUrl == parsed.(path := TrimSuffix(parsed.path, "/"))
      && c.apiKey == cfg.apiKey
      && c.userAgent == (if TrimSpace(cfg.userAgent) == "" then DefaultUserAgent else TrimSpace(cfg.userAgent))
      && c.maxRetries == EffectiveMaxRetries(cfg.maxRetries)
      && c.retryDelay == (if cfg.retryDelay <= 0 then DefaultRetryDelay else cfg.retryDelay)
      && Normalised(c)
  {
    if cfg.baseUrl == "" {
      return Err(Fail("base URL must be provided"));
    }
    var parsedOrError := Parse(cfg.baseUrl);
    if parsedOrError.Err? {
      return Err(Wrap("unable to parse base URL", parsedOrError.error));
    }
    var parsed := parsedOrError.value;
    if parsed.scheme == "" {
      return Err(Fail("base URL must include an HTTP or HTTPS scheme"));
    }
    parsed := parsed.(path := TrimSuffix(parsed.path, "/"));
    if cfg.apiKey == "" {
      return Err(Fail("API key must be provided"));
    }

    var userAgent := TrimSpace(cfg.userAgent);
    TrimSpaceIdempotent(cfg.userAgent);
    if userAgent == "" {
      userAgent := DefaultUserAgent;
      DefaultUserAgentIsTrimmed();
    }

    var maxRetries := cfg.maxRetries;
    if maxRetries < 0 {
      maxRetries := 0;
    }
    if maxRetries == 0 {
      maxRetries := DefaultMaxRetries;
    }

    var retryDelay := cfg.retryDelay;
    if retryDelay <= 0 {
      retryDelay := DefaultRetryDelay;
    }

    r := Ok(Client(parsed, cfg.apiKey, userAgent, maxRetries, retryDelay));
  }

  // ---------------------------------------------------------------- requests

  /** An HTTP request as `NewRequest` prepares it: the method (`verb`), the base URL and the parsed
      reference path (the resolution of one against the other is not computed), the headers, and the
      body (if any). */
  datatype Request<B> = Request(
    verb: string,
    base: Url,
    reference: Url,
    headers: map<string, string>,
    body: Option<B>)

  /** The headers of every request: the bearer token, the user agent and `Accept: application/json`,
      and `Content-Type: application/json` exactly when there is a body. */
  function RequestHeaders(apiKey: string, userAgent: string, withBody: bool): (h: map<string, string>)
    ensures h.Keys == {"Authorization", "User-Agent", "Accept"} + (if withBody then {"Content-Type"} else {})
    ensures h["Authorization"] == "Bearer " + apiKey && h["User-Agent"] == userAgent && h["Accept"] == "application/json"
    ensures withBody ==> h["Content-Type"] == "application/json"
  {
    var headers := map["Authorization" := "Bearer " + apiKey, "User-Agent" := userAgent, "Accept" := "application/json"];
    if withBody then headers["Content-Type" := "application/json"] else headers
  }

  /** `NewRequest`: parse the request path and set the headers. */
  function NewRequest<B>(c: Client, verb: string, path: string, body: Option<B>): (r: Result<Request<B>>)
    ensures r.Err? <==> Parse(path).Err?
    ensures r.Err? ==> r.error == Wrap("unable to parse request path", Parse(path).error)
    ensures r.Ok? ==>
      && r.value.verb == verb && r.value.base == c.baseUrl && r.value.body == body
      && r.value.reference == Parse(path).value
      && r.value.headers == RequestHeaders(c.apiKey, c.userAgent, body.Some?)
  {
    match Parse(path)
    case Err(e) => Err(Wrap("unable to parse request path", e))
    case Ok(reference) =>
      Ok(Request(verb, c.baseUrl, reference, RequestHeaders(c.apiKey, c.userAgent, body.Some?), body))
  }

  // ---------------------------------------------------------------- retries

  /** `shouldRetryStatus`: too many requests, or a server error other than "not implemented". */
  predicate ShouldRetryStatus(status: int)
  {
    status == 429 || (status >= 500 && status != 501)
  }

  /** The retryable statuses, class by class: below 500 only 429; from 500 up everything but 501. */
  lemma RetryableStatusClasses(status: int)
    ensures 200 <= status < 300 ==> !ShouldRetryStatus(status)
    ensures 400 <= status < 500 ==> (ShouldRetryStatus(status) <==> status == 429)
    ensures status < 400 ==> !ShouldRetryStatus(status)
    ensures status >= 500 ==> (ShouldRetryStatus(status) <==> status != 501)
  {
  }

  datatype Response = Response(status: int, body: string)

  /** What one attempt observed: the transport failed, or a response arrived. */
  datatype Outcome = TransportError(err: Error) | Received(response: Response)

  /** An attempt that ends `Do`: a response whose status is not retried. */
  predicate Accepted(o: Outcome)
  {
    o.Received? && !ShouldRetryStatus(o.response.status)
  }

  /** The error a failed attempt leaves behind. */
  function AttemptError(o: Outcome): (e: Error)
    requires !Accepted(o)
    ensures o.TransportError? ==> e == o.err
    ensures o.Received? ==> e == Fail("received status " + IntToString(o.response.status))
  {
    if o.TransportError? then o.err else Fail("received status " + IntToString(o.response.status))
  }

  function Pow2(n: nat): (r: nat)
    ensures r >= 1
  {
    if n == 0 then 1 else 2 * Pow2(n - 1)
  }

  /** The wait before retry `k` (k >= 1): the delay doubled for each earlier retry. */
  function Backoff(retryDelay: int, k: nat): int
    requires k >= 1
  {
    retryDelay * Pow2(k - 1)
  }

  /** A run of `Do`: its result, how many attempts were sent, and the waits it began. */
  datatype Trace = Trace(result: Result<Response>, attempts: nat, waits: seq<int>)

  /** `Do` from attempt number `attempt` on (the attempts before it have failed).
      `interrupted(k)` is the context's error if the context ends while waiting before retry `k`. */
  function Run(c: Client, transport: nat -> Outcome, interrupted: nat -> Option<Error>, attempt: nat): Trace
    decreases c.maxRetries - attempt
  {
    var outcome := transport(attempt);
    if Accepted(outcome) then
      Trace(Ok(outcome.response), attempt + 1, [])
    else if attempt >= c.maxRetries then
      Trace(Err(AttemptError(outcome)), attempt + 1, [])
    else
      var backoff := Backoff(c.retryDelay, attempt + 1);
      match interrupted(attempt + 1)
      case Some(e) => Trace(Err(e), attempt + 1, [backoff])
      case None =>
        var rest := Run(c, transport, interrupted, attempt + 1);
        Trace(rest.result, rest.attempts, [backoff] + rest.waits)
  }

  /** One attempt of a run: it ends the run, or is followed by a wait and the run from the next
      attempt. */
  lemma RunStep(c: Client, transport: nat -> Outcome, interrupted: nat -> Option<Error>, attempt: nat)
    ensures var t, o := Run(c, transport, interrupted, attempt), transport(attempt);
      && (Accepted(o) ==> t == Trace(Ok(o.response), attempt + 1, []))
      && (!Accepted(o) && attempt >= c.maxRetries ==> t == Trace(Err(AttemptError(o)), attempt + 1, []))
      && (!Accepted(o) && attempt < c.maxRetries && interrupted(attempt + 1).Some? ==>
            t == Trace(Err(interrupted(attempt + 1).value), attempt + 1, [Backoff(c.retryDelay, attempt + 1)]))
      && (!Accepted(o) && attempt < c.maxRetries && interrupted(attempt + 1).None? ==>
            var rest := Run(c, transport, interrupted, attempt + 1);
            t == Trace(rest.result, rest.attempts, [Backoff(c.retryDelay, attempt + 1)] + rest.waits))
  {
  }

  /** How long a run of `Do` from attempt `attempt` on is: more than `attempt` and at most
      `maxRetries` + 1 attempts, with a wait, the doubling backoff, after every failed attempt
      but possibly the last (and never after the accepted one). */
  lemma {:induction false} RunShape(c: Client, transport: nat -> Outcome, interrupted: nat -> Option<Error>, attempt: nat)
    ensures var t := Run(c, transport, interrupted, attempt);
      && attempt < t.attempts
      && (t.attempts <= attempt + 1 || t.attempts <= c.maxRetries + 1)
      && (|t.waits| == t.attempts - attempt - 1 || |t.waits| == t.attempts - attempt)
      && (t.result.Ok? ==> |t.waits| == t.attempts - attempt - 1)
      && (forall i :: 0 <= i < |t.waits| ==> t.waits[i] == Backoff(c.retryDelay, attempt + i + 1))
    decreases c.maxRetries - attempt
  {
    RunStep(c, transport, interrupted, attempt);
    if !Accepted(transport(attempt)) && attempt < c.maxRetries && interrupted(attempt + 1).None? {
      RunShape(c, transport, interrupted, attempt + 1);
      var t, rest := Run(c, transport, interrupted, attempt), Run(c, transport, interrupted, attempt + 1);
      assert t.waits == [Backoff(c.retryDelay, attempt + 1)] + rest.waits;
      assert forall i :: 1 <= i < |t.waits| ==> t.waits[i] == rest.waits[i - 1];
    }
  }

  /** Attempt `k` failed and the wait after it ran to its end, so attempt `k` + 1 was made. */
  predicate RetriedAfter(transport: nat -> Outcome, interrupted: nat -> Option<Error>, k: nat)
  {
    !Accepted(transport(k)) && interrupted(k + 1).None?
  }

  /** What a run of `Do` returns: a success is the last attempt's accepted response, and every
      attempt before the last failed and was followed by a wait the context did not end. */
  lemma {:induction false} RunOutcomes(c: Client, transport: nat -> Outcome, interrupted: nat -> Option<Error>, attempt: nat)
    ensures var t := Run(c, transport, interrupted, attempt);
      && attempt < t.attempts
      && (t.result.Ok? ==> Accepted(transport(t.attempts - 1)) && t.result.value == transport(t.attempts - 1).response)
      && (forall k: nat :: attempt <= k < t.attempts - 1 ==> RetriedAfter(transport, interrupted, k))
    decreases c.maxRetries - attempt
  {
    RunStep(c, transport, interrupted, attempt);
    if RetriedAfter(transport, interrupted, attempt) && attempt < c.maxRetries {
      RunOutcomes(c, transport, interrupted, attempt + 1);
      var t, rest := Run(c, transport, interrupted, attempt), Run(c, transport, interrupted, attempt + 1);
      assert t.result == rest.result && t.attempts == rest.attempts;
    } else {
      assert Run(c, transport, interrupted, attempt).attempts == attempt + 1;
    }
  }

  /** `Do`, as the Go writes it: a loop that sends the request, returns an accepted response,
      remembers the error of a failed attempt, gives up once `maxRetries` retries have been made,
      and otherwise waits the doubling backoff unless the context ends first. */
  method Do(c: Client, transport: nat -> Outcome, interrupted: nat -> Option<Error>)
    returns (result: Result<Response>, attempts: nat, waits: seq<int>)
    ensures Trace(result, attempts, waits) == Run(c, transport, interrupted, 0)
  {
    ghost var whole := Run(c, transport, interrupted, 0);
    var attempt: nat := 0;
    waits := [];
    while true
      invariant var t := Run(c, transport, interrupted, attempt);
        whole == Trace(t.result, t.attempts, waits + t.waits)
      decreases c.maxRetries - attempt
    {
      RunStep(c, transport, interrupted, attempt);
      ghost var before := waits;
      var outcome := transport(attempt);
      if outcome.Received? && !ShouldRetryStatus(outcome.response.status) {
        assert waits + [] == waits;
        return Ok(outcome.response), attempt + 1, waits;
      }
      var lastErr := if outcome.TransportError? then outcome.err else Fail("received status " + IntToString(outcome.response.status));
      if attempt >= c.maxRetries {
        assert waits + [] == waits;
        return Err(lastErr), attempt + 1, waits;
      }
      attempt := attempt + 1;
      var backoff := c.retryDelay * Pow2(attempt - 1);
      waits := waits + [backoff];
      var done := interrupted(attempt);
      if done.Some? {
        return Err(done.value), attempt, waits;
      }
      ghost var rest := Run(c, transport, interrupted, attempt);
      assert waits + rest.waits == before + ([backoff] + rest.waits);
    }
  }

  // ---------------------------------------------------------------- what the retry loop guarantees

  /** The context does not end during any of the waits before retries 1 to `upTo`. */
  predicate Uninterrupted(interrupted: nat -> Option<Error>, upTo: nat)
  {
    forall k :: 1 <= k <= upTo ==> interrupted(k).None?
  }

  /** The number of attempts is between 1 and `maxRetries` + 1. */
  lemma AttemptBound(c: Client, transport: nat -> Outcome, interrupted: nat -> Option<Error>)
    requires c.maxRetries >= 1
    ensures 1 <= Run(c, transport, interrupted, 0).attempts <= c.maxRetries + 1
  {
    RunShape(c, transport, interrupted, 0);
  }

  /** When the context stays alive, `Do` returns the first accepted outcome among the first
      `maxRetries` + 1 attempts, after exactly that many attempts. */
  lemma {:induction false} FirstAcceptedWins(c: Client, transport: nat -> Outcome, interrupted: nat -> Option<Error>, attempt: nat, n: nat)
    requires attempt <= n <= c.maxRetries
    requires Accepted(transport(n))
    requires forall k :: attempt <= k < n ==> !Accepted(transport(k))
    requires Uninterrupted(interrupted, n)
    ensures Run(c, transport, interrupted, attempt) == Trace(Ok(transport(n).response), n + 1, Backoffs(c.retryDelay, attempt, n))
    decreases n - attempt
  {
    if attempt < n {
      FirstAcceptedWins(c, transport, interrupted, attempt + 1, n);
    }
  }

  /** The backoffs of retries `from` + 1 through `last`. */
  function Backoffs(retryDelay: int, from: nat, last: nat): (ws: seq<int>)
    requires from <= last
    ensures |ws| == last - from
    ensures forall i :: 0 <= i < |ws| ==> ws[i] == Backoff(retryDelay, from + i + 1)
    decreases last - from
  {
    if from == last then [] else [Backoff(retryDelay, from + 1)] + Backoffs(retryDelay, from + 1, last)
  }

  /** When every attempt fails and the context stays alive, `Do` makes `maxRetries` + 1 attempts and
      returns the error of the last one. */
  lemma {:induction false} ExhaustedRetries(c: Client, transport: nat -> Outcome, interrupted: nat -> Option<Error>, attempt: nat)
    requires attempt <= c.maxRetries
    requires forall k :: attempt <= k <= c.maxRetries ==> !Accepted(transport(k))
    requires Uninterrupted(interrupted, c.maxRetries)
    ensures var t := Run(c, transport, interrupted, attempt);
      t == Trace(Err(AttemptError(transport(c.maxRetries))), c.maxRetries + 1, Backoffs(c.retryDelay, attempt, c.maxRetries))
    decreases c.maxRetries - attempt
  {
    if attempt < c.maxRetries {
      ExhaustedRetries(c, transport, interrupted, attempt + 1);
    }
  }

  /** A context that ends during the first wait makes `Do` return the context's error after one
      attempt (`NewClient` always allows at least one retry). */
  lemma CancelledDuringFirstWait(c: Client, transport: nat -> Outcome, interrupted: nat -> Option<Error>)
    requires c.maxRetries >= 1
    requires !Accepted(transport(0))
    requires interrupted(1).Some?
    ensures Run(c, transport, interrupted, 0) == Trace(Err(interrupted(1).value), 1, [c.retryDelay])
  {
  }

  function Sum(ws: seq<int>): int
  {
    if ws == [] then 0 else ws[0] + Sum(ws[1..])
  }

  /** The waits before retries from+1 to n add up to `retryDelay` * 2^n - `retryDelay` * 2^from;
      from the first retry (`from` = 0) that is `retryDelay` * (2^n - 1). */
  lemma {:induction false} TotalBackoff(retryDelay: int, from: nat, n: nat)
    requires from <= n
    ensures Sum(Backoffs(retryDelay, from, n)) == retryDelay * Pow2(n) - retryDelay * Pow2(from)
    decreases n - from
  {
    if from < n {
      TotalBackoff(retryDelay, from + 1, n);
      var ws := Backoffs(retryDelay, from, n);
      assert ws[1..] == Backoffs(retryDelay, from + 1, n);
      var p := Pow2(from);
      assert Pow2(from + 1) == 2 * p;
      assert retryDelay * (2 * p) == 2 * (retryDelay * p);
      assert ws[0] == retryDelay * p;
      assert Sum(ws) == ws[0] + Sum(ws[1..]);
    }
  }

  /** The retry test: two 500s then a 200, with five retries allowed, succeed on the third
      attempt. */
  lemma ServerErrorsThenSuccess(c: Client, interrupted: nat -> Option<Error>, transport: nat -> Outcome)
    requires c.maxRetries == 5
    requires transport(0) == Received(Response(500, "")) && transport(1) == Received(Response(500, ""))
    requires transport(2) == Received(Response(200, ""))
    requires Uninterrupted(interrupted, 2)
    ensures Run(c, transport, interrupted, 0).result == Ok(Response(200, ""))
    ensures Run(c, transport, interrupted, 0).attempts == 3
  {
    FirstAcceptedWins(c, transport, interrupted, 0, 2);
  }

  /** The give-up test: a server that always answers 500, with two retries allowed, makes `Do` fail
      after three attempts with the last status. */
  lemma AlwaysServerError(c: Client, interrupted: nat -> Option<Error>, transport: nat -> Outcome)
    requires c.maxRetries == 2
    requires forall k :: transport(k) == Received(Response(500, ""))
    requires Uninterrupted(interrupted, 2)
    ensures Run(c, transport, interrupted, 0).result == Err(Fail("received status 500"))
    ensures Run(c, transport, interrupted, 0).attempts == 3
  {
    ExhaustedRetries(c, transport, interrupted, 0);
    assert IntToString(500) == "500";
  }
}
