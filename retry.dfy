/** The bounded retry loop of `fetch_x_trends`. Each attempt's outcome (the
    network is not modelled) is classified; a 200 or a non-429 client error
    ends the call, transport errors, 429 and 5xx are retried after a wait, and
    whatever else `raise_for_status()` lets through consumes the attempt
    silently. Waits are recorded in seconds without the uniform [0, 1) jitter
    the source adds to each one. */
module Retry {
  import opened Wrappers
  import opened Normalize

  const MaxAttempts: nat := 5
  const BackoffBase: real := 1.0
  const TooManyRequests: int := 429

  /** What one `requests.get` produced: an exception, or a response with its
      status, its `Retry-After` value as `float()` parses it (None when the
      header is missing or does not parse), its headers with their names as
      received, and its JSON body (None when it does not decode to an object). */
  datatype Outcome =
    | TransportError
    | Response(status: int, retryAfter: Option<real>, headers: map<string, string>, body: Option<Body>)

  /** The retryable cause kept in `last_exception`. */
  datatype Cause = Transport | RateLimited | ServerError(status: int)

  datatype FetchError =
    | MissingApiKey
    | EmptyQuery
    | ApiError(status: int)
    | UndecodableBody
    | ExhaustedRetries(lastCause: Option<Cause>)

  datatype FetchResult = Fetched(rows: seq<Row>, headers: map<string, string>) | Failed(error: FetchError)

  /** How the loop treats one outcome. */
  datatype Verdict =
    | Succeed(body: Option<Body>, headers: map<string, string>)
    | Retryable(cause: Cause, wait: real)
    | Fatal(status: int)
    | Ignored

  function Pow2(n: nat): (r: nat)
    ensures r >= 1
  {
    if n == 0 then 1 else 2 * Pow2(n - 1)
  }

  /** `backoff_base * 2 ** (attempt - 1)`, attempts counted from 1: the first
      retry waits the base, and no retry waits less. */
  function Backoff(attempt: nat): (r: real)
    requires attempt >= 1
    ensures attempt == 1 ==> r == BackoffBase
    ensures r >= BackoffBase
  {
    BackoffBase * Pow2(attempt - 1) as real
  }

  lemma {:induction false} Pow2Doubles(a: nat, b: nat)
    requires a < b
    ensures 2 * Pow2(a) <= Pow2(b)
  {
    if b > a + 1 {
      Pow2Doubles(a, b - 1);
    }
  }

  /** The backoff strictly grows (at least doubles) from one attempt to any
      later one. */
  lemma BackoffIncreases(a: nat, b: nat)
    requires 1 <= a < b
    ensures Backoff(a) < Backoff(b)
    ensures 2.0 * Backoff(a) <= Backoff(b)
  {
    Pow2Doubles(a - 1, b - 1);
  }

  /** `resp.raise_for_status()` raises for exactly these statuses. */
  predicate RaisesForStatus(status: int) {
    400 <= status < 600
  }

  predicate IsServerError(status: int) {
    500 <= status < 600
  }

  /** The classification the loop applies on attempt `attempt`. */
  function Classify(o: Outcome, attempt: nat): (v: Verdict)
    requires attempt >= 1
    ensures v.Succeed? <==> o.Response? && o.status == 200
    ensures v.Retryable? <==> o.TransportError? || o.status == TooManyRequests || IsServerError(o.status)
    ensures v.Fatal? <==> o.Response? && 400 <= o.status < 500 && o.status != TooManyRequests
    ensures v.Fatal? ==> v.status == o.status
    ensures v.Succeed? ==> v.body == o.body && v.headers == o.headers
    ensures v.Retryable? && o.Response? && o.status == TooManyRequests && o.retryAfter.Some? && o.retryAfter.value > 0.0
      ==> v == Retryable(RateLimited, o.retryAfter.value)
    ensures v.Retryable? && !(o.Response? && o.status == TooManyRequests && o.retryAfter.Some? && o.retryAfter.value > 0.0)
      ==> v.wait == Backoff(attempt)
    ensures v.Retryable? ==> v.wait > 0.0
    ensures v.Retryable? ==>
      v.cause == (if o.TransportError? then Transport
                  else if o.status == TooManyRequests then RateLimited
                  else ServerError(o.status))
  {
    match o
    case TransportError => Retryable(Transport, Backoff(attempt))
    case Response(status, retryAfter, headers, body) =>
      if status == 200 then Succeed(body, headers)
      else if status == TooManyRequests then
        match retryAfter
        case Some(w) => if w > 0.0 then Retryable(RateLimited, w) else Retryable(RateLimited, Backoff(attempt))
        case None => Retryable(RateLimited, Backoff(attempt))
      else if IsServerError(status) then Retryable(ServerError(status), Backoff(attempt))
      else if RaisesForStatus(status) then Fatal(status)
      else Ignored
  }

  /** An outcome is passed over silently exactly when it is a status other
      than 200 that `raise_for_status()` does not raise for. */
  lemma ClassesPartition(o: Outcome, attempt: nat)
    requires attempt >= 1
    ensures Classify(o, attempt).Ignored? <==> o.Response? && o.status != 200 && !RaisesForStatus(o.status)
  {
  }

  predicate Decisive(v: Verdict) {
    v.Succeed? || v.Fatal?
  }

  /** The result a decisive verdict returns: a fatal status fails the call
      with that status; a 200 yields the normalised rows and the response's
      headers, or fails when the body does not decode. */
  function Decided(v: Verdict): (r: FetchResult)
    requires Decisive(v)
    ensures v.Fatal? ==> r == Failed(ApiError(v.status))
    ensures v.Succeed? ==> (r.Fetched? <==> v.body.Some?)
    ensures v.Succeed? && v.body.None? ==> r == Failed(UndecodableBody)
    ensures r.Fetched? ==> r.headers == v.headers && |r.rows| == |TweetsOf(v.body.value)|
  {
    match v
    case Succeed(body, headers) =>
      (match body
       case None => Failed(UndecodableBody)
       case Some(b) => Fetched(NormalizedRows(b), headers))
    case Fatal(status) => Failed(ApiError(status))
  }

  /** What one call did: its result, how many requests it issued and the
      waits it slept, in order. */
  datatype Trace = Trace(result: FetchResult, requests: nat, waits: seq<real>)

  /** The loop from attempt `attempt` on, with the cause and waits recorded
      so far. */
  function RunFrom(outcomes: seq<Outcome>, attempt: nat, last: Option<Cause>, waits: seq<real>): (t: Trace)
    requires 1 <= attempt <= MaxAttempts + 1
    requires MaxAttempts <= |outcomes|
    ensures attempt - 1 <= t.requests <= MaxAttempts
    ensures attempt <= MaxAttempts ==> attempt <= t.requests
    ensures waits <= t.waits && |t.waits| <= |waits| + t.requests - (attempt - 1)
    decreases MaxAttempts + 1 - attempt
  {
    if attempt == MaxAttempts + 1 then Trace(Failed(ExhaustedRetries(last)), MaxAttempts, waits)
    else
      var v := Classify(outcomes[attempt - 1], attempt);
      match v
      case Succeed(_, _) => Trace(Decided(v), attempt, waits)
      case Fatal(_) => Trace(Decided(v), attempt, waits)
      case Retryable(cause, wait) => RunFrom(outcomes, attempt + 1, Some(cause), waits + [wait])
      case Ignored => RunFrom(outcomes, attempt + 1, last, waits)
  }

  /** A whole call, given the outcome each attempt would meet: it issues one
      to five requests and sleeps at most once per request. */
  function Simulate(outcomes: seq<Outcome>): (t: Trace)
    requires MaxAttempts <= |outcomes|
    ensures 1 <= t.requests <= MaxAttempts
    ensures |t.waits| <= t.requests
  {
    RunFrom(outcomes, 1, None, [])
  }

  /** The verdict on the (0-based) j-th outcome. */
  function VerdictAt(outcomes: seq<Outcome>, j: nat): Verdict
    requires j < |outcomes|
  {
    Classify(outcomes[j], j + 1)
  }

  /** The waits slept during the first n attempts: one per retryable outcome. */
  function WaitsOf(outcomes: seq<Outcome>, n: nat): (w: seq<real>)
    requires n <= |outcomes|
    ensures |w| <= n
  {
    if n == 0 then []
    else
      var v := VerdictAt(outcomes, n - 1);
      WaitsOf(outcomes, n - 1) + (if v.Retryable? then [v.wait] else [])
  }

  /** The (0-based) index of the last retryable outcome among the first n. */
  function LastRetryIndex(outcomes: seq<Outcome>, n: nat): (r: Option<nat>)
    requires n <= |outcomes|
    ensures r.None? <==> forall j :: 0 <= j < n ==> !VerdictAt(outcomes, j).Retryable?
    ensures r.Some? ==> r.value < n && VerdictAt(outcomes, r.value).Retryable?
    ensures r.Some? ==> forall k :: r.value < k < n ==> !VerdictAt(outcomes, k).Retryable?
  {
    if n == 0 then None
    else if VerdictAt(outcomes, n - 1).Retryable? then Some(n - 1)
    else LastRetryIndex(outcomes, n - 1)
  }

  /** `last_exception` after the first n attempts: the cause of the last
      retryable outcome, None when there was none. */
  function LastCauseOf(outcomes: seq<Outcome>, n: nat): Option<Cause>
    requires n <= |outcomes|
  {
    match LastRetryIndex(outcomes, n)
    case None => None
    case Some(j) => Some(VerdictAt(outcomes, j).cause)
  }

  /** The loop in declarative terms, for a trace t: a call issues between 1
      and 5 requests; every attempt but the last was neither a 200 nor a fatal
      client error; the last attempt either decided the result or was the
      fifth, in which case the call fails with the last retryable cause; and
      the call slept once per retryable outcome, in order. */
  predicate Explains(outcomes: seq<Outcome>, t: Trace)
    requires MaxAttempts <= |outcomes|
  {
    && 1 <= t.requests <= MaxAttempts
    && (forall j :: 0 <= j < t.requests - 1 ==> !Decisive(VerdictAt(outcomes, j)))
    && (Decisive(VerdictAt(outcomes, t.requests - 1)) ==> t.result == Decided(VerdictAt(outcomes, t.requests - 1)))
    && (!Decisive(VerdictAt(outcomes, t.requests - 1)) ==>
          t.requests == MaxAttempts && t.result == Failed(ExhaustedRetries(LastCauseOf(outcomes, MaxAttempts))))
    && t.waits == WaitsOf(outcomes, t.requests)
  }

  lemma {:induction false} RunFromExplained(outcomes: seq<Outcome>, attempt: nat, last: Option<Cause>, waits: seq<real>)
    requires 1 <= attempt <= MaxAttempts + 1
    requires MaxAttempts <= |outcomes|
    requires forall j :: 0 <= j < attempt - 1 ==> !Decisive(VerdictAt(outcomes, j))
    requires last == LastCauseOf(outcomes, attempt - 1)
    requires waits == WaitsOf(outcomes, attempt - 1)
    ensures Explains(outcomes, RunFrom(outcomes, attempt, last, waits))
    decreases MaxAttempts + 1 - attempt
  {
    if attempt <= MaxAttempts {
      var v := VerdictAt(outcomes, attempt - 1);
      if Decisive(v) {
        assert RunFrom(outcomes, attempt, last, waits) == Trace(Decided(v), attempt, waits);
      } else {
        var last', waits' := if v.Retryable? then Some(v.cause) else last, if v.Retryable? then waits + [v.wait] else waits;
        assert RunFrom(outcomes, attempt, last, waits) == RunFrom(outcomes, attempt + 1, last', waits');
        assert last' == LastCauseOf(outcomes, attempt);
        assert waits' == WaitsOf(outcomes, attempt);
        RunFromExplained(outcomes, attempt + 1, last', waits');
      }
    } else {
      assert !Decisive(VerdictAt(outcomes, MaxAttempts - 1));
    }
  }

  /** Every call is explained by its outcomes in the declarative terms above. */
  lemma SimulateExplained(outcomes: seq<Outcome>)
    requires MaxAttempts <= |outcomes|
    ensures Explains(outcomes, Simulate(outcomes))
  {
    RunFromExplained(outcomes, 1, None, []);
  }

  /** A 200 at attempt k+1, with no 200 and no fatal client error before it,
      is the call's result, after exactly k+1 requests. */
  lemma FirstSuccessReturns(outcomes: seq<Outcome>, k: nat)
    requires MaxAttempts <= |outcomes| && k < MaxAttempts
    requires outcomes[k].Response? && outcomes[k].status == 200
    requires forall j :: 0 <= j < k ==> !Decisive(VerdictAt(outcomes, j))
    ensures Simulate(outcomes).requests == k + 1
    ensures Simulate(outcomes).result ==
      match outcomes[k].body
      case None => Failed(UndecodableBody)
      case Some(b) => Fetched(NormalizedRows(b), outcomes[k].headers)
  {
    SimulateExplained(outcomes);
  }

  /** A client error other than 429 at attempt k+1, with nothing decisive
      before it, ends the call there: no further request is issued. */
  lemma ClientErrorIsFatal(outcomes: seq<Outcome>, k: nat)
    requires MaxAttempts <= |outcomes| && k < MaxAttempts
    requires outcomes[k].Response? && 400 <= outcomes[k].status < 500 && outcomes[k].status != TooManyRequests
    requires forall j :: 0 <= j < k ==> !Decisive(VerdictAt(outcomes, j))
    ensures Simulate(outcomes).requests == k + 1
    ensures Simulate(outcomes).result == Failed(ApiError(outcomes[k].status))
  {
    SimulateExplained(outcomes);
  }

  /** Without a 200 or a fatal client error among the five outcomes the call
      fails after five requests, carrying the last retryable cause; that cause
      is absent exactly when every outcome was one `raise_for_status()` lets
      through ("unknown reasons"). */
  lemma ExhaustionCarriesLastCause(outcomes: seq<Outcome>)
    requires MaxAttempts <= |outcomes|
    requires forall j :: 0 <= j < MaxAttempts ==> !Decisive(VerdictAt(outcomes, j))
    ensures Simulate(outcomes).requests == MaxAttempts
    ensures Simulate(outcomes).result == Failed(ExhaustedRetries(LastCauseOf(outcomes, MaxAttempts)))
    ensures LastCauseOf(outcomes, MaxAttempts).None? <==>
      forall j :: 0 <= j < MaxAttempts ==> VerdictAt(outcomes, j).Ignored?
  {
    SimulateExplained(outcomes);
  }

  /** The loop of `fetch_x_trends`, attempt by attempt, with `last_exception`
      kept in `last` and each sleep appended to `waits`. */
  method RetryLoop(outcomes: seq<Outcome>) returns (result: FetchResult, requests: nat, waits: seq<real>)
    requires MaxAttempts <= |outcomes|
    ensures Trace(result, requests, waits) == Simulate(outcomes)
  {
    var last: Option<Cause> := None;
    waits := [];
    var attempt := 1;
    while attempt <= MaxAttempts
      invariant 1 <= attempt <= MaxAttempts + 1
      invariant RunFrom(outcomes, attempt, last, waits) == Simulate(outcomes)
      decreases MaxAttempts + 1 - attempt
    {
      ghost var v := Classify(outcomes[attempt - 1], attempt);
      ghost var rest := RunFrom(outcomes, attempt, last, waits);
      match outcomes[attempt - 1] {
        case TransportError =>
          last := Some(Transport);
          waits := waits + [Backoff(attempt)];
        case Response(status, retryAfter, headers, body) =>
          if status == 200 {
            match body {
              case None =>
                result := Failed(UndecodableBody);
              case Some(b) =>
                var rows := BuildRows(b);
                result := Fetched(rows, headers);
            }
            requests := attempt;
            assert rest == Trace(Decided(v), attempt, waits);
            return;
          }
          if status == TooManyRequests {
            if retryAfter.Some? && retryAfter.value > 0.0 {
              waits := waits + [retryAfter.value];
            } else {
              waits := waits + [Backoff(attempt)];
            }
            last := Some(RateLimited);
          } else if 500 <= status < 600 {
            waits := waits + [Backoff(attempt)];
            last := Some(ServerError(status));
          } else if RaisesForStatus(status) {
            result, requests := Failed(ApiError(status)), attempt;
            assert rest == Trace(Decided(v), attempt, waits);
            return;
          }
      }
      assert rest == RunFrom(outcomes, attempt + 1, last, waits);
      attempt := attempt + 1;
    }
    result, requests := Failed(ExhaustedRetries(last)), MaxAttempts;
  }
  /** Two 429s carrying `Retry-After: 2`, then a 200: the call waits the
      server's two seconds twice (not the backoff) and succeeds on the third
      request. */
  lemma RetryAfterThenSuccess(h: map<string, string>, b: Body, rest: seq<Outcome>)
    requires |rest| >= 2
    ensures var outcomes := [Response(429, Some(2.0), h, None), Response(429, Some(2.0), h, None),
                             Response(200, None, h, Some(b))] + rest;
      Simulate(outcomes) == Trace(Fetched(NormalizedRows(b), h), 3, [2.0, 2.0])
  {
  }

  /** Five 503s: the call fails after five requests, with the server error
      as its cause, having slept 1, 2, 4, 8 and 16 seconds. */
  lemma FiveServerErrorsExhaust(h: map<string, string>)
    ensures var r := Response(503, None, h, None);
      Simulate([r, r, r, r, r]) == Trace(Failed(ExhaustedRetries(Some(ServerError(503)))), 5, [1.0, 2.0, 4.0, 8.0, 16.0])
  {
  }

  /** A 404 on the first attempt fails the call after one request. */
  lemma NotFoundIsImmediate(h: map<string, string>, rest: seq<Outcome>)
    requires |rest| >= 4
    ensures Simulate([Response(404, None, h, None)] + rest) == Trace(Failed(ApiError(404)), 1, [])
  {
  }

  /** Five redirects pass `raise_for_status()` silently: five requests, no
      wait and no recorded cause ("unknown reasons"). */
  lemma RedirectsExhaustWithoutCause(h: map<string, string>)
    ensures var r := Response(302, None, h, None);
      Simulate([r, r, r, r, r]) == Trace(Failed(ExhaustedRetries(None)), 5, [])
  {
  }
}

