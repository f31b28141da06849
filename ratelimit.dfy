/** The rate-limit read-out shown after a fetch: each field is looked up under
    its lower-case header name, then under the capitalised one, as Python's
    `a or b or default` chain does. The headers are the plain dict returned
    with the rows, so names match exactly as the server sent them. */
module RateLimit {
  import opened Wrappers

  type Headers = map<string, string>

  const NotAvailable: string := "N/A"

  /** `headers.get(name)`. */
  function Get(h: Headers, name: string): Option<string> {
    if name in h then Some(h[name]) else None
  }

  /** Python truthiness of a header value: present and non-empty. */
  predicate Truthy(v: Option<string>) {
    v.Some? && v.value != ""
  }

  /** Python's `x or y`: x when truthy, otherwise y as it is. */
  function Or(x: Option<string>, y: Option<string>): Option<string> {
    if Truthy(x) then x else y
  }

  /** `headers.get(lower) or headers.get(capital)`. */
  function Either(h: Headers, lower: string, capital: string): (r: Option<string>)
    ensures Truthy(Get(h, lower)) ==> r == Some(h[lower])
    ensures !Truthy(Get(h, lower)) ==> r == Get(h, capital)
    ensures Truthy(r) <==> Truthy(Get(h, lower)) || Truthy(Get(h, capital))
  {
    Or(Get(h, lower), Get(h, capital))
  }

  /** `headers.get(lower) or headers.get(capital) or default`. */
  function EitherOr(h: Headers, lower: string, capital: string, default: string): (r: string)
    requires default != ""
    ensures r != ""
    ensures Truthy(Get(h, lower)) ==> r == h[lower]
    ensures !Truthy(Get(h, lower)) && Truthy(Get(h, capital)) ==> r == h[capital]
    ensures !Truthy(Get(h, lower)) && !Truthy(Get(h, capital)) ==> r == default
  {
    Or(Either(h, lower, capital), Some(default)).value
  }

  /** The four values the dashboard reads. `reset` has no default: it may be
      None or even the empty string, which the caller treats as absent. */
  datatype RateLimitView = RateLimitView(limit: string, remaining: string, reset: Option<string>, retryAfter: string)

  function View(h: Headers): (v: RateLimitView)
    ensures v.limit != "" && v.remaining != "" && v.retryAfter != ""
    ensures Truthy(Get(h, "x-rate-limit-limit")) ==> v.limit == h["x-rate-limit-limit"]
    ensures Truthy(Get(h, "x-rate-limit-remaining")) ==> v.remaining == h["x-rate-limit-remaining"]
    ensures Truthy(Get(h, "x-rate-limit-reset")) ==> v.reset == Some(h["x-rate-limit-reset"])
    ensures Truthy(Get(h, "retry-after")) ==> v.retryAfter == h["retry-after"]
    ensures !Truthy(Get(h, "x-rate-limit-limit")) ==>
      v.limit == if Truthy(Get(h, "X-Rate-Limit-Limit")) then h["X-Rate-Limit-Limit"] else NotAvailable
    ensures !Truthy(Get(h, "x-rate-limit-remaining")) ==>
      v.remaining == if Truthy(Get(h, "X-Rate-Limit-Remaining")) then h["X-Rate-Limit-Remaining"] else NotAvailable
    ensures !Truthy(Get(h, "x-rate-limit-reset")) ==> v.reset == Get(h, "X-Rate-Limit-Reset")
    ensures !Truthy(Get(h, "retry-after")) ==>
      v.retryAfter == if Truthy(Get(h, "Retry-After")) then h["Retry-After"] else NotAvailable
  {
    RateLimitView(
      EitherOr(h, "x-rate-limit-limit", "X-Rate-Limit-Limit", NotAvailable),
      EitherOr(h, "x-rate-limit-remaining", "X-Rate-Limit-Remaining", NotAvailable),
      Either(h, "x-rate-limit-reset", "X-Rate-Limit-Reset"),
      EitherOr(h, "retry-after", "Retry-After", NotAvailable))
  }

  /** h with `name` set to v when v is present. */
  function Put(h: Headers, name: string, v: Option<string>): Headers {
    if v.Some? then h[name := v.value] else h
  }

  /** Headers carrying the four values under the hyphenated lower-case names. */
  function LowerCaseHeaders(limit: Option<string>, remaining: Option<string>, reset: Option<string>, retryAfter: Option<string>): Headers {
    Put(Put(Put(Put(map[], "x-rate-limit-limit", limit), "x-rate-limit-remaining", remaining),
            "x-rate-limit-reset", reset), "retry-after", retryAfter)
  }

  /** The same four values under the capitalised names. */
  function CapitalisedHeaders(limit: Option<string>, remaining: Option<string>, reset: Option<string>, retryAfter: Option<string>): Headers {
    Put(Put(Put(Put(map[], "X-Rate-Limit-Limit", limit), "X-Rate-Limit-Remaining", remaining),
            "X-Rate-Limit-Reset", reset), "Retry-After", retryAfter)
  }

  /** The same values sent under the lower-case names or under the capitalised
      names give the same read-out. An empty reset value is the one exception
      (the chain yields None for one spelling and "" for the other), hence the
      precondition; both are treated as absent by the dashboard. */
  lemma ConventionsAgree(limit: Option<string>, remaining: Option<string>, reset: Option<string>, retryAfter: Option<string>)
    requires reset != Some("")
    ensures View(LowerCaseHeaders(limit, remaining, reset, retryAfter))
         == View(CapitalisedHeaders(limit, remaining, reset, retryAfter))
  {
    var lo := LowerCaseHeaders(limit, remaining, reset, retryAfter);
    var ca := CapitalisedHeaders(limit, remaining, reset, retryAfter);
    assert Get(lo, "x-rate-limit-limit") == limit && Get(lo, "X-Rate-Limit-Limit").None?;
    assert Get(lo, "x-rate-limit-remaining") == remaining && Get(lo, "X-Rate-Limit-Remaining").None?;
    assert Get(lo, "x-rate-limit-reset") == reset && Get(lo, "X-Rate-Limit-Reset").None?;
    assert Get(lo, "retry-after") == retryAfter && Get(lo, "Retry-After").None?;
    assert Get(ca, "X-Rate-Limit-Limit") == limit && Get(ca, "x-rate-limit-limit").None?;
    assert Get(ca, "X-Rate-Limit-Remaining") == remaining && Get(ca, "x-rate-limit-remaining").None?;
    assert Get(ca, "X-Rate-Limit-Reset") == reset && Get(ca, "x-rate-limit-reset").None?;
    assert Get(ca, "Retry-After") == retryAfter && Get(ca, "retry-after").None?;
  }

  /** When both spellings are present and non-empty, the lower-case one wins.
      A response's headers cannot hold both: `requests` keeps them in a
      case-insensitive dictionary, so `dict(resp.headers)` has one entry per
      name whatever its case. The lemma documents the order of the chain. */
  lemma LowerCaseWins(h: Headers)
    requires Truthy(Get(h, "x-rate-limit-remaining")) && Truthy(Get(h, "X-Rate-Limit-Remaining"))
    ensures View(h).remaining == h["x-rate-limit-remaining"]
  {
  }

  /** Headers that carry none of the eight rate-limit names (the page shows
      the read-out for any non-empty header dict) read "N/A" and reset None. */
  lemma AbsentReadsNotAvailable(h: Headers)
    requires "x-rate-limit-limit" !in h && "X-Rate-Limit-Limit" !in h
    requires "x-rate-limit-remaining" !in h && "X-Rate-Limit-Remaining" !in h
    requires "x-rate-limit-reset" !in h && "X-Rate-Limit-Reset" !in h
    requires "retry-after" !in h && "Retry-After" !in h
    ensures View(h) == RateLimitView(NotAvailable, NotAvailable, None, NotAvailable)
  {
  }
}
