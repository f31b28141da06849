/** `fetch_x_trends` as a whole: validation before any request, the clamp of
    `max_results`, then the retry loop. The outcome each request would meet is
    given up front; `requests.get` and `time.sleep` are not modelled. */
module Trends {
  import opened Wrappers
  import opened Guard
  import opened Retry

  const Endpoint: string := "https://api.twitter.com/2/tweets/search/recent"

  /** The parts of a request that depend on the caller's arguments. */
  datatype Request = Request(endpoint: string, authorization: string, query: string, maxResults: int)

  /** The error raised before any request, if any: the credential is checked
      first, then the query. */
  function InputError(apiKey: Option<string>, query: string): (e: Option<FetchError>)
    ensures e == None <==> HasKey(apiKey) && !IsBlank(query)
    ensures !HasKey(apiKey) ==> e == Some(MissingApiKey)
    ensures HasKey(apiKey) && IsBlank(query) ==> e == Some(EmptyQuery)
  {
    if !HasKey(apiKey) then Some(MissingApiKey)
    else if IsBlank(query) then Some(EmptyQuery)
    else None
  }

  /** One call of `fetch_x_trends`. `sent` lists the requests issued, all
      alike; `waits` the sleeps between them. */
  method FetchTrends(query: string, maxResults: int, apiKey: Option<string>, outcomes: seq<Outcome>)
    returns (result: FetchResult, sent: seq<Request>, waits: seq<real>)
    requires MaxAttempts <= |outcomes|
    ensures InputError(apiKey, query).Some? ==>
      result == Failed(InputError(apiKey, query).value) && sent == [] && waits == []
    ensures InputError(apiKey, query).None? ==>
      && result == Simulate(outcomes).result
      && waits == Simulate(outcomes).waits
      && |sent| == Simulate(outcomes).requests
      && forall i :: 0 <= i < |sent| ==>
           sent[i] == Request(Endpoint, "Bearer " + apiKey.value, query, EffectiveMaxResults(maxResults))
    ensures 0 <= |sent| <= MaxAttempts
  {
    if apiKey.None? || apiKey.value == [] {
      return Failed(MissingApiKey), [], [];
    }
    if query == [] || Strip(query) == [] {
      return Failed(EmptyQuery), [], [];
    }
    var request := Request(Endpoint, "Bearer " + apiKey.value, query, Max(10, Min(maxResults, 100)));
    var requests;
    result, requests, waits := RetryLoop(outcomes);
    sent := seq(requests, _ => request);
  }
}
