# Resilient trend fetch of ViralX AI, modelled in Dafny

The dashboard script `streamlit_app_Version4.py` has one piece of real logic:
`fetch_x_trends`. It validates its inputs and clamps `max_results` into the
recent-search endpoint's range [10, 100]. It then issues at most five GET
requests. Each outcome is classified:

- a transport exception, a 429 or a 5xx is retried after a wait;
- a 200 is normalised into one row per tweet;
- any other 4xx is fatal.

Beside it, `demo_trends_dataframe` produces synthetic rows, and the page reads
rate-limit headers under two spellings.

The model is deterministic. The network is replaced by a sequence of
`Outcome`s, one per attempt, given up front: `requests.get` always either
returns or raises, so each of the five attempts meets one. Sleeps are
recorded as a sequence of seconds. The clock is a parameter.

Modules:

- `Wrappers`: the `Option` used for every key that may be absent.
- `Guard`: Python's `str.strip()` whitespace, the blank-query test, the
  credential test and the clamp.
- `Normalize`: the `author_id -> username` map and the join, as a
  specification function (`NormalizedRows`) and as the appending loop
  (`BuildRows`) proved equal to it.
- `Retry`: the classification (`Classify`), the loop as a recursive
  specification (`RunFrom`, `Simulate`), its declarative characterisation
  (`Explains`, proved by `SimulateExplained`) with its corollaries, and the
  imperative loop (`RetryLoop`) proved equal to `Simulate`.
- `Demo`: the demo row generator as a loop, with the row count, ranks,
  timestamps and scores stated.
- `RateLimit`: the `a or b or "N/A"` header chains.
- `Trends`: `fetch_x_trends` end to end. It checks the inputs, clamps, runs
  the loop and lists the requests it sends.

Behaviour of `fetch_x_trends` and `demo_trends_dataframe` that a reader might expect otherwise, and that the model keeps:

- A status other than 200 that `raise_for_status()` does not raise for,
  that is anything outside [400, 600) (1xx, 2xx other than 200, 3xx, ...),
  falls out of the loop body. The attempt is consumed with no wait and no
  recorded cause. If only such statuses occur, the call fails "for unknown
  reasons" (`ExhaustedRetries(None)`). A call can therefore end exhausted
  without every attempt having been retryable.
- The loop also sleeps after a retryable fifth attempt, before giving up.
- `user_map` is keyed by `u.get("id")`, which may be `None`. A tweet without
  `author_id` therefore picks up the username of a user without `id`, if
  there is one. For duplicate ids the later user wins.
- A 200 whose body is not a JSON object makes `resp.json()` or `.get` raise
  outside the `try`. The call ends there (`UndecodableBody`).
- The rate-limit lookups in the page match only the two exact spellings. The
  headers are a plain `dict` copy, so names are not matched
  case-insensitively.
- A `max_results` that is not positive is clamped to 10, not rejected.
- `demo_trends_dataframe` does not validate the query: a blank query still
  yields demo rows.

## Model

| member | source | states |
|---|---|---|
| `Guard.TrimStart` | streamlit_app_Version4.py:64 | the result is the suffix after the leading whitespace (Python `str.isspace` characters); it is empty or starts with a non-space |
| `Guard.TrimEnd` | streamlit_app_Version4.py:64 | the result is the prefix before the trailing whitespace; it is empty or ends with a non-space |
| `Guard.Strip` | streamlit_app_Version4.py:64 | `query.strip()` is no longer than the query, neither starts nor ends with whitespace, and is empty exactly when the query is all whitespace |
| `Guard.IsBlank` | streamlit_app_Version4.py:64-65 | `not query or not query.strip()` holds exactly when every character of the query is whitespace (the empty query included) |
| `Guard.Clamp` | streamlit_app_Version4.py:70 | `max(lo, min(x, hi))` lies in [lo, hi], equals x when x is in range, lo below it and hi above it |
| `Guard.EffectiveMaxResults` | streamlit_app_Version4.py:69-70 | the `max_results` sent always lies in [10, 100] and equals the request when that is already in range |
| `Trends.InputError` | streamlit_app_Version4.py:62-65 | no error exactly when the key is present and non-empty and the query is not blank; the key is checked before the query |
| `Trends.FetchTrends` | streamlit_app_Version4.py:55-156 | an input error returns before any request (no request, no wait); otherwise the result and waits are those of the retry loop, and every request sent carries the bearer key, the query and the clamped count, at most five of them |
| `Retry.Backoff` | streamlit_app_Version4.py:81-89 | the backoff of the first attempt is the base of 1 second, and no attempt backs off less |
| `Retry.BackoffIncreases` | streamlit_app_Version4.py:89 | the backoff `1 * 2^(attempt-1)` strictly increases, in fact at least doubles, from any attempt to a later one |
| `Retry.Classify` | streamlit_app_Version4.py:84-150 | 200 succeeds with its body and headers; transport errors, 429 and 5xx are retried; a 4xx other than 429 is fatal with its status; a retry records its cause (transport error, rate limit, or the 5xx status); a 429 with a positive Retry-After waits that long, every other retry waits the backoff of this attempt; every wait is positive |
| `Retry.ClassesPartition` | streamlit_app_Version4.py:146-150 | an outcome is passed over silently exactly when it is a non-200 status that `raise_for_status()` does not raise for (outside [400, 600)) |
| `Retry.Decided` | streamlit_app_Version4.py:94-122 | a fatal status fails the call with that status; a 200 returns the response's headers and one row per tweet, or fails when the body does not decode |
| `Retry.RunFrom` | streamlit_app_Version4.py:84-156 | the loop from a given attempt issues no more than five requests in all and only appends to the waits already recorded, at most one per request |
| `Retry.Simulate` | streamlit_app_Version4.py:80-156 | a whole call issues between one and five requests and sleeps at most once per request |
| `Retry.WaitsOf` | streamlit_app_Version4.py:89-90 | the first n attempts sleep at most n times |
| `Retry.LastRetryIndex` | streamlit_app_Version4.py:88 | the last retryable outcome among the first n, or none exactly when none of them was retryable |
| `Retry.RunFromExplained` | streamlit_app_Version4.py:80-156 | from any attempt reached with nothing decisive before it, the loop's trace satisfies the declarative description `Explains` |
| `Retry.SimulateExplained` | streamlit_app_Version4.py:80-156 | a call issues 1 to 5 requests; all but the last outcome were neither 200 nor fatal; the last one decided the result, or it was the fifth and the call fails with the last retryable cause; one wait per retryable outcome, in order |
| `Retry.FirstSuccessReturns` | streamlit_app_Version4.py:94-122 | a 200 at attempt k+1 with no 200 or fatal 4xx before it returns its normalised rows and headers (or fails on an undecodable body) after exactly k+1 requests |
| `Retry.ClientErrorIsFatal` | streamlit_app_Version4.py:146-150 | a 4xx other than 429 with nothing decisive before it fails the call with that status, and no further request is issued |
| `Retry.ExhaustionCarriesLastCause` | streamlit_app_Version4.py:152-156 | without a 200 or fatal 4xx in five attempts the call fails after five requests with the last retryable cause, absent exactly when every outcome was silently passed over |
| `Retry.RetryLoop` | streamlit_app_Version4.py:80-156 | the imperative loop's result, request count and waits equal those of the specification `Simulate` |
| `Retry.RetryAfterThenSuccess` | streamlit_app_Version4.py:125-137 | two 429s with Retry-After 2 and then a 200 wait 2 s twice and succeed on the third request |
| `Retry.FiveServerErrorsExhaust` | streamlit_app_Version4.py:139-144 | five 503s fail after five requests with the server error as cause, having slept 1, 2, 4, 8 and 16 s |
| `Retry.NotFoundIsImmediate` | streamlit_app_Version4.py:146-150 | a 404 first fails after one request with no wait |
| `Retry.RedirectsExhaustWithoutCause` | streamlit_app_Version4.py:146-156 | five 302s consume all attempts with no wait and no recorded cause |
| `Normalize.UserMap` | streamlit_app_Version4.py:101 | the map's keys are exactly the ids (possibly None) of the users |
| `Normalize.LastIndexWithId` | streamlit_app_Version4.py:101 | the last user carrying an id, or none exactly when no user carries it |
| `Normalize.UserMapLookup` | streamlit_app_Version4.py:101-111 | `user_map.get(author_id)` is the username of the last user with that id, and None when there is none |
| `Normalize.NormalizedRows` | streamlit_app_Version4.py:96-118 | one row per tweet in response order, with the tweet's fields, the author's username (None when unmatched) and the `public_metrics` counts (None when absent) |
| `Normalize.MissingAuthorLeavesNone` | streamlit_app_Version4.py:111 | a tweet whose author id matches no user still gets its row, with no username |
| `Normalize.BuildRows` | streamlit_app_Version4.py:103-118 | the appending loop produces exactly `NormalizedRows` |
| `Demo.DemoCount` | streamlit_app_Version4.py:163 | the demo row count is `max(5, min(n, 20))`: in [5, 20] and equal to n when n is in range |
| `Demo.DecimalString` | streamlit_app_Version4.py:170 | the rank label is a non-empty string of decimal digits without a leading zero |
| `Demo.DecimalRoundTrip` | streamlit_app_Version4.py:170 | the label written for n reads back as n |
| `Demo.Score` | streamlit_app_Version4.py:171 | the score of row i is 100 - 3i plus 0, 1.5 or 3 (0 when i is a multiple of 3), a multiple of 0.5 that the rounding leaves unchanged |
| `Demo.ScoreDecreases` | streamlit_app_Version4.py:171 | the demo score strictly decreases from each row to the next |
| `Demo.DemoTrends` | streamlit_app_Version4.py:159-176 | the number of rows is the clamped count; row i has rank i+1, timestamp now - 60i and its labels; timestamps fall by exactly 60 and scores strictly from row to row |
| `RateLimit.Either` | streamlit_app_Version4.py:226 | the lower-case value when present and non-empty, otherwise whatever the capitalised name holds |
| `RateLimit.EitherOr` | streamlit_app_Version4.py:224-227 | the lower-case value when non-empty, else the capitalised one when non-empty, else "N/A"; never empty |
| `RateLimit.View` | streamlit_app_Version4.py:224-227 | each field is the lower-case header when non-empty, else the capitalised one when non-empty, else "N/A" (reset: else whatever the capitalised name holds); limit, remaining and retry-after are never empty |
| `RateLimit.ConventionsAgree` | streamlit_app_Version4.py:224-227 | the same values under the lower-case or the capitalised names give the same read-out, except an empty reset value (None under one spelling, "" under the other, both shown as absent at line 233) |
| `RateLimit.LowerCaseWins` | streamlit_app_Version4.py:225 | with both spellings present the lower-case one is shown (a real response cannot carry both, its header names being case-insensitive) |
| `RateLimit.AbsentReadsNotAvailable` | streamlit_app_Version4.py:223-227 | any header dict holding none of the eight rate-limit names reads "N/A" in every field and None for reset |

## Left out

- The Streamlit page (title, sidebar, buttons, metric cards, messages) and the choice between demo and live data at lines 182-259: presentation only. `streamlit_app.py` holds page text only and is not part of this model.
- `get_api_key` (lines 34-51): it reads the secrets store and the environment. The key is a parameter.
- `@st.cache_data(ttl=300)`: memoisation by the framework.
- `requests.get`, `resp.json()` and `resp.text`: foreign network code. They are replaced by the `Outcome` sequence. The text of the exception messages is not modelled, only their kind, status and cause.
- `random.uniform(0, 1)` jitter: randomness. Each recorded wait is the deterministic part; the source adds a jitter in [0, 1) to it.
- `time.time()`: the clock is the parameter `now`.
- `float(retry_after)`: header parsing is not modelled. An `Outcome` carries the parsed value, None when the header is missing or does not parse. NaN and infinities have no counterpart in `real`.
- The float arithmetic of the reset-minutes display (lines 233-240): presentation and floating point.
- JSON `null` values: `null` under `data`, `includes` or `users`, and list elements that are not objects, make the source raise a `TypeError` or `AttributeError`. The model's `Option` fields stand for keys that are present or absent.
- `max_results` is assumed to be an integer, as the sidebar's `number_input` supplies it.
- The pandas DataFrame: rows are a sequence of records. `fetched_at` is kept as epoch seconds, without the conversion to a timestamp.
- `RetryLoop`, `FetchTrends` and `Simulate` are given a sequence of at least five outcomes, one for each attempt the loop can make.
