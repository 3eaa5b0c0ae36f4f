# MAFIA request firewall — a Dafny model

MAFIA is a request-admission middleware. For each incoming request,
`BruteForceMiddleware.dispatch` decides whether to block it or pass it on.
It runs three checks in a fixed order and stops at the first one that blocks:

1. A fixed-window rate limit: 10 requests per 60 seconds per client address,
   counted in Redis under `rate:{ip}`.
2. A pattern-based payload classifier (`SecurityFilter.is_malicious`), applied
   to every query-parameter value. It looks for XSS and SQL-injection patterns.
3. A behavioural brute-force check. It increments the attempt counter
   `brute:{ip}:count`. The first attempt also records its time in
   `brute:{ip}:time`. The check then computes the average interval between
   attempts and scores the pair with a trained anomaly model
   (`BruteForceDetector.predict`). A request is blocked when the score is
   above 0.8.

Every block is answered with status 403 and `{"status": "blocked", "reason": ...}`.

The project has these parts:

- `security.dfy` (module `Security`): the classifier as a predicate over
  strings. It states Python's case-insensitive regular-expression search
  exactly.
- `redis_client.dfy` (module `Store`): the Redis key space as a snapshot `Db`,
  with the three client operations written as functions on it. The class
  `RedisClient` runs them step by step through INCR, EXPIRE, SET and GET
  methods.
- `aimodel.dfy` (module `Risk`): how the score range is taken from the model
  metadata, and the min-max normalisation.
- `middleware.dfy` (module `Firewall`): the pipeline as a function `Decide` on
  a store snapshot. The class `BruteForceMiddleware` has the method
  `Dispatch`, which is proved to agree with `Decide`.
- `rounding.dfy` (module `Rounding`): Python's `round(x, 2)`, `max` and `min`
  over reals.
- `wrappers.dfy`: `Option`.

The clock `time.time()` is the parameter `now`. The model's decision function
is the function parameter `rawScore`. The next handler (`call_next`) is the
function parameter `callNext`.

## Model

| member | source | states |
|---|---|---|
| `Security.Fold` | mafia/security.py:5-6 | definition: the character folding of `re.IGNORECASE` for the patterns' letters; used by every lemma below |
| `Security.OnerrorTag` | mafia/security.py:5 | definition: a search for `<.*onerror=.*?>` succeeds; its properties are in `Security.OnerrorAnyCase` and `Security.NewlineBreaksOnerrorTag` |
| `Security.IsXss` | mafia/security.py:5 | definition: the XSS pattern finds a match; its properties are in `Security.ScriptTagAnyCase` and `Security.OnerrorAnyCase` |
| `Security.IsSqlInjection` | mafia/security.py:6 | definition: the SQL-injection pattern finds a match; its properties are in `Security.SqlKeywordAnyCase` and `Security.CommentOrDoubleQuote` |
| `Security.IsMalicious` | mafia/security.py:8-9 | definition: `is_malicious`, either pattern finds a match; its properties are in the `Security` lemma rows below |
| `Security.ScriptTagAnyCase` | mafia/security.py:5-9 | any payload that contains `<script>` in any mixture of letter cases is malicious |
| `Security.SqlKeywordAnyCase` | mafia/security.py:6-9 | any payload that contains UNION, SELECT, DROP, INSERT, UPDATE or DELETE in any case is malicious, even inside a longer word |
| `Security.CommentOrDoubleQuote` | mafia/security.py:6-9 | any payload that contains `--` or a double quote is malicious |
| `Security.OnerrorAnyCase` | mafia/security.py:5-9 | a `<`, then `onerror=` in any case, then `>`, with no newline between them, is malicious |
| `Security.NewlineBreaksOnerrorTag` | mafia/security.py:5 | `.` does not match a newline, so `<img\nonerror=x>` is not malicious |
| `Security.MaliciousMonotone` | mafia/security.py:8-9 | the search is unanchored: a malicious payload stays malicious inside any longer payload |
| `Security.SingleQuoteNotListed` | mafia/security.py:6 | a lone single quote is not flagged; `admin'` is benign and `admin'--` is malicious |
| `Security.BenignWhenLacking` | mafia/security.py:5-9 | if the payload has no character that folds to one chosen letter of each pattern, it is not malicious |
| `Security.XssExamples` | tests/test_security.py:13-18 | the two XSS payloads of the tests are malicious |
| `Security.SqlInjectionExamples` | tests/test_security.py:28-37 | the three SQL-injection payloads of the tests are malicious |
| `Security.BenignExamples` | tests/test_security.py:21-55 | `""`, `john_doe`, `user@example.com`, `123456` and `<b>hello</b>` are not malicious |
| `Rounding.RoundHalfEven` | mafia/aimodel.py:40 | the result is the nearest integer, and a tie goes to the even integer |
| `Rounding.Round2` | mafia/aimodel.py:40 | `round(x, 2)` is within 0.005 of `x` and is a whole number of hundredths |
| `Rounding.Round2Monotone` | mafia/aimodel.py:40 | rounding to two decimals preserves order |
| `Rounding.Round2OfCents` | mafia/utils/redis_client.py:33 | a value that already has at most two decimals is unchanged by rounding |
| `Rounding.Round2UnitInterval` | mafia/aimodel.py:39-40 | rounding keeps a value in [0, 1] inside [0, 1] |
| `Rounding.Round2NonNegative` | mafia/utils/redis_client.py:31-33 | rounding a non-negative value gives a non-negative value |
| `Store.KeyShapes` | mafia/utils/redis_client.py:10-18 | `rate:{ip}`, `brute:{ip}:count` and `brute:{ip}:time` are three distinct keys, and only the time key has the timestamp shape |
| `Store.CountAfterIncr` | mafia/utils/redis_client.py:11 | INCR replies at least 1, and replies exactly 1 iff the key was missing |
| `Store.Incremented` | mafia/utils/redis_client.py:11 | INCR keeps the store invariant: TTLs only on existing keys, counters at least 1 |
| `Store.WithExpiry` | mafia/utils/redis_client.py:13 | EXPIRE keeps the store invariant |
| `Store.WithValue` | mafia/utils/redis_client.py:23 | SET of a timestamp keeps the store invariant |
| `Store.Evicted` | mafia/utils/redis_client.py:12-13 | the server's expiry of a key with a TTL keeps the store invariant |
| `Store.RateExceeded` | mafia/utils/redis_client.py:9-14 | definition: the reply of `is_rate_limited`, the incremented count above the limit; its properties are in `Store.RateRepliesCount` and `Store.EleventhCallLimited` |
| `Store.AfterRateCheck` | mafia/utils/redis_client.py:9-14 | the key space after `is_rate_limited` keeps the store invariant; its whole effect is in `Store.RateCheckEffect` |
| `Store.RateCheckEffect` | mafia/utils/redis_client.py:9-14 | with a positive window, a rate check adds exactly 1 to `rate:{ip}`; it sets the TTL to `window` only when the key was missing, and otherwise leaves all TTLs alone; no other key changes |
| `Store.RateRepliesCount` | mafia/utils/redis_client.py:9-14 | with a positive window, the i-th of consecutive rate checks replies "limited" iff the starting count + i + 1 exceeds the limit |
| `Store.EleventhCallLimited` | mafia/utils/redis_client.py:9-14 | from a fresh key with limit 10, calls 1 to 10 reply false and call 11 replies true |
| `Store.RateKeyExpires` | mafia/utils/redis_client.py:12-13 | with a positive window, a rate key that is missing or already carries a TTL carries one after the check; once it expires, the next call counts from 1 again |
| `Store.RateKeyWithoutTtlNeverExpires` | mafia/utils/redis_client.py:11-14 | a rate key that exists without a TTL keeps no TTL after a check, is never evicted, and its count only grows; once at the limit, the client is limited on every later call |
| `Store.AttemptCount` | mafia/utils/redis_client.py:16-24 | the reply of `increment_attempt` is at least 1, and exactly 1 iff the attempt counter was missing |
| `Store.AfterAttempt` | mafia/utils/redis_client.py:16-24 | the key space after `increment_attempt` keeps the store invariant; its whole effect is in `Store.AttemptEffect` |
| `Store.AttemptEffect` | mafia/utils/redis_client.py:16-24 | `increment_attempt` adds 1 to the count and returns it. The first attempt sets TTL 300 and writes `now` to the time key. Later attempts leave the time key and all TTLs alone. No other key changes |
| `Store.LaterAttemptsKeepTime` | mafia/utils/redis_client.py:19-24 | once the counter exists, further attempts only add to it and never move the first-attempt time |
| `Store.AttemptSeriesFromFresh` | mafia/utils/redis_client.py:19-24 | n attempts from a missing counter leave count n and the time of the first attempt |
| `Store.Lookup` | mafia/utils/redis_client.py:29-30 | definition: GET on a snapshot, the stored value or nothing; its property is in `Store.RedisClient.Get` |
| `Store.AvgInterval` | mafia/utils/redis_client.py:26-33 | definition: `get_avg_interval` on a snapshot, reading both keys with `Store.Lookup`; its properties are in the `Store.AvgInterval...` lemma rows |
| `Store.AvgIntervalFormula` | mafia/utils/redis_client.py:26-33 | with both keys present, the average is `round(max(now - first, 1) / attempts, 2)`, the count is at least 1, and the result is non-negative |
| `Store.AvgIntervalNonNegative` | mafia/utils/redis_client.py:29-33 | whatever the keys hold, the average interval is at least 0 |
| `Store.AvgIntervalDefaults` | mafia/utils/redis_client.py:29-33 | with both keys missing, the count defaults to 1 and the time to `now`, giving 1.0 |
| `Store.AvgIntervalTenSecondsFiveAttempts` | tests/test_redis_client.py:73-79 | 10 seconds over 5 attempts gives 2.0 |
| `Store.AvgIntervalAfterAttempts` | mafia/utils/redis_client.py:16-33 | after n attempts from a missing counter, the average is the time since the first attempt (at least 1) divided by n, rounded |
| `Store.RedisClient.constructor` | mafia/utils/redis_client.py:6-7 | a new client is a handle on the server's existing key space, which may already hold counters and must satisfy the invariant |
| `Store.RedisClient.Incr` | mafia/utils/redis_client.py:11 | INCR: new state and reply as `Incremented` and `CountAfterIncr` give them |
| `Store.RedisClient.Expire` | mafia/utils/redis_client.py:13 | EXPIRE: new state as `WithExpiry` gives it |
| `Store.RedisClient.Set` | mafia/utils/redis_client.py:23 | SET: new state as `WithValue` gives it |
| `Store.RedisClient.Get` | mafia/utils/redis_client.py:29-30 | GET returns the stored value iff the key exists |
| `Store.RedisClient.IsRateLimited` | mafia/utils/redis_client.py:9-14 | INCR, then EXPIRE only on count 1: the reply is `RateExceeded` and the new state `AfterRateCheck` |
| `Store.RedisClient.IncrementAttempt` | mafia/utils/redis_client.py:16-24 | INCR, then EXPIRE and SET only on count 1: the reply is at least 1 and the new state is `AfterAttempt` |
| `Store.RedisClient.GetAvgInterval` | mafia/utils/redis_client.py:26-33 | returns `AvgInterval` of the current state, which is non-negative, and changes nothing |
| `Risk.LoadDetector` | mafia/aimodel.py:20-26 | definition: the metadata's `score_range`, or (-0.5, 0.5) without one; its property is in `Risk.DefaultRangeCentresZero` |
| `Risk.Clamp` | mafia/aimodel.py:38 | the clamped score is never below the minimum, never above the maximum of a well-ordered range, and equals the raw score when that lies inside the range |
| `Risk.NormalizeMinMax` | mafia/aimodel.py:37-40 | the clamp, linear map and rounding for bounds that differ: with min < max the score lies in [0, 1]; it always has two decimals |
| `Risk.Normalize` | mafia/aimodel.py:37-40 | `_normalize_minmax` for any range: a score exactly when the bounds differ, always whole hundredths, and in [0, 1] when min < max; with equal bounds NaN or ZeroDivisionError instead |
| `Risk.EqualBoundsNoScore` | mafia/aimodel.py:38-39 | with equal bounds, a raw score equal to the bound gives NaN (numpy's 0/0) and any other raw score raises ZeroDivisionError (Python's float division) |
| `Risk.Predict` | mafia/aimodel.py:28-35 | the model's raw score for the two features is normalised: a score exactly when the bounds differ, in [0, 1] when min < max |
| `Risk.NormalizeSaturates` | mafia/aimodel.py:38-39 | raw scores at or below min map to 0, and at or above max map to 1 |
| `Risk.NormalizeMonotone` | mafia/aimodel.py:38-40 | the score never decreases as the raw score grows |
| `Risk.DefaultRangeCentresZero` | mafia/aimodel.py:20-26 | without `score_range` the range is (-0.5, 0.5), and a raw 0.0 scores 0.5 |
| `Risk.InvertedRangeScoresZero` | mafia/aimodel.py:38-39 | the range is never checked: with min > max every raw score normalises to 0 |
| `Firewall.BlockRequest` | mafia/middleware.py:48-52 | definition: status 403 with body `status: "blocked"` and `reason`; its property is in `Firewall.BlockedResponses` |
| `Firewall.AnyMalicious` | mafia/middleware.py:28-32 | definition: the outcome of the query-value loop, some value is malicious; its properties are in `Firewall.MaliciousQueryShortCircuits` and `Firewall.BehaviouralCheck` |
| `Firewall.Judge` | mafia/middleware.py:41-46 | definition: `risk_score > 0.8` blocks, any other score and NaN pass on, a ZeroDivisionError propagates; its properties are in `Firewall.BehaviouralCheck` |
| `Firewall.Decide` | mafia/middleware.py:17-46 | the pipeline, for any score range, leaves the store invariant intact, and raises only when the score bounds are equal |
| `Firewall.RateLimitedShortCircuits` | mafia/middleware.py:23-25 | a rate-limited request gets "Rate limit exceeded" whatever its query values (they are not inspected), and the brute keys are unchanged |
| `Firewall.MaliciousQueryShortCircuits` | mafia/middleware.py:28-32 | a request that passes the rate check but has a malicious query value gets "Malicious payload detected", and the brute keys are unchanged |
| `Firewall.SqlInjectionQueryBlocked` | tests/test_middleware.py:52-55 | the query value `' UNION SELECT * FROM users --` is blocked as a malicious payload |
| `Firewall.BehaviouralCheck` | mafia/middleware.py:35-43 | past the first two checks the attempt count goes up by exactly 1 and is at least 1 when the average is taken; for any score range; the verdict is "Brute force attempt detected" iff the score is above 0.8, Allow iff it is at most 0.8 or NaN, and `dispatch` raises iff the normalisation divides by zero |
| `Firewall.RateCounterAlwaysAdvances` | mafia/middleware.py:23 | every request adds 1 to the rate counter, including requests blocked later |
| `Firewall.BlockedResponses` | mafia/middleware.py:48-52 | every block reason is one of the three literals, and its response is 403 with exactly the fields `status: "blocked"` and `reason` |
| `Firewall.RateBlocksInSeries` | mafia/middleware.py:23-25 | the i-th of consecutive requests from one client is rate-blocked iff the starting count + i + 1 exceeds 10 |
| `Firewall.EleventhRequestRateLimited` | mafia/middleware.py:23-25 | in a fresh window, requests 1 to 10 from one client are not rate-blocked and request 11 is |
| `Firewall.BruteForceMiddleware.constructor` | mafia/middleware.py:11-15 | a fresh store handle on the server's existing key space, and the detector range taken from the metadata |
| `Firewall.BruteForceMiddleware.Dispatch` | mafia/middleware.py:17-46 | for any score range, the verdict and the new store are those of `Decide`; the response comes from `callNext` iff the request is allowed, is the 403 block response iff it is blocked, and is absent iff `dispatch` raises |

## Left out

- Request bodies. The test suite (tests/test_middleware.py:65-110) expects JSON
  and form bodies to be inspected and to stay readable downstream. `dispatch`
  reads no body, so the model
  inspects only query values and follows the code.
- The store is synchronous. The tests mock it with asynchronous calls, but the
  code calls it synchronously, and the model follows the code.
- The score range is never validated at load time. The code does no check,
  and the model follows the code (`Risk.InvertedRangeScoresZero`).
- `Risk.NormalizeMinMax` requires `min_score != max_score`: it is the
  arithmetic for differing bounds. `Risk.Normalize` covers equal bounds, and
  the pipeline uses it. The exception raised under equal bounds ends the
  request without a response (`Firewall.Raised`). What the web framework
  then sends back is not modelled.
- The model artifact is left out. Loading the pickle, the missing-file
  `FileNotFoundError` and sklearn's `decision_function` are file I/O and a
  foreign call. The raw score is the parameter `rawScore`, so the test
  thresholds in tests/test_aimodel.py depend on the trained forest and are not
  modelled.
- Floating point is replaced by exact reals. `Rounding.Round2` rounds the exact
  value half-to-even, as Python does. A decimal literal such as 2.675 is stored
  in binary slightly below itself, so Python rounds it down while the model
  rounds it up. When the raw score lies inside the range, the value rounded
  in `_normalize_minmax` is still numpy's float64, and numpy's `round` scales
  by 100 and rounds that float product. For 0.015, Python's `round` gives
  0.01, numpy gives 0.02, and the model gives 0.02. NaN is an outcome of
  its own (`Risk.NotANumber`), not a value.
- The clock is one reading per request. The source has three `time.time()`
  call sites: when it stores the first-attempt time, for the missing-time
  default, and for the elapsed time. At most two of them run in one request,
  because the first-attempt SET makes the time key present for the default's
  GET. The model uses the same `now` for all of them.
- A rate key whose EXPIRE was lost (the server failed between INCR and
  EXPIRE, or the key was written by something else) never gets a TTL again,
  since EXPIRE is sent only on a reply of 1; the model states this in
  `Store.RateKeyWithoutTtlNeverExpires` and does not repair it, as the source
  does not. `ValidDb` does not demand a TTL on the rate key, so the model's
  starting key space may hold such a key.
- Store failures (redis-py connection errors) are not modelled, and
  neither is the connection set up by `redis.Redis.from_url`. Other clients
  that write to the same Redis are not modelled either: the invariant `ValidDb`
  assumes that only this code writes the keys.
- `Store.RedisClient.Set` requires its write to keep `ValidDb`. A counter key
  may hold only an integer of at least 1. The source only ever SETs a
  timestamp key.
- TTLs do not count down. Expiry is the explicit step `Store.Evicted`, and the
  rate-limit lemmas speak about calls with no expiry between them.
- Concurrent requests are not modelled. `Decide` runs one request to
  completion, so interleavings between requests are not modelled.
- Framework plumbing is left out: Starlette request parsing,
  duplicate query keys (query values are given as a sequence), `call_next`
  internals and `loguru` logging. So are main.py, examples/example.py,
  setup.py, tests/conftest.py and scripts/train.py (offline training).
