/**
 * The decision pipeline `BruteForceMiddleware.dispatch` (mafia/middleware.py).
 *
 * For each request, in this order and stopping at the first block: the rate
 * check, the inspection of every query value, and the behavioural check
 * (increment the attempt counter, compute the average interval, score the
 * risk, block above 0.8). A request that passes all three is handed to the
 * next handler. `Decide` states the whole pipeline on a store snapshot;
 * `BruteForceMiddleware.Dispatch` runs it step by step against the store
 * object and is proved to agree with it.
 */
module Firewall {
  import opened Wrappers
  import opened Security
  import opened Store
  import opened Risk

  const RateLimitReason := "Rate limit exceeded"
  const MaliciousReason := "Malicious payload detected"
  const BruteForceReason := "Brute force attempt detected"
  const RiskThreshold := 0.8

  /** What the pipeline reads of a request: the client address, the path and the query values. */
  datatype Request = Request(ip: string, path: string, queryValues: seq<string>)

  /**
   * How `dispatch` ends: the request is passed on, it is blocked with a
   * reason, or the ZeroDivisionError of `predict` under equal score bounds
   * propagates out of it, with no response.
   */
  datatype Verdict = Allow | Block(reason: string) | Raised

  /** A response: status code and a JSON object of string fields. */
  datatype Response = Response(status: int, body: map<string, string>)

  /** `_block_request`: status 403 with `{"status": "blocked", "reason": reason}`. */
  function BlockRequest(reason: string): Response {
    Response(403, map["status" := "blocked", "reason" := reason])
  }

  /** The outcome of the query-value loop: some value is malicious. */
  predicate AnyMalicious(values: seq<string>) {
    exists j | 0 <= j < |values| :: IsMalicious(values[j])
  }

  /** The verdict of one request and the store it leaves behind. */
  datatype Outcome = Outcome(verdict: Verdict, db: Db)

  /**
   * The comparison `risk_score > 0.8`: a score above the threshold blocks, any
   * other score and NaN (which compares false) let the request through, and
   * a ZeroDivisionError propagates.
   */
  function Judge(n: Normalized): Verdict {
    match n
    case Score(s) => if s > RiskThreshold then Block(BruteForceReason) else Allow
    case NotANumber => Allow
    case ZeroDivision => Raised
  }

  /** The pipeline over a store snapshot, with the clock reading `now`. */
  function Decide(db: Db, req: Request, now: real, d: Detector, rawScore: (int, real) -> real): (out: Outcome)
    requires ValidDb(db)
    ensures ValidDb(out.db)
    ensures out.verdict == Raised ==> d.minScore == d.maxScore
  {
    var db1 := AfterRateCheck(db, req.ip, DefaultWindow);
    if RateExceeded(db, req.ip, DefaultLimit) then Outcome(Block(RateLimitReason), db1)
    else if AnyMalicious(req.queryValues) then Outcome(Block(MaliciousReason), db1)
    else
      var attempts := AttemptCount(db1, req.ip);
      var db2 := AfterAttempt(db1, req.ip, now);
      Outcome(Judge(Predict(d, rawScore, attempts, AvgInterval(db2, req.ip, now))), db2)
  }

  /**
   * A rate-limited request is blocked with "Rate limit exceeded" whatever its
   * query values are (they are not looked at), and the attempt keys are left
   * as they were.
   */
  lemma RateLimitedShortCircuits(db: Db, req: Request, now: real, d: Detector,
                                 rawScore: (int, real) -> real, otherQuery: seq<string>)
    requires ValidDb(db)
    requires RateExceeded(db, req.ip, DefaultLimit)
    ensures var out := Decide(db, req, now, d, rawScore);
      out.verdict == Block(RateLimitReason) &&
      out == Decide(db, req.(queryValues := otherQuery), now, d, rawScore) &&
      Lookup(out.db, CountKey(req.ip)) == Lookup(db, CountKey(req.ip)) &&
      Lookup(out.db, TimeKey(req.ip)) == Lookup(db, TimeKey(req.ip))
  {
    KeyShapes(req.ip);
    RateCheckEffect(db, req.ip, DefaultWindow, CountKey(req.ip));
    RateCheckEffect(db, req.ip, DefaultWindow, TimeKey(req.ip));
  }

  /**
   * A request that passes the rate check but carries a malicious query value
   * is blocked with "Malicious payload detected", and the attempt keys are
   * left as they were.
   */
  lemma MaliciousQueryShortCircuits(db: Db, req: Request, now: real, d: Detector,
                                    rawScore: (int, real) -> real, j: int)
    requires ValidDb(db)
    requires !RateExceeded(db, req.ip, DefaultLimit)
    requires 0 <= j < |req.queryValues| && IsMalicious(req.queryValues[j])
    ensures var out := Decide(db, req, now, d, rawScore);
      out.verdict == Block(MaliciousReason) &&
      Lookup(out.db, CountKey(req.ip)) == Lookup(db, CountKey(req.ip)) &&
      Lookup(out.db, TimeKey(req.ip)) == Lookup(db, TimeKey(req.ip))
  {
    KeyShapes(req.ip);
    RateCheckEffect(db, req.ip, DefaultWindow, CountKey(req.ip));
    RateCheckEffect(db, req.ip, DefaultWindow, TimeKey(req.ip));
  }

  /**
   * A request that passes both earlier checks increments the attempt counter
   * exactly once, for any score range; the average interval is then computed
   * with a counter of at least 1. The request is blocked with "Brute force
   * attempt detected" exactly when the risk score is strictly above 0.8 (a
   * score of exactly 0.8 is allowed, and so is NaN), and `dispatch` raises
   * exactly when the normalisation divides by zero.
   */
  lemma BehaviouralCheck(db: Db, req: Request, now: real, d: Detector, rawScore: (int, real) -> real)
    requires ValidDb(db)
    requires !RateExceeded(db, req.ip, DefaultLimit) && !AnyMalicious(req.queryValues)
    ensures var out := Decide(db, req, now, d, rawScore);
      var attempts := CurrentCount(db, CountKey(req.ip)) + 1;
      var n := Predict(d, rawScore, attempts, AvgInterval(out.db, req.ip, now));
      Lookup(out.db, CountKey(req.ip)) == Some(Int(attempts)) && attempts >= 1 &&
      (out.verdict == Block(BruteForceReason) <==> n.Score? && n.value > 0.8) &&
      (out.verdict == Allow <==> (n.Score? && n.value <= 0.8) || n.NotANumber?) &&
      (out.verdict == Raised <==> n.ZeroDivision?)
  {
    KeyShapes(req.ip);
    var db1 := AfterRateCheck(db, req.ip, DefaultWindow);
    RateCheckEffect(db, req.ip, DefaultWindow, CountKey(req.ip));
    AttemptEffect(db1, req.ip, now, CountKey(req.ip));
  }

  /**
   * A request that is not rate-limited and carries the query value
   * `' UNION SELECT * FROM users --` is blocked as a malicious payload.
   */
  lemma SqlInjectionQueryBlocked(db: Db, req: Request, now: real, d: Detector, rawScore: (int, real) -> real)
    requires ValidDb(db)
    requires !RateExceeded(db, req.ip, DefaultLimit)
    requires req.queryValues == ["' UNION SELECT * FROM users --"]
    ensures Decide(db, req, now, d, rawScore).verdict == Block(MaliciousReason)
  {
    SqlInjectionExamples();
    MaliciousQueryShortCircuits(db, req, now, d, rawScore, 0);
  }

  /** Every request, whatever its verdict, increments the rate counter by one. */
  lemma RateCounterAlwaysAdvances(db: Db, req: Request, now: real, d: Detector, rawScore: (int, real) -> real)
    requires ValidDb(db)
    ensures CurrentCount(Decide(db, req, now, d, rawScore).db, RateKey(req.ip)) ==
      CurrentCount(db, RateKey(req.ip)) + 1
  {
    KeyShapes(req.ip);
    var db1 := AfterRateCheck(db, req.ip, DefaultWindow);
    RateCheckEffect(db, req.ip, DefaultWindow, RateKey(req.ip));
    AttemptEffect(db1, req.ip, now, RateKey(req.ip));
  }

  /**
   * Every block carries one of the three literal reasons, and its response is
   * status 403 with the JSON fields `status: "blocked"` and `reason`.
   */
  lemma BlockedResponses(db: Db, req: Request, now: real, d: Detector, rawScore: (int, real) -> real)
    requires ValidDb(db)
    ensures var v := Decide(db, req, now, d, rawScore).verdict;
      v.Block? ==>
        v.reason in {RateLimitReason, MaliciousReason, BruteForceReason} &&
        BlockRequest(v.reason).status == 403 &&
        BlockRequest(v.reason).body.Keys == {"status", "reason"} &&
        BlockRequest(v.reason).body["status"] == "blocked" &&
        BlockRequest(v.reason).body["reason"] == v.reason
  {
  }

  /** A request with the clock reading at its arrival. */
  datatype Arrival = Arrival(req: Request, now: real)

  /** The verdicts of consecutive requests, each seeing the store the previous one left. */
  function Verdicts(db: Db, arrivals: seq<Arrival>, d: Detector, rawScore: (int, real) -> real): (vs: seq<Verdict>)
    requires ValidDb(db)
    ensures |vs| == |arrivals|
    decreases |arrivals|
  {
    if |arrivals| == 0 then []
    else
      var out := Decide(db, arrivals[0].req, arrivals[0].now, d, rawScore);
      [out.verdict] + Verdicts(out.db, arrivals[1..], d, rawScore)
  }

  /**
   * Among consecutive requests from one client with no expiry in between,
   * the i-th is blocked for the rate limit exactly when the rate counter it
   * started from, plus i + 1, exceeds 10; other keys and checks do not matter.
   */
  lemma {:induction false} RateBlocksInSeries(db: Db, ip: string, arrivals: seq<Arrival>, d: Detector,
                                              rawScore: (int, real) -> real)
    requires ValidDb(db)
    requires forall i | 0 <= i < |arrivals| :: arrivals[i].req.ip == ip
    ensures forall i | 0 <= i < |arrivals| ::
      (Verdicts(db, arrivals, d, rawScore)[i] == Block(RateLimitReason)) <==>
      (CurrentCount(db, RateKey(ip)) + i + 1 > DefaultLimit)
    decreases |arrivals|
  {
    if |arrivals| > 0 {
      var out := Decide(db, arrivals[0].req, arrivals[0].now, d, rawScore);
      KeyShapes(ip);
      RateCounterAlwaysAdvances(db, arrivals[0].req, arrivals[0].now, d, rawScore);
      RateBlocksInSeries(out.db, ip, arrivals[1..], d, rawScore);
      var vs := Verdicts(db, arrivals, d, rawScore);
      forall i | 0 <= i < |arrivals|
        ensures (vs[i] == Block(RateLimitReason)) <==> (CurrentCount(db, RateKey(ip)) + i + 1 > DefaultLimit)
      {
        if i > 0 {
          assert vs[i] == Verdicts(out.db, arrivals[1..], d, rawScore)[i - 1];
          assert arrivals[1..][i - 1] == arrivals[i];
        }
      }
    }
  }

  /** From a fresh window, 11 requests from one client: the first 10 pass the rate check, the 11th is blocked by it. */
  lemma EleventhRequestRateLimited(db: Db, ip: string, arrivals: seq<Arrival>, d: Detector,
                                   rawScore: (int, real) -> real)
    requires ValidDb(db) && RateKey(ip) !in db.data
    requires |arrivals| == 11 && forall i | 0 <= i < 11 :: arrivals[i].req.ip == ip
    ensures var vs := Verdicts(db, arrivals, d, rawScore);
      (forall i | 0 <= i < 10 :: vs[i] != Block(RateLimitReason)) && vs[10] == Block(RateLimitReason)
  {
    RateBlocksInSeries(db, ip, arrivals, d, rawScore);
  }

  class BruteForceMiddleware {
    const redis: RedisClient
    const detector: Detector
    const rawScore: (int, real) -> real

    /**
     * The middleware with a store on a server whose key space is `server`
     * and the detector's score range taken from the model metadata; the
     * model's raw score is `rawScore`.
     */
    constructor (meta: Metadata, rawScore: (int, real) -> real, server: Db)
      requires ValidDb(server)
      ensures fresh(redis) && redis.Valid() && redis.State() == server
      ensures detector == LoadDetector(meta) && this.rawScore == rawScore
    {
      redis := new RedisClient(server);
      detector := LoadDetector(meta);
      this.rawScore := rawScore;
    }

    /**
     * `dispatch`: the verdict and new store are those of `Decide`; the
     * response is the next handler's exactly when the request is allowed, the
     * 403 block response when it is blocked, and none when `dispatch` raises.
     */
    method Dispatch(req: Request, now: real, callNext: Request -> Response) returns (verdict: Verdict, response: Option<Response>)
      requires redis.Valid()
      modifies redis
      ensures redis.Valid()
      ensures verdict == Decide(old(redis.State()), req, now, detector, rawScore).verdict
      ensures redis.State() == Decide(old(redis.State()), req, now, detector, rawScore).db
      ensures response == match verdict
        case Allow => Some(callNext(req))
        case Block(reason) => Some(BlockRequest(reason))
        case Raised => None
    {
      var limited := redis.IsRateLimited(req.ip, DefaultLimit, DefaultWindow);
      if limited {
        verdict := Block(RateLimitReason);
        response := Some(BlockRequest(verdict.reason));
        return;
      }

      ghost var afterRate := redis.State();
      var i := 0;
      while i < |req.queryValues|
        invariant 0 <= i <= |req.queryValues|
        invariant forall j | 0 <= j < i :: !IsMalicious(req.queryValues[j])
        invariant redis.State() == afterRate
      {
        if IsMalicious(req.queryValues[i]) {
          verdict := Block(MaliciousReason);
          response := Some(BlockRequest(verdict.reason));
          return;
        }
        i := i + 1;
      }

      var attempts := redis.IncrementAttempt(req.ip, now);
      var avgInterval := redis.GetAvgInterval(req.ip, now);
      var score := Predict(detector, rawScore, attempts, avgInterval);
      match score {
        case ZeroDivision =>
          verdict := Raised;
          response := None;
        case NotANumber =>
          verdict := Allow;
          response := Some(callNext(req));
        case Score(s) =>
          if s > RiskThreshold {
            verdict := Block(BruteForceReason);
            response := Some(BlockRequest(verdict.reason));
          } else {
            verdict := Allow;
            response := Some(callNext(req));
          }
      }
    }
  }
}
