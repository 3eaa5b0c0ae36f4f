/**
 * The counter store client `RedisClient` (mafia/utils/redis_client.py).
 *
 * The Redis server is modelled as an in-memory key space: a map from keys to
 * values and a map from keys to the TTL (in seconds) last set on them. The
 * store operations INCR, EXPIRE, SET and GET are given first as functions on a
 * snapshot `Db` and then as methods of the class `RedisClient`, whose fields
 * hold the current snapshot. The clock `time.time()` is the parameter `now`.
 */
module Store {
  import opened Wrappers
  import opened Rounding

  /** A stored value: INCR keeps integers, the attempt timestamp is a float. */
  datatype Value = Int(n: int) | Float(x: real)

  /** A snapshot of the key space and of the TTLs set on its keys. */
  datatype Db = Db(data: map<string, Value>, ttl: map<string, int>)

  const DefaultLimit := 10
  const DefaultWindow := 60
  const AttemptTtl := 300

  function RateKey(ip: string): string { "rate:" + ip }
  function CountKey(ip: string): string { "brute:" + ip + ":count" }
  function TimeKey(ip: string): string { "brute:" + ip + ":time" }

  /** The shape of the attempt-timestamp keys, the only keys that hold floats. */
  predicate IsTimeKey(k: string) {
    |k| >= 11 && k[..6] == "brute:" && k[|k| - 5..] == ":time"
  }

  /**
   * The invariant of the key space: only keys that exist carry a TTL, and
   * every key other than a timestamp key holds an INCR counter, which is at
   * least 1.
   */
  ghost predicate ValidDb(db: Db) {
    db.ttl.Keys <= db.data.Keys &&
    forall k | k in db.data && !IsTimeKey(k) :: db.data[k].Int? && db.data[k].n >= 1
  }

  /** The three keys of one client are distinct, and only the time key holds floats. */
  lemma KeyShapes(ip: string)
    ensures !IsTimeKey(RateKey(ip)) && !IsTimeKey(CountKey(ip)) && IsTimeKey(TimeKey(ip))
    ensures RateKey(ip) != CountKey(ip) && RateKey(ip) != TimeKey(ip) && CountKey(ip) != TimeKey(ip)
  {
    var r, c, t := RateKey(ip), CountKey(ip), TimeKey(ip);
    assert r[0] == 'r' && c[0] == 'b' && t[0] == 'b';
    assert c[|c| - 1] == 't' && t[|t| - 1] == 'e';
    assert |r| >= 11 ==> r[..6][0] == 'r';
    assert c[|c| - 5..] != ":time" by { assert c[|c| - 5..][0] == 'c'; }
    assert t[..6] == "brute:";
    assert t[|t| - 5..] == ":time";
  }

  // ---- The store operations on a snapshot ----

  /** GET: the value under `key`, if any. */
  function Lookup(db: Db, key: string): Option<Value> {
    if key in db.data then Some(db.data[key]) else None
  }

  /** The counter under `key`, with 0 for a missing key. */
  function CurrentCount(db: Db, key: string): int {
    match Lookup(db, key)
    case Some(Int(n)) => n
    case _ => 0
  }

  /** INCR's reply: a missing key counts from 0, so the first reply is 1. */
  function CountAfterIncr(db: Db, key: string): (c: int)
    requires ValidDb(db) && !IsTimeKey(key)
    ensures c >= 1
    ensures c == 1 <==> key !in db.data
  {
    CurrentCount(db, key) + 1
  }

  /** INCR: the key holds its next count; its TTL is left as it is. */
  function Incremented(db: Db, key: string): (r: Db)
    requires ValidDb(db) && !IsTimeKey(key)
    ensures ValidDb(r)
  {
    Db(db.data[key := Int(CountAfterIncr(db, key))], db.ttl)
  }

  /**
   * EXPIRE: a missing key is left alone; a positive TTL is recorded; a TTL of
   * zero or less deletes the key at once.
   */
  function WithExpiry(db: Db, key: string, seconds: int): (r: Db)
    requires ValidDb(db)
    ensures ValidDb(r)
  {
    if key !in db.data then db
    else if seconds <= 0 then Db(db.data - {key}, db.ttl - {key})
    else Db(db.data, db.ttl[key := seconds])
  }

  /** SET: the key holds the value, and any TTL it had is dropped. */
  function WithValue(db: Db, key: string, v: Value): (r: Db)
    requires ValidDb(db) && (IsTimeKey(key) || (v.Int? && v.n >= 1))
    ensures ValidDb(r)
  {
    Db(db.data[key := v], db.ttl - {key})
  }

  /** The server's expiry of a key whose TTL has run out; a key without a TTL never expires. */
  function Evicted(db: Db, key: string): (r: Db)
    requires ValidDb(db)
    ensures ValidDb(r)
  {
    if key in db.ttl then Db(db.data - {key}, db.ttl - {key}) else db
  }

  // ---- The client's operations on a snapshot ----

  /** `is_rate_limited`'s reply: the incremented rate counter exceeds the limit. */
  function RateExceeded(db: Db, ip: string, limit: int): bool
    requires ValidDb(db)
  {
    KeyShapes(ip);
    CountAfterIncr(db, RateKey(ip)) > limit
  }

  /** `is_rate_limited`'s effect: INCR the rate key, then EXPIRE it if the count is 1. */
  function AfterRateCheck(db: Db, ip: string, window: int): (r: Db)
    requires ValidDb(db)
    ensures ValidDb(r)
  {
    KeyShapes(ip);
    var key := RateKey(ip);
    var db1 := Incremented(db, key);
    if CountAfterIncr(db, key) == 1 then WithExpiry(db1, key, window) else db1
  }

  /** `increment_attempt`'s reply: the incremented attempt counter, 1 exactly on a first attempt. */
  function AttemptCount(db: Db, ip: string): (c: int)
    requires ValidDb(db)
    ensures c >= 1
    ensures c == 1 <==> CountKey(ip) !in db.data
  {
    KeyShapes(ip);
    CountAfterIncr(db, CountKey(ip))
  }

  /**
   * `increment_attempt`'s effect: INCR the count key; on the first attempt
   * also EXPIRE it after 300 seconds and SET the time key to `now`.
   */
  function AfterAttempt(db: Db, ip: string, now: real): (r: Db)
    requires ValidDb(db)
    ensures ValidDb(r)
  {
    KeyShapes(ip);
    var db1 := Incremented(db, CountKey(ip));
    if CountAfterIncr(db, CountKey(ip)) == 1 then
      WithValue(WithExpiry(db1, CountKey(ip), AttemptTtl), TimeKey(ip), Float(now))
    else db1
  }

  /** `float(...)` of a stored value. */
  function AsReal(v: Value): real {
    match v
    case Int(n) => n as real
    case Float(x) => x
  }

  /**
   * `get_avg_interval`: the attempt count (1 when missing), the first-attempt
   * time (`now` when missing), and the elapsed time, at least 1 second,
   * divided by the count and rounded to two decimals.
   */
  function AvgInterval(db: Db, ip: string, now: real): real
    requires ValidDb(db)
  {
    KeyShapes(ip);
    var attempts := match Lookup(db, CountKey(ip)) case Some(v) => v.n case None => 1;
    var first := match Lookup(db, TimeKey(ip)) case Some(v) => AsReal(v) case None => now;
    Round2(Max(now - first, 1.0) / attempts as real)
  }

  // ---- Properties of the rate limiter ----

  /**
   * One rate check increments the rate counter by exactly one and sets its TTL
   * to `window` only when the counter was missing (count 1); every other key,
   * and every other TTL, is left as it was.
   */
  lemma RateCheckEffect(db: Db, ip: string, window: int, k: string)
    requires ValidDb(db) && window > 0
    ensures CurrentCount(AfterRateCheck(db, ip, window), RateKey(ip)) == CurrentCount(db, RateKey(ip)) + 1
    ensures RateKey(ip) !in db.data ==> AfterRateCheck(db, ip, window).ttl == db.ttl[RateKey(ip) := window]
    ensures RateKey(ip) in db.data ==> AfterRateCheck(db, ip, window).ttl == db.ttl
    ensures k != RateKey(ip) ==> Lookup(AfterRateCheck(db, ip, window), k) == Lookup(db, k)
  {
    KeyShapes(ip);
  }

  /** The replies of `n` consecutive rate checks for one client, with no expiry in between. */
  function RateReplies(db: Db, ip: string, limit: int, window: int, n: nat): (r: seq<bool>)
    requires ValidDb(db)
    ensures |r| == n
    decreases n
  {
    if n == 0 then []
    else [RateExceeded(db, ip, limit)] + RateReplies(AfterRateCheck(db, ip, window), ip, limit, window, n - 1)
  }

  /** The i-th of consecutive rate checks replies "limited" exactly when count + i + 1 exceeds the limit. */
  lemma {:induction false} RateRepliesCount(db: Db, ip: string, limit: int, window: int, n: nat)
    requires ValidDb(db) && window > 0
    ensures forall i | 0 <= i < n ::
      RateReplies(db, ip, limit, window, n)[i] == (CurrentCount(db, RateKey(ip)) + i + 1 > limit)
    decreases n
  {
    if n > 0 {
      var db1 := AfterRateCheck(db, ip, window);
      RateCheckEffect(db, ip, window, RateKey(ip));
      RateRepliesCount(db1, ip, limit, window, n - 1);
      var r := RateReplies(db, ip, limit, window, n);
      forall i | 0 <= i < n ensures r[i] == (CurrentCount(db, RateKey(ip)) + i + 1 > limit) {
        if i > 0 {
          assert r[i] == RateReplies(db1, ip, limit, window, n - 1)[i - 1];
        }
      }
    }
  }

  /**
   * In a fresh window with the default limit of 10, calls 1 to 10 are let
   * through and call 11 is limited.
   */
  lemma EleventhCallLimited(db: Db, ip: string)
    requires ValidDb(db) && RateKey(ip) !in db.data
    ensures var r := RateReplies(db, ip, DefaultLimit, DefaultWindow, 11);
      (forall i | 0 <= i < 10 :: !r[i]) && r[10]
  {
    RateRepliesCount(db, ip, DefaultLimit, DefaultWindow, 11);
  }

  /**
   * With a positive window, a rate key that is missing or already carries a
   * TTL carries one after a check, so it will expire; once expired, the next
   * check starts a fresh window at count 1.
   */
  lemma RateKeyExpires(db: Db, ip: string, limit: int, window: int)
    requires ValidDb(db) && window > 0
    requires RateKey(ip) in db.data ==> RateKey(ip) in db.ttl
    ensures var db1 := AfterRateCheck(db, ip, window);
      RateKey(ip) in db1.data && RateKey(ip) in db1.ttl &&
      RateExceeded(Evicted(db1, RateKey(ip)), ip, limit) == (1 > limit)
  {
    KeyShapes(ip);
  }

  /**
   * EXPIRE is sent only on a reply of 1, so a rate key that exists without a
   * TTL (its EXPIRE was lost) never gets one: every check leaves it without a
   * TTL, the server never evicts it, and its count only grows, so once past
   * the limit the client stays limited.
   */
  lemma RateKeyWithoutTtlNeverExpires(db: Db, ip: string, limit: int, window: int)
    requires ValidDb(db) && RateKey(ip) in db.data && RateKey(ip) !in db.ttl
    requires CurrentCount(db, RateKey(ip)) >= limit
    ensures var db1 := AfterRateCheck(db, ip, window);
      RateKey(ip) in db1.data && RateKey(ip) !in db1.ttl &&
      Evicted(db1, RateKey(ip)) == db1 &&
      CurrentCount(db1, RateKey(ip)) == CurrentCount(db, RateKey(ip)) + 1 &&
      RateExceeded(db, ip, limit) && RateExceeded(db1, ip, limit)
  {
    KeyShapes(ip);
    assert CountAfterIncr(db, RateKey(ip)) != 1;
  }

  // ---- Properties of the attempt counter ----

  /**
   * The first attempt sets the count to 1, its TTL to 300 seconds and the time
   * key to `now`; a later attempt only increments the count, leaving the time
   * key and all TTLs alone. Keys other than these two are never touched.
   */
  lemma AttemptEffect(db: Db, ip: string, now: real, k: string)
    requires ValidDb(db)
    ensures var r := AfterAttempt(db, ip, now);
      CurrentCount(r, CountKey(ip)) == CurrentCount(db, CountKey(ip)) + 1 &&
      CurrentCount(r, CountKey(ip)) == AttemptCount(db, ip) &&
      (CountKey(ip) !in db.data ==>
        Lookup(r, TimeKey(ip)) == Some(Float(now)) &&
        r.ttl == (db.ttl - {TimeKey(ip)})[CountKey(ip) := AttemptTtl]) &&
      (CountKey(ip) in db.data ==>
        Lookup(r, TimeKey(ip)) == Lookup(db, TimeKey(ip)) && r.ttl == db.ttl) &&
      (k != CountKey(ip) && k != TimeKey(ip) ==> Lookup(r, k) == Lookup(db, k))
  {
    KeyShapes(ip);
  }

  /** The snapshot after attempts at the given times, one after another. */
  function AfterAttempts(db: Db, ip: string, times: seq<real>): (r: Db)
    requires ValidDb(db)
    ensures ValidDb(r)
    decreases |times|
  {
    if |times| == 0 then db else AfterAttempts(AfterAttempt(db, ip, times[0]), ip, times[1..])
  }

  /** Attempts after the first add to the count and never move the first-attempt time. */
  lemma {:induction false} LaterAttemptsKeepTime(db: Db, ip: string, times: seq<real>)
    requires ValidDb(db) && CountKey(ip) in db.data
    ensures CurrentCount(AfterAttempts(db, ip, times), CountKey(ip)) == CurrentCount(db, CountKey(ip)) + |times|
    ensures Lookup(AfterAttempts(db, ip, times), TimeKey(ip)) == Lookup(db, TimeKey(ip))
    ensures CountKey(ip) in AfterAttempts(db, ip, times).data
    decreases |times|
  {
    if |times| > 0 {
      var db1 := AfterAttempt(db, ip, times[0]);
      AttemptEffect(db, ip, times[0], CountKey(ip));
      KeyShapes(ip);
      LaterAttemptsKeepTime(db1, ip, times[1..]);
    }
  }

  /** From a missing counter, n attempts leave the count n and the time of the first one. */
  lemma AttemptSeriesFromFresh(db: Db, ip: string, times: seq<real>)
    requires ValidDb(db) && CountKey(ip) !in db.data && |times| >= 1
    ensures CurrentCount(AfterAttempts(db, ip, times), CountKey(ip)) == |times|
    ensures Lookup(AfterAttempts(db, ip, times), TimeKey(ip)) == Some(Float(times[0]))
  {
    var db1 := AfterAttempt(db, ip, times[0]);
    AttemptEffect(db, ip, times[0], CountKey(ip));
    KeyShapes(ip);
    LaterAttemptsKeepTime(db1, ip, times[1..]);
  }

  // ---- Properties of the average interval ----

  lemma QuotientBounds(a: real, b: real)
    requires a >= 1.0 && b >= 1.0
    ensures 0.0 < a / b <= a
  {
    assert a / b * b == a;
  }

  /**
   * The average interval is max(now - first, 1) / attempts rounded to two
   * decimals, and it is never negative.
   */
  lemma AvgIntervalFormula(db: Db, ip: string, now: real, attempts: int, first: real)
    requires ValidDb(db)
    requires Lookup(db, CountKey(ip)) == Some(Int(attempts))
    requires Lookup(db, TimeKey(ip)) == Some(Float(first))
    ensures attempts >= 1
    ensures AvgInterval(db, ip, now) == Round2(Max(now - first, 1.0) / attempts as real)
    ensures AvgInterval(db, ip, now) >= 0.0
  {
    KeyShapes(ip);
    QuotientBounds(Max(now - first, 1.0), attempts as real);
    Round2NonNegative(Max(now - first, 1.0) / attempts as real);
  }

  /** Whatever the keys hold, the average interval is never negative. */
  lemma AvgIntervalNonNegative(db: Db, ip: string, now: real)
    requires ValidDb(db)
    ensures AvgInterval(db, ip, now) >= 0.0
  {
    KeyShapes(ip);
    var attempts := match Lookup(db, CountKey(ip)) case Some(v) => v.n case None => 1;
    var first := match Lookup(db, TimeKey(ip)) case Some(v) => AsReal(v) case None => now;
    QuotientBounds(Max(now - first, 1.0), attempts as real);
    Round2NonNegative(Max(now - first, 1.0) / attempts as real);
  }

  /** With both keys missing, the count defaults to 1 and the time to `now`: the interval is 1.0. */
  lemma AvgIntervalDefaults(db: Db, ip: string, now: real)
    requires ValidDb(db) && CountKey(ip) !in db.data && TimeKey(ip) !in db.data
    ensures AvgInterval(db, ip, now) == 1.0
  {
    Round2OfCents(100);
  }

  /** Ten seconds over five attempts gives an average of 2.0 seconds. */
  lemma AvgIntervalTenSecondsFiveAttempts(db: Db, ip: string, first: real)
    requires ValidDb(db)
    requires Lookup(db, CountKey(ip)) == Some(Int(5))
    requires Lookup(db, TimeKey(ip)) == Some(Float(first))
    ensures AvgInterval(db, ip, first + 10.0) == 2.0
  {
    KeyShapes(ip);
    Round2OfCents(200);
  }

  /**
   * After a series of attempts from a missing counter, the average interval
   * is the time since the first attempt (at least 1 second) over their number.
   */
  lemma AvgIntervalAfterAttempts(db: Db, ip: string, times: seq<real>, now: real)
    requires ValidDb(db) && CountKey(ip) !in db.data && |times| >= 1
    ensures AvgInterval(AfterAttempts(db, ip, times), ip, now) ==
      Round2(Max(now - times[0], 1.0) / |times| as real)
  {
    var r := AfterAttempts(db, ip, times);
    AttemptSeriesFromFresh(db, ip, times);
    KeyShapes(ip);
    assert Lookup(r, CountKey(ip)) == Some(Int(|times|));
    AvgIntervalFormula(r, ip, now, |times|, times[0]);
  }

  // ---- The client object ----

  class RedisClient {
    var data: map<string, Value>
    var ttl: map<string, int>

    function State(): Db
      reads this
    {
      Db(data, ttl)
    }

    ghost predicate Valid()
      reads this
    {
      ValidDb(State())
    }

    /**
     * A client connected to a server whose key space is `server`: the keys
     * survive restarts and may already hold counters. The connection itself
     * is not modelled.
     */
    constructor (server: Db)
      requires ValidDb(server)
      ensures Valid() && State() == server
    {
      data := server.data;
      ttl := server.ttl;
    }

    /** INCR key. */
    method Incr(key: string) returns (count: int)
      requires Valid() && !IsTimeKey(key)
      modifies this
      ensures Valid()
      ensures count == CountAfterIncr(old(State()), key) && count >= 1
      ensures State() == Incremented(old(State()), key)
    {
      count := if key in data then data[key].n + 1 else 1;
      data := data[key := Int(count)];
    }

    /** EXPIRE key seconds. */
    method Expire(key: string, seconds: int)
      requires Valid()
      modifies this
      ensures Valid()
      ensures State() == WithExpiry(old(State()), key, seconds)
    {
      if key in data {
        if seconds <= 0 {
          data := data - {key};
          ttl := ttl - {key};
        } else {
          ttl := ttl[key := seconds];
        }
      }
    }

    /** SET key value. */
    method Set(key: string, v: Value)
      requires Valid() && (IsTimeKey(key) || (v.Int? && v.n >= 1))
      modifies this
      ensures Valid()
      ensures State() == WithValue(old(State()), key, v)
    {
      data := data[key := v];
      ttl := ttl - {key};
    }

    /** GET key. */
    method Get(key: string) returns (v: Option<Value>)
      ensures v.Some? <==> key in data
      ensures v.Some? ==> v.value == data[key]
    {
      v := if key in data then Some(data[key]) else None;
    }

    /** `is_rate_limited`. */
    method IsRateLimited(ip: string, limit: int, window: int) returns (limited: bool)
      requires Valid()
      modifies this
      ensures Valid()
      ensures limited == RateExceeded(old(State()), ip, limit)
      ensures State() == AfterRateCheck(old(State()), ip, window)
    {
      KeyShapes(ip);
      var key := RateKey(ip);
      var count := Incr(key);
      if count == 1 {
        Expire(key, window);
      }
      limited := count > limit;
    }

    /** `increment_attempt`, with the clock reading `now`. */
    method IncrementAttempt(ip: string, now: real) returns (attempts: int)
      requires Valid()
      modifies this
      ensures Valid()
      ensures attempts == AttemptCount(old(State()), ip) && attempts >= 1
      ensures State() == AfterAttempt(old(State()), ip, now)
    {
      KeyShapes(ip);
      var key := CountKey(ip);
      var timeKey := TimeKey(ip);
      attempts := Incr(key);
      if attempts == 1 {
        Expire(key, AttemptTtl);
        Set(timeKey, Float(now));
      }
    }

    /** `get_avg_interval`, with the clock reading `now`; it changes nothing. */
    method GetAvgInterval(ip: string, now: real) returns (avg: real)
      requires Valid()
      ensures avg == AvgInterval(State(), ip, now) && avg >= 0.0
    {
      AvgIntervalNonNegative(State(), ip, now);
      KeyShapes(ip);
      var count := Get(CountKey(ip));
      var stamp := Get(TimeKey(ip));
      var attempts := match count case Some(v) => v.n case None => 1;
      var first := match stamp case Some(v) => AsReal(v) case None => now;
      avg := Round2(Max(now - first, 1.0) / attempts as real);
    }
  }
}
