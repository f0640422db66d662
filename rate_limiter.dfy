/**
 * The admission-control layer of server/middleware/rate_limiter.go.
 *
 * The two Lua scripts run atomically inside the store; here the store is the
 * RateLimiter class, whose fields are the store-resident state the scripts
 * touch: one sorted set of request timestamps per sliding-window key (held
 * as the sequence of its scores; their order carries no meaning, only the
 * multiset of scores does) and one hash {tokens, last_refill} per
 * token-bucket key. Each script is a method whose steps follow the script's
 * store commands. Times inside the scripts are Unix seconds; Go-side times
 * (time.Time, time.Duration) are nanoseconds.
 */
module RateLimit {
  import opened Wrappers
  import opened Text
  import opened Http
  import opened ClientIp

  const NanosPerSecond := 1_000_000_000

  datatype RateLimitConfig = RateLimitConfig(
    requestsPerMinute: int,
    requestsPerHour: int,
    requestsPerDay: int,
    burstSize: int,
    windowSize: int,  // a time.Duration, in nanoseconds
    keyPrefix: string)

  const DefaultRateLimit := RateLimitConfig(60, 1000, 10000, 10, 60 * NanosPerSecond, "rate_limit")
  const AuthRateLimit := RateLimitConfig(10, 100, 500, 3, 60 * NanosPerSecond, "auth_rate_limit")

  /** resetTime is a time.Time and retryAfter a time.Duration, both in nanoseconds. */
  datatype RateLimitResult = RateLimitResult(allowed: bool, limit: int, remaining: int, resetTime: int, retryAfter: int)

  /** What a script returns: {1 or 0, remaining, reset time in Unix seconds}. */
  datatype ScriptReply = ScriptReply(allowed: bool, remaining: int, reset: int)

  /** A token-bucket hash; a field HMGET finds missing (or not a number) is None. */
  datatype BucketHash = BucketHash(tokens: Option<int>, lastRefill: Option<int>)

  // ------------------------------------------------------------ arithmetic

  /** Go's integer division, which truncates toward zero. */
  function GoDiv(a: int, b: int): (q: int)
    requires b != 0
    ensures a >= 0 && b > 0 ==> q == a / b
    ensures a < 0 && b > 0 ==> q == -((-a) / b)
  {
    if b > 0 then (if a >= 0 then a / b else -((-a) / b))
    else (if a >= 0 then -(a / (-b)) else (-a) / (-b))
  }

  /** Lua's math.floor(a / b). */
  function FloorDiv(a: int, b: int): (q: int)
    requires b != 0
    ensures q * b <= a < q * b + b || q * b + b < a <= q * b
  {
    if b > 0 then a / b else (-a) / (-b)
  }

  /** time.Duration.Seconds() converted with int64(...): truncated whole seconds. */
  function WholeSeconds(nanos: int): int {
    GoDiv(nanos, NanosPerSecond)
  }

  /** time.Time.Unix(): whole seconds, rounded down. */
  function UnixSeconds(nanos: int): int {
    nanos / NanosPerSecond
  }

  // --------------------------------------------------- sorted-set commands

  /** ZREMRANGEBYSCORE key 0 cutoff: drops every score in [0, cutoff]. */
  function Pruned(s: seq<int>, cutoff: int): (r: seq<int>)
    ensures |r| <= |s|
    ensures forall x :: x in r <==> x in s && !(0 <= x <= cutoff)
  {
    if s == [] then []
    else
      var init, last := s[..|s| - 1], s[|s| - 1];
      assert s == init + [last];
      Pruned(init, cutoff) + (if 0 <= last <= cutoff then [] else [last])
  }

  /** ZRANGE key 0 0 WITHSCORES: the lowest score. */
  function MinScore(s: seq<int>): (m: int)
    requires s != []
    ensures m in s
    ensures forall x :: x in s ==> m <= x
  {
    if |s| == 1 then s[0]
    else
      var rest := MinScore(s[1..]);
      assert s == [s[0]] + s[1..];
      if s[0] <= rest then s[0] else rest
  }

  /** The scores strictly above c (the entries a window ending at c + window still holds). */
  function Above(s: seq<int>, c: int): (r: seq<int>)
    ensures |r| <= |s|
    ensures forall x :: x in r <==> x in s && x > c
  {
    if s == [] then []
    else
      var init, last := s[..|s| - 1], s[|s| - 1];
      assert s == init + [last];
      Above(init, c) + (if last > c then [last] else [])
  }

  predicate NonNegative(s: seq<int>) {
    forall x :: x in s ==> x >= 0
  }

  /** On timestamps, pruning up to a cutoff keeps exactly the scores above it. */
  lemma {:induction false} PrunedIsAbove(s: seq<int>, cutoff: int)
    requires NonNegative(s)
    ensures Pruned(s, cutoff) == Above(s, cutoff)
  {
    if s != [] {
      var init, last := s[..|s| - 1], s[|s| - 1];
      assert NonNegative(init) by {
        forall x | x in init ensures x >= 0 {
          assert x in s;
        }
      }
      PrunedIsAbove(init, cutoff);
      assert last in s;
      assert Pruned(s, cutoff) == Pruned(init, cutoff) + (if last > cutoff then [last] else []);
    }
  }

  /** Raising the threshold only removes more: Above(Above(s, a), c) == Above(s, c) for c >= a. */
  lemma {:induction false} AboveAbove(s: seq<int>, a: int, c: int)
    requires a <= c
    ensures Above(Above(s, a), c) == Above(s, c)
  {
    if s != [] {
      var init, last := s[..|s| - 1], s[|s| - 1];
      AboveAbove(init, a, c);
      var mid := Above(init, a) + (if last > a then [last] else []);
      assert Above(s, a) == mid;
      if last > a {
        assert mid[..|mid| - 1] == Above(init, a);
      } else {
        assert mid == Above(init, a);
      }
    }
  }

  lemma {:induction false} AboveAppend(s: seq<int>, x: int, c: int)
    ensures Above(s + [x], c) == Above(s, c) + (if x > c then [x] else [])
  {
    assert (s + [x])[..|s|] == s;
  }

  lemma {:induction false} PrunedAppend(s: seq<int>, x: int, cutoff: int)
    ensures Pruned(s + [x], cutoff) == Pruned(s, cutoff) + (if 0 <= x <= cutoff then [] else [x])
  {
    assert (s + [x])[..|s|] == s;
  }

  /** Pruning twice with the same cutoff removes nothing more. */
  lemma {:induction false} PrunedIdempotent(s: seq<int>, cutoff: int)
    ensures Pruned(Pruned(s, cutoff), cutoff) == Pruned(s, cutoff)
  {
    if s != [] {
      var init, last := s[..|s| - 1], s[|s| - 1];
      var p := Pruned(init, cutoff);
      PrunedIdempotent(init, cutoff);
      if 0 <= last <= cutoff {
        assert Pruned(s, cutoff) == p;
      } else {
        assert Pruned(s, cutoff) == p + [last];
        PrunedAppend(p, last, cutoff);
      }
    }
  }

  /** A later cutoff never leaves more entries in the window. */
  lemma {:induction false} PrunedMonotone(s: seq<int>, c1: int, c2: int)
    requires c1 <= c2
    ensures |Pruned(s, c2)| <= |Pruned(s, c1)|
  {
    if s != [] {
      PrunedMonotone(s[..|s| - 1], c1, c2);
    }
  }

  // ----------------------------------------------------- sliding window

  /** The outcome of one run of the sliding-window script on one set. */
  datatype SlidingOutcome = SlidingOutcome(reply: ScriptReply, scores: seq<int>)

  /** slidingWindowScript on the scores of one key, as a value. */
  function SlidingWindowStep(s: seq<int>, window: int, limit: int, now: int): (o: SlidingOutcome)
  {
    var pruned := Pruned(s, now - window);
    if |pruned| < limit then
      SlidingOutcome(ScriptReply(true, limit - |pruned| - 1, now + window), pruned + [now])
    else
      var reset := if pruned == [] then now + window else MinScore(pruned) + window;
      SlidingOutcome(ScriptReply(false, 0, reset), pruned)
  }

  /** Admission happens exactly when fewer than limit requests remain in the window. */
  lemma {:induction false} SlidingWindowAdmits(s: seq<int>, window: int, limit: int, now: int)
    ensures var o := SlidingWindowStep(s, window, limit, now);
            var count := |Pruned(s, now - window)|;
            && (o.reply.allowed <==> count < limit)
            && (o.reply.allowed ==>
                  && o.reply.remaining == limit - count - 1
                  && 0 <= o.reply.remaining < limit
                  && o.reply.reset == now + window
                  && o.scores == Pruned(s, now - window) + [now])
            && (!o.reply.allowed ==> o.reply.remaining == 0 && o.scores == Pruned(s, now - window))
  {
  }

  /**
   * A denial's reset time lies in (now, now + window] when every stored
   * score is a timestamp no later than now.
   */
  lemma {:induction false} SlidingWindowDenialReset(s: seq<int>, window: int, limit: int, now: int)
    requires window > 0
    requires forall x :: x in s ==> 0 <= x <= now
    requires !SlidingWindowStep(s, window, limit, now).reply.allowed
    ensures now < SlidingWindowStep(s, window, limit, now).reply.reset <= now + window
  {
    var pruned := Pruned(s, now - window);
    if pruned != [] {
      var m := MinScore(pruned);
      assert m in s && !(0 <= m <= now - window);
    }
  }

  /**
   * The window never holds more than limit requests: if it held at most
   * limit before a check, it holds at most limit after it, admitted or not.
   */
  lemma {:induction false} SlidingWindowKeepsBound(s: seq<int>, window: int, limit: int, now: int)
    requires window > 0
    requires |Pruned(s, now - window)| <= limit
    ensures |Pruned(SlidingWindowStep(s, window, limit, now).scores, now - window)| <= limit
  {
    var pruned := Pruned(s, now - window);
    PrunedIdempotent(s, now - window);
    if |pruned| < limit {
      PrunedAppend(pruned, now, now - window);
    }
  }

  /** A window that held at most limit requests still does later on. */
  lemma {:induction false} SlidingWindowBoundLater(s: seq<int>, window: int, limit: int, now: int, later: int)
    requires now <= later
    requires |Pruned(s, now - window)| <= limit
    ensures |Pruned(s, later - window)| <= limit
  {
    PrunedMonotone(s, now - window, later - window);
  }

  predicate Nondecreasing(times: seq<int>) {
    forall i, j :: 0 <= i < j < |times| ==> times[i] <= times[j]
  }

  /**
   * The script run once per arrival time, in order, from an empty set:
   * the admission decisions and the final set.
   */
  function SlidingRun(times: seq<int>, window: int, limit: int): (o: (seq<bool>, seq<int>))
    ensures |o.0| == |times|
  {
    if times == [] then ([], [])
    else
      var prev := SlidingRun(times[..|times| - 1], window, limit);
      var step := SlidingWindowStep(prev.1, window, limit, times[|times| - 1]);
      (prev.0 + [step.reply.allowed], step.scores)
  }

  /** How many admitted arrivals fall in the window (lo, hi]. */
  function AdmittedIn(times: seq<int>, admits: seq<bool>, lo: int, hi: int): nat
    requires |times| == |admits|
  {
    if times == [] then 0
    else
      var n := |times| - 1;
      AdmittedIn(times[..n], admits[..n], lo, hi) + (if admits[n] && lo < times[n] <= hi then 1 else 0)
  }

  function AdmittedAbove(times: seq<int>, admits: seq<bool>, c: int): nat
    requires |times| == |admits|
  {
    if times == [] then 0
    else
      var n := |times| - 1;
      AdmittedAbove(times[..n], admits[..n], c) + (if admits[n] && times[n] > c then 1 else 0)
  }

  lemma {:induction false} AdmittedInBelowAbove(times: seq<int>, admits: seq<bool>, lo: int, hi: int)
    requires |times| == |admits|
    ensures AdmittedIn(times, admits, lo, hi) <= AdmittedAbove(times, admits, lo)
  {
    if times != [] {
      var n := |times| - 1;
      AdmittedInBelowAbove(times[..n], admits[..n], lo, hi);
    }
  }

  /** The final set holds timestamps no later than the last arrival, and at most limit of them. */
  lemma {:induction false} SlidingRunShape(times: seq<int>, window: int, limit: int)
    requires window > 0 && times != []
    requires Nondecreasing(times) && NonNegative(times)
    ensures var last := times[|times| - 1];
            forall x :: x in SlidingRun(times, window, limit).1 ==> 0 <= x <= last
    ensures |SlidingRun(times, window, limit).1| <= if limit < 0 then 0 else limit
  {
    var n := |times| - 1;
    var prefix := times[..n];
    var prev := SlidingRun(prefix, window, limit);
    var now := times[n];
    var bound := if limit < 0 then 0 else limit;
    assert (forall x :: x in prev.1 ==> 0 <= x <= now) && |prev.1| <= bound by {
      if n > 0 {
        PrefixOrdered(times);
        SlidingRunShape(prefix, window, limit);
        assert prefix[n - 1] == times[n - 1] <= now;
      }
    }
    assert now >= 0 by {
      assert now in times;
    }
    assert SlidingRun(times, window, limit).1 == SlidingWindowStep(prev.1, window, limit, now).scores;
  }

  /**
   * In the final set, the entries above any cutoff c >= last - window are
   * exactly the admitted arrivals above c: nothing the window still covers
   * has been pruned.
   */
  lemma {:induction false} SlidingRunCounts(times: seq<int>, window: int, limit: int, c: int)
    requires window > 0 && times != []
    requires Nondecreasing(times) && NonNegative(times)
    requires c >= times[|times| - 1] - window
    ensures var run := SlidingRun(times, window, limit);
            |Above(run.1, c)| == AdmittedAbove(times, run.0, c)
  {
    var n := |times| - 1;
    var prefix := times[..n];
    var prev := SlidingRun(prefix, window, limit);
    var now := times[n];
    var run := SlidingRun(times, window, limit);
    var step := SlidingWindowStep(prev.1, window, limit, now);
    assert run.0 == prev.0 + [step.reply.allowed] && run.1 == step.scores;
    assert run.0[..n] == prev.0 && run.0[n] == step.reply.allowed;
    var before := AdmittedAbove(prefix, prev.0, c);
    assert |Above(prev.1, c)| == before && NonNegative(prev.1) by {
      if n > 0 {
        PrefixOrdered(times);
        assert prefix[n - 1] == times[n - 1] <= now;
        SlidingRunCounts(prefix, window, limit, c);
        SlidingRunShape(prefix, window, limit);
      }
    }
    StepAbove(prev.1, window, limit, now, c);
    assert AdmittedAbove(times, run.0, c) == before + (if step.reply.allowed && now > c then 1 else 0);
  }

  lemma {:induction false} PrefixOrdered(times: seq<int>)
    requires times != [] && Nondecreasing(times) && NonNegative(times)
    ensures Nondecreasing(times[..|times| - 1]) && NonNegative(times[..|times| - 1])
  {
    var prefix := times[..|times| - 1];
    forall x | x in prefix ensures x >= 0 {
      assert x in times;
    }
  }

  /** One check adds to the entries above c >= now - window only the request it admits. */
  lemma {:induction false} StepAbove(s: seq<int>, window: int, limit: int, now: int, c: int)
    requires NonNegative(s) && c >= now - window
    ensures var step := SlidingWindowStep(s, window, limit, now);
            |Above(step.scores, c)| == |Above(s, c)| + (if step.reply.allowed && now > c then 1 else 0)
  {
    var step := SlidingWindowStep(s, window, limit, now);
    var pruned := Pruned(s, now - window);
    PrunedIsAbove(s, now - window);
    AboveAbove(s, now - window, c);
    assert Above(pruned, c) == Above(s, c);
    if |pruned| < limit {
      assert step.scores == pruned + [now] && step.reply.allowed;
      AboveAppend(pruned, now, c);
    } else {
      assert step.scores == pruned && !step.reply.allowed;
    }
  }

  /** A window that ends at or after the last arrival holds at most limit admitted arrivals. */
  lemma {:induction false} AdmitsAtMostLimitAfterLast(times: seq<int>, window: int, limit: int, hi: int)
    requires window > 0 && times != []
    requires Nondecreasing(times) && NonNegative(times)
    requires times[|times| - 1] <= hi
    ensures AdmittedIn(times, SlidingRun(times, window, limit).0, hi - window, hi) <= if limit < 0 then 0 else limit
  {
    var run := SlidingRun(times, window, limit);
    AdmittedInBelowAbove(times, run.0, hi - window, hi);
    SlidingRunCounts(times, window, limit, hi - window);
    SlidingRunShape(times, window, limit);
  }

  /**
   * Within ANY window (hi - window, hi], the sliding-window limiter admits at
   * most limit requests, for every sequence of arrivals at timestamps that
   * never go backwards.
   */
  lemma {:induction false} SlidingWindowAdmitsAtMostLimit(times: seq<int>, window: int, limit: int, hi: int)
    requires window > 0
    requires Nondecreasing(times) && NonNegative(times)
    ensures AdmittedIn(times, SlidingRun(times, window, limit).0, hi - window, hi) <= if limit < 0 then 0 else limit
  {
    if times != [] {
      var n := |times| - 1;
      if times[n] <= hi {
        AdmitsAtMostLimitAfterLast(times, window, limit, hi);
      } else {
        var prefix := times[..n];
        var admits := SlidingRun(times, window, limit).0;
        PrefixOrdered(times);
        assert admits[..n] == SlidingRun(prefix, window, limit).0;
        SlidingWindowAdmitsAtMostLimit(prefix, window, limit, hi);
      }
    }
  }

  // --------------------------------------------------------- token bucket

  /** The refill: min(capacity, tokens + floor(elapsed / interval) * tokensPerRefill). */
  function Refilled(tokens: int, lastRefill: int, capacity: int, perRefill: int, interval: int, now: int): int
    requires interval != 0
  {
    var added := FloorDiv(now - lastRefill, interval) * perRefill;
    if tokens + added < capacity then tokens + added else capacity
  }

  /** tokenBucketScript on one bucket hash, as a value: the reply and the hash written back. */
  function TokenBucketStep(b: BucketHash, capacity: int, perRefill: int, interval: int, now: int): (o: (ScriptReply, BucketHash))
    requires interval != 0
  {
    var tokens := Refilled(b.tokens.GetOr(capacity), b.lastRefill.GetOr(now), capacity, perRefill, interval, now);
    if tokens >= 1 then (ScriptReply(true, tokens - 1, now + interval), BucketHash(Some(tokens - 1), Some(now)))
    else (ScriptReply(false, tokens, now + interval), BucketHash(Some(tokens), Some(now)))
  }

  /** A bucket whose count is within [0, capacity] and whose last refill is not in the future. */
  predicate BucketWithin(b: BucketHash, capacity: int, now: int) {
    && 0 <= b.tokens.GetOr(capacity) <= capacity
    && b.lastRefill.GetOr(now) <= now
  }

  /**
   * One check keeps 0 <= tokens <= capacity, admits exactly when a token was
   * available after the refill, consumes one token on admission, and stamps
   * last_refill with now on both branches.
   */
  lemma {:induction false} TokenBucketKeepsBounds(b: BucketHash, capacity: int, interval: int, now: int)
    requires interval > 0 && capacity >= 0
    requires BucketWithin(b, capacity, now)
    ensures var (reply, b') := TokenBucketStep(b, capacity, 1, interval, now);
            var tokens := Refilled(b.tokens.GetOr(capacity), b.lastRefill.GetOr(now), capacity, 1, interval, now);
            && 0 <= tokens <= capacity
            && (reply.allowed <==> tokens >= 1)
            && b'.tokens == Some(if reply.allowed then tokens - 1 else tokens)
            && reply.remaining == b'.tokens.value
            && b'.lastRefill == Some(now)
            && BucketWithin(b', capacity, now)
  {
    var elapsed := now - b.lastRefill.GetOr(now);
    assert FloorDiv(elapsed, interval) >= 0;
  }

  /** A missing bucket starts full, stamped now: the first check is admitted when capacity >= 1. */
  lemma {:induction false} TokenBucketFreshKey(capacity: int, interval: int, now: int)
    requires interval != 0
    ensures var (reply, b') := TokenBucketStep(BucketHash(None, None), capacity, 1, interval, now);
            && (reply.allowed <==> capacity >= 1)
            && b'.tokens == Some(if capacity >= 1 then capacity - 1 else capacity)
  {
    assert FloorDiv(0, interval) == 0;
  }

  /**
   * The bound needs last_refill <= now. Each replica stamps with its own
   * clock, and a bucket stamped in the future by a faster clock makes the
   * refill negative: from an empty bucket stamped at 10, a check at 5 stores
   * -5 tokens.
   */
  lemma {:induction false} TokenBucketClockSkew()
    ensures TokenBucketStep(BucketHash(Some(0), Some(10)), 3, 1, 1, 5).1.tokens == Some(-5)
  {
    assert FloorDiv(-5, 1) == -5;
  }

  // ------------------------------------------------------ the store class

  /** The store-resident state of the limiter, and the two scripts that update it atomically. */
  class RateLimiter {
    var zsets: map<string, seq<int>>
    var buckets: map<string, BucketHash>

    constructor ()
      ensures zsets == map[] && buckets == map[]
    {
      zsets := map[];
      buckets := map[];
    }

    function Scores(key: string): seq<int>
      reads this
    {
      if key in zsets then zsets[key] else []
    }

    function Bucket(key: string): BucketHash
      reads this
    {
      if key in buckets then buckets[key] else BucketHash(None, None)
    }

    /** Stores a sorted set; the store drops a set that becomes empty. */
    method PutScores(key: string, s: seq<int>)
      modifies this
      ensures zsets == if s == [] then old(zsets) - {key} else old(zsets)[key := s]
      ensures Scores(key) == s && buckets == old(buckets)
    {
      if s == [] {
        zsets := zsets - {key};
      } else {
        zsets := zsets[key := s];
      }
    }

    /**
     * slidingWindowScript: ZREMRANGEBYSCORE key 0 (now - window); ZCARD;
     * ZADD now if under the limit, else ZRANGE 0 0 for the oldest score.
     * The member added is fresh (its random suffix), so ZADD always adds.
     */
    method SlidingWindowScript(key: string, window: int, limit: int, now: int) returns (reply: ScriptReply)
      modifies this
      ensures SlidingWindowStep(old(Scores(key)), window, limit, now) == SlidingOutcome(reply, Scores(key))
      ensures forall k :: k != key ==> Scores(k) == old(Scores(k))
      ensures buckets == old(buckets)
    {
      ghost var before := Scores(key);
      PutScores(key, Pruned(Scores(key), now - window));
      var current := |Scores(key)|;
      if current < limit {
        PutScores(key, Scores(key) + [now]);
        reply := ScriptReply(true, limit - current - 1, now + window);
      } else {
        var oldest := Scores(key);
        var reset := now + window;
        if |oldest| > 0 {
          reset := MinScore(oldest) + window;
        }
        reply := ScriptReply(false, 0, reset);
      }
    }

    /**
     * tokenBucketScript: HMGET tokens, last_refill (defaults capacity and
     * now), refill, then HMSET both fields on either branch.
     */
    method TokenBucketScript(key: string, capacity: int, perRefill: int, interval: int, now: int)
      returns (reply: ScriptReply)
      requires interval != 0
      modifies this
      ensures (reply, Bucket(key)) == TokenBucketStep(old(Bucket(key)), capacity, perRefill, interval, now)
      ensures buckets == old(buckets)[key := Bucket(key)]
      ensures zsets == old(zsets)
    {
      var stored := Bucket(key);
      var tokens := stored.tokens.GetOr(capacity);
      var lastRefill := stored.lastRefill.GetOr(now);
      var timePassed := now - lastRefill;
      var toAdd := FloorDiv(timePassed, interval) * perRefill;
      tokens := if tokens + toAdd < capacity then tokens + toAdd else capacity;
      if tokens >= 1 {
        tokens := tokens - 1;
        buckets := buckets[key := BucketHash(Some(tokens), Some(now))];
        reply := ScriptReply(true, tokens, now + interval);
      } else {
        buckets := buckets[key := BucketHash(Some(tokens), Some(now))];
        reply := ScriptReply(false, tokens, now + interval);
      }
    }

    /**
     * slidingWindowCheck: runs the script on "<prefix>:<identifier>:sliding"
     * with the whole-second window, the per-minute limit and the current
     * Unix second. storeDown stands for Eval failing; the check then fails
     * open and the store is untouched.
     */
    method SlidingWindowCheck(identifier: string, config: RateLimitConfig, nowNanos: int, storeDown: bool)
      returns (r: RateLimitResult)
      modifies this
      ensures storeDown ==> r == SlidingFailOpen(config, nowNanos) && zsets == old(zsets)
      ensures !storeDown ==>
                var key := SlidingKey(config, identifier);
                var o := SlidingWindowStep(old(Scores(key)), WholeSeconds(config.windowSize),
                                           config.requestsPerMinute, UnixSeconds(nowNanos));
                r == ResultFromReply(o.reply, config.requestsPerMinute, nowNanos) && Scores(key) == o.scores
                && forall k :: k != key ==> Scores(k) == old(Scores(k))
      ensures buckets == old(buckets)
    {
      if storeDown {
        r := SlidingFailOpen(config, nowNanos);
        return;
      }
      var key := SlidingKey(config, identifier);
      var reply := SlidingWindowScript(key, WholeSeconds(config.windowSize), config.requestsPerMinute, UnixSeconds(nowNanos));
      r := ResultFromReply(reply, config.requestsPerMinute, nowNanos);
    }

    /** CheckRateLimit: the sliding window is the algorithm in use. */
    method CheckRateLimit(identifier: string, config: RateLimitConfig, nowNanos: int, storeDown: bool)
      returns (r: RateLimitResult)
      modifies this
      ensures storeDown ==> r == SlidingFailOpen(config, nowNanos) && zsets == old(zsets)
      ensures !storeDown ==>
                var key := SlidingKey(config, identifier);
                var o := SlidingWindowStep(old(Scores(key)), WholeSeconds(config.windowSize),
                                           config.requestsPerMinute, UnixSeconds(nowNanos));
                r == ResultFromReply(o.reply, config.requestsPerMinute, nowNanos) && Scores(key) == o.scores
                && forall k :: k != key ==> Scores(k) == old(Scores(k))
      ensures buckets == old(buckets)
    {
      r := SlidingWindowCheck(identifier, config, nowNanos, storeDown);
    }

    /**
     * tokenBucketCheck: capacity BurstSize, one token per refill, interval
     * WindowSize seconds / RequestsPerMinute. Go panics when
     * RequestsPerMinute is 0; a zero interval makes the script divide by zero.
     */
    method TokenBucketCheck(identifier: string, config: RateLimitConfig, nowNanos: int, storeDown: bool)
      returns (r: RateLimitResult)
      requires config.requestsPerMinute != 0
      requires BucketInterval(config) != 0
      modifies this
      ensures storeDown ==> r == BucketFailOpen(config, nowNanos) && buckets == old(buckets)
      ensures !storeDown ==>
                var key := BucketKey(config, identifier);
                var o := TokenBucketStep(old(Bucket(key)), config.burstSize, 1, BucketInterval(config),
                                         UnixSeconds(nowNanos));
                r == ResultFromReply(o.0, config.burstSize, nowNanos)
                && buckets == old(buckets)[key := o.1]
      ensures zsets == old(zsets)
    {
      if storeDown {
        r := BucketFailOpen(config, nowNanos);
        return;
      }
      var key := BucketKey(config, identifier);
      var reply := TokenBucketScript(key, config.burstSize, 1, BucketInterval(config), UnixSeconds(nowNanos));
      r := ResultFromReply(reply, config.burstSize, nowNanos);
    }
  }

  function SlidingKey(config: RateLimitConfig, identifier: string): string {
    config.keyPrefix + ":" + identifier + ":sliding"
  }

  function BucketKey(config: RateLimitConfig, identifier: string): string {
    config.keyPrefix + ":" + identifier + ":bucket"
  }

  function BucketInterval(config: RateLimitConfig): int
    requires config.requestsPerMinute != 0
  {
    GoDiv(WholeSeconds(config.windowSize), config.requestsPerMinute)
  }

  /** The Go-side result of a script reply: reset as a time, retry-after as the time until it. */
  function ResultFromReply(reply: ScriptReply, limit: int, nowNanos: int): (r: RateLimitResult)
    ensures r.allowed == reply.allowed && r.limit == limit && r.remaining == reply.remaining
    ensures UnixSeconds(r.resetTime) == reply.reset
    ensures r.resetTime == nowNanos + r.retryAfter
  {
    var reset := reply.reset * NanosPerSecond;
    RateLimitResult(reply.allowed, limit, reply.remaining, reset, reset - nowNanos)
  }

  /** The sliding check's answer when the store fails: allow, with RequestsPerMinute - 1 left. */
  function SlidingFailOpen(config: RateLimitConfig, nowNanos: int): (r: RateLimitResult)
    ensures r.allowed && r.limit == config.requestsPerMinute && r.remaining == config.requestsPerMinute - 1
    ensures r.resetTime == nowNanos + config.windowSize && r.retryAfter == 0
  {
    RateLimitResult(true, config.requestsPerMinute, config.requestsPerMinute - 1, nowNanos + config.windowSize, 0)
  }

  /** The token-bucket check's answer when the store fails: allow, with BurstSize - 1 left. */
  function BucketFailOpen(config: RateLimitConfig, nowNanos: int): (r: RateLimitResult)
    requires config.requestsPerMinute != 0
    ensures r.allowed && r.limit == config.burstSize && r.remaining == config.burstSize - 1
    ensures r.resetTime == nowNanos + BucketInterval(config) * NanosPerSecond && r.retryAfter == 0
  {
    RateLimitResult(true, config.burstSize, config.burstSize - 1,
                    nowNanos + BucketInterval(config) * NanosPerSecond, 0)
  }

  /**
   * The limit is RequestsPerMinute whatever the window: a 60-second window
   * makes both configurations admit per minute, and the per-hour and
   * per-day figures play no part in any check.
   */
  lemma {:induction false} LimitIgnoresHourAndDay(config: RateLimitConfig, hour: int, day: int, identifier: string, nowNanos: int)
    ensures SlidingFailOpen(config.(requestsPerHour := hour, requestsPerDay := day), nowNanos)
            == SlidingFailOpen(config, nowNanos)
    ensures SlidingKey(config.(requestsPerHour := hour, requestsPerDay := day), identifier)
            == SlidingKey(config, identifier)
  {
  }

  // ------------------------------------------------------- identification

  /** getClientIdentifier: user id, else IP and a User-Agent fingerprint, else IP. */
  function GetClientIdentifier(r: Request, net: Net, sha: Sha256): (id: string)
    ensures r.context.userId.Some? ==> id == "user:" + IntToString(r.context.userId.value)
    ensures r.context.userId.None? && Get(r.header, "User-Agent") != "" ==>
              id == "ip:" + GetClientIP(r, net) + ":ua:" + UserAgentFingerprint(Get(r.header, "User-Agent"), sha)
    ensures r.context.userId.None? && Get(r.header, "User-Agent") == "" ==> id == "ip:" + GetClientIP(r, net)
  {
    match r.context.userId
    case Some(uid) => "user:" + IntToString(uid)
    case None =>
      var ip := GetClientIP(r, net);
      var ua := Get(r.header, "User-Agent");
      if ua != "" then "ip:" + ip + ":ua:" + UserAgentFingerprint(ua, sha) else "ip:" + ip
  }

  /** hex.EncodeToString(sha256(ua)[:8]). */
  function UserAgentFingerprint(ua: string, sha: Sha256): (f: string)
    ensures |f| == 16 && forall k :: 0 <= k < 16 ==> IsHexDigit(f[k])
    ensures f == HexEncode(sha(ua))[..16]
  {
    HexEncodePrefix(sha(ua), 8);
    HexEncode(sha(ua)[..8])
  }

  /**
   * Authenticated users are counted per user and never share a quota with
   * an address: a user identifier and an address identifier always differ,
   * and two users share one only if they are the same user.
   */
  lemma {:induction false} IdentifiersSeparateUsers(r1: Request, r2: Request, net: Net, sha: Sha256)
    requires r1.context.userId.Some?
    ensures r2.context.userId.None? ==> GetClientIdentifier(r1, net, sha) != GetClientIdentifier(r2, net, sha)
    ensures (r2.context.userId.Some? && GetClientIdentifier(r1, net, sha) == GetClientIdentifier(r2, net, sha))
            ==> r1.context.userId == r2.context.userId
  {
    var id1 := GetClientIdentifier(r1, net, sha);
    var id2 := GetClientIdentifier(r2, net, sha);
    assert id1[0] == 'u';
    if r2.context.userId.None? {
      assert id2[0] == 'i';
    } else if id1 == id2 {
      var a, b := r1.context.userId.value, r2.context.userId.value;
      assert id1[5..] == IntToString(a) && id2[5..] == IntToString(b);
      IntToStringInjective(a, b);
    }
  }

  // ------------------------------------------------------------ middleware

  /**
   * The limiter as the middleware sees it: the result CheckRateLimit gives
   * for a configuration and an identifier (the store state it reads and
   * updates stays inside the limiter).
   */
  type Checker = (RateLimitConfig, string) -> RateLimitResult

  /** The X-RateLimit-* headers set on every checked request. */
  function RateLimitHeaders(h: Header, res: RateLimitResult): Header {
    var h1 := Set(h, "X-RateLimit-Limit", IntToString(res.limit));
    var h2 := Set(h1, "X-RateLimit-Remaining", IntToString(res.remaining));
    Set(h2, "X-RateLimit-Reset", IntToString(UnixSeconds(res.resetTime)))
  }

  function DenialMessage(seconds: int): string {
    "Rate limit exceeded. Try again in " + IntToString(seconds) + " seconds"
  }

  /** What RateLimitMiddleware(config) does with one request before (perhaps) calling next. */
  function RateLimited(config: RateLimitConfig, check: Checker, net: Net, sha: Sha256,
                       next: Handler, r: Request, h: Header): (o: Outcome)
    ensures var id := GetClientIdentifier(r, net, sha);
            var res := check(config, id);
            && (!res.allowed ==> o == Denied(RateLimitHeaders(h, res), id, res))
            && (res.allowed ==>
                  var inner := next(r, RateLimitHeaders(h, res));
                  o == Outcome(inner.header, inner.calls, [RateLimitChecked(id)] + inner.steps))
  {
    var id := GetClientIdentifier(r, net, sha);
    var res := check(config, id);
    var h1 := RateLimitHeaders(h, res);
    if !res.allowed then Denied(h1, id, res)
    else
      var inner := next(r, h1);
      Outcome(inner.header, inner.calls, [RateLimitChecked(id)] + inner.steps)
  }

  /** The 429 answer: Retry-After in whole seconds, then the JSON error. */
  function Denied(h: Header, id: string, res: RateLimitResult): (o: Outcome)
    ensures o.calls == [WriteHeader(StatusTooManyRequests),
                        WriteJson(ErrorResponse("Too Many Requests", DenialMessage(WholeSeconds(res.retryAfter))))]
    ensures Get(o.header, "Retry-After") == IntToString(WholeSeconds(res.retryAfter))
    ensures forall n :: n != "Retry-After" && n != "Content-Type" ==> Values(o.header, n) == Values(h, n)
    ensures o.steps == [RateLimitChecked(id)]
  {
    var seconds := WholeSeconds(res.retryAfter);
    var e := WriteError(Set(h, "Retry-After", IntToString(seconds)), StatusTooManyRequests, DenialMessage(seconds));
    Outcome(e.header, e.calls, [RateLimitChecked(id)])
  }

  /** RateLimitMiddleware(config). CheckRateLimit never returns an error, so there is no error branch. */
  function RateLimitMiddleware(config: RateLimitConfig, check: Checker, net: Net, sha: Sha256): Middleware {
    (next: Handler) => (r: Request, h: Header) => RateLimited(config, check, net, sha, next, r, h)
  }

  /**
   * A denied request is answered 429 with Retry-After and the X-RateLimit-*
   * headers, and the handler it guards is not run: the outcome is the same
   * whatever that handler is.
   */
  lemma {:induction false} RateLimitDenial(config: RateLimitConfig, check: Checker, net: Net, sha: Sha256,
                        next1: Handler, next2: Handler, r: Request, h: Header)
    requires !check(config, GetClientIdentifier(r, net, sha)).allowed
    ensures var o := RateLimitMiddleware(config, check, net, sha)(next1)(r, h);
            var res := check(config, GetClientIdentifier(r, net, sha));
            && o.calls[0] == WriteHeader(StatusTooManyRequests)
            && Get(o.header, "Retry-After") == IntToString(WholeSeconds(res.retryAfter))
            && Get(o.header, "X-RateLimit-Remaining") == IntToString(res.remaining)
            && o.steps == [RateLimitChecked(GetClientIdentifier(r, net, sha))]
            && o == RateLimitMiddleware(config, check, net, sha)(next2)(r, h)
  {
    var res := check(config, GetClientIdentifier(r, net, sha));
    var o := RateLimited(config, check, net, sha, next1, r, h);
    assert Values(o.header, "X-RateLimit-Remaining") == Values(RateLimitHeaders(h, res), "X-RateLimit-Remaining");
  }

  /** An admitted request runs the handler once, with the X-RateLimit-* headers already set. */
  lemma {:induction false} RateLimitAdmission(config: RateLimitConfig, check: Checker, net: Net, sha: Sha256,
                           next: Handler, r: Request, h: Header)
    requires check(config, GetClientIdentifier(r, net, sha)).allowed
    ensures var o := RateLimitMiddleware(config, check, net, sha)(next)(r, h);
            var res := check(config, GetClientIdentifier(r, net, sha));
            var inner := next(r, RateLimitHeaders(h, res));
            o == Outcome(inner.header, inner.calls, [RateLimitChecked(GetClientIdentifier(r, net, sha))] + inner.steps)
  {
  }

  /** Admitted or not, a request's first step under the middleware is its rate-limit check. */
  lemma {:induction false} RateLimitCheckedFirst(config: RateLimitConfig, check: Checker, net: Net, sha: Sha256,
                              next: Handler, r: Request, h: Header)
    ensures var o := RateLimitMiddleware(config, check, net, sha)(next)(r, h);
            |o.steps| >= 1 && o.steps[0] == RateLimitChecked(GetClientIdentifier(r, net, sha))
  {
  }
}
