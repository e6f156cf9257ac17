/** The per-client rate limiter (backend/internal/interfaces/http/middleware/ratelimit.go):
    one bucket per key holding the tokens left in the current window and the
    instant the window began. Instants and durations are whole nanoseconds; the
    clock is a parameter of each call. */
module RateLimit {

  /** A key's bucket. */
  datatype Bucket = Bucket(tokens: int, lastReset: int)

  /** The bucket map and the answer after one `Allow(key)` at instant `now`: a key
      never seen, or whose window ended strictly more than `window` ago, gets a
      fresh bucket with `rate - 1` tokens and is let through; otherwise a token
      is spent if there is one; otherwise the request is refused and nothing
      changes. */
  function AllowStep(buckets: map<string, Bucket>, rate: int, window: int, key: string, now: int)
    : (r: (map<string, Bucket>, bool))
    ensures r.1 <==> key !in buckets || now - buckets[key].lastReset > window || buckets[key].tokens > 0
    ensures r.1 ==> key in r.0
    ensures !r.1 ==> r.0 == buckets
  {
    if key !in buckets || now - buckets[key].lastReset > window then
      (buckets[key := Bucket(rate - 1, now)], true)
    else if buckets[key].tokens > 0 then
      (buckets[key := Bucket(buckets[key].tokens - 1, buckets[key].lastReset)], true)
    else
      (buckets, false)
  }

  /** A bucket `cleanup` deletes: its window began more than three windows ago. */
  predicate Stale(b: Bucket, window: int, now: int) {
    now - b.lastReset > window * 3
  }

  /** The buckets `cleanup` keeps, unchanged. */
  function Swept(buckets: map<string, Bucket>, window: int, now: int): (r: map<string, Bucket>)
    ensures forall k :: k in r <==> k in buckets && !Stale(buckets[k], window, now)
    ensures forall k :: k in r ==> r[k] == buckets[k]
  {
    map k | k in buckets && !Stale(buckets[k], window, now) :: buckets[k]
  }

  /** Every bucket holds between 0 and `rate - 1` tokens. */
  ghost predicate TokensInRange(buckets: map<string, Bucket>, rate: int) {
    forall k :: k in buckets ==> 0 <= buckets[k].tokens <= rate - 1
  }

  class RateLimiter {
    var buckets: map<string, Bucket>
    const rate: int
    const window: int

    /** The limiter's invariant, for a positive rate. */
    ghost predicate Valid()
      reads this
    {
      rate >= 1 ==> TokensInRange(buckets, rate)
    }

    /** `NewRateLimiter`: no buckets yet. The cleanup ticker is not modelled. */
    constructor (rate: int, window: int)
      ensures this.rate == rate && this.window == window
      ensures buckets == map[]
      ensures Valid()
    {
      this.rate := rate;
      this.window := window;
      buckets := map[];
    }

    /** `Allow`. */
    method Allow(key: string, now: int) returns (allowed: bool)
      requires Valid()
      modifies this
      ensures (buckets, allowed) == AllowStep(old(buckets), rate, window, key, now)
      ensures Valid()
    {
      if key !in buckets || now - buckets[key].lastReset > window {
        buckets := buckets[key := Bucket(rate - 1, now)];
        return true;
      }
      var b := buckets[key];
      if b.tokens > 0 {
        buckets := buckets[key := b.(tokens := b.tokens - 1)];
        return true;
      }
      return false;
    }

    /** `cleanup`: walk the keys and delete the stale buckets. */
    method Cleanup(now: int)
      requires Valid()
      modifies this
      ensures buckets == Swept(old(buckets), window, now)
      ensures Valid()
    {
      ghost var start := buckets;
      var pending := buckets.Keys;
      while pending != {}
        invariant pending <= start.Keys
        invariant forall k :: k in pending ==> k in buckets
        invariant forall k :: k in buckets ==> k in start && buckets[k] == start[k]
        invariant forall k :: k in start && k !in pending ==> (k in buckets <==> !Stale(start[k], window, now))
        decreases pending
      {
        var key :| key in pending;
        if now - buckets[key].lastReset > window * 3 {
          buckets := buckets - {key};
        }
        pending := pending - {key};
      }
      assert buckets == Swept(start, window, now);
    }
  }

  /** What the middleware does with a request. */
  datatype Outcome = Continue | Reject(status: int, error: string, message: string)

  const TooManyRequests := 429

  /** `Middleware`: the client's key is charged; a refused request is answered
      429 and the chain stops. */
  method Middleware(limiter: RateLimiter, key: string, now: int) returns (outcome: Outcome)
    requires limiter.Valid()
    modifies limiter
    ensures (limiter.buckets, outcome.Continue?) == AllowStep(old(limiter.buckets), limiter.rate, limiter.window, key, now)
    ensures outcome.Reject? ==>
      outcome == Reject(TooManyRequests, "Rate Limit Exceeded", "Too many requests. Please try again later.")
    ensures limiter.Valid()
  {
    var allowed := limiter.Allow(key, now);
    if !allowed {
      return Reject(TooManyRequests, "Rate Limit Exceeded", "Too many requests. Please try again later.");
    }
    return Continue;
  }

  // ---------------------------------------------------------------------------
  // Properties of one call
  // ---------------------------------------------------------------------------

  /** `Allow` touches only its own key's bucket. */
  lemma AllowOtherKeys(buckets: map<string, Bucket>, rate: int, window: int, key: string, now: int)
    ensures forall k :: k != key ==>
      (k in AllowStep(buckets, rate, window, key, now).0 <==> k in buckets)
      && (k in buckets ==> AllowStep(buckets, rate, window, key, now).0[k] == buckets[k])
  {
  }

  /** The three outcomes for the caller's own bucket. The window ends strictly:
      at exactly `window` after the last reset the bucket is not renewed. */
  lemma AllowOwnBucket(buckets: map<string, Bucket>, rate: int, window: int, key: string, now: int)
    ensures var r := AllowStep(buckets, rate, window, key, now);
      (key !in buckets || now - buckets[key].lastReset > window ==> r.0[key] == Bucket(rate - 1, now) && r.1)
      && (key in buckets && now - buckets[key].lastReset <= window && buckets[key].tokens > 0 ==>
            r.0[key] == Bucket(buckets[key].tokens - 1, buckets[key].lastReset) && r.1)
      && (key in buckets && now - buckets[key].lastReset <= window && buckets[key].tokens <= 0 ==>
            r.0 == buckets && !r.1)
      && (key in buckets && now - buckets[key].lastReset == window ==> r.0[key].lastReset == buckets[key].lastReset)
  {
  }

  /** With a positive rate the token count stays within 0 .. rate-1. */
  lemma AllowKeepsRange(buckets: map<string, Bucket>, rate: int, window: int, key: string, now: int)
    requires rate >= 1 && TokensInRange(buckets, rate)
    ensures TokensInRange(AllowStep(buckets, rate, window, key, now).0, rate)
  {
  }

  /** `cleanup` keeps the token counts in range. */
  lemma SweptKeepsRange(buckets: map<string, Bucket>, rate: int, window: int, now: int)
    requires TokensInRange(buckets, rate)
    ensures TokensInRange(Swept(buckets, window, now), rate)
  {
  }

  /** Deleting stale buckets cannot be observed: for a non-negative window, any
      later request gets the same answer, and its key the same bucket, as if
      the bucket had been kept (it would have been renewed anyway). */
  lemma SweepUnobservable(buckets: map<string, Bucket>, rate: int, window: int, now: int, key: string, later: int)
    requires window >= 0 && later >= now
    ensures var kept := AllowStep(buckets, rate, window, key, later);
      var swept := AllowStep(Swept(buckets, window, now), rate, window, key, later);
      swept.1 == kept.1
      && (key in swept.0 <==> key in kept.0)
      && (key in swept.0 ==> swept.0[key] == kept.0[key])
  {
    var s := Swept(buckets, window, now);
    if key in buckets && key !in s {
      assert Stale(buckets[key], window, now);
      assert later - buckets[key].lastReset > window;
    }
  }

  // ---------------------------------------------------------------------------
  // The budget of a window
  // ---------------------------------------------------------------------------

  /** A run of `Allow(key)` calls at the given instants: the final buckets and
      how many calls were let through. */
  function Replay(buckets: map<string, Bucket>, rate: int, window: int, key: string, times: seq<int>)
    : (r: (map<string, Bucket>, nat))
    ensures r.1 <= |times|
    decreases |times|
  {
    if times == [] then (buckets, 0)
    else
      var step := AllowStep(buckets, rate, window, key, times[0]);
      var rest := Replay(step.0, rate, window, key, times[1..]);
      (rest.0, rest.1 + if step.1 then 1 else 0)
  }

  /** While no call falls more than a window after the bucket's last reset, the
      bucket is not renewed and at most its remaining tokens' worth of calls
      get through. */
  lemma {:induction false} WithinWindow(buckets: map<string, Bucket>, rate: int, window: int, key: string, times: seq<int>)
    requires key in buckets && buckets[key].tokens >= 0
    requires forall k :: 0 <= k < |times| ==> times[k] - buckets[key].lastReset <= window
    ensures var r := Replay(buckets, rate, window, key, times);
      key in r.0 && r.0[key].lastReset == buckets[key].lastReset
      && r.1 <= buckets[key].tokens
      && r.0[key].tokens == buckets[key].tokens - r.1
  {
    if times != [] {
      var step := AllowStep(buckets, rate, window, key, times[0]);
      assert step.0[key].lastReset == buckets[key].lastReset;
      WithinWindow(step.0, rate, window, key, times[1..]);
    }
  }

  /** Between two resets at most `rate` requests of one key get through: the
      call that renews the bucket at `start`, and then at most `rate - 1` more
      while the window lasts. (With a rate below one the renewing call still
      gets through, so the bound is one.) */
  lemma AtMostRatePerWindow(buckets: map<string, Bucket>, rate: int, window: int, key: string, start: int, times: seq<int>)
    requires key !in buckets || start - buckets[key].lastReset > window
    requires forall k :: 0 <= k < |times| ==> times[k] - start <= window
    ensures Replay(buckets, rate, window, key, [start] + times).1 <= if rate >= 1 then rate else 1
  {
    var step := AllowStep(buckets, rate, window, key, start);
    assert ([start] + times)[1..] == times;
    assert step.0[key] == Bucket(rate - 1, start);
    if rate >= 1 {
      WithinWindow(step.0, rate, window, key, times);
    } else {
      RefusedOnceSpent(step.0, rate, window, key, times);
    }
  }

  /** With no token left and no renewal due, every call is refused. */
  lemma {:induction false} RefusedOnceSpent(buckets: map<string, Bucket>, rate: int, window: int, key: string, times: seq<int>)
    requires key in buckets && buckets[key].tokens <= 0
    requires forall k :: 0 <= k < |times| ==> times[k] - buckets[key].lastReset <= window
    ensures Replay(buckets, rate, window, key, times).1 == 0
  {
    if times != [] {
      RefusedOnceSpent(buckets, rate, window, key, times[1..]);
    }
  }
}
