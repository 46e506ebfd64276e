/** The process-wide counter of provider requests: a running total and the
    times of the requests of the last minute, with the two rate-limit
    thresholds it warns about. The clock (`Date.now()`) is a parameter. */
module ApiCounter {
  import Dedup

  /** `RATE_LIMIT_WINDOW`, in milliseconds. */
  const RateLimitWindow: int := 60 * 1000
  /** `MAX_REQUESTS_PER_MINUTE` */
  const MaxRequestsPerMinute: int := 60
  /** `MAX_REQUESTS_PER_MINUTE * 0.8`: from this many requests in the window on, a warning is logged. */
  const WarningThreshold: int := 48

  /** What an increment logs about the rate limit. */
  datatype RateStatus = BelowLimit | ApproachingLimit | LimitReached

  /** A request at time t is still in the window at time now. */
  function InWindow(now: int): int -> bool {
    t => now - t < RateLimitWindow
  }

  /** The request times kept after a request at `now`. */
  function Window(times: seq<int>, now: int): seq<int> {
    Dedup.Filter(times + [now], InWindow(now))
  }

  /** The log decision for a window of n requests: the limit message from 60
      on, the warning from 48 on. Both are printed at 60 and more; the
      status names the stronger one. */
  function Status(n: nat): (s: RateStatus)
    ensures s == LimitReached <==> n >= MaxRequestsPerMinute
    ensures s == ApproachingLimit <==> WarningThreshold <= n < MaxRequestsPerMinute
    ensures s == BelowLimit <==> n < WarningThreshold
  {
    if n >= MaxRequestsPerMinute then LimitReached
    else if n >= WarningThreshold then ApproachingLimit
    else BelowLimit
  }

  /** The window keeps the new request, keeps only requests younger than a
      minute, keeps every such request, and keeps their order. */
  lemma {:induction false} WindowFacts(times: seq<int>, now: int)
    ensures now in Window(times, now)
    ensures forall t :: t in Window(times, now) ==> now - t < RateLimitWindow
    ensures forall t :: t in times && now - t < RateLimitWindow ==> t in Window(times, now)
    ensures Dedup.IsSubsequence(Window(times, now), times + [now])
    ensures |Window(times, now)| <= |times| + 1
  {
    var s := times + [now];
    Dedup.FilterContains(s, InWindow(now));
    Dedup.FilterSubsequence(s, InWindow(now));
  }

  /** The counter's state: `apiCallCount` and `requestTimes`. */
  class Counter {
    var apiCallCount: int
    var requestTimes: seq<int>

    /** Every request in the window was counted since the last reset. */
    predicate Valid()
      reads this
    {
      0 <= |requestTimes| <= apiCallCount
    }

    /** The module's initial state. */
    constructor ()
      ensures Valid() && apiCallCount == 0 && requestTimes == []
    {
      apiCallCount := 0;
      requestTimes := [];
    }

    /** `incrementApiCount`: one more request, made at `now`. Returns the new
        count and the log decision about the rate limit. */
    method Increment(now: int) returns (count: int, status: RateStatus)
      requires Valid()
      modifies this
      ensures Valid()
      ensures apiCallCount == old(apiCallCount) + 1 && count == apiCallCount
      ensures requestTimes == Window(old(requestTimes), now)
      ensures status == Status(|requestTimes|)
    {
      apiCallCount := apiCallCount + 1;
      requestTimes := requestTimes + [now];
      requestTimes := Dedup.Filter(requestTimes, InWindow(now));
      count := apiCallCount;
      status := Status(|requestTimes|);
    }

    /** `getApiCount` */
    method GetCount() returns (count: int)
      ensures count == apiCallCount
    {
      count := apiCallCount;
    }

    /** `resetApiCount` */
    method Reset()
      modifies this
      ensures Valid() && apiCallCount == 0 && requestTimes == []
    {
      apiCallCount := 0;
      requestTimes := [];
    }
  }
}
