/**
 * The per-issuer JWKS rate limiter (JwksOperations.RateLimiter): a minimum
 * interval between two granted requests, `60000 / requestsPerMinute`
 * milliseconds in Java integer division, measured from the last granted
 * request (initially the epoch).
 *
 * The clock is the parameter `nowMillis`. The compare-and-set of the source
 * always succeeds here, calls being sequential.
 */
module RateLimiting {
  import opened Common

  /** minIntervalMillis for a rate in requests per minute (the caller rules out 0, which Java rejects with ArithmeticException). */
  function MinIntervalMillis(requestsPerMinute: int): int
    requires requestsPerMinute != 0
  {
    JavaDiv(60000, requestsPerMinute)
  }

  /** The default rate of the JwksOperations constructors, 10 per minute, spaces requests 6 seconds apart. */
  lemma DefaultInterval()
    ensures MinIntervalMillis(10) == 6000
  {
  }

  /** One tryAcquire: granted when at least the interval has passed since the last grant. Returns the grant and the new last time. */
  function Acquire(last: int, minIntervalMillis: int, nowMillis: int): (r: (bool, int))
    ensures r.0 <==> nowMillis - last >= minIntervalMillis
    ensures r.1 == (if r.0 then nowMillis else last)
  {
    if nowMillis - last >= minIntervalMillis then (true, nowMillis) else (false, last)
  }

  /** The answers of one limiter to requests at the times `times`, starting from the last grant `last`. */
  function Run(last: int, minIntervalMillis: int, times: seq<int>): (r: seq<bool>)
    ensures |r| == |times|
    decreases |times|
  {
    if times == [] then []
    else
      var step := Acquire(last, minIntervalMillis, times[0]);
      [step.0] + Run(step.1, minIntervalMillis, times[1..])
  }

  /** Every grant is at least one interval after the starting point. */
  lemma {:induction false} GrantAfterStart(last: int, minIntervalMillis: int, times: seq<int>, j: nat)
    requires minIntervalMillis >= 0
    requires j < |times| && Run(last, minIntervalMillis, times)[j]
    ensures times[j] >= last + minIntervalMillis
    decreases |times|
  {
    if j > 0 {
      var step := Acquire(last, minIntervalMillis, times[0]);
      assert Run(step.1, minIntervalMillis, times[1..])[j - 1];
      GrantAfterStart(step.1, minIntervalMillis, times[1..], j - 1);
    }
  }

  /**
   * Two grants of the same limiter are at least one interval apart, whatever
   * the clock does between them (for a non-negative interval).
   */
  lemma {:induction false} GrantsAreSpaced(last: int, minIntervalMillis: int, times: seq<int>, i: nat, j: nat)
    requires minIntervalMillis >= 0
    requires i < j < |times|
    requires Run(last, minIntervalMillis, times)[i] && Run(last, minIntervalMillis, times)[j]
    ensures times[j] - times[i] >= minIntervalMillis
    decreases |times|
  {
    var step := Acquire(last, minIntervalMillis, times[0]);
    var rest := Run(step.1, minIntervalMillis, times[1..]);
    assert rest[j - 1];
    if i == 0 {
      GrantAfterStart(step.1, minIntervalMillis, times[1..], j - 1);
    } else {
      assert rest[i - 1];
      GrantsAreSpaced(step.1, minIntervalMillis, times[1..], i - 1, j - 1);
    }
  }

  /** A first request at least one interval after the epoch is granted. */
  lemma FirstRequestGranted(minIntervalMillis: int, nowMillis: int)
    requires nowMillis >= minIntervalMillis
    ensures Run(0, minIntervalMillis, [nowMillis]) == [true]
  {
  }

  /** RateLimiter: the last granted request time, changed in place by tryAcquire. */
  class RateLimiter {
    const minIntervalMillis: int
    var lastRequestTime: int

    constructor(requestsPerMinute: int)
      requires requestsPerMinute != 0
      ensures minIntervalMillis == MinIntervalMillis(requestsPerMinute) && lastRequestTime == 0
    {
      minIntervalMillis := MinIntervalMillis(requestsPerMinute);
      lastRequestTime := 0;
    }

    /** tryAcquire: granted exactly when the interval has passed; only a grant moves the last time to now. */
    method TryAcquire(nowMillis: int) returns (granted: bool)
      modifies this
      ensures (granted, lastRequestTime) == Acquire(old(lastRequestTime), minIntervalMillis, nowMillis)
    {
      var last := lastRequestTime;
      if nowMillis - last >= minIntervalMillis {
        lastRequestTime := nowMillis;
        return true;
      }
      return false;
    }
  }
}
