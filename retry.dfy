/** The two retry policies the pet service configures: the delay before the
    n-th retry of a DynamoDB call, and the reconnect strategy of the Redis
    client. Both are pure functions of their inputs. */
module RetryPolicies {
  import opened Wrappers

  /** The AWS SDK retries a failing DynamoDB call at most this many times. */
  const MaxRetries: nat := 3

  function Pow2(n: nat): (r: nat)
    ensures r >= 1
  {
    if n == 0 then 1 else 2 * Pow2(n - 1)
  }

  /** `customBackoff(retryCount)`: milliseconds to wait before retry number
      `retryCount` (counted from 0). */
  function DynamoBackoff(retryCount: nat): (ms: nat)
    ensures ms >= 100 && ms % 100 == 0
  {
    Pow2(retryCount) * 100
  }

  /** Each further retry waits twice as long as the one before. */
  lemma BackoffDoubles(retryCount: nat)
    ensures DynamoBackoff(retryCount + 1) == 2 * DynamoBackoff(retryCount)
  {
  }

  /** The waits never shrink from one retry to a later one. */
  lemma {:induction false} BackoffMonotone(m: nat, n: nat)
    requires m <= n
    ensures DynamoBackoff(m) <= DynamoBackoff(n)
  {
    if m < n {
      BackoffMonotone(m, n - 1);
      BackoffDoubles(n - 1);
    }
  }

  /** The total time spent waiting before the first `retries` retries. */
  function TotalBackoff(retries: nat): nat {
    if retries == 0 then 0 else TotalBackoff(retries - 1) + DynamoBackoff(retries - 1)
  }

  /** Closed form of the accumulated wait: 100 * (2^n - 1) milliseconds. */
  lemma {:induction false} TotalBackoffClosedForm(retries: nat)
    ensures TotalBackoff(retries) == 100 * (Pow2(retries) - 1)
  {
    if retries > 0 {
      TotalBackoffClosedForm(retries - 1);
    }
  }

  /** With the configured three retries a DynamoDB call waits 100, 200 and
      400 ms, 700 ms in all, before its failure reaches the handler. */
  lemma RetryBudget()
    ensures [DynamoBackoff(0), DynamoBackoff(1), DynamoBackoff(2)] == [100, 200, 400]
    ensures TotalBackoff(MaxRetries) == 700
  {
    TotalBackoffClosedForm(MaxRetries);
  }

  /** What the Redis client passes to its retry strategy. `errorCode` is the
      code of the error that closed the connection, `None` when there is no
      such error or it has no code. */
  datatype RetryOptions = RetryOptions(errorCode: Option<string>, totalRetryTime: nat, attempt: nat)

  /** What the strategy answers: stop reconnecting (`undefined`), stop with an
      error, or reconnect after a delay in milliseconds. */
  datatype RetryDecision = StopRetrying | GiveUp(message: string) | RetryAfter(ms: nat)

  const ConnectionRefused := "ECONNREFUSED"
  /** One hour, in milliseconds. */
  const RetryTimeBudget: nat := 1000 * 60 * 60
  const MaxAttempts: nat := 3
  const MaxDelay: nat := 3000

  function Min(a: nat, b: nat): nat { if a <= b then a else b }

  /** The Redis `retry_strategy`: a refused connection stops at once, then an
      exhausted hour gives up with an error, then a fourth attempt stops;
      otherwise wait 100 ms per attempt, capped at 3 s. */
  function RedisRetry(o: RetryOptions): (d: RetryDecision)
    ensures o.errorCode == Some(ConnectionRefused) ==> d == StopRetrying
    ensures d.GiveUp? <==> o.errorCode != Some(ConnectionRefused) && o.totalRetryTime > RetryTimeBudget
    ensures d.RetryAfter? <==>
              o.errorCode != Some(ConnectionRefused) && o.totalRetryTime <= RetryTimeBudget && o.attempt <= MaxAttempts
    ensures d.RetryAfter? ==> d.ms <= MaxDelay && d.ms == Min(o.attempt * 100, MaxDelay)
  {
    if o.errorCode == Some(ConnectionRefused) then StopRetrying
    else if o.totalRetryTime > RetryTimeBudget then GiveUp("Retry time exhausted")
    else if o.attempt > MaxAttempts then StopRetrying
    else RetryAfter(Min(o.attempt * 100, MaxDelay))
  }

  /** Because the fourth attempt already stops, the 3 s cap is never reached:
      every delay the strategy returns is at most 300 ms and grows by 100 ms
      per attempt. */
  lemma RedisDelayBelowCap(o: RetryOptions)
    requires RedisRetry(o).RetryAfter?
    ensures RedisRetry(o).ms == o.attempt * 100 <= 300
  {
  }
}
