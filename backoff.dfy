/**
 * The two retry policies of the realtime layer: connection retries
 * (ChatContext.jsx `scheduleRetry`) and subscription retries
 * (ChatContext.jsx `scheduleSubscriptionRetry`).
 */
module Backoff {
  import opened Wrappers
  import opened Numbers

  const BaseDelayMs: nat := 1000
  const ConnectionCapMs: nat := 30000
  const MaxConnectionRetries: nat := 5
  const SubscriptionCapMs: nat := 10000
  const MaxSubscriptionRetries: nat := 3

  function Pow2(n: nat): (r: nat)
    ensures r >= 1
  {
    if n == 0 then 1 else 2 * Pow2(n - 1)
  }

  lemma {:induction false} Pow2Monotone(a: nat, b: nat)
    requires a <= b
    ensures Pow2(a) <= Pow2(b)
  {
    if a < b {
      Pow2Monotone(a, b - 1);
    }
  }

  /** `Math.min(1000 * 2^(retry - 1), 30000)`; `retry` is the already-incremented retry count. */
  function ConnectionDelay(retry: nat): (d: nat)
    requires retry >= 1
    ensures BaseDelayMs <= d <= ConnectionCapMs
  {
    Min(BaseDelayMs * Pow2(retry - 1), ConnectionCapMs)
  }

  /** `Math.min(1000 * 2^(attempt - 1), 10000)`. */
  function SubscriptionDelay(attempt: nat): (d: nat)
    requires attempt >= 1
    ensures BaseDelayMs <= d <= SubscriptionCapMs
  {
    Min(BaseDelayMs * Pow2(attempt - 1), SubscriptionCapMs)
  }

  /**
   * What `scheduleRetry` decides when the retry count before the call is
   * `retryCount`: no timer once five retries were scheduled, otherwise a
   * timer whose delay uses the incremented count.
   */
  function ConnectionRetryPlan(retryCount: nat): (r: Option<nat>)
    ensures r.None? <==> retryCount >= MaxConnectionRetries
    ensures r.Some? ==> r.value == ConnectionDelay(retryCount + 1)
  {
    if retryCount >= MaxConnectionRetries then None else Some(ConnectionDelay(retryCount + 1))
  }

  /** What `scheduleSubscriptionRetry(chatId, attempt)` decides. */
  function SubscriptionRetryPlan(attempt: nat): (r: Option<nat>)
    requires attempt >= 1
    ensures r.None? <==> attempt > MaxSubscriptionRetries
    ensures r.Some? ==> r.value == SubscriptionDelay(attempt)
  {
    if attempt > MaxSubscriptionRetries then None else Some(SubscriptionDelay(attempt))
  }

  /** The connection delays are exactly 1 s, 2 s, 4 s, 8 s and 16 s; the 30 s cap is never reached. */
  lemma ConnectionDelaysExact()
    ensures [ConnectionDelay(1), ConnectionDelay(2), ConnectionDelay(3), ConnectionDelay(4), ConnectionDelay(5)]
         == [1000, 2000, 4000, 8000, 16000]
  {
  }

  /** The subscription delays are exactly 1 s, 2 s and 4 s; the 10 s cap is never reached. */
  lemma SubscriptionDelaysExact()
    ensures [SubscriptionDelay(1), SubscriptionDelay(2), SubscriptionDelay(3)] == [1000, 2000, 4000]
  {
  }

  /** A later retry never waits less than an earlier one. */
  lemma ConnectionDelayMonotone(a: nat, b: nat)
    requires 1 <= a <= b
    ensures ConnectionDelay(a) <= ConnectionDelay(b)
  {
    Pow2Monotone(a - 1, b - 1);
  }

  /** From the sixth retry on, the formula would sit at the 30 s cap. */
  lemma ConnectionDelayCapped(n: nat)
    requires n >= 6
    ensures ConnectionDelay(n) == ConnectionCapMs
  {
    Pow2Monotone(5, n - 1);
  }

  /**
   * The delays scheduled by `failures` consecutive failed attempts when the
   * retry count starts at `retryCount`; the chain stops at the first
   * failure that finds the retry budget spent.
   */
  function RetryChain(retryCount: nat, failures: nat): (r: seq<nat>)
    decreases failures
  {
    if failures == 0 then []
    else match ConnectionRetryPlan(retryCount)
      case None => []
      case Some(d) => [d] + RetryChain(retryCount + 1, failures - 1)
  }

  /** Consecutive failures schedule at most `5 - retryCount` retries, whatever their number. */
  lemma {:induction false} RetryChainLength(retryCount: nat, failures: nat)
    requires retryCount <= MaxConnectionRetries
    ensures |RetryChain(retryCount, failures)| == Min(failures, MaxConnectionRetries - retryCount)
    decreases failures
  {
    if failures > 0 && retryCount < MaxConnectionRetries {
      RetryChainLength(retryCount + 1, failures - 1);
    }
  }

  /** From a fresh start, any number of failures schedules a prefix of 1 s, 2 s, 4 s, 8 s, 16 s. */
  lemma {:induction false} RetryChainFromStart(failures: nat)
    ensures RetryChain(0, failures) == [1000, 2000, 4000, 8000, 16000][..Min(failures, MaxConnectionRetries)]
  {
    RetryChainLength(0, failures);
    ConnectionDelaysExact();
    var chain := RetryChain(0, failures);
    var n := Min(failures, MaxConnectionRetries);
    forall k | 0 <= k < n
      ensures chain[k] == [1000, 2000, 4000, 8000, 16000][k]
    {
      RetryChainAt(0, failures, k);
    }
  }

  lemma {:induction false} RetryChainAt(retryCount: nat, failures: nat, k: nat)
    requires retryCount <= MaxConnectionRetries
    requires k < Min(failures, MaxConnectionRetries - retryCount)
    ensures k < |RetryChain(retryCount, failures)|
    ensures RetryChain(retryCount, failures)[k] == ConnectionDelay(retryCount + k + 1)
    decreases failures
  {
    RetryChainLength(retryCount, failures);
    if k > 0 {
      RetryChainAt(retryCount + 1, failures - 1, k - 1);
    }
  }

  /**
   * The delays of the subscription retry timers armed for a chat whose
   * every subscription attempt throws, as written: the retry goes through
   * `subscribeToChat`, whose failure path calls `scheduleSubscriptionRetry`
   * with the default attempt 1 again. `throws` counts the failed attempts,
   * the first subscription included.
   */
  function SubscriptionRetriesAsWritten(throws: nat): (r: seq<nat>)
    decreases throws
  {
    if throws == 0 then []
    else match SubscriptionRetryPlan(1)
      case None => []
      case Some(d) => [d] + SubscriptionRetriesAsWritten(throws - 1)
  }

  /** As written, every failure arms another 1 s retry: the chain never ends. */
  lemma {:induction false} SubscriptionRetriesNeverStop(throws: nat)
    ensures |SubscriptionRetriesAsWritten(throws)| == throws
    ensures forall k :: 0 <= k < throws ==> SubscriptionRetriesAsWritten(throws)[k] == BaseDelayMs
    decreases throws
  {
    if throws > 0 {
      SubscriptionRetriesNeverStop(throws - 1);
    }
  }

  /** Four failures arm four retries, one more than the three the policy allows. */
  lemma SubscriptionRetryCapIgnored()
    ensures |SubscriptionRetriesAsWritten(MaxSubscriptionRetries + 1)| > MaxSubscriptionRetries
  {
    SubscriptionRetriesNeverStop(MaxSubscriptionRetries + 1);
  }

  /**
   * The evidently intended chain: each failed retry schedules the next
   * attempt number, so the policy's cap ends it.
   */
  function SubscriptionRetries(attempt: nat, throws: nat): (r: seq<nat>)
    requires attempt >= 1
    decreases throws
  {
    if throws == 0 then []
    else match SubscriptionRetryPlan(attempt)
      case None => []
      case Some(d) => [d] + SubscriptionRetries(attempt + 1, throws - 1)
  }

  /** With the attempt carried forward, any number of failures arms a prefix of 1 s, 2 s, 4 s. */
  lemma SubscriptionRetriesCapped(throws: nat)
    ensures SubscriptionRetries(1, throws) == [1000, 2000, 4000][..Min(throws, MaxSubscriptionRetries)]
  {
    SubscriptionDelaysExact();
    if throws >= 1 {
      var t := throws - 1;
      if t >= 1 {
        if t - 1 >= 1 {
          assert SubscriptionRetries(4, t - 2) == [] by {
            if t - 2 >= 1 {
              assert SubscriptionRetryPlan(4) == None;
            }
          }
          assert SubscriptionRetries(3, t - 1) == [4000] + SubscriptionRetries(4, t - 2);
        }
        assert SubscriptionRetries(2, t) == [2000] + SubscriptionRetries(3, t - 1);
      }
      assert SubscriptionRetries(1, throws) == [1000] + SubscriptionRetries(2, t);
    }
  }
}
