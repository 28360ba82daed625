/** Retry with capped exponential backoff and full jitter. */
module Retrying {
  import opened Wrappers

  datatype Policy = Policy(maxRetries: int, backoffMultiplier: real, initialDelayMs: real, maxDelayMs: real)

  function Power(base: real, n: nat): real {
    if n == 0 then 1.0 else base * Power(base, n - 1)
  }

  function CappedDelay(p: Policy, attempt: nat): real {
    var delay := p.initialDelayMs * Power(p.backoffMultiplier, attempt);
    if delay <= p.maxDelayMs then delay else p.maxDelayMs
  }

  /** A timer does not wait for a negative delay. */
  function Wait(delay: real): (w: real)
    ensures w >= 0.0 && w >= delay
  {
    if delay > 0.0 then delay else 0.0
  }

  /** The most that the first `n` delays can take together. */
  function DelayBudget(p: Policy, n: nat): real {
    if n == 0 then 0.0 else DelayBudget(p, n - 1) + Wait(CappedDelay(p, n - 1))
  }

  lemma DelayIsCapped(p: Policy, attempt: nat)
    ensures Wait(CappedDelay(p, attempt)) <= Wait(p.maxDelayMs)
  {
    hide Power;
  }

  lemma OneMore(n: nat, cap: real)
    requires n > 0
    ensures n as real * cap == (n - 1) as real * cap + cap
  {
  }

  lemma {:induction false} BudgetIsCapped(p: Policy, n: nat)
    ensures 0.0 <= DelayBudget(p, n) <= n as real * Wait(p.maxDelayMs)
  {
    hide CappedDelay, Wait;
    if n > 0 {
      BudgetIsCapped(p, n - 1);
      DelayIsCapped(p, n - 1);
      OneMore(n, Wait(p.maxDelayMs));
    }
  }

  /** The first delay is the initial one and each next one the last times the multiplier, all capped. */
  lemma DelaysMultiply(p: Policy, attempt: nat)
    requires p.backoffMultiplier >= 1.0 && p.maxDelayMs >= 0.0
    ensures CappedDelay(p, 0) == (if p.initialDelayMs <= p.maxDelayMs then p.initialDelayMs else p.maxDelayMs)
    ensures var next := CappedDelay(p, attempt) * p.backoffMultiplier;
      CappedDelay(p, attempt + 1) == if next <= p.maxDelayMs then next else p.maxDelayMs
  {
    var delay := p.initialDelayMs * Power(p.backoffMultiplier, attempt);
    assert p.initialDelayMs * Power(p.backoffMultiplier, attempt + 1) == delay * p.backoffMultiplier;
    if delay > p.maxDelayMs {
      assert (delay - p.maxDelayMs) * p.backoffMultiplier >= 0.0;
      assert p.maxDelayMs * (p.backoffMultiplier - 1.0) >= 0.0;
    }
  }

  function Total(waits: seq<real>): real {
    if waits == [] then 0.0 else Total(waits[..|waits| - 1]) + waits[|waits| - 1]
  }

  lemma NoWaits(p: Policy)
    ensures Total([]) == 0.0 == DelayBudget(p, 0)
  {
  }

  lemma OneMoreWait(p: Policy, waits: seq<real>, wait: real)
    requires 0.0 <= Total(waits) <= DelayBudget(p, |waits|) && 0.0 <= wait <= Wait(CappedDelay(p, |waits|))
    ensures 0.0 <= Total(waits + [wait]) <= DelayBudget(p, |waits| + 1)
  {
    hide CappedDelay, Wait;
    assert (waits + [wait])[..|waits|] == waits;
  }

  /** The wait for a random number in [0, 1). */
  function Jittered(p: Policy, attempt: nat, random: real): real {
    Wait(random * CappedDelay(p, attempt))
  }

  /**
   * A wait is the random share of the capped delay, which is never more than that delay, and no wait at all if the
   * delay is not positive.
   */
  lemma JitterIsWithin(p: Policy, attempt: nat, jitter: real)
    requires 0.0 <= jitter < 1.0
    ensures var delay := CappedDelay(p, attempt);
      && Jittered(p, attempt, jitter) == (if delay > 0.0 then jitter * delay else 0.0)
      && 0.0 <= Jittered(p, attempt, jitter) <= Wait(delay)
  {
    var delay := CappedDelay(p, attempt);
    if delay > 0.0 {
      assert (1.0 - jitter) * delay >= 0.0;
    } else {
      assert jitter * (-delay) >= 0.0;
    }
  }

  /**
   * Runs the operation whose `i`-th call ends with `call(i)`.  It is called again only after a retryable
   * failure and while retries remain; `attempts` counts the failed calls before the success; a negative
   * `maxRetries` makes no call and throws nothing defined.  Between two calls it waits for the jittered delay of the
   * retry, and all waits together are within the backoff budget, whatever the policy's numbers.
   */
  method Execute<T, E>(p: Policy, call: nat -> Result<T, E>, shouldRetry: E -> bool, random: nat -> real)
    returns (r: Result<(T, nat), Option<E>>, calls: nat, waits: seq<real>)
    requires forall i :: 0.0 <= random(i) < 1.0
    ensures calls as int <= if p.maxRetries < 0 then 0 else p.maxRetries + 1
    ensures forall i :: 0 <= i < calls - 1 ==> call(i).Failure? && shouldRetry(call(i).error)
    ensures r.Success? ==> calls == r.value.1 + 1 && call(r.value.1) == Success(r.value.0)
    ensures r.Failure? && p.maxRetries >= 0 ==>
      && calls > 0 && call(calls - 1).Failure? && r.error == Some(call(calls - 1).error)
      && (calls == p.maxRetries + 1 || !shouldRetry(call(calls - 1).error))
    ensures p.maxRetries < 0 ==> calls == 0 && r == Failure(None)
    ensures |waits| == if calls == 0 then 0 else calls - 1
    ensures forall i :: 0 <= i < |waits| ==> waits[i] == Jittered(p, i, random(i)) <= Wait(CappedDelay(p, i))
    ensures 0.0 <= Total(waits) <= DelayBudget(p, |waits|)
    ensures p.maxRetries >= 0 ==> Total(waits) <= p.maxRetries as real * Wait(p.maxDelayMs)
  {
    hide CappedDelay, Total, DelayBudget, Jittered;
    NoWaits(p);
    var lastError: Option<E> := None;
    calls, waits := 0, [];
    var attempt := 0;
    while attempt <= p.maxRetries
      invariant 0 <= attempt && calls == attempt && (p.maxRetries < 0 ==> attempt == 0 && lastError == None)
      invariant attempt > 0 ==> attempt <= p.maxRetries
      invariant forall i :: 0 <= i < attempt ==> call(i).Failure? && shouldRetry(call(i).error)
      invariant |waits| == attempt && 0.0 <= Total(waits) <= DelayBudget(p, attempt)
      invariant forall i :: 0 <= i < attempt ==> waits[i] == Jittered(p, i, random(i)) <= Wait(CappedDelay(p, i))
      decreases p.maxRetries + 1 - attempt
    {
      calls := calls + 1;
      var outcome := call(attempt);
      BudgetIsBounded(p, attempt);
      match outcome {
        case Success(value) =>
          return Success((value, attempt)), calls, waits;
        case Failure(error) =>
          lastError := Some(error);
          if attempt == p.maxRetries || !shouldRetry(error) {
            return Failure(lastError), calls, waits;
          }
          JitterIsWithin(p, attempt, random(attempt));
          var wait := Jittered(p, attempt, random(attempt));
          OneMoreWait(p, waits, wait);
          waits := waits + [wait];
      }
      attempt := attempt + 1;
    }
    return Failure(lastError), calls, waits;
  }

  lemma BudgetIsBounded(p: Policy, attempt: nat)
    requires attempt <= p.maxRetries
    ensures DelayBudget(p, attempt) <= p.maxRetries as real * Wait(p.maxDelayMs)
  {
    hide DelayBudget, CappedDelay, Wait;
    BudgetIsCapped(p, attempt);
    MoreRetries(attempt, p.maxRetries, Wait(p.maxDelayMs));
  }

  lemma MoreRetries(a: nat, b: int, cap: real)
    requires a <= b && cap >= 0.0
    ensures a as real * cap <= b as real * cap
  {
    assert (b - a) as real * cap >= 0.0;
    assert (b - a) as real * cap == b as real * cap - a as real * cap;
  }
}
