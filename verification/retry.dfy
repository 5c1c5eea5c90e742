/** Retry of common-lib/callers/retry.go: invoke an operation until it
    succeeds, at most maxRetries + 1 times, sleeping baseDelay * 2^n before
    attempt n >= 1. The operation is given as the outcome of each successive
    invocation; sleeping becomes the list of waits performed. */
module Retry {
  import opened Wrappers
  import opened Errors

  function Pow2(n: nat): (r: nat)
    ensures r >= 1
  {
    if n == 0 then 1 else 2 * Pow2(n - 1)
  }

  /** The sleep before attempt n: none before the first attempt. */
  function WaitBefore(n: nat, baseDelay: nat): nat {
    if n == 0 then 0 else baseDelay * Pow2(n)
  }

  function Sum(s: seq<nat>): nat
    decreases |s|
  {
    if s == [] then 0 else Sum(s[..|s| - 1]) + s[|s| - 1]
  }

  /** The time slept up to and including the wait before attempt n. */
  function TotalWait(n: nat, baseDelay: nat): nat {
    if n == 0 then 0 else TotalWait(n - 1, baseDelay) + WaitBefore(n, baseDelay)
  }

  /** The waits add up to baseDelay * (2^(n+1) - 2). */
  lemma {:induction false} TotalWaitClosedForm(n: nat, baseDelay: nat)
    ensures TotalWait(n, baseDelay) == baseDelay * (Pow2(n + 1) - 2)
  {
    if n > 0 {
      TotalWaitClosedForm(n - 1, baseDelay);
      calc {
        TotalWait(n, baseDelay);
        baseDelay * (Pow2(n) - 2) + baseDelay * Pow2(n);
        baseDelay * (2 * Pow2(n) - 2);
      }
    }
  }

  /** Invokes `operation` (its n-th invocation yields operation(n)) until one
      succeeds or maxRetries + 1 invocations have failed. Returns the outcome,
      the number of invocations, and the wait before each. */
  method Retry(operation: nat -> Outcome<Error>, maxRetries: nat, baseDelay: nat)
    returns (err: Outcome<Error>, attempts: nat, waits: seq<nat>)
    ensures 1 <= attempts <= maxRetries + 1
    ensures forall n :: 0 <= n < attempts - 1 ==> operation(n).Fail?
    ensures err == operation(attempts - 1)
    ensures err.Fail? ==> attempts == maxRetries + 1
    ensures |waits| == attempts
    ensures waits == TotalWaits(attempts, baseDelay)
  {
    err := Pass;
    attempts := 0;
    waits := [];
    var n: nat := 0;
    while n <= maxRetries
      invariant n <= maxRetries + 1 && attempts == n && |waits| == n
      invariant forall k :: 0 <= k < n ==> operation(k).Fail?
      invariant waits == TotalWaits(n, baseDelay)
      invariant n > 0 ==> err == operation(n - 1)
      decreases maxRetries + 1 - n
    {
      if n > 0 {
        waits := waits + [baseDelay * Pow2(n)];
      } else {
        waits := waits + [0];
      }
      err := operation(n);
      attempts := n + 1;
      if err.Pass? {
        return;
      }
      n := n + 1;
    }
  }

  /** The reference: the index of the first successful invocation among the
      first `limit` ones. */
  function FirstSuccess(operation: nat -> Outcome<Error>, limit: nat): (r: Option<nat>)
    ensures r.Some? ==> r.value < limit && operation(r.value).Pass?
    ensures r.Some? ==> forall k :: 0 <= k < r.value ==> operation(k).Fail?
    ensures r.None? ==> forall k :: 0 <= k < limit ==> operation(k).Fail?
  {
    if limit == 0 then None
    else match FirstSuccess(operation, limit - 1)
      case Some(i) => Some(i)
      case None => if operation(limit - 1).Pass? then Some(limit - 1) else None
  }

  /** Retry stops exactly at the first success, and otherwise reports the
      last failure after using every attempt. */
  method RetryAgreesWithFirstSuccess(operation: nat -> Outcome<Error>, maxRetries: nat, baseDelay: nat)
    returns (err: Outcome<Error>, attempts: nat)
    ensures FirstSuccess(operation, maxRetries + 1).Some? ==>
      err == Pass && attempts == FirstSuccess(operation, maxRetries + 1).value + 1
    ensures FirstSuccess(operation, maxRetries + 1).None? ==>
      err == operation(maxRetries) && err.Fail? && attempts == maxRetries + 1
  {
    var waits;
    err, attempts, waits := Retry(operation, maxRetries, baseDelay);
  }

  /** The waits before attempts 0 .. n - 1. */
  function TotalWaits(n: nat, baseDelay: nat): (s: seq<nat>)
    ensures |s| == n
    ensures forall k :: 0 <= k < n ==> s[k] == WaitBefore(k, baseDelay)
  {
    if n == 0 then [] else TotalWaits(n - 1, baseDelay) + [WaitBefore(n - 1, baseDelay)]
  }

  /** Up to and including attempt n, Retry sleeps baseDelay * (2^(n+1) - 2) in all. */
  lemma WaitsUpToAttempt(n: nat, baseDelay: nat)
    ensures Sum(TotalWaits(n + 1, baseDelay)) == baseDelay * (Pow2(n + 1) - 2)
  {
    SumOfWaits(n, baseDelay);
    TotalWaitClosedForm(n, baseDelay);
  }

  lemma {:induction false} SumOfWaits(n: nat, baseDelay: nat)
    ensures Sum(TotalWaits(n + 1, baseDelay)) == TotalWait(n, baseDelay)
  {
    var s := TotalWaits(n + 1, baseDelay);
    assert s[..|s| - 1] == TotalWaits(n, baseDelay);
    if n > 0 {
      SumOfWaits(n - 1, baseDelay);
    } else {
      assert TotalWaits(0, baseDelay) == [];
    }
  }
}
