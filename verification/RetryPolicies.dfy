/**
 The delivery retry policy of app/services/retry_policy.py: how often one send
 calls the provider, and how long it sleeps in between.
 */
module RetryPolicies {
  import opened Prelude
  import A = Arithmetic

  datatype RetryOutcome = RetryOutcome(succeeded: bool, statusCode: Option<int>, transportError: bool)

  const RETRYABLE_STATUS := {429, 500, 502, 503, 504}

  predicate IsRetryable(o: RetryOutcome)
  {
    if o.succeeded then false
    else if o.transportError then true
    else if o.statusCode.None? then false
    else o.statusCode.value in RETRYABLE_STATUS
  }

  function BackoffSeconds(baseDelay: int, attempt: nat): int
    requires attempt >= 1
  {
    baseDelay * Pow2(attempt - 1)
  }

  /** The most provider calls one run may make. */
  function MaxCalls(maxRetries: int): (n: nat)
    ensures n >= 1
  {
    Max(0, maxRetries) + 1
  }

  /**
   The outcomes of one complete run, in order: every outcome but the last asked
   for a retry, and the last one ended the run because it needed none or because
   the budget was spent.
   */
  ghost predicate IsRetryRun(maxRetries: int, script: seq<RetryOutcome>)
  {
    && 1 <= |script| <= MaxCalls(maxRetries)
    && (forall k | 0 <= k < |script| - 1 :: IsRetryable(script[k]))
    && (!IsRetryable(script[|script| - 1]) || |script| == MaxCalls(maxRetries))
  }

  /** The operation handed to the policy; `answers` is what the provider would reply, call by call. */
  class Operation {
    const answers: nat -> RetryOutcome
    var log: seq<RetryOutcome>
    var slept: int

    constructor (answers: nat -> RetryOutcome)
      ensures this.answers == answers && log == [] && slept == 0
    {
      this.answers := answers;
      log, slept := [], 0;
    }

    method Call() returns (outcome: RetryOutcome)
      modifies this`log
      ensures outcome == answers(|old(log)|)
      ensures log == old(log) + [outcome]
    {
      outcome := answers(|log|);
      log := log + [outcome];
    }

    method Sleep(seconds: int)
      modifies this`slept
      ensures slept == old(slept) + seconds
    {
      slept := slept + seconds;
    }
  }

  class RetryPolicy {
    const maxRetries: int
    const baseDelay: int

    constructor (maxRetries: int, baseDelay: int)
      ensures this.maxRetries == maxRetries && this.baseDelay == baseDelay
    {
      this.maxRetries, this.baseDelay := maxRetries, baseDelay;
    }

    /** Runs the operation; what it adds to the log is one complete retry run. */
    method Run(operation: Operation) returns (outcome: RetryOutcome)
      modifies operation
      ensures |operation.log| > |old(operation.log)| && old(operation.log) <= operation.log
      ensures forall k | |old(operation.log)| <= k < |operation.log| :: operation.log[k] == operation.answers(k)
      ensures IsRetryRun(maxRetries, operation.log[|old(operation.log)|..])
      ensures outcome == operation.log[|operation.log| - 1]
      ensures var retries := |operation.log| - |old(operation.log)| - 1;
              operation.slept == old(operation.slept) + baseDelay * (Pow2(retries) - 1)
    {
      ghost var start := |operation.log|;
      var attempt := 1;
      outcome := operation.Call();
      while !outcome.succeeded && attempt <= maxRetries && IsRetryable(outcome)
        invariant 1 <= attempt <= MaxCalls(maxRetries)
        invariant old(operation.log) <= operation.log && |operation.log| == start + attempt
        invariant outcome == operation.log[|operation.log| - 1]
        invariant forall k | start <= k < |operation.log| :: operation.log[k] == operation.answers(k)
        invariant forall k | start <= k < |operation.log| - 1 :: IsRetryable(operation.log[k])
        invariant operation.slept == old(operation.slept) + baseDelay * (Pow2(attempt - 1) - 1)
        decreases maxRetries - attempt
      {
        SleepStep(baseDelay, attempt);
        operation.Sleep(BackoffSeconds(baseDelay, attempt));
        attempt := attempt + 1;
        outcome := operation.Call();
      }
    }
  }

  /** One more backoff sleep doubles the power in the closed form. */
  lemma SleepStep(baseDelay: int, attempt: nat)
    requires attempt >= 1
    ensures baseDelay * (Pow2(attempt - 1) - 1) + BackoffSeconds(baseDelay, attempt) == baseDelay * (Pow2(attempt) - 1)
  {
    var p := Pow2(attempt - 1);
    assert Pow2(attempt) == 2 * p;
    A.Distributes(baseDelay, p - 1, p);
  }

  /** How many calls the provider's answers, read from position `from`, allow with `extra` retries left. */
  function CallsMade(answers: nat -> RetryOutcome, from: nat, extra: nat): (n: nat)
    ensures 1 <= n <= extra + 1
    decreases extra
  {
    if !IsRetryable(answers(from)) || extra == 0 then 1 else 1 + CallsMade(answers, from + 1, extra - 1)
  }

  /** Reading `answers` from `from`, the first call that needs no retry is call number CallsMade. */
  lemma {:induction false} CallsMadeStops(answers: nat -> RetryOutcome, from: nat, extra: nat)
    ensures forall j: nat | from <= j < from + CallsMade(answers, from, extra) - 1 :: IsRetryable(answers(j))
    ensures var n := CallsMade(answers, from, extra);
            n == extra + 1 || !IsRetryable(answers(from + n - 1))
    decreases extra
  {
    if CallsMade(answers, from, extra) > 1 {
      CallsMadeStops(answers, from + 1, extra - 1);
    }
  }

  /** The provider's answers fix the run: a script is a complete run exactly when it has CallsMade outcomes. */
  lemma RunIffCallsMade(answers: nat -> RetryOutcome, maxRetries: int, script: seq<RetryOutcome>)
    requires forall k: nat | k < |script| :: script[k] == answers(k)
    ensures IsRetryRun(maxRetries, script) <==> |script| == CallsMade(answers, 0, Max(0, maxRetries))
  {
    var n := CallsMade(answers, 0, Max(0, maxRetries));
    CallsMadeStops(answers, 0, Max(0, maxRetries));
    assert n <= |script| ==> script[n - 1] == answers(n - 1);
  }
}
