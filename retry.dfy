/** The retry-with-exponential-backoff wrapper around exchange calls. The
    wrapped call is an oracle from attempt number to outcome; the sleeps it
    would make are returned instead of performed. */
module Retry {
  import opened Wrappers
  import opened Domain

  /** The decorator's arguments other than the exception tuple. */
  datatype Policy = Policy(maxRetries: int, baseDelay: real, maxDelay: real)

  /** max_retries=3, base_delay=1.0, max_delay=60.0. */
  const DefaultPolicy: Policy := Policy(3, 1.0, 60.0)

  /** The default exception tuple: transport failures and exchange API errors. */
  predicate DefaultRetryable(e: Error) {
    e.RequestError? || e.ApiError?
  }

  function Pow2(k: nat): (p: nat)
    ensures p >= 1
  {
    if k == 0 then 1 else 2 * Pow2(k - 1)
  }

  lemma {:induction false} Pow2Monotone(i: nat, j: nat)
    requires i <= j
    ensures Pow2(i) <= Pow2(j)
  {
    if i < j {
      Pow2Monotone(i, j - 1);
    }
  }

  /** The pause after failed attempt `attempt`: the doubled base delay, capped. */
  function Delay(p: Policy, attempt: nat): (d: real)
    ensures d <= p.maxDelay
    ensures d == p.maxDelay || d == p.baseDelay * Pow2(attempt) as real
    ensures p.baseDelay >= 0.0 && p.maxDelay >= 0.0 ==> d >= 0.0
  {
    Min(p.baseDelay * Pow2(attempt) as real, p.maxDelay)
  }

  /** With a non-negative base the pauses never shrink from one attempt to the next. */
  lemma DelayMonotone(p: Policy, i: nat, j: nat)
    requires p.baseDelay >= 0.0
    requires i <= j
    ensures Delay(p, i) <= Delay(p, j)
  {
    Pow2Monotone(i, j);
    ScaleMonotone(p.baseDelay, Pow2(i) as real, Pow2(j) as real);
    MinMonotone(p.baseDelay * Pow2(i) as real, p.baseDelay * Pow2(j) as real, p.maxDelay);
  }

  lemma MinMonotone(a: real, b: real, c: real)
    requires a <= b
    ensures Min(a, c) <= Min(b, c)
  {
  }

  lemma ScaleMonotone(c: real, x: real, y: real)
    requires c >= 0.0 && x <= y
    ensures c * x <= c * y
  {
    assert c * y - c * x == c * (y - x);
  }

  /** Both delay parameters non-negative: `time.sleep` never refuses a pause. */
  predicate SaneDelays(p: Policy) {
    p.baseDelay >= 0.0 && p.maxDelay >= 0.0
  }

  /** What one wrapped call amounts to: its outcome, the attempts made and the pauses taken. */
  datatype Run<T> = Run(result: Result<T, Error>, calls: nat, sleeps: seq<real>)

  /** The loop from attempt `attempt` on: success, a non-retryable error or the
      last attempt ends it; otherwise it pauses (a negative pause raises) and goes on. */
  function RunFrom<T>(p: Policy, retryable: Error -> bool, call: nat -> Result<T, Error>, attempt: nat): Run<T>
    requires attempt <= p.maxRetries
    decreases p.maxRetries - attempt
  {
    var outcome := call(attempt);
    if outcome.Ok? || !retryable(outcome.error) || attempt == p.maxRetries then Run(outcome, attempt + 1, [])
    else if Delay(p, attempt) < 0.0 then Run(Err(SleepValueError), attempt + 1, [])
    else
      var rest := RunFrom(p, retryable, call, attempt + 1);
      Run(rest.result, rest.calls, [Delay(p, attempt)] + rest.sleeps)
  }

  /** The whole wrapper; with a negative max_retries the loop never runs and
      `raise None` fails with a TypeError. */
  function RetryRun<T>(p: Policy, retryable: Error -> bool, call: nat -> Result<T, Error>): Run<T> {
    if p.maxRetries < 0 then Run(Err(ReraiseNoneError), 0, [])
    else RunFrom(p, retryable, call, 0)
  }

  /** An outcome that stops the loop before its last attempt. */
  predicate Stops<T>(retryable: Error -> bool, outcome: Result<T, Error>) {
    outcome.Ok? || !retryable(outcome.error)
  }

  /** One turn of the loop: the attempt's outcome either ends the run or is
      followed by a pause and the rest of the run. */
  lemma RunFromStep<T>(p: Policy, retryable: Error -> bool, call: nat -> Result<T, Error>, attempt: nat)
    requires attempt <= p.maxRetries
    ensures var outcome := call(attempt);
      if Stops(retryable, outcome) || attempt == p.maxRetries then
        RunFrom(p, retryable, call, attempt) == Run(outcome, attempt + 1, [])
      else if Delay(p, attempt) < 0.0 then
        RunFrom(p, retryable, call, attempt) == Run(Err(SleepValueError), attempt + 1, [])
      else
        var rest := RunFrom(p, retryable, call, attempt + 1);
        RunFrom(p, retryable, call, attempt) == Run(rest.result, rest.calls, [Delay(p, attempt)] + rest.sleeps)
  {
  }

  /** retry_with_backoff's wrapper: `for attempt in range(max_retries + 1)`. */
  method RetryWithBackoff<T>(p: Policy, retryable: Error -> bool, call: nat -> Result<T, Error>)
    returns (r: Result<T, Error>, calls: nat, sleeps: seq<real>)
    ensures Run(r, calls, sleeps) == RetryRun(p, retryable, call)
  {
    calls, sleeps := 0, [];
    var attempt: nat := 0;
    while attempt <= p.maxRetries
      invariant p.maxRetries >= 0 ==> attempt <= p.maxRetries
      invariant calls == attempt
      invariant p.maxRetries < 0 ==> attempt == 0 && sleeps == []
      invariant attempt <= p.maxRetries ==>
        var rest := RunFrom(p, retryable, call, attempt);
        RetryRun(p, retryable, call) == Run(rest.result, rest.calls, sleeps + rest.sleeps)
      decreases p.maxRetries - attempt
    {
      RunFromStep(p, retryable, call, attempt);
      var outcome := call(attempt);
      calls := calls + 1;
      if outcome.Ok? || !retryable(outcome.error) || attempt == p.maxRetries {
        assert sleeps + [] == sleeps;
        return outcome, calls, sleeps;
      }
      var delay := Delay(p, attempt);
      if delay < 0.0 {
        assert sleeps + [] == sleeps;
        return Err(SleepValueError), calls, sleeps;
      }
      ghost var rest := RunFrom(p, retryable, call, attempt + 1);
      assert sleeps + ([delay] + rest.sleeps) == (sleeps + [delay]) + rest.sleeps;
      sleeps := sleeps + [delay];
      attempt := attempt + 1;
    }
    r := Err(ReraiseNoneError);
  }

  /** With sane delays the loop from `attempt` makes consecutive calls, every
      one but the last failing retryably, pausing Delay(k) after each such failure,
      and returns the last call's outcome. */
  lemma {:induction false} RunFromShape<T>(p: Policy, retryable: Error -> bool, call: nat -> Result<T, Error>, attempt: nat)
    requires SaneDelays(p)
    requires attempt <= p.maxRetries
    ensures var run := RunFrom(p, retryable, call, attempt);
      && attempt < run.calls <= p.maxRetries + 1
      && run.result == call(run.calls - 1)
      && (run.calls - 1 < p.maxRetries ==> Stops(retryable, run.result))
      && |run.sleeps| == run.calls - 1 - attempt
      && (forall i :: 0 <= i < |run.sleeps| ==> run.sleeps[i] == Delay(p, attempt + i))
      && (forall k :: attempt <= k < run.calls - 1 ==> !Stops(retryable, call(k)))
    decreases p.maxRetries - attempt
  {
    var outcome := call(attempt);
    if !(outcome.Ok? || !retryable(outcome.error) || attempt == p.maxRetries) {
      RunFromShape(p, retryable, call, attempt + 1);
    }
  }

  /** The wrapper's promise: at most max_retries + 1 calls, stopping at the first
      success or non-retryable error, exponential pauses between, and the last
      call's outcome returned. */
  lemma RetryShape<T>(p: Policy, retryable: Error -> bool, call: nat -> Result<T, Error>)
    requires SaneDelays(p) && p.maxRetries >= 0
    ensures var run := RetryRun(p, retryable, call);
      && 1 <= run.calls <= p.maxRetries + 1
      && run.result == call(run.calls - 1)
      && (run.calls - 1 < p.maxRetries ==> Stops(retryable, run.result))
      && (forall k :: 0 <= k < run.calls - 1 ==> !Stops(retryable, call(k)))
      && |run.sleeps| == run.calls - 1
      && (forall i :: 0 <= i < |run.sleeps| ==> run.sleeps[i] == Delay(p, i))
  {
    RunFromShape(p, retryable, call, 0);
  }

  /** The pauses taken never exceed max_delay and never shrink. */
  lemma SleepsBoundedAndNondecreasing<T>(p: Policy, retryable: Error -> bool, call: nat -> Result<T, Error>)
    requires SaneDelays(p) && p.maxRetries >= 0
    ensures var sleeps := RetryRun(p, retryable, call).sleeps;
      && (forall i :: 0 <= i < |sleeps| ==> 0.0 <= sleeps[i] <= p.maxDelay)
      && (forall i, j :: 0 <= i <= j < |sleeps| ==> sleeps[i] <= sleeps[j])
  {
    RetryShape(p, retryable, call);
    var sleeps := RetryRun(p, retryable, call).sleeps;
    forall i, j | 0 <= i <= j < |sleeps|
      ensures sleeps[i] <= sleeps[j]
    {
      DelayMonotone(p, i, j);
    }
  }

  /** Under the defaults a call that always fails retryably is made four times,
      with pauses of 1, 2 and 4 seconds, and its last error is re-raised. */
  lemma DefaultsExhausted<T>(call: nat -> Result<T, Error>)
    requires forall k :: call(k).Err? && DefaultRetryable(call(k).error)
    ensures RetryRun(DefaultPolicy, DefaultRetryable, call) == Run(call(3), 4, [1.0, 2.0, 4.0])
  {
    RetryShape(DefaultPolicy, DefaultRetryable, call);
    var run := RetryRun(DefaultPolicy, DefaultRetryable, call);
    assert !Stops(DefaultRetryable, call(run.calls - 1));
    assert Pow2(1) == 2 && Pow2(2) == 4;
  }

  /** A non-retryable error ends the wrapper at once, without a pause. */
  lemma NonRetryableNotRetried<T>(p: Policy, retryable: Error -> bool, call: nat -> Result<T, Error>)
    requires p.maxRetries >= 0
    requires call(0).Err? && !retryable(call(0).error)
    ensures RetryRun(p, retryable, call) == Run(call(0), 1, [])
  {
  }

  /** A negative base delay makes the first pause raise ValueError, unless no retry is allowed. */
  lemma NegativeDelayRaises<T>(p: Policy, retryable: Error -> bool, call: nat -> Result<T, Error>)
    requires p.maxRetries >= 1 && p.baseDelay < 0.0
    requires call(0).Err? && retryable(call(0).error)
    ensures RetryRun(p, retryable, call) == Run(Err(SleepValueError), 1, [])
  {
  }
}
