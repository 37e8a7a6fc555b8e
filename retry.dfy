/**
 * Submission with retries: `isRetryableError` and `uploadWithRetry`.
 *
 * The batch-execute call of the FHIR client is not modelled; the outcome of
 * its n-th call for the bundle at hand is `exec(n)`. Sleeps are not taken
 * but recorded, in milliseconds, in the order they are requested.
 */
module Retry {
  import opened Wrappers
  import JsStrings

  /** One entry of the server's response Bundle: its `response.status` and first issue's diagnostics. */
  datatype ResponseEntry = ResponseEntry(status: Option<string>, diagnostics: Option<string>)

  /** The response Bundle returned by a successful batch execution. */
  datatype Response = Response(entry: Option<seq<ResponseEntry>>)

  /**
   * An error thrown by the client: `status`, `statusCode`, `message`,
   * `String(err)`, and whether `outcome.issue` is present.
   */
  datatype UploadError = UploadError(
    status: Option<int>,
    statusCode: Option<int>,
    message: Option<string>,
    text: string,
    hasOutcomeIssue: bool)

  /** One call of the client: it returns a response or throws. */
  datatype Attempt = Succeeded(response: Response) | Threw(error: UploadError)

  /** Message fragments of validation and client errors, never retried. */
  const NonRetryableErrors: seq<string> := [
    "Invalid id",
    "Invalid resource type",
    "Bad Request",
    "Not found",
    "Unauthorized",
    "Forbidden",
    "OperationOutcome"
  ]

  /** `err.status ?? err.statusCode` */
  function EffectiveStatus(err: UploadError): Option<int> {
    if err.status.Some? then err.status else err.statusCode
  }

  /** `err.message ?? String(err)` */
  function ErrorMessage(err: UploadError): string {
    if err.message.Some? then err.message.value else err.text
  }

  /** The status is a client error: in [400, 500). */
  predicate IsClientError(err: UploadError) {
    var s := EffectiveStatus(err);
    s.Some? && 400 <= s.value < 500
  }

  /** Some pattern of `patterns` occurs in `message` (the scan of the for loop). */
  function MatchesAny(message: string, patterns: seq<string>): (r: bool)
    ensures r <==> exists k :: 0 <= k < |patterns| && JsStrings.Occurs(message, patterns[k])
  {
    if |patterns| == 0 then false
    else if JsStrings.Includes(message, patterns[0]) then true
    else
      var rest := MatchesAny(message, patterns[1..]);
      assert forall k :: 1 <= k < |patterns| ==> patterns[k] == patterns[1..][k - 1];
      rest
  }

  /** `isRetryableError`: only network and server errors are retried. */
  function IsRetryableError(err: UploadError): (r: bool)
    ensures !r <==>
      || IsClientError(err)
      || (exists k :: 0 <= k < |NonRetryableErrors| && JsStrings.Occurs(ErrorMessage(err), NonRetryableErrors[k]))
      || err.hasOutcomeIssue
  {
    if IsClientError(err) then false
    else if MatchesAny(ErrorMessage(err), NonRetryableErrors) then false
    else if err.hasOutcomeIssue then false
    else true
  }

  const DefaultMaxRetries: nat := 3

  function Pow2(n: nat): (r: nat)
    ensures r >= 1
  {
    if n == 0 then 1 else 2 * Pow2(n - 1)
  }

  /** The wait before the attempt after attempt `k`: 2^(k+1) seconds. */
  function Backoff(k: nat): (ms: nat)
    ensures ms >= 2000
    ensures ms == 2 * Pow2(k) * 1000
  {
    Pow2(k + 1) * 1000
  }

  /** The outcome returned or thrown, the sleeps requested, and the number of calls made. */
  datatype RetryRun = RetryRun(outcome: Attempt, sleeps: seq<nat>, calls: nat)

  /** Specification of the retry loop from attempt `attempt` on. */
  function RetryFrom(exec: nat -> Attempt, maxRetries: nat, attempt: nat): (run: RetryRun)
    requires attempt <= maxRetries
    ensures attempt < run.calls <= maxRetries + 1
    ensures |run.sleeps| == run.calls - 1 - attempt
    ensures run.outcome == exec(run.calls - 1)
    decreases maxRetries - attempt
  {
    match exec(attempt)
    case Succeeded(_) => RetryRun(exec(attempt), [], attempt + 1)
    case Threw(err) =>
      if !IsRetryableError(err) || attempt == maxRetries then
        RetryRun(exec(attempt), [], attempt + 1)
      else
        var rest := RetryFrom(exec, maxRetries, attempt + 1);
        rest.(sleeps := [Backoff(attempt)] + rest.sleeps)
  }

  /** Specification of `uploadWithRetry`. */
  function RetrySpec(exec: nat -> Attempt, maxRetries: nat): (run: RetryRun)
    ensures 1 <= run.calls <= maxRetries + 1
    ensures |run.sleeps| == run.calls - 1
    ensures run.outcome == exec(run.calls - 1)
  {
    RetryFrom(exec, maxRetries, 0)
  }

  /**
   * `uploadWithRetry`: calls the client until it succeeds, throws an error
   * that is not retryable, or has been called `maxRetries + 1` times.
   */
  method UploadWithRetry(exec: nat -> Attempt, maxRetries: nat)
    returns (outcome: Attempt, sleeps: seq<nat>, calls: nat)
    ensures RetryRun(outcome, sleeps, calls) == RetrySpec(exec, maxRetries)
  {
    var lastError: Option<UploadError> := None;
    sleeps, calls := [], 0;
    var attempt := 0;
    while attempt <= maxRetries
      invariant attempt <= maxRetries + 1
      invariant calls == attempt
      invariant attempt <= maxRetries ==>
        var rest := RetryFrom(exec, maxRetries, attempt);
        RetrySpec(exec, maxRetries) == rest.(sleeps := sleeps + rest.sleeps)
      invariant attempt == maxRetries + 1 ==>
        lastError.Some? && RetrySpec(exec, maxRetries) == RetryRun(Threw(lastError.value), sleeps, calls)
    {
      var result := exec(attempt);
      calls := calls + 1;
      match result
      case Succeeded(_) =>
        return result, sleeps, calls;
      case Threw(err) =>
        lastError := Some(err);
        if !IsRetryableError(err) {
          return result, sleeps, calls;
        }
        if attempt < maxRetries {
          var rest := RetryFrom(exec, maxRetries, attempt + 1);
          assert sleeps + ([Backoff(attempt)] + rest.sleeps) == (sleeps + [Backoff(attempt)]) + rest.sleeps;
          sleeps := sleeps + [Backoff(attempt)];
        }
      attempt := attempt + 1;
    }
    outcome := Threw(lastError.value);
  }

  /**
   * From any attempt on: every call before the last failed with a retryable
   * error, and the run stops on an error only when it is not retryable or
   * the attempts are exhausted.
   */
  lemma {:induction false} RetryFromShape(exec: nat -> Attempt, maxRetries: nat, attempt: nat)
    requires attempt <= maxRetries
    ensures var run := RetryFrom(exec, maxRetries, attempt);
      && (forall k :: attempt <= k < run.calls - 1 ==> exec(k).Threw? && IsRetryableError(exec(k).error))
      && (run.outcome.Threw? ==> !IsRetryableError(run.outcome.error) || run.calls == maxRetries + 1)
    decreases maxRetries - attempt
  {
    match exec(attempt)
    case Succeeded(_) =>
    case Threw(err) =>
      if IsRetryableError(err) && attempt < maxRetries {
        RetryFromShape(exec, maxRetries, attempt + 1);
      }
  }

  /** From any attempt on, the k-th sleep follows call `attempt + k` and lasts 2^(attempt+k+1) seconds. */
  lemma {:induction false} RetryFromSleeps(exec: nat -> Attempt, maxRetries: nat, attempt: nat)
    requires attempt <= maxRetries
    ensures forall k :: 0 <= k < |RetryFrom(exec, maxRetries, attempt).sleeps| ==>
      RetryFrom(exec, maxRetries, attempt).sleeps[k] == Backoff(attempt + k)
    decreases maxRetries - attempt
  {
    match exec(attempt)
    case Succeeded(_) =>
    case Threw(err) =>
      if IsRetryableError(err) && attempt < maxRetries {
        RetryFromSleeps(exec, maxRetries, attempt + 1);
        var rest := RetryFrom(exec, maxRetries, attempt + 1);
        var run := RetryFrom(exec, maxRetries, attempt);
        assert run.sleeps == [Backoff(attempt)] + rest.sleeps;
        forall k | 0 <= k < |run.sleeps|
          ensures run.sleeps[k] == Backoff(attempt + k)
        {
          if k == 0 {
            assert run.sleeps[0] == Backoff(attempt);
          } else {
            assert run.sleeps[k] == rest.sleeps[k - 1];
          }
        }
      }
  }

  /**
   * The properties of `uploadWithRetry`: at most `maxRetries + 1` calls;
   * the first success is returned; every failure before the last call was
   * retryable; the run stops on an error only when it is not retryable or
   * attempts are exhausted, and rethrows it; one sleep of 2^(k+1) s follows
   * each failed call k except the last.
   */
  lemma RetryProperties(exec: nat -> Attempt, maxRetries: nat)
    ensures var run := RetrySpec(exec, maxRetries);
      && 1 <= run.calls <= maxRetries + 1
      && run.outcome == exec(run.calls - 1)
      && (forall k :: 0 <= k < run.calls - 1 ==> exec(k).Threw? && IsRetryableError(exec(k).error))
      && (run.outcome.Threw? ==> !IsRetryableError(run.outcome.error) || run.calls == maxRetries + 1)
      && |run.sleeps| == run.calls - 1
      && (forall k :: 0 <= k < |run.sleeps| ==> run.sleeps[k] == Pow2(k + 1) * 1000)
  {
    RetryFromShape(exec, maxRetries, 0);
    RetryFromSleeps(exec, maxRetries, 0);
  }

  /** An error that is not retryable is rethrown at once, with no sleep. */
  lemma NonRetryableStopsAtOnce(exec: nat -> Attempt, maxRetries: nat)
    requires exec(0).Threw? && !IsRetryableError(exec(0).error)
    ensures RetrySpec(exec, maxRetries) == RetryRun(exec(0), [], 1)
  {
  }

  /** A 4xx status is never retried. */
  lemma ClientErrorNotRetryable(err: UploadError)
    requires EffectiveStatus(err).Some? && 400 <= EffectiveStatus(err).value < 500
    ensures !IsRetryableError(err)
  {
  }

  /** A bare 503 from the server is retried. */
  lemma ServiceUnavailableRetryable(err: UploadError)
    requires err.status == Some(503) && err.message == Some("Service Unavailable") && !err.hasOutcomeIssue
    ensures IsRetryableError(err)
  {
    var m := ErrorMessage(err);
    FirstPatternsAbsent(m);
    LastPatternsAbsent(m);
  }

  /** Each pattern holds a character "Service Unavailable" lacks: the first four ... */
  lemma FirstPatternsAbsent(m: string)
    requires m == "Service Unavailable"
    ensures forall k :: 0 <= k < 4 ==> !JsStrings.Occurs(m, NonRetryableErrors[k])
  {
    assert !JsStrings.Occurs(m, NonRetryableErrors[0]) by {
      assert NonRetryableErrors[0][0] == 'I';
      JsStrings.AbsentCharBlocks(m, NonRetryableErrors[0], 0);
    }
    assert !JsStrings.Occurs(m, NonRetryableErrors[1]) by {
      assert NonRetryableErrors[1][0] == 'I';
      JsStrings.AbsentCharBlocks(m, NonRetryableErrors[1], 0);
    }
    assert !JsStrings.Occurs(m, NonRetryableErrors[2]) by {
      assert NonRetryableErrors[2][0] == 'B';
      JsStrings.AbsentCharBlocks(m, NonRetryableErrors[2], 0);
    }
    assert !JsStrings.Occurs(m, NonRetryableErrors[3]) by {
      assert NonRetryableErrors[3][0] == 'N';
      JsStrings.AbsentCharBlocks(m, NonRetryableErrors[3], 0);
    }
  }

  /** ... and the last three. */
  lemma LastPatternsAbsent(m: string)
    requires m == "Service Unavailable"
    ensures forall k :: 4 <= k < |NonRetryableErrors| ==> !JsStrings.Occurs(m, NonRetryableErrors[k])
  {
    assert !JsStrings.Occurs(m, NonRetryableErrors[4]) by {
      assert NonRetryableErrors[4][4] == 't';
      JsStrings.AbsentCharBlocks(m, NonRetryableErrors[4], 4);
    }
    assert !JsStrings.Occurs(m, NonRetryableErrors[5]) by {
      assert NonRetryableErrors[5][0] == 'F';
      JsStrings.AbsentCharBlocks(m, NonRetryableErrors[5], 0);
    }
    assert !JsStrings.Occurs(m, NonRetryableErrors[6]) by {
      assert NonRetryableErrors[6][0] == 'O';
      JsStrings.AbsentCharBlocks(m, NonRetryableErrors[6], 0);
    }
  }

  /** Two retryable errors and then a success: sleeps of 2 s and 4 s, and the response after three calls. */
  lemma TwoRetryableErrorsThenSuccess(err: UploadError, response: Response)
    requires IsRetryableError(err)
    ensures RetrySpec((n: nat) => if n < 2 then Threw(err) else Succeeded(response), DefaultMaxRetries)
         == RetryRun(Succeeded(response), [2000, 4000], 3)
  {
    var exec := (n: nat) => if n < 2 then Threw(err) else Succeeded(response);
    assert RetryFrom(exec, DefaultMaxRetries, 2) == RetryRun(Succeeded(response), [], 3);
    assert RetryFrom(exec, DefaultMaxRetries, 1) == RetryRun(Succeeded(response), [4000], 3);
  }

  /** A 400 from the server: one call, no sleep, the error rethrown. */
  lemma BadRequestNotRetried(err: UploadError, later: nat -> Attempt)
    requires err.status == Some(400)
    ensures RetrySpec((n: nat) => if n == 0 then Threw(err) else later(n), DefaultMaxRetries)
         == RetryRun(Threw(err), [], 1)
  {
  }
}
