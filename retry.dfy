/**
 * The bounded retry with exponential backoff that wraps the message-list call and
 * every delete/archive call: `for attempt in range(max_retries)`, retrying only
 * after HTTP status 429 or 503 on a non-final attempt, after sleeping `2 ** attempt`.
 * The remote call is an oracle from the attempt number to what that call did; the
 * sleeps are recorded as a list of waits.
 */
module Backoff {
  import opened Mail

  /**
   * The `max_retries` default of `get_emails` and `delete_or_archive_emails`; the
   * configured value is never passed.
   */
  const MaxRetries: int := 3

  /** What a retried call came to: the value of the successful call, if any, how many calls were made, and the waits between them. */
  datatype RetryOutcome<+T> = RetryOutcome(value: Option<T>, calls: nat, waits: seq<nat>)

  /** `error.resp.status in [429, 503]`. */
  predicate IsTransient(code: int) {
    code == 429 || code == 503
  }

  predicate IsTransientFailure<T>(r: CallOutcome<T>) {
    r.HttpStatus? && IsTransient(r.code)
  }

  function Pow2(n: nat): (p: nat)
    ensures p >= 1
  {
    if n == 0 then 1 else 2 * Pow2(n - 1)
  }

  function Sum(s: seq<nat>): nat {
    if s == [] then 0 else Sum(s[..|s| - 1]) + s[|s| - 1]
  }

  /** The policy from attempt `attempt` on; `calls` counts every call since attempt 0. */
  function RetryFrom<T>(responses: nat -> CallOutcome<T>, maxRetries: int, attempt: nat): RetryOutcome<T>
    decreases maxRetries - attempt
  {
    if maxRetries <= attempt then RetryOutcome(None, attempt, [])
    else
      match responses(attempt)
      case Success(v) => RetryOutcome(Some(v), attempt + 1, [])
      case HttpStatus(code) =>
        if IsTransient(code) && attempt < maxRetries - 1 then
          var rest := RetryFrom(responses, maxRetries, attempt + 1);
          RetryOutcome(rest.value, rest.calls, [Pow2(attempt)] + rest.waits)
        else RetryOutcome(None, attempt + 1, [])
      case OtherError => RetryOutcome(None, attempt + 1, [])
  }

  function Retry<T>(responses: nat -> CallOutcome<T>, maxRetries: int): RetryOutcome<T> {
    RetryFrom(responses, maxRetries, 0)
  }

  /** The retry loop of `get_emails` and of `delete_or_archive_emails`, written once. */
  method CallWithRetry<T>(responses: nat -> CallOutcome<T>, maxRetries: int)
    returns (value: Option<T>, calls: nat, waits: seq<nat>)
    ensures RetryOutcome(value, calls, waits) == Retry(responses, maxRetries)
  {
    var attempt: nat := 0;
    waits := [];
    while attempt < maxRetries
      invariant attempt == |waits|
      invariant var r := RetryFrom(responses, maxRetries, attempt);
                Retry(responses, maxRetries) == RetryOutcome(r.value, r.calls, waits + r.waits)
      decreases maxRetries - attempt
    {
      calls := attempt + 1;
      match responses(attempt)
      case Success(v) =>
        value := Some(v);
        return;
      case HttpStatus(code) =>
        if IsTransient(code) && attempt < maxRetries - 1 {
          ghost var next := RetryFrom(responses, maxRetries, attempt + 1);
          assert RetryFrom(responses, maxRetries, attempt) == RetryOutcome(next.value, next.calls, [Pow2(attempt)] + next.waits);
          assert waits + ([Pow2(attempt)] + next.waits) == (waits + [Pow2(attempt)]) + next.waits;
          waits := waits + [Pow2(attempt)];
          attempt := attempt + 1;
        } else {
          value := None;
          return;
        }
      case OtherError =>
        value := None;
        return;
    }
    // only reached when no attempt is allowed at all (Python falls off the loop)
    value, calls := None, attempt;
  }

  /**
   * What the policy promises: calls stay within `maxRetries`; every call but the last
   * failed transiently and was followed by a wait of `2^attempt`; the last call
   * decides the result; and a transient failure ends the run only on the final attempt.
   */
  lemma {:induction false} RetryFromShape<T>(responses: nat -> CallOutcome<T>, maxRetries: int, attempt: nat)
    requires attempt < maxRetries
    ensures var r := RetryFrom(responses, maxRetries, attempt);
            && attempt < r.calls <= maxRetries
            && |r.waits| == r.calls - 1 - attempt
            && (forall j | 0 <= j < |r.waits| :: r.waits[j] == Pow2(attempt + j))
            && (forall j | attempt <= j < r.calls - 1 :: IsTransientFailure(responses(j)))
            && (r.value.Some? <==> responses(r.calls - 1).Success?)
            && (r.value.Some? ==> r.value.value == responses(r.calls - 1).value)
            && (IsTransientFailure(responses(r.calls - 1)) ==> r.calls == maxRetries)
    decreases maxRetries - attempt
  {
    match responses(attempt)
    case Success(_) =>
    case OtherError =>
    case HttpStatus(code) =>
      if IsTransient(code) && attempt < maxRetries - 1 {
        RetryFromShape(responses, maxRetries, attempt + 1);
      }
  }

  /** The properties of `RetryFromShape` for a whole run, plus: no attempt allowed means no call. */
  lemma RetryShape<T>(responses: nat -> CallOutcome<T>, maxRetries: int)
    ensures var r := Retry(responses, maxRetries);
            && (maxRetries <= 0 ==> r == RetryOutcome(None, 0, []))
            && (maxRetries > 0 ==>
                  && 1 <= r.calls <= maxRetries
                  && |r.waits| == r.calls - 1
                  && (forall j | 0 <= j < |r.waits| :: r.waits[j] == Pow2(j))
                  && (forall j | 0 <= j < r.calls - 1 :: IsTransientFailure(responses(j)))
                  && (r.value.Some? <==> responses(r.calls - 1).Success?)
                  && (IsTransientFailure(responses(r.calls - 1)) ==> r.calls == maxRetries))
  {
    if maxRetries > 0 {
      RetryFromShape(responses, maxRetries, 0);
    }
  }

  /** A failure that is not 429/503 on the first call ends the run at once, with no wait. */
  lemma PermanentFailureStopsAtOnce<T>(responses: nat -> CallOutcome<T>, maxRetries: int)
    requires maxRetries > 0
    requires responses(0).OtherError? || (responses(0).HttpStatus? && !IsTransient(responses(0).code))
    ensures Retry(responses, maxRetries) == RetryOutcome(None, 1, [])
  {
  }

  /** Against a backend that always answers 429 or 503, every allowed call is made and none succeeds. */
  lemma {:induction false} AlwaysTransientExhausts<T>(responses: nat -> CallOutcome<T>, maxRetries: int, attempt: nat)
    requires attempt < maxRetries
    requires forall k :: IsTransientFailure(responses(k))
    ensures var r := RetryFrom(responses, maxRetries, attempt);
            r.value == None && r.calls == maxRetries &&
            r.waits == seq(maxRetries - 1 - attempt, j requires 0 <= j < maxRetries - 1 - attempt => Pow2(attempt + j))
    decreases maxRetries - attempt
  {
    if attempt < maxRetries - 1 {
      AlwaysTransientExhausts(responses, maxRetries, attempt + 1);
    }
  }

  /** The backoff of an exhausted run with three attempts: three calls, waits of 1 and 2, nothing returned. */
  lemma ThreeAttemptsAgainstRateLimit<T>(responses: nat -> CallOutcome<T>)
    requires forall k :: responses(k) == HttpStatus(429)
    ensures Retry(responses, 3) == RetryOutcome(None, 3, [1, 2])
  {
    AlwaysTransientExhausts(responses, 3, 0);
  }

  /**
   * A run depends on nothing but the outcomes of its own attempts: another oracle
   * that agrees on the attempts the run makes gives the same run, whatever it says
   * about attempts never made.
   */
  lemma {:induction false} RetryFromSameResponses<T>(f: nat -> CallOutcome<T>, g: nat -> CallOutcome<T>, maxRetries: int, attempt: nat)
    requires forall k | attempt <= k < RetryFrom(f, maxRetries, attempt).calls :: f(k) == g(k)
    ensures RetryFrom(f, maxRetries, attempt) == RetryFrom(g, maxRetries, attempt)
    decreases maxRetries - attempt
  {
    if attempt < maxRetries {
      var rest := RetryFrom(f, maxRetries, attempt + 1);
      RetryFromCallsBound(f, maxRetries, attempt + 1);
      assert f(attempt) == g(attempt);
      if IsTransientFailure(f(attempt)) && attempt < maxRetries - 1 {
        RetryFromSameResponses(f, g, maxRetries, attempt + 1);
      }
    }
  }

  /** A run from `attempt` makes at least `attempt` calls in all, counting the earlier ones. */
  lemma {:induction false} RetryFromCallsBound<T>(f: nat -> CallOutcome<T>, maxRetries: int, attempt: nat)
    ensures attempt <= RetryFrom(f, maxRetries, attempt).calls
    decreases maxRetries - attempt
  {
    if attempt < maxRetries - 1 {
      RetryFromCallsBound(f, maxRetries, attempt + 1);
    }
  }

  /** The waits of a run add up to one less than the next power of two. */
  lemma {:induction false} BackoffTotal(waits: seq<nat>)
    requires forall j | 0 <= j < |waits| :: waits[j] == Pow2(j)
    ensures Sum(waits) == Pow2(|waits|) - 1
  {
    if waits != [] {
      BackoffTotal(waits[..|waits| - 1]);
    }
  }
}
