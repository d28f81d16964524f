/**
 * `fetchWithRetry` (src/sections/Footer.tsx:82-100), with the transport
 * replaced by an injected list: `attempts[k]` is what the (k+1)-th call to
 * `fetchWithTimeout` would produce.  A call either throws (timeout, abort,
 * network failure) or resolves to an HTTP response, whatever its status.
 */
module Retry {
  import opened Wrappers

  /**
   * What `response.json()` yields: a parse failure, the JSON value `null`,
   * or any other JSON value, of which only a string `message` property
   * matters (absent for arrays, numbers and objects without one).
   */
  datatype Body = NotJson | JsonNull | Json(message: Option<string>)

  /** An HTTP response: `response.ok` (status 2xx) and its body. */
  datatype Response = Response(ok: bool, body: Body)

  /** The result of one call to `fetchWithTimeout`. */
  datatype Attempt = Threw(reason: string) | Answered(response: Response)

  /**
   * How a call to `fetchWithRetry` ends: it returns a response, rethrows
   * the last attempt's error, or throws 'Max retries exceeded' when it
   * was allowed no attempt at all.
   */
  datatype RetryOutcome = Returned(response: Response) | Rethrown(reason: string) | Exceeded

  /** The outcome together with the number of calls made and the number of 2-second waits. */
  datatype RetryRun = RetryRun(outcome: RetryOutcome, calls: nat, waits: nat)

  /** The index of the first attempt among the first `limit` that did not throw, or `limit`. */
  function FirstAnswer(attempts: seq<Attempt>, limit: nat): (k: nat)
    requires limit <= |attempts|
    ensures k <= limit
    ensures forall i :: 0 <= i < k ==> attempts[i].Threw?
    ensures k < limit ==> attempts[k].Answered?
  {
    if limit == 0 then 0
    else
      var k := FirstAnswer(attempts, limit - 1);
      if k < limit - 1 then k
      else if attempts[limit - 1].Answered? then limit - 1
      else limit
  }

  /**
   * The behaviour of `fetchWithRetry(url, options, maxRetries)` stated
   * without its loop: the first at most `maxRetries` attempts are made until
   * one does not throw; if they all throw the last error escapes.
   */
  function RetrySpec(attempts: seq<Attempt>, maxRetries: int): (r: RetryRun)
    requires maxRetries <= |attempts|
    ensures r.outcome.Exceeded? <==> maxRetries <= 0
    ensures maxRetries <= 0 ==> r.calls == 0 && r.waits == 0
    ensures maxRetries > 0 ==> 1 <= r.calls <= maxRetries && r.waits == r.calls - 1
    ensures forall i :: 0 <= i < r.calls - 1 ==> attempts[i].Threw?
    ensures r.outcome.Returned? ==> attempts[r.calls - 1] == Answered(r.outcome.response)
    ensures r.outcome.Rethrown? ==> r.calls == maxRetries && attempts[r.calls - 1] == Threw(r.outcome.reason)
  {
    if maxRetries <= 0 then RetryRun(Exceeded, 0, 0)
    else
      var k := FirstAnswer(attempts, maxRetries);
      if k < maxRetries then RetryRun(Returned(attempts[k].response), k + 1, k)
      else RetryRun(Rethrown(attempts[maxRetries - 1].reason), maxRetries, maxRetries - 1)
  }

  /**
   * The loop of lines 83-99: attempt counter from 1 to `maxRetries`, an
   * early return on the first response, a rethrow when the last attempt
   * throws, and a wait between a failed attempt and the next one.
   */
  method FetchWithRetry(attempts: seq<Attempt>, maxRetries: int) returns (outcome: RetryOutcome, calls: nat, waits: nat)
    requires maxRetries <= |attempts|
    ensures RetryRun(outcome, calls, waits) == RetrySpec(attempts, maxRetries)
  {
    calls, waits := 0, 0;
    var attempt := 1;
    while attempt <= maxRetries
      invariant 1 <= attempt && (attempt <= maxRetries || attempt == 1)
      invariant calls == attempt - 1 && waits == attempt - 1
      invariant forall i :: 0 <= i < calls ==> attempts[i].Threw?
      decreases maxRetries - attempt
    {
      var result := attempts[attempt - 1];
      calls := calls + 1;
      match result {
        case Answered(response) =>
          return Returned(response), calls, waits;
        case Threw(reason) =>
          if attempt == maxRetries {
            return Rethrown(reason), calls, waits;
          }
          waits := waits + 1;
      }
      attempt := attempt + 1;
    }
    outcome := Exceeded;
  }

  /** Only a thrown error is retried: the first response, ok or not, ends the loop. */
  lemma AnswerIsNotRetried(attempts: seq<Attempt>, maxRetries: int, j: nat)
    requires maxRetries <= |attempts| && j < maxRetries
    requires forall i :: 0 <= i < j ==> attempts[i].Threw?
    requires attempts[j].Answered?
    ensures RetrySpec(attempts, maxRetries) == RetryRun(Returned(attempts[j].response), j + 1, j)
  {
  }

  /** The last error escapes exactly when every permitted attempt threw. */
  lemma RethrowIffAllThrew(attempts: seq<Attempt>, maxRetries: int)
    requires maxRetries <= |attempts|
    ensures RetrySpec(attempts, maxRetries).outcome.Rethrown?
        <==> maxRetries > 0 && forall i :: 0 <= i < maxRetries ==> attempts[i].Threw?
  {
  }
}
