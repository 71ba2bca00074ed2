/**
 * The throttle-retry loop around the downstream request of one item. Attempt
 * k (counting from 0) gets the reply `send(k)`; a reply with status 429 is
 * retried while fewer than MaxRetries retries have been made, and any other
 * failure, or a 429 once the budget is spent, is the item's error. The wait
 * between attempts is a step with no effect here.
 */
module Throttle {
  import opened Wrappers
  import opened JsValue

  /** The reply to one attempt: the response body, or the error the request library throws. */
  datatype Reply = Response(body: Value) | HttpError(statusCode: Option<int>, message: string)

  const Enabled := true
  const MaxRetries := 5

  /** A failed attempt is retried when it is a 429, throttling is on and the budget is not spent. */
  predicate Retries(reply: Reply, retryCount: nat) {
    reply.HttpError? && reply.statusCode == Some(429) && Enabled && retryCount < MaxRetries
  }

  /** The final reply and the number of attempts made, starting at retry count `retryCount`. */
  function Throttled(send: nat -> Reply, retryCount: nat): (Reply, nat)
    requires retryCount <= MaxRetries
    decreases MaxRetries - retryCount
  {
    var reply := send(retryCount);
    if Retries(reply, retryCount) then Throttled(send, retryCount + 1) else (reply, retryCount + 1)
  }

  predicate IsThrottled(reply: Reply) {
    reply.HttpError? && reply.statusCode == Some(429)
  }

  /**
   * What the loop does, stated outright: it makes between 1 and 6 attempts,
   * every attempt but the last got a 429, and the last reply is the result.
   * The loop stops early exactly on a success or a non-429 error.
   */
  lemma {:induction false} ThrottledCharacterized(send: nat -> Reply, retryCount: nat)
    requires retryCount <= MaxRetries
    ensures var (reply, attempts) := Throttled(send, retryCount);
      && retryCount < attempts <= MaxRetries + 1
      && reply == send(attempts - 1)
      && (forall k :: retryCount <= k < attempts - 1 ==> IsThrottled(send(k)))
      && (!IsThrottled(reply) || attempts == MaxRetries + 1)
    decreases MaxRetries - retryCount
  {
    if Retries(send(retryCount), retryCount) {
      ThrottledCharacterized(send, retryCount + 1);
    }
  }

  /**
   * The unbounded loop around the request: on a reply, break; on a retryable
   * error, count the retry, wait and continue; otherwise rethrow.
   */
  method SendWithRetry(send: nat -> Reply) returns (reply: Reply, attempts: nat)
    ensures (reply, attempts) == Throttled(send, 0)
    ensures 1 <= attempts <= MaxRetries + 1
    ensures reply == send(attempts - 1)
    ensures forall k :: 0 <= k < attempts - 1 ==> IsThrottled(send(k))
    ensures reply.Response? || !IsThrottled(reply) || attempts == MaxRetries + 1
  {
    var retryCount := 0;
    while true
      invariant 0 <= retryCount <= MaxRetries
      invariant Throttled(send, retryCount) == Throttled(send, 0)
      invariant forall k :: 0 <= k < retryCount ==> IsThrottled(send(k))
      decreases MaxRetries - retryCount
    {
      var r := send(retryCount);
      if r.Response? {
        reply, attempts := r, retryCount + 1;
        break;
      }
      if r.statusCode == Some(429) && Enabled && retryCount < MaxRetries {
        retryCount := retryCount + 1;
        continue;
      }
      reply, attempts := r, retryCount + 1;
      break;
    }
    ThrottledCharacterized(send, 0);
  }

  /** Five 429 replies followed by a success: the sixth attempt's response is returned. */
  lemma FiveThrottlesThenSuccess(send: nat -> Reply)
    requires forall k :: 0 <= k < 5 ==> IsThrottled(send(k))
    requires send(5).Response?
    ensures Throttled(send, 0) == (send(5), 6)
  {
  }

  /** Six 429 replies: the sixth is surfaced and no seventh attempt is made. */
  lemma SixThrottlesExhaustBudget(send: nat -> Reply)
    requires forall k :: 0 <= k < 6 ==> IsThrottled(send(k))
    ensures Throttled(send, 0) == (send(5), 6)
    ensures IsThrottled(Throttled(send, 0).0)
  {
  }

  /** A failure other than 429 is never retried. */
  lemma OtherErrorsPropagate(send: nat -> Reply)
    requires send(0).HttpError? && send(0).statusCode != Some(429)
    ensures Throttled(send, 0) == (send(0), 1)
  {
  }

  const RetryAfterMessage := "retryAfter is not defined"

  /**
   * The loop as written: the wait reads `retryAfter`, which no scope declares,
   * so the first retryable error turns into a ReferenceError that leaves the
   * loop after a single attempt.
   */
  function SendAsWritten(send: nat -> Reply): (Reply, nat) {
    var reply := send(0);
    if Retries(reply, 0) then (HttpError(None, RetryAfterMessage), 1) else (reply, 1)
  }

  /** As written, a 429 followed by a success fails with the ReferenceError; the intended loop succeeds. */
  lemma AsWrittenNeverRetries(send: nat -> Reply)
    requires IsThrottled(send(0)) && send(1).Response?
    ensures SendAsWritten(send) == (HttpError(None, RetryAfterMessage), 1)
    ensures Throttled(send, 0) == (send(1), 2)
  {
  }
}
