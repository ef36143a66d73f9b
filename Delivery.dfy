/**
 * `send_to_webhook`: posts `{"content": message}` to a webhook URL up to `retries` times,
 * stopping at the first `204 No Content`, and sleeps `delay` seconds between attempts.
 *
 * The network and the clock are replaced by an oracle: `outcome(i)` is what the `i`-th
 * `requests.post` call yields. What the function does to the outside world is recorded
 * as a trace of `Post` and `Sleep` events.
 */
module Delivery {

  /** What one `requests.post` call yields: a response with a status code, or an exception. */
  datatype Attempt = Responded(status: int) | Raised

  /** An observable effect: one POST of `{"content": content}` to `url`, or one `time.sleep`. */
  datatype Event = Post(content: string, url: string, timeout: int) | Sleep(seconds: int)

  /** The result of a whole delivery: the returned boolean and the effects, in order. */
  datatype Run = Run(success: bool, trace: seq<Event>)

  const NoContent: int := 204
  /** The `timeout=10` passed to every POST. */
  const PostTimeout: int := 10
  /** The defaults `retries=3, delay=2` that every caller uses. */
  const DefaultRetries: int := 3
  const DefaultDelay: int := 2

  /** Only a `204` response counts as delivered; other statuses and exceptions are failures. */
  predicate Delivered(a: Attempt)
  {
    a == Responded(NoContent)
  }

  /** Attempts `attempt`, `attempt + 1`, ... below `retries`, as the `for` loop runs them. */
  function AttemptsFrom(message: string, url: string, outcome: nat -> Attempt,
                        attempt: nat, retries: int, delay: int): Run
    decreases retries - attempt
  {
    if attempt >= retries then Run(false, [])
    else if Delivered(outcome(attempt)) then Run(true, [Post(message, url, PostTimeout)])
    else
      var pause := if attempt < retries - 1 then [Sleep(delay)] else [];
      var rest := AttemptsFrom(message, url, outcome, attempt + 1, retries, delay);
      Run(rest.success, [Post(message, url, PostTimeout)] + pause + rest.trace)
  }

  /** The whole of `send_to_webhook`: nothing at all for an empty URL. */
  function Deliver(message: string, url: string, outcome: nat -> Attempt, retries: int, delay: int): Run
  {
    if url == "" then Run(false, []) else AttemptsFrom(message, url, outcome, 0, retries, delay)
  }

  /** Number of POST events in a trace. */
  function Posts(trace: seq<Event>): nat
  {
    if trace == [] then 0 else (if trace[0].Post? then 1 else 0) + Posts(trace[1..])
  }

  /** Number of sleeps in a trace. */
  function Sleeps(trace: seq<Event>): nat
  {
    if trace == [] then 0 else (if trace[0].Sleep? then 1 else 0) + Sleeps(trace[1..])
  }

  /** Attempt `i` is the first one from `attempt` on, below `retries`, that gets a 204. */
  predicate FirstDeliveredAt(outcome: nat -> Attempt, attempt: nat, retries: int, i: nat)
  {
    attempt <= i < retries && Delivered(outcome(i))
    && forall j :: attempt <= j < i ==> !Delivered(outcome(j))
  }

  /** No attempt from `attempt` on, below `retries`, gets a 204. */
  predicate NeverDelivered(outcome: nat -> Attempt, attempt: nat, retries: int)
  {
    forall j :: attempt <= j < retries ==> !Delivered(outcome(j))
  }

  /** The `k`-th effect of a delivery: POSTs at even positions, sleeps at odd ones. */
  function Alternating(message: string, url: string, delay: int, k: nat): Event
  {
    if k % 2 == 0 then Post(message, url, PostTimeout) else Sleep(delay)
  }

  /** The attempts from `attempt` on return true exactly when one of them gets a 204. */
  lemma {:induction false} AttemptsFromSuccess(message: string, url: string, outcome: nat -> Attempt,
                                               attempt: nat, retries: int, delay: int)
    ensures AttemptsFrom(message, url, outcome, attempt, retries, delay).success
        <==> exists i: nat :: attempt <= i < retries && Delivered(outcome(i))
    decreases retries - attempt
  {
    if attempt < retries && !Delivered(outcome(attempt)) {
      AttemptsFromSuccess(message, url, outcome, attempt + 1, retries, delay);
      assert forall i: nat :: attempt <= i < retries && Delivered(outcome(i)) ==> attempt + 1 <= i;
    }
  }

  /** The attempts from `attempt` on POST up to the first 204 and sleep once less. */
  lemma AttemptsFromCounts(message: string, url: string, outcome: nat -> Attempt,
                           attempt: nat, retries: int, delay: int)
    ensures var r := AttemptsFrom(message, url, outcome, attempt, retries, delay);
      && (forall i: nat :: FirstDeliveredAt(outcome, attempt, retries, i) ==>
            Posts(r.trace) == i - attempt + 1 && Sleeps(r.trace) == i - attempt)
      && (NeverDelivered(outcome, attempt, retries) && attempt < retries ==>
            Posts(r.trace) == retries - attempt && Sleeps(r.trace) == retries - attempt - 1)
  {
    forall i: nat | FirstDeliveredAt(outcome, attempt, retries, i)
      ensures var r := AttemptsFrom(message, url, outcome, attempt, retries, delay);
        Posts(r.trace) == i - attempt + 1 && Sleeps(r.trace) == i - attempt
    {
      CountsUntilDelivered(message, url, outcome, attempt, retries, delay, i);
    }
    if NeverDelivered(outcome, attempt, retries) && attempt < retries {
      CountsNeverDelivered(message, url, outcome, attempt, retries, delay);
    }
  }

  /** A failed attempt that is not the last contributes one POST and one sleep. */
  lemma CountsOfRetry(message: string, url: string, delay: int, rest: seq<Event>)
    ensures var t := [Post(message, url, PostTimeout), Sleep(delay)] + rest;
      Posts(t) == 1 + Posts(rest) && Sleeps(t) == 1 + Sleeps(rest)
  {
    var t := [Post(message, url, PostTimeout), Sleep(delay)] + rest;
    assert t[1..][1..] == rest;
  }

  /** With the first 204 at attempt `i`, the attempts from `attempt` on POST `i - attempt + 1` times. */
  lemma {:induction false} CountsUntilDelivered(message: string, url: string, outcome: nat -> Attempt,
                                                attempt: nat, retries: int, delay: int, i: nat)
    requires FirstDeliveredAt(outcome, attempt, retries, i)
    ensures var r := AttemptsFrom(message, url, outcome, attempt, retries, delay);
      Posts(r.trace) == i - attempt + 1 && Sleeps(r.trace) == i - attempt
    decreases i - attempt
  {
    var r := AttemptsFrom(message, url, outcome, attempt, retries, delay);
    if i == attempt {
      assert r.trace == [Post(message, url, PostTimeout)];
      assert Posts(r.trace) == 1 + Posts([]) && Sleeps(r.trace) == Sleeps([]);
    } else {
      assert !Delivered(outcome(attempt)) && attempt < retries - 1;
      var rest := AttemptsFrom(message, url, outcome, attempt + 1, retries, delay);
      assert r.trace == [Post(message, url, PostTimeout), Sleep(delay)] + rest.trace;
      CountsOfRetry(message, url, delay, rest.trace);
      CountsUntilDelivered(message, url, outcome, attempt + 1, retries, delay, i);
    }
  }

  /** With no 204 at all, the attempts from `attempt` on POST `retries - attempt` times. */
  lemma {:induction false} CountsNeverDelivered(message: string, url: string, outcome: nat -> Attempt,
                                                attempt: nat, retries: int, delay: int)
    requires NeverDelivered(outcome, attempt, retries) && attempt < retries
    ensures var r := AttemptsFrom(message, url, outcome, attempt, retries, delay);
      Posts(r.trace) == retries - attempt && Sleeps(r.trace) == retries - attempt - 1
    decreases retries - attempt
  {
    var r := AttemptsFrom(message, url, outcome, attempt, retries, delay);
    assert !Delivered(outcome(attempt));
    var rest := AttemptsFrom(message, url, outcome, attempt + 1, retries, delay);
    if attempt == retries - 1 {
      assert rest.trace == [] && r.trace == [Post(message, url, PostTimeout)];
      assert Posts(r.trace) == 1 + Posts([]) && Sleeps(r.trace) == Sleeps([]);
    } else {
      assert r.trace == [Post(message, url, PostTimeout), Sleep(delay)] + rest.trace;
      CountsOfRetry(message, url, delay, rest.trace);
      CountsNeverDelivered(message, url, outcome, attempt + 1, retries, delay);
    }
  }

  /** POSTs and sleeps alternate, starting and ending with a POST. */
  lemma {:induction false} AttemptsFromAlternate(message: string, url: string, outcome: nat -> Attempt,
                                                 attempt: nat, retries: int, delay: int)
    ensures var t := AttemptsFrom(message, url, outcome, attempt, retries, delay).trace;
      && (t != [] <==> attempt < retries)
      && (t != [] ==> |t| % 2 == 1)
      && (forall k :: 0 <= k < |t| ==> t[k] == Alternating(message, url, delay, k))
    decreases retries - attempt
  {
    var t := AttemptsFrom(message, url, outcome, attempt, retries, delay).trace;
    if attempt < retries && !Delivered(outcome(attempt)) {
      var rest := AttemptsFrom(message, url, outcome, attempt + 1, retries, delay).trace;
      AttemptsFromAlternate(message, url, outcome, attempt + 1, retries, delay);
      if attempt < retries - 1 {
        assert t == [Post(message, url, PostTimeout), Sleep(delay)] + rest;
        forall k | 2 <= k < |t| ensures t[k] == Alternating(message, url, delay, k) {
          assert t[k] == rest[k - 2];
        }
      }
    }
  }

  /**
   * The delivery contract: no effect at all for an empty URL; otherwise the result is true
   * exactly when one of the first `retries` attempts gets a 204, the POSTs stop at the first
   * 204, POSTs and sleeps alternate, and no sleep follows the last POST.
   */
  lemma DeliverShape(message: string, url: string, outcome: nat -> Attempt, retries: int, delay: int)
    ensures var r := Deliver(message, url, outcome, retries, delay);
      && (url == "" ==> !r.success && r.trace == [])
      && (url != "" ==>
        && (r.success <==> exists i: nat :: i < retries && Delivered(outcome(i)))
        && (forall i: nat :: FirstDeliveredAt(outcome, 0, retries, i) ==> Posts(r.trace) == i + 1 && Sleeps(r.trace) == i)
        && (NeverDelivered(outcome, 0, retries) ==>
              Posts(r.trace) == (if retries > 0 then retries else 0) &&
              Sleeps(r.trace) == (if retries > 0 then retries - 1 else 0))
        && (forall k :: 0 <= k < |r.trace| ==> r.trace[k] == Alternating(message, url, delay, k))
        && (r.trace != [] ==> r.trace[|r.trace| - 1].Post?))
  {
    AttemptsFromSuccess(message, url, outcome, 0, retries, delay);
    AttemptsFromCounts(message, url, outcome, 0, retries, delay);
    AttemptsFromAlternate(message, url, outcome, 0, retries, delay);
  }

  /**
   * `send_to_webhook(message, webhook_url, retries, delay)` with its `for` loop, early return
   * on 204 and `if attempt < retries - 1: time.sleep(delay)`.
   */
  method SendToWebhook(message: string, url: string, outcome: nat -> Attempt, retries: int, delay: int)
    returns (success: bool, trace: seq<Event>)
    ensures Run(success, trace) == Deliver(message, url, outcome, retries, delay)
    ensures url == "" ==> !success && trace == []
    ensures url != "" ==>
      && (success <==> exists i: nat :: i < retries && Delivered(outcome(i)))
      && (forall i: nat :: FirstDeliveredAt(outcome, 0, retries, i) ==> Posts(trace) == i + 1 && Sleeps(trace) == i)
      && (NeverDelivered(outcome, 0, retries) && retries > 0 ==> Posts(trace) == retries && Sleeps(trace) == retries - 1)
      && (trace != [] ==> trace[|trace| - 1].Post?)
  {
    if url == "" {
      return false, [];
    }
    ghost var whole := AttemptsFrom(message, url, outcome, 0, retries, delay);
    trace := [];
    var attempt: nat := 0;
    while attempt < retries
      invariant retries > 0 ==> attempt <= retries
      invariant retries <= 0 ==> attempt == 0
      invariant trace + AttemptsFrom(message, url, outcome, attempt, retries, delay).trace == whole.trace
      invariant AttemptsFrom(message, url, outcome, attempt, retries, delay).success == whole.success
      decreases retries - attempt
    {
      ghost var rest := AttemptsFrom(message, url, outcome, attempt + 1, retries, delay);
      trace := trace + [Post(message, url, PostTimeout)];
      if outcome(attempt) == Responded(NoContent) {
        success := true;
        break;
      }
      if attempt < retries - 1 {
        trace := trace + [Sleep(delay)];
      }
      assert trace + rest.trace == whole.trace;
      attempt := attempt + 1;
    }
    if attempt >= retries {
      success := false;
    }
    DeliverShape(message, url, outcome, retries, delay);
  }
}
