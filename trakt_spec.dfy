/**
 * The values and the decision rules of TraktIO (TraktIO.py): history entries,
 * remote replies, error classification, the retry of one batch, the adaptive delay,
 * the accounting of a batch run and the keys of the watched cache.
 *
 * The remote service is an oracle: `remote(b, a)` is what the `sync/history` add call
 * does on attempt `a` of batch `b`.
 */
module TraktSpec {
  import opened Wrappers
  import opened Text
  import opened Batching

  /** A queued history entry: `{"title"?, "watched_at", "ids": {"tmdb"}}`. */
  datatype HistoryItem = HistoryItem(title: Option<string>, watchedAt: string, tmdb: Option<int>)

  /**
   * A response object of `sync/history` add; `EmptyReply` is a response that is present
   * but falsy (an empty dict).
   */
  datatype Reply = EmptyReply | Reply(added: nat, notFound: seq<HistoryItem>, updated: seq<HistoryItem>)

  /** What one call of `Trakt["sync/history"].add(data)` does. */
  datatype Attempt = Raises(message: string) | ReturnsNone | Returns(reply: Reply)

  /** MAX_RETRY_ATTEMPTS (TraktIO.py:46). */
  const MaxRetryAttempts: nat := 5

  /** RATE_LIMIT_DELAY (TraktIO.py:44), in seconds. */
  const RateLimitDelay: real := 30.0

  /** The message of the exception raised for a None response (TraktIO.py:528). */
  const NoResponseMessage: string := "No response from Trakt API"

  datatype ErrorClass = RateLimited | ServerError | OtherError

  /** The three branches of TraktIO.py:533-562, tried in that order. */
  function ClassifyError(message: string): ErrorClass {
    var lower := Lower(message);
    if Contains(message, "429") || Contains(lower, "rate") then RateLimited
    else if Contains(message, "500") || Contains(message, "502") || Contains(message, "503") || Contains(lower, "server")
    then ServerError
    else OtherError
  }

  /** The counter update of one failed attempt: only a rate limit increments it (TraktIO.py:536-537). */
  function CounterAfterError(classify: string -> ErrorClass, counter: nat, message: string): (n: nat)
    ensures n == counter + 1 <==> classify(message) == RateLimited
    ensures n == counter <==> classify(message) != RateLimited
  {
    if classify(message) == RateLimited then counter + 1 else counter
  }

  /** The error text of a failed attempt, or None for an attempt that returned a response. */
  function AttemptError(a: Attempt): Option<string> {
    match a
    case Raises(m) => Some(m)
    case ReturnsNone => Some(NoResponseMessage)
    case Returns(_) => None
  }

  /** What `_sync_batch_with_retry` yields: a response, or an exception after the last attempt. */
  datatype RetryOutcome = RetryOutcome(reply: Option<Reply>, rateLimits: nat, attempts: nat)

  /**
   * `_sync_batch_with_retry` under its tenacity decorator (TraktIO.py:509-564): attempts
   * `attempt`, `attempt + 1`, ... until one returns a response or MaxRetryAttempts have
   * been made; every failed attempt is classified and may bump the counter. The
   * classification is a parameter so that the accounting lemmas below hold whatever it
   * is; TraktIO passes ClassifyError.
   */
  function RetryFrom(remote: (nat, nat) -> Attempt, classify: string -> ErrorClass, batch: nat, attempt: nat, counter: nat): (r: RetryOutcome)
    requires attempt < MaxRetryAttempts
    ensures attempt < r.attempts <= MaxRetryAttempts
    ensures r.reply.Some? ==> remote(batch, r.attempts - 1) == Returns(r.reply.value)
    ensures r.reply.None? ==> r.attempts == MaxRetryAttempts
    ensures counter <= r.rateLimits <= counter + (r.attempts - attempt)
    decreases MaxRetryAttempts - attempt
  {
    match AttemptError(remote(batch, attempt))
    case None => RetryOutcome(Some(remote(batch, attempt).reply), counter, attempt + 1)
    case Some(m) =>
      var n := CounterAfterError(classify, counter, m);
      if attempt + 1 < MaxRetryAttempts then RetryFrom(remote, classify, batch, attempt + 1, n)
      else RetryOutcome(None, n, attempt + 1)
  }

  /**
   * The retry stops at the first attempt that returns a response: every attempt before the
   * last one made failed, and no response comes back exactly when every remaining attempt fails.
   */
  lemma {:induction false} RetryStopsAtFirstResponse(remote: (nat, nat) -> Attempt, classify: string -> ErrorClass,
                                                     batch: nat, attempt: nat, counter: nat)
    requires attempt < MaxRetryAttempts
    ensures var r := RetryFrom(remote, classify, batch, attempt, counter);
      && (forall a :: attempt <= a < r.attempts - 1 ==> AttemptError(remote(batch, a)).Some?)
      && (r.reply.None? <==> forall a :: attempt <= a < MaxRetryAttempts ==> AttemptError(remote(batch, a)).Some?)
    decreases MaxRetryAttempts - attempt
  {
    match AttemptError(remote(batch, attempt))
    case None =>
    case Some(m) =>
      if attempt + 1 < MaxRetryAttempts {
        RetryStopsAtFirstResponse(remote, classify, batch, attempt + 1, CounterAfterError(classify, counter, m));
      }
  }

  /** One failed attempt that is not the last: the retry goes on from the next attempt with the updated counter. */
  lemma RetryFromStep(remote: (nat, nat) -> Attempt, classify: string -> ErrorClass, batch: nat, attempt: nat, counter: nat)
    requires attempt + 1 < MaxRetryAttempts && AttemptError(remote(batch, attempt)).Some?
    ensures RetryFrom(remote, classify, batch, attempt, counter)
            == RetryFrom(remote, classify, batch, attempt + 1,
                         CounterAfterError(classify, counter, AttemptError(remote(batch, attempt)).value))
  {
  }

  function Retry(remote: (nat, nat) -> Attempt, classify: string -> ErrorClass, batch: nat, counter: nat): RetryOutcome {
    RetryFrom(remote, classify, batch, 0, counter)
  }

  /** The classification ignores letter case: a message and its lower-cased form fall in the same class. */
  lemma ClassifyIgnoresCase(message: string)
    ensures ClassifyError(Lower(message)) == ClassifyError(message)
  {
    LowerIdempotent(message);
    ContainsDigitsLower(message, "429");
    ContainsDigitsLower(message, "500");
    ContainsDigitsLower(message, "502");
    ContainsDigitsLower(message, "503");
  }

  /** An HTTP 429 error, whose text starts with its status code, is a rate limit. */
  lemma StatusTooManyRequestsIsRateLimit(message: string)
    requires |message| >= 3 && message[..3] == "429"
    ensures ClassifyError(message) == RateLimited
  {
  }

  /** An HTTP 503 error is a server error, unless its text also matches the rate-limit test. */
  lemma StatusUnavailableIsServerError(message: string)
    requires |message| >= 3 && message[..3] == "503"
    requires !Contains(message, "429") && !Contains(Lower(message), "rate")
    ensures ClassifyError(message) == ServerError
  {
  }

  /** Rate limits on every attempt exhaust the five attempts and count one rate limit each. */
  lemma {:induction false} RetryAlwaysRateLimited(remote: (nat, nat) -> Attempt, classify: string -> ErrorClass,
                                                  batch: nat, attempt: nat, counter: nat)
    requires attempt < MaxRetryAttempts
    requires forall a :: attempt <= a < MaxRetryAttempts ==>
               remote(batch, a).Raises? && classify(remote(batch, a).message) == RateLimited
    ensures RetryFrom(remote, classify, batch, attempt, counter) ==
              RetryOutcome(None, counter + (MaxRetryAttempts - attempt), MaxRetryAttempts)
    decreases MaxRetryAttempts - attempt
  {
    if attempt + 1 < MaxRetryAttempts {
      RetryAlwaysRateLimited(remote, classify, batch, attempt + 1, counter + 1);
    }
  }

  // Adaptive delay of `_enforce_rate_limit` (TraktIO.py:257-280).

  function Max(a: real, b: real): real {
    if a >= b then a else b
  }

  /** The minimum spacing enforced before a call, given the consecutive rate limits seen. */
  function EnforcedDelay(minDelay: real, consecutiveRateLimits: nat): (d: real)
    ensures d >= minDelay
    ensures consecutiveRateLimits > 0 ==> d >= RateLimitDelay * (1.0 + 0.5 * consecutiveRateLimits as real)
    ensures consecutiveRateLimits == 0 ==> d == minDelay
    ensures consecutiveRateLimits > 0 ==>
              d == minDelay || d == RateLimitDelay * (1.0 + 0.5 * consecutiveRateLimits as real)
  {
    if consecutiveRateLimits > 0 then Max(minDelay, RateLimitDelay * (1.0 + consecutiveRateLimits as real * 0.5))
    else minDelay
  }

  /** More consecutive rate limits never shorten the delay. */
  lemma EnforcedDelayMonotone(minDelay: real, m: nat, n: nat)
    requires m <= n
    ensures EnforcedDelay(minDelay, m) <= EnforcedDelay(minDelay, n)
  {
  }

  /** How long `_enforce_rate_limit` sleeps: only when less than the delay has elapsed. */
  function SleepTime(delay: real, lastCall: real, now: real): (t: real)
    ensures t >= 0.0
    ensures t > 0.0 <==> now - lastCall < delay
    ensures lastCall + delay <= now + t
    ensures t > 0.0 ==> now + t == lastCall + delay
  {
    if now - lastCall < delay then delay - (now - lastCall) else 0.0
  }

  // Accounting of `_sync_movies_in_batches` / `_sync_episodes_in_batches`.

  /** The totals a batch loop accumulates, and the two TraktIO fields it updates. */
  datatype BatchTotals = BatchTotals(
    added: nat,
    notFound: seq<HistoryItem>,
    updated: seq<HistoryItem>,
    failed: nat,
    failedItems: seq<HistoryItem>,
    rateLimits: nat,
    lastCall: real)

  /** Whether the retried call of batch `index` ends with a truthy response. */
  predicate StepSucceeded(remote: (nat, nat) -> Attempt, classify: string -> ErrorClass, index: nat, rateLimits: nat) {
    var r := Retry(remote, classify, index, rateLimits);
    r.reply.Some? && r.reply.value.Reply?
  }

  /**
   * One batch: wait until the enforced delay has passed since the previous call, retry,
   * then either add the response's counts and reset the rate-limit counter, or count the
   * whole batch as failed and keep the counter the retries left.
   */
  function BatchStep(acc: BatchTotals, batch: seq<HistoryItem>, index: nat, remote: (nat, nat) -> Attempt, classify: string -> ErrorClass,
                     clock: nat -> real, minDelay: real): (r: BatchTotals)
    ensures r.lastCall >= clock(index) && r.lastCall >= acc.lastCall + EnforcedDelay(minDelay, acc.rateLimits)
    ensures StepSucceeded(remote, classify, index, acc.rateLimits) ==>
              && r.rateLimits == 0
              && r.added == acc.added + Retry(remote, classify, index, acc.rateLimits).reply.value.added
              && r.notFound == acc.notFound + Retry(remote, classify, index, acc.rateLimits).reply.value.notFound
              && r.updated == acc.updated + Retry(remote, classify, index, acc.rateLimits).reply.value.updated
              && r.failed == acc.failed && r.failedItems == acc.failedItems
    ensures !StepSucceeded(remote, classify, index, acc.rateLimits) ==>
              && r.rateLimits == Retry(remote, classify, index, acc.rateLimits).rateLimits
              && r.added == acc.added && r.notFound == acc.notFound && r.updated == acc.updated
              && r.failed == acc.failed + |batch| && r.failedItems == acc.failedItems + batch
  {
    var delay := EnforcedDelay(minDelay, acc.rateLimits);
    var lastCall := clock(index) + SleepTime(delay, acc.lastCall, clock(index));
    var r := Retry(remote, classify, index, acc.rateLimits);
    match r.reply
    case Some(Reply(added, notFound, updated)) =>
      acc.(added := acc.added + added, notFound := acc.notFound + notFound, updated := acc.updated + updated,
           rateLimits := 0, lastCall := lastCall)
    case _ =>
      acc.(failed := acc.failed + |batch|, failedItems := acc.failedItems + batch,
           rateLimits := r.rateLimits, lastCall := lastCall)
  }

  /** The totals after the first `k` batches. */
  function RunBatches(batches: seq<seq<HistoryItem>>, k: nat, acc0: BatchTotals, remote: (nat, nat) -> Attempt, classify: string -> ErrorClass,
                      clock: nat -> real, minDelay: real): BatchTotals
    requires k <= |batches|
  {
    if k == 0 then acc0
    else BatchStep(RunBatches(batches, k - 1, acc0, remote, classify, clock, minDelay), batches[k - 1], k - 1, remote, classify, clock, minDelay)
  }

  /** The batch loop over a whole buffer. */
  function SyncedInBatches(items: seq<HistoryItem>, pageSize: nat, acc0: BatchTotals, remote: (nat, nat) -> Attempt, classify: string -> ErrorClass,
                           clock: nat -> real, minDelay: real): BatchTotals
    requires pageSize > 0
  {
    RunBatches(Batches(items, pageSize), |Batches(items, pageSize)|, acc0, remote, classify, clock, minDelay)
  }

  /** Whether batch `k` ends with a truthy response. */
  predicate BatchSucceeded(batches: seq<seq<HistoryItem>>, k: nat, acc0: BatchTotals, remote: (nat, nat) -> Attempt, classify: string -> ErrorClass,
                           clock: nat -> real, minDelay: real)
    requires k < |batches|
  {
    StepSucceeded(remote, classify, k, RunBatches(batches, k, acc0, remote, classify, clock, minDelay).rateLimits)
  }

  /** The items of the batches among the first `k` that succeeded. */
  function SucceededItems(batches: seq<seq<HistoryItem>>, k: nat, acc0: BatchTotals, remote: (nat, nat) -> Attempt, classify: string -> ErrorClass,
                          clock: nat -> real, minDelay: real): seq<HistoryItem>
    requires k <= |batches|
  {
    if k == 0 then []
    else SucceededItems(batches, k - 1, acc0, remote, classify, clock, minDelay)
         + (if BatchSucceeded(batches, k - 1, acc0, remote, classify, clock, minDelay) then batches[k - 1] else [])
  }

  /**
   * Every item of every batch is accounted for exactly once: it is either in a batch that
   * succeeded or appended to the failed list, the failed count grows by exactly what the
   * failed list grows by, and a batch run that ended with a success leaves the rate-limit
   * counter at 0.
   */
  lemma {:induction false} BatchAccounting(batches: seq<seq<HistoryItem>>, k: nat, acc0: BatchTotals,
                                           remote: (nat, nat) -> Attempt, classify: string -> ErrorClass,
                                                     clock: nat -> real, minDelay: real)
    requires k <= |batches|
    ensures var acc := RunBatches(batches, k, acc0, remote, classify, clock, minDelay);
      && acc.failed + |acc0.failedItems| == acc0.failed + |acc.failedItems|
      && |acc.failedItems| - |acc0.failedItems| + |SucceededItems(batches, k, acc0, remote, classify, clock, minDelay)|
           == |Joined(batches, k)|
      && |acc0.failedItems| <= |acc.failedItems| && acc.failedItems[..|acc0.failedItems|] == acc0.failedItems
      && (k > 0 && BatchSucceeded(batches, k - 1, acc0, remote, classify, clock, minDelay) ==> acc.rateLimits == 0)
  {
    if k > 0 {
      BatchAccounting(batches, k - 1, acc0, remote, classify, clock, minDelay);
      var prev := RunBatches(batches, k - 1, acc0, remote, classify, clock, minDelay);
      var acc := RunBatches(batches, k, acc0, remote, classify, clock, minDelay);
      var b := batches[k - 1];
      assert acc == BatchStep(prev, b, k - 1, remote, classify, clock, minDelay);
      var done := SucceededItems(batches, k - 1, acc0, remote, classify, clock, minDelay);
      if StepSucceeded(remote, classify, k - 1, prev.rateLimits) {
        assert SucceededItems(batches, k, acc0, remote, classify, clock, minDelay) == done + b;
      } else {
        assert SucceededItems(batches, k, acc0, remote, classify, clock, minDelay) == done;
        assert acc.failedItems == prev.failedItems + b;
        assert acc.failedItems[..|prev.failedItems|] == prev.failedItems;
      }
    }
  }

  /** The items of the batches among the first `k` that failed. */
  function FailedBatchItems(batches: seq<seq<HistoryItem>>, k: nat, acc0: BatchTotals, remote: (nat, nat) -> Attempt,
                            classify: string -> ErrorClass, clock: nat -> real, minDelay: real): seq<HistoryItem>
    requires k <= |batches|
  {
    if k == 0 then []
    else FailedBatchItems(batches, k - 1, acc0, remote, classify, clock, minDelay)
         + (if BatchSucceeded(batches, k - 1, acc0, remote, classify, clock, minDelay) then [] else batches[k - 1])
  }

  /** The failed list grows by exactly the items of the batches that failed, in order. */
  lemma {:induction false} FailedListGrowth(batches: seq<seq<HistoryItem>>, k: nat, acc0: BatchTotals,
                                            remote: (nat, nat) -> Attempt, classify: string -> ErrorClass,
                                            clock: nat -> real, minDelay: real)
    requires k <= |batches|
    ensures RunBatches(batches, k, acc0, remote, classify, clock, minDelay).failedItems
            == acc0.failedItems + FailedBatchItems(batches, k, acc0, remote, classify, clock, minDelay)
  {
    if k > 0 {
      var j := k - 1;
      FailedListGrowth(batches, j, acc0, remote, classify, clock, minDelay);
      FailedListStep(batches, j, acc0, remote, classify, clock, minDelay);
    }
  }

  /** The inductive step of FailedListGrowth: batch `j` extends the failed list exactly when it fails. */
  lemma FailedListStep(batches: seq<seq<HistoryItem>>, j: nat, acc0: BatchTotals,
                       remote: (nat, nat) -> Attempt, classify: string -> ErrorClass,
                       clock: nat -> real, minDelay: real)
    requires j < |batches|
    requires RunBatches(batches, j, acc0, remote, classify, clock, minDelay).failedItems
             == acc0.failedItems + FailedBatchItems(batches, j, acc0, remote, classify, clock, minDelay)
    ensures RunBatches(batches, j + 1, acc0, remote, classify, clock, minDelay).failedItems
            == acc0.failedItems + FailedBatchItems(batches, j + 1, acc0, remote, classify, clock, minDelay)
  {
    var prev := RunBatches(batches, j, acc0, remote, classify, clock, minDelay);
    var acc := BatchStep(prev, batches[j], j, remote, classify, clock, minDelay);
    var before := FailedBatchItems(batches, j, acc0, remote, classify, clock, minDelay);
    assert RunBatches(batches, j + 1, acc0, remote, classify, clock, minDelay) == acc;
    if StepSucceeded(remote, classify, j, prev.rateLimits) {
      assert acc.failedItems == acc0.failedItems + before;
      assert FailedBatchItems(batches, j + 1, acc0, remote, classify, clock, minDelay) == before + [];
    } else {
      assert acc.failedItems == acc0.failedItems + before + batches[j];
      assert FailedBatchItems(batches, j + 1, acc0, remote, classify, clock, minDelay) == before + batches[j];
      AppendRegroup(acc0.failedItems, before, batches[j]);
    }
  }

  /** The reply of batch `k`, the first `k` batches done. */
  function BatchReply(batches: seq<seq<HistoryItem>>, k: nat, acc0: BatchTotals, remote: (nat, nat) -> Attempt,
                      classify: string -> ErrorClass, clock: nat -> real, minDelay: real): Option<Reply>
    requires k < |batches|
  {
    Retry(remote, classify, k, RunBatches(batches, k, acc0, remote, classify, clock, minDelay).rateLimits).reply
  }

  /** The not-found entries of the replies of those of the first `k` batches that succeeded, in batch order. */
  function RepliedNotFound(batches: seq<seq<HistoryItem>>, k: nat, acc0: BatchTotals, remote: (nat, nat) -> Attempt,
                           classify: string -> ErrorClass, clock: nat -> real, minDelay: real): seq<HistoryItem>
    requires k <= |batches|
  {
    if k == 0 then []
    else RepliedNotFound(batches, k - 1, acc0, remote, classify, clock, minDelay)
         + (if BatchSucceeded(batches, k - 1, acc0, remote, classify, clock, minDelay)
            then BatchReply(batches, k - 1, acc0, remote, classify, clock, minDelay).value.notFound
            else [])
  }

  /**
   * The report's not_found list grows by exactly the not-found entries of the successful
   * batches' replies, in batch order; a failed batch adds none.
   */
  lemma {:induction false} NotFoundGrowth(batches: seq<seq<HistoryItem>>, k: nat, acc0: BatchTotals,
                                          remote: (nat, nat) -> Attempt, classify: string -> ErrorClass,
                                          clock: nat -> real, minDelay: real)
    requires k <= |batches|
    ensures RunBatches(batches, k, acc0, remote, classify, clock, minDelay).notFound
            == acc0.notFound + RepliedNotFound(batches, k, acc0, remote, classify, clock, minDelay)
  {
    if k > 0 {
      var j := k - 1;
      NotFoundGrowth(batches, j, acc0, remote, classify, clock, minDelay);
      NotFoundStep(batches, j, acc0, remote, classify, clock, minDelay);
    }
  }

  /** The inductive step of NotFoundGrowth: batch `j` extends not_found by its reply's entries when it succeeds. */
  lemma NotFoundStep(batches: seq<seq<HistoryItem>>, j: nat, acc0: BatchTotals,
                     remote: (nat, nat) -> Attempt, classify: string -> ErrorClass,
                     clock: nat -> real, minDelay: real)
    requires j < |batches|
    requires RunBatches(batches, j, acc0, remote, classify, clock, minDelay).notFound
             == acc0.notFound + RepliedNotFound(batches, j, acc0, remote, classify, clock, minDelay)
    ensures RunBatches(batches, j + 1, acc0, remote, classify, clock, minDelay).notFound
            == acc0.notFound + RepliedNotFound(batches, j + 1, acc0, remote, classify, clock, minDelay)
  {
    var prev := RunBatches(batches, j, acc0, remote, classify, clock, minDelay);
    var acc := BatchStep(prev, batches[j], j, remote, classify, clock, minDelay);
    var before := RepliedNotFound(batches, j, acc0, remote, classify, clock, minDelay);
    assert RunBatches(batches, j + 1, acc0, remote, classify, clock, minDelay) == acc;
    if StepSucceeded(remote, classify, j, prev.rateLimits) {
      var added := BatchReply(batches, j, acc0, remote, classify, clock, minDelay).value.notFound;
      assert acc.notFound == acc0.notFound + before + added;
      assert RepliedNotFound(batches, j + 1, acc0, remote, classify, clock, minDelay) == before + added;
      AppendRegroup(acc0.notFound, before, added);
    } else {
      assert acc.notFound == acc0.notFound + before;
      assert RepliedNotFound(batches, j + 1, acc0, remote, classify, clock, minDelay) == before + [];
    }
  }

  /** When the remote is down for good, no batch succeeds, so no reply reports anything not found. */
  lemma {:induction false} RemoteDownRepliesNothing(batches: seq<seq<HistoryItem>>, k: nat, acc0: BatchTotals,
                                                    remote: (nat, nat) -> Attempt, classify: string -> ErrorClass,
                                                    clock: nat -> real, minDelay: real)
    requires k <= |batches|
    requires forall b, a :: remote(b, a).Raises?
    ensures RepliedNotFound(batches, k, acc0, remote, classify, clock, minDelay) == []
  {
    if k > 0 {
      var j := k - 1;
      RemoteDownRepliesNothing(batches, j, acc0, remote, classify, clock, minDelay);
      RetryAllRaise(remote, classify, j, 0, RunBatches(batches, j, acc0, remote, classify, clock, minDelay).rateLimits);
      assert !BatchSucceeded(batches, j, acc0, remote, classify, clock, minDelay);
    }
  }

  /**
   * Which items land where: the items of the failed batches and the items of the
   * successful batches are, together, exactly the items of the first `k` batches,
   * counting repeats.
   */
  lemma {:induction false} BatchItemsAccounted(batches: seq<seq<HistoryItem>>, k: nat, acc0: BatchTotals,
                                               remote: (nat, nat) -> Attempt, classify: string -> ErrorClass,
                                               clock: nat -> real, minDelay: real)
    requires k <= |batches|
    ensures SplitOf(FailedBatchItems(batches, k, acc0, remote, classify, clock, minDelay),
                    SucceededItems(batches, k, acc0, remote, classify, clock, minDelay), Joined(batches, k))
  {
    if k > 0 {
      var j := k - 1;
      BatchItemsAccounted(batches, j, acc0, remote, classify, clock, minDelay);
      BatchItemsStep(batches, j, acc0, remote, classify, clock, minDelay);
    } else {
      assert multiset(FailedBatchItems(batches, k, acc0, remote, classify, clock, minDelay)) == multiset{};
    }
  }

  /** The inductive step of BatchItemsAccounted: batch `j` goes to exactly one of the two parts. */
  lemma BatchItemsStep(batches: seq<seq<HistoryItem>>, j: nat, acc0: BatchTotals,
                       remote: (nat, nat) -> Attempt, classify: string -> ErrorClass,
                       clock: nat -> real, minDelay: real)
    requires j < |batches|
    requires SplitOf(FailedBatchItems(batches, j, acc0, remote, classify, clock, minDelay),
                     SucceededItems(batches, j, acc0, remote, classify, clock, minDelay), Joined(batches, j))
    ensures SplitOf(FailedBatchItems(batches, j + 1, acc0, remote, classify, clock, minDelay),
                    SucceededItems(batches, j + 1, acc0, remote, classify, clock, minDelay), Joined(batches, j + 1))
  {
    var b := batches[j];
    var failed := FailedBatchItems(batches, j, acc0, remote, classify, clock, minDelay);
    var done := SucceededItems(batches, j, acc0, remote, classify, clock, minDelay);
    UnionRegroup(failed, done, Joined(batches, j), b);
    if BatchSucceeded(batches, j, acc0, remote, classify, clock, minDelay) {
      assert FailedBatchItems(batches, j + 1, acc0, remote, classify, clock, minDelay) == failed + [];
      assert SucceededItems(batches, j + 1, acc0, remote, classify, clock, minDelay) == done + b;
    } else {
      assert FailedBatchItems(batches, j + 1, acc0, remote, classify, clock, minDelay) == failed + b;
      assert SucceededItems(batches, j + 1, acc0, remote, classify, clock, minDelay) == done + [];
    }
  }

  /** Concatenation regroups. */
  lemma AppendRegroup<T>(a: seq<T>, b: seq<T>, c: seq<T>)
    ensures a + b + c == a + (b + c)
  {
  }

  /** `f` and `d` together hold exactly the items of `j`, counting repeats. */
  predicate SplitOf<T(==)>(f: seq<T>, d: seq<T>, j: seq<T>) {
    multiset(f) + multiset(d) == multiset(j)
  }

  /** Appending `b` to either part of a split adds `b` to the whole. */
  lemma UnionRegroup<T>(f: seq<T>, d: seq<T>, j: seq<T>, b: seq<T>)
    requires SplitOf(f, d, j)
    ensures SplitOf(f + [], d + b, j + b) && SplitOf(f + b, d + [], j + b)
  {
    assert f + [] == f && d + [] == d;
  }

  /** BatchAccounting over a whole buffer: each of its items is either added in a successful batch or failed. */
  lemma SyncedInBatchesAccounting(items: seq<HistoryItem>, pageSize: nat, acc0: BatchTotals,
                                  remote: (nat, nat) -> Attempt, classify: string -> ErrorClass,
                                  clock: nat -> real, minDelay: real)
    requires pageSize > 0
    ensures var batches := Batches(items, pageSize);
      var acc := SyncedInBatches(items, pageSize, acc0, remote, classify, clock, minDelay);
      && acc.failed + |acc0.failedItems| == acc0.failed + |acc.failedItems|
      && |acc0.failedItems| <= |acc.failedItems| && acc.failedItems[..|acc0.failedItems|] == acc0.failedItems
      && |acc.failedItems| - |acc0.failedItems| + |SucceededItems(batches, |batches|, acc0, remote, classify, clock, minDelay)|
           == |items|
      && SplitOf(acc.failedItems[|acc0.failedItems|..], SucceededItems(batches, |batches|, acc0, remote, classify, clock, minDelay), items)
  {
    var batches := Batches(items, pageSize);
    BatchAccounting(batches, |batches|, acc0, remote, classify, clock, minDelay);
    BatchItemsAccounted(batches, |batches|, acc0, remote, classify, clock, minDelay);
    FailedListGrowth(batches, |batches|, acc0, remote, classify, clock, minDelay);
    BatchesPartition(items, pageSize);
    JoinedAll(batches);
    var acc := SyncedInBatches(items, pageSize, acc0, remote, classify, clock, minDelay);
    assert acc.failedItems[|acc0.failedItems|..] == FailedBatchItems(batches, |batches|, acc0, remote, classify, clock, minDelay);
  }

  /** When the remote is down for good, every item ends in the failed list, in order, and nothing is added. */
  lemma {:induction false} RemoteDownFailsEverything(batches: seq<seq<HistoryItem>>, k: nat, acc0: BatchTotals,
                                                     remote: (nat, nat) -> Attempt, classify: string -> ErrorClass,
                                                     clock: nat -> real, minDelay: real)
    requires k <= |batches|
    requires forall b, a :: remote(b, a).Raises?
    ensures var acc := RunBatches(batches, k, acc0, remote, classify, clock, minDelay);
      && acc.failedItems == acc0.failedItems + Joined(batches, k)
      && acc.failed == acc0.failed + |Joined(batches, k)|
      && acc.added == acc0.added
  {
    if k > 0 {
      RemoteDownFailsEverything(batches, k - 1, acc0, remote, classify, clock, minDelay);
      var prev := RunBatches(batches, k - 1, acc0, remote, classify, clock, minDelay);
      var b := batches[k - 1];
      var done := Joined(batches, k - 1);
      DownStep(prev, b, k - 1, remote, classify, clock, minDelay);
      assert acc0.failedItems + (done + b) == (acc0.failedItems + done) + b;
    }
  }

  lemma DownStep(prev: BatchTotals, b: seq<HistoryItem>, index: nat, remote: (nat, nat) -> Attempt,
                 classify: string -> ErrorClass, clock: nat -> real, minDelay: real)
    requires forall b, a :: remote(b, a).Raises?
    ensures var acc := BatchStep(prev, b, index, remote, classify, clock, minDelay);
      acc.failedItems == prev.failedItems + b && acc.failed == prev.failed + |b| && acc.added == prev.added
  {
    RetryAllRaise(remote, classify, index, 0, prev.rateLimits);
  }

  lemma {:induction false} RetryAllRaise(remote: (nat, nat) -> Attempt, classify: string -> ErrorClass, batch: nat, attempt: nat, counter: nat)
    requires attempt < MaxRetryAttempts
    requires forall b, a :: remote(b, a).Raises?
    ensures RetryFrom(remote, classify, batch, attempt, counter).reply.None?
    decreases MaxRetryAttempts - attempt
  {
    if attempt + 1 < MaxRetryAttempts {
      RetryAllRaise(remote, classify, batch, attempt + 1, CounterAfterError(classify, counter, remote(batch, attempt).message));
    }
  }

  // The report of `sync` (TraktIO.py:282-356).

  /** One content type's part of the report: `added`, `not_found`, `updated` and `failed`. */
  datatype ContentReport = ContentReport(added: nat, notFound: seq<HistoryItem>, updated: seq<HistoryItem>, failed: nat)

  datatype SyncReport = SyncReport(movies: ContentReport, episodes: ContentReport)

  /** The dry-run report: the buffer lengths as added, nothing failed or reported back. */
  function DryRunReport(movieCount: nat, episodeCount: nat): (r: SyncReport)
    ensures r.movies.added == movieCount && r.episodes.added == episodeCount
    ensures r.movies.failed == 0 && r.episodes.failed == 0
    ensures r.movies.notFound == [] && r.episodes.notFound == [] && r.movies.updated == [] && r.episodes.updated == []
  {
    SyncReport(ContentReport(movieCount, [], [], 0), ContentReport(episodeCount, [], [], 0))
  }

  /** The totals a batch loop starts from: nothing counted yet, the failed list and the two TraktIO fields as they are. */
  function StartTotals(failedItems: seq<HistoryItem>, rateLimits: nat, lastCall: real): BatchTotals {
    BatchTotals(0, [], [], 0, failedItems, rateLimits, lastCall)
  }

  function ReportOf(t: BatchTotals): ContentReport {
    ContentReport(t.added, t.notFound, t.updated, t.failed)
  }

  /** The two loops of a live `sync`, movies first; each runs only when its buffer is not empty. */
  function LiveSync(movies: seq<HistoryItem>, episodes: seq<HistoryItem>, pageSize: nat,
                    failedMovies: seq<HistoryItem>, failedEpisodes: seq<HistoryItem>, rateLimits: nat, lastCall: real,
                    movieRemote: (nat, nat) -> Attempt, episodeRemote: (nat, nat) -> Attempt,
                    classify: string -> ErrorClass, movieClock: nat -> real, episodeClock: nat -> real,
                    batchDelay: real): (BatchTotals, BatchTotals)
    requires pageSize > 0
  {
    var m0 := StartTotals(failedMovies, rateLimits, lastCall);
    var m := if movies != [] then SyncedInBatches(movies, pageSize, m0, movieRemote, classify, movieClock, batchDelay)
             else m0;
    var e0 := StartTotals(failedEpisodes, m.rateLimits, m.lastCall);
    var e := if episodes != [] then SyncedInBatches(episodes, pageSize, e0, episodeRemote, classify, episodeClock, batchDelay)
             else e0;
    (m, e)
  }

  /**
   * A live sync accounts for every queued item: per content type, the reported failures
   * are exactly the items appended to that failed list, and those plus the items of the
   * successful batches are the whole buffer.
   */
  lemma LiveSyncAccounting(movies: seq<HistoryItem>, episodes: seq<HistoryItem>, pageSize: nat,
                           failedMovies: seq<HistoryItem>, failedEpisodes: seq<HistoryItem>, rateLimits: nat,
                           lastCall: real, movieRemote: (nat, nat) -> Attempt, episodeRemote: (nat, nat) -> Attempt,
                           classify: string -> ErrorClass, movieClock: nat -> real, episodeClock: nat -> real,
                           batchDelay: real)
    requires pageSize > 0
    ensures var (m, e) := LiveSync(movies, episodes, pageSize, failedMovies, failedEpisodes, rateLimits, lastCall,
                                   movieRemote, episodeRemote, classify, movieClock, episodeClock, batchDelay);
      && m.failed == |m.failedItems| - |failedMovies| && m.failedItems[..|failedMovies|] == failedMovies
      && e.failed == |e.failedItems| - |failedEpisodes| && e.failedItems[..|failedEpisodes|] == failedEpisodes
      && m.failed <= |movies| && e.failed <= |episodes|
  {
    var m0 := StartTotals(failedMovies, rateLimits, lastCall);
    SyncedInBatchesAccounting(movies, pageSize, m0, movieRemote, classify, movieClock, batchDelay);
    var (m, _) := LiveSync(movies, episodes, pageSize, failedMovies, failedEpisodes, rateLimits, lastCall,
                           movieRemote, episodeRemote, classify, movieClock, episodeClock, batchDelay);
    var e0 := StartTotals(failedEpisodes, m.rateLimits, m.lastCall);
    SyncedInBatchesAccounting(episodes, pageSize, e0, episodeRemote, classify, episodeClock, batchDelay);
  }
}
