/** The loop around every remote call: retry while the server is late or away, with growing timeouts and delays. */
module Retry {
  import opened Types
  import opened Backoff

  datatype Status = OK | DeadlineExceeded | Unavailable | Other(code: int)

  /** count == 0 puts no limit on the tries. */
  datatype Policies = Policies(count: nat, interval: Time, backoff: Policy)

  /** How one attempt goes: its status, how long the call takes, the spread drawn for the delay after it, and by how
      much the thread oversleeps that delay. */
  datatype Reply = Reply(status: Status, took: nat, sample: real, overslept: nat)

  datatype Attempt = Attempt(start: Time, timeout: nat, end: Time, delay: nat)

  /** Exhausted stands for the exception; Trying says that the call is still going after the replies given. */
  datatype Result = Returned(status: Status, start: Time) | Exhausted(status: Status) | Trying

  predicate Retryable(status: Status) {
    status == DeadlineExceeded || status == Unavailable
  }

  predicate RetriesExhausted(start: Time, now: Time, retryCount: nat, p: Policies) {
    (p.count > 0 && retryCount > p.count) || now - start > p.interval
  }

  predicate Valid(p: Policies, replies: seq<Reply>) {
    p.backoff.scale >= 0.0 && forall i :: 0 <= i < |replies| ==> replies[i].sample >= 0.0
  }

  function Samples(replies: seq<Reply>): seq<real> {
    seq(|replies|, i requires 0 <= i < |replies| => replies[i].sample)
  }

  /** When the attempt of this index starts, or the loop ends: after everything before it. */
  function StartOf(start: Time, replies: seq<Reply>, tries: seq<Attempt>, i: nat): Time
    requires i <= |tries| <= |replies|
  {
    if i == 0 then start else tries[i - 1].end + tries[i - 1].delay + replies[i - 1].overslept
  }

  function TimeoutOf(rpcTimeout: nat, replies: seq<Reply>, tries: seq<Attempt>, i: nat): nat
    requires i <= |tries| <= |replies|
  {
    if i == 0 then rpcTimeout
    else if replies[i - 1].status == DeadlineExceeded then 2 * tries[i - 1].timeout
    else tries[i - 1].timeout
  }

  /** The i-th attempt is what the policies and the replies before it make it. */
  ghost predicate IsAttempt(p: Policies, rpcTimeout: nat, start: Time, replies: seq<Reply>, tries: seq<Attempt>, i: nat)
    requires i < |tries| <= |replies| && Valid(p, replies)
  {
    && tries[i].start == StartOf(start, replies, tries, i)
    && tries[i].timeout == TimeoutOf(rpcTimeout, replies, tries, i)
    && tries[i].end == tries[i].start + replies[i].took
    && tries[i].delay
       == (if Retryable(replies[i].status) then DelayAt(p.backoff, DEFAULT_JITTER, Samples(replies), i) else 0)
    && !RetriesExhausted(start, tries[i].start, i, p)
  }

  ghost predicate IsRun(p: Policies, rpcTimeout: nat, start: Time, replies: seq<Reply>, tries: seq<Attempt>)
    requires Valid(p, replies)
  {
    && |tries| <= |replies|
    && (forall i :: 0 <= i < |tries| ==> IsAttempt(p, rpcTimeout, start, replies, tries, i))
    && (forall i :: 0 <= i < |tries| - 1 ==> Retryable(replies[i].status))
  }

  /** The result belongs to the run: the first status that is not retried, with the start of its own attempt; or the
      last status of a loop that is exhausted; or neither yet. */
  ghost predicate Concludes(p: Policies, start: Time, replies: seq<Reply>, tries: seq<Attempt>, result: Result)
    requires |tries| <= |replies|
  {
    var n := |tries|;
    match result
    case Returned(status, t) => n > 0 && !Retryable(status) && status == replies[n - 1].status
                               && t == tries[n - 1].start
    case Exhausted(status) =>
      && (n > 0 ==> Retryable(status) && status == replies[n - 1].status)
      && (n == 0 ==> status == OK)
      && RetriesExhausted(start, StartOf(start, replies, tries, n), n, p)
    case Trying =>
      && n == |replies|
      && (n > 0 ==> Retryable(replies[n - 1].status))
      && !RetriesExhausted(start, StartOf(start, replies, tries, n), n, p)
  }

  lemma Extends(p: Policies, rpcTimeout: nat, start: Time, replies: seq<Reply>, tries: seq<Attempt>, a: Attempt)
    requires Valid(p, replies) && |tries| < |replies|
    requires forall i :: 0 <= i < |tries| ==> IsAttempt(p, rpcTimeout, start, replies, tries, i)
    ensures forall i :: 0 <= i < |tries| ==> IsAttempt(p, rpcTimeout, start, replies, tries + [a], i)
    ensures StartOf(start, replies, tries + [a], |tries|) == StartOf(start, replies, tries, |tries|)
    ensures TimeoutOf(rpcTimeout, replies, tries + [a], |tries|) == TimeoutOf(rpcTimeout, replies, tries, |tries|)
  {
    forall i | 0 <= i < |tries|
      ensures IsAttempt(p, rpcTimeout, start, replies, tries + [a], i)
    {
      assert IsAttempt(p, rpcTimeout, start, replies, tries, i);
    }
  }

  method MakeCall(p: Policies, rpcTimeout: nat, start: Time, replies: seq<Reply>)
    returns (result: Result, tries: seq<Attempt>)
    requires Valid(p, replies)
    ensures IsRun(p, rpcTimeout, start, replies, tries)
    ensures Concludes(p, start, replies, tries, result)
  {
    var backoff := new ExpoBackoff(p.backoff);
    var now, timeout, status := start, rpcTimeout, OK;
    tries := [];
    while !RetriesExhausted(start, now, backoff.attempt, p)
      invariant backoff.policy == p.backoff && backoff.jitter == DEFAULT_JITTER
      invariant backoff.attempt == |tries| <= |replies|
      invariant backoff.currentInterval == DelayAt(p.backoff, DEFAULT_JITTER, Samples(replies), |tries|)
      invariant now == StartOf(start, replies, tries, |tries|)
      invariant timeout == TimeoutOf(rpcTimeout, replies, tries, |tries|)
      invariant forall i :: 0 <= i < |tries| ==> IsAttempt(p, rpcTimeout, start, replies, tries, i)
      invariant forall i :: 0 <= i < |tries| ==> Retryable(replies[i].status)
      invariant if tries == [] then status == OK else status == replies[|tries| - 1].status
      decreases |replies| - |tries|
    {
      if |tries| == |replies| {
        return Trying, tries;
      }
      var reply := replies[|tries|];
      var next := now;
      status := reply.status;
      now := now + reply.took;
      if !Retryable(status) {
        Extends(p, rpcTimeout, start, replies, tries, Attempt(next, timeout, now, 0));
        tries := tries + [Attempt(next, timeout, now, 0)];
        return Returned(status, next), tries;
      }
      var delay := backoff.Delay(reply.sample);
      Extends(p, rpcTimeout, start, replies, tries, Attempt(next, timeout, now, delay));
      tries := tries + [Attempt(next, timeout, now, delay)];
      if status == DeadlineExceeded {
        timeout := 2 * timeout;
      }
      now := now + delay + reply.overslept;
    }
    result := Exhausted(status);
  }

  // ----- What each attempt gets ----------------------------------------------------------------

  /** The attempts follow one another: each starts when the delay after the one before it is over, none is made beyond a
      limit, and only a server that is late or away gets another one. The delay after the first is the initial one; each
      later one is decided by the sample drawn at the end of the attempt before, up to the largest delay. */
  lemma AttemptsFollow(p: Policies, rpcTimeout: nat, start: Time, replies: seq<Reply>, tries: seq<Attempt>, k: nat)
    requires Valid(p, replies) && IsRun(p, rpcTimeout, start, replies, tries) && k < |tries|
    ensures k == 0 ==> tries[k].start == start
    ensures k > 0 ==> tries[k].start == tries[k - 1].end + tries[k - 1].delay + replies[k - 1].overslept
    ensures tries[k].end == tries[k].start + replies[k].took
    ensures tries[k].start - start <= p.interval && (p.count > 0 ==> k <= p.count)
    ensures k < |tries| - 1 ==> replies[k].status == DeadlineExceeded || replies[k].status == Unavailable
    ensures if replies[k].status != DeadlineExceeded && replies[k].status != Unavailable then tries[k].delay == 0
            else if k == 0 then tries[k].delay == p.backoff.initialDelay
            else IsLargest(tries[k].delay, replies[k - 1].sample, p.backoff.maxDelay)
  {
    assert IsAttempt(p, rpcTimeout, start, replies, tries, k);
    DelaysFollowSamples(p.backoff, DEFAULT_JITTER, Samples(replies), k);
    hide IsLargest, DelayAt;
  }

  /** What a call comes to, by its last attempt and its limits: it returns whatever the server says if it is not late
      or away, and gives up when a limit is exceeded. */
  lemma WhenACallEnds(p: Policies, rpcTimeout: nat, start: Time, replies: seq<Reply>, tries: seq<Attempt>,
                      result: Result)
    requires Valid(p, replies) && IsRun(p, rpcTimeout, start, replies, tries)
    requires Concludes(p, start, replies, tries, result)
    ensures var n := |tries|;
            var late := n > 0 && (replies[n - 1].status == DeadlineExceeded || replies[n - 1].status == Unavailable);
            var elapsed := if n == 0 then 0
                           else tries[n - 1].end + tries[n - 1].delay + replies[n - 1].overslept - start;
            var over := elapsed > p.interval || (p.count > 0 && n > p.count);
            && (result.Returned? <==> n > 0 && !late)
            && (result.Exhausted? <==> (n == 0 || late) && over)
            && (result.Trying? <==> (n == 0 || late) && !over)
            && (result.Trying? ==> n == |replies|)
            && (result.Returned? ==> result == Returned(replies[n - 1].status, tries[n - 1].start))
            && (result.Exhausted? ==> result.status == if n == 0 then OK else replies[n - 1].status)
  {
  }

  /** The timeout doubles for every attempt before it that exceeded its deadline, and for nothing else. */
  lemma {:induction false} TimeoutsCountDeadlines(p: Policies, rpcTimeout: nat, start: Time, replies: seq<Reply>,
                                                  tries: seq<Attempt>, k: nat)
    requires Valid(p, replies) && IsRun(p, rpcTimeout, start, replies, tries) && k < |tries|
    ensures tries[k].timeout == rpcTimeout * Pow2(|set i: nat | i < k && replies[i].status == DeadlineExceeded|)
  {
    assert IsAttempt(p, rpcTimeout, start, replies, tries, k);
    var late := set i: nat | i < k && replies[i].status == DeadlineExceeded;
    if k == 0 {
      assert late == {};
    } else {
      TimeoutsCountDeadlines(p, rpcTimeout, start, replies, tries, k - 1);
      var before := set i: nat | i < k - 1 && replies[i].status == DeadlineExceeded;
      if replies[k - 1].status == DeadlineExceeded {
        assert late == before + {k - 1};
        assert rpcTimeout * Pow2(|before| + 1) == 2 * (rpcTimeout * Pow2(|before|));
      } else {
        assert late == before;
      }
    }
  }

  // ----- What a call costs ---------------------------------------------------------------------

  function Pow2(k: nat): nat {
    if k == 0 then 1 else 2 * Pow2(k - 1)
  }

  /** The k-th attempt has at most 2^k times the first timeout. */
  lemma {:induction false} TimeoutsAtMostDouble(p: Policies, rpcTimeout: nat, start: Time, replies: seq<Reply>,
                                                tries: seq<Attempt>, k: nat)
    requires Valid(p, replies) && IsRun(p, rpcTimeout, start, replies, tries) && k < |tries|
    ensures rpcTimeout <= tries[k].timeout <= rpcTimeout * Pow2(k)
  {
    assert IsAttempt(p, rpcTimeout, start, replies, tries, k);
    if k > 0 {
      TimeoutsAtMostDouble(p, rpcTimeout, start, replies, tries, k - 1);
      assert rpcTimeout * Pow2(k) == 2 * (rpcTimeout * Pow2(k - 1));
    }
  }

  ghost predicate InTime(tries: seq<Attempt>) {
    forall i :: 0 <= i < |tries| ==> tries[i].end - tries[i].start <= tries[i].timeout
  }

  ghost predicate NeverOversleeps(replies: seq<Reply>) {
    forall i :: 0 <= i < |replies| ==> replies[i].overslept == 0
  }

  lemma CostOfOneMore(t: nat, max: nat, k: nat)
    ensures t * (Pow2(k + 1) - 1) == t * (Pow2(k) - 1) + t * Pow2(k)
    ensures k > 0 ==> k * max == (k - 1) * max + max
  {
  }

  lemma {:induction false} CostSoFar(p: Policies, rpcTimeout: nat, start: Time, replies: seq<Reply>,
                                     tries: seq<Attempt>, k: nat)
    requires Valid(p, replies) && IsRun(p, rpcTimeout, start, replies, tries) && k < |tries|
    requires InTime(tries) && NeverOversleeps(replies)
    ensures StartOf(start, replies, tries, k + 1) - start
            <= rpcTimeout * (Pow2(k + 1) - 1) + p.backoff.initialDelay + k * p.backoff.maxDelay
  {
    assert IsAttempt(p, rpcTimeout, start, replies, tries, k);
    TimeoutsAtMostDouble(p, rpcTimeout, start, replies, tries, k);
    DelaysAreCapped(p.backoff, DEFAULT_JITTER, Samples(replies), k);
    if k > 0 {
      CostSoFar(p, rpcTimeout, start, replies, tries, k - 1);
    }
    CostOfOneMore(rpcTimeout, p.backoff.maxDelay, k);
  }

  /** With a count limit the number of attempts, and with it the time, is bounded whatever the server does; and a call
      that gives up before its time is over has used all of them. */
  lemma CountLimitBoundsCost(p: Policies, rpcTimeout: nat, start: Time, replies: seq<Reply>, tries: seq<Attempt>,
                             result: Result)
    requires Valid(p, replies) && IsRun(p, rpcTimeout, start, replies, tries) && p.count > 0
    requires Concludes(p, start, replies, tries, result)
    ensures |tries| <= p.count + 1
    ensures result.Exhausted? && StartOf(start, replies, tries, |tries|) - start <= p.interval ==>
              |tries| == p.count + 1
    ensures tries != [] && InTime(tries) && NeverOversleeps(replies) ==>
              StartOf(start, replies, tries, |tries|) - start
              <= rpcTimeout * (Pow2(p.count + 1) - 1) + p.backoff.initialDelay + p.count * p.backoff.maxDelay
  {
    if tries != [] {
      var k := |tries| - 1;
      assert IsAttempt(p, rpcTimeout, start, replies, tries, k);
      if InTime(tries) && NeverOversleeps(replies) {
        CostSoFar(p, rpcTimeout, start, replies, tries, k);
        CostMonotone(rpcTimeout, p.backoff.maxDelay, k, p.count);
      }
    }
  }

  lemma {:induction false} CostMonotone(t: nat, max: nat, k: nat, n: nat)
    requires k <= n
    ensures t * (Pow2(k + 1) - 1) <= t * (Pow2(n + 1) - 1) && k * max <= n * max
    decreases n
  {
    if k < n {
      CostMonotone(t, max, k, n - 1);
      assert t * (Pow2(n + 1) - 1) == 2 * (t * Pow2(n)) - t;
      assert t * (Pow2(n) - 1) == t * Pow2(n) - t;
      assert n * max == (n - 1) * max + max;
    }
  }

  /** With only a time limit, delays of at least d bound the attempts by the interval over d, plus one. */
  lemma TimeLimitBoundsAttempts(p: Policies, rpcTimeout: nat, start: Time, replies: seq<Reply>, tries: seq<Attempt>,
                                d: nat)
    requires Valid(p, replies) && IsRun(p, rpcTimeout, start, replies, tries)
    requires d > 0 && p.interval >= 0 && forall i :: 0 <= i < |tries| - 1 ==> tries[i].delay >= d
    ensures |tries| <= p.interval / d + 1
  {
    if tries != [] {
      var k := |tries| - 1;
      StartsAreApart(p, rpcTimeout, start, replies, tries, d, k);
      assert IsAttempt(p, rpcTimeout, start, replies, tries, k);
      AtMostQuotient(k, d, p.interval);
    }
  }

  lemma AtMostQuotient(k: nat, d: nat, x: nat)
    requires d > 0 && k * d <= x
    ensures k <= x / d
  {
    var q := x / d;
    assert x < (q + 1) * d;
    assert k >= q + 1 ==> k * d >= (q + 1) * d;
  }

  lemma {:induction false} StartsAreApart(p: Policies, rpcTimeout: nat, start: Time, replies: seq<Reply>,
                                          tries: seq<Attempt>, d: nat, k: nat)
    requires Valid(p, replies) && IsRun(p, rpcTimeout, start, replies, tries) && k < |tries|
    requires forall i :: 0 <= i < |tries| - 1 ==> tries[i].delay >= d
    ensures tries[k].start - start >= k * d
  {
    assert IsAttempt(p, rpcTimeout, start, replies, tries, k);
    if k > 0 {
      StartsAreApart(p, rpcTimeout, start, replies, tries, d, k - 1);
      assert IsAttempt(p, rpcTimeout, start, replies, tries, k - 1);
      assert k * d == (k - 1) * d + d;
    }
  }

  /** The time a successful call reports is the start of the attempt that succeeded, not of the call: every attempt
      before it, and the delay after each, have already passed. */
  lemma ReportedStartIsLast(p: Policies, rpcTimeout: nat, start: Time, replies: seq<Reply>, tries: seq<Attempt>,
                            result: Result)
    requires Valid(p, replies) && IsRun(p, rpcTimeout, start, replies, tries)
    requires Concludes(p, start, replies, tries, result) && result.Returned?
    ensures forall i :: 0 <= i < |tries| - 1 ==> tries[i].end + tries[i].delay <= result.start
    ensures result.start - start <= p.interval && start <= result.start
  {
    EndsBefore(p, rpcTimeout, start, replies, tries, |tries| - 1);
    assert IsAttempt(p, rpcTimeout, start, replies, tries, |tries| - 1);
  }

  lemma {:induction false} EndsBefore(p: Policies, rpcTimeout: nat, start: Time, replies: seq<Reply>,
                                      tries: seq<Attempt>, k: nat)
    requires Valid(p, replies) && IsRun(p, rpcTimeout, start, replies, tries) && k < |tries|
    ensures start <= tries[k].start && forall i :: 0 <= i < k ==> tries[i].end + tries[i].delay <= tries[k].start
  {
    assert IsAttempt(p, rpcTimeout, start, replies, tries, k);
    if k > 0 {
      EndsBefore(p, rpcTimeout, start, replies, tries, k - 1);
      assert IsAttempt(p, rpcTimeout, start, replies, tries, k - 1);
    }
  }
}
