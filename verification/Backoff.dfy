/** Delays between retries: a capped geometric sequence with a random spread. */
module Backoff {
  import opened Types

  datatype Policy = Policy(initialDelay: nat, maxDelay: nat, scale: real)

  /** Every backoff is made with this spread, so the branch without spread is never taken as things are. */
  const DEFAULT_JITTER: real := 0.11049435140430175

  function Cap(x: nat, max: nat): nat {
    if x > max then max else x
  }

  /** Scaled and truncated to whole milliseconds. */
  function Scaled(current: nat, scale: real): (x: nat)
    requires scale >= 0.0
    ensures scale >= 1.0 ==> x >= current
  {
    ProductPositive(scale, current as real);
    assert scale >= 1.0 ==> Product(scale, current as real) >= current as real by {
      if scale >= 1.0 {
        ProductOrdered(1.0, scale, current as real);
      }
    }
    Product(scale, current as real).Floor
  }

  /** The interval after the current one; sample is what the normal distribution around the scaled interval gave. */
  function NextInterval(policy: Policy, jitter: real, current: nat, sample: real): nat
    requires policy.scale >= 0.0 && sample >= 0.0
  {
    Cap(if jitter < 0.0001 then Scaled(current, policy.scale) else sample.Floor, policy.maxDelay)
  }

  /** d is the largest whole number that exceeds neither x nor max. */
  predicate IsLargest(d: nat, x: real, max: nat) {
    d <= max && d as real <= x && (d == max || x < d as real + 1.0)
  }

  /** With the spread that every backoff is made with, the sample decides the interval, up to the largest one. */
  lemma SpreadDecides(policy: Policy, jitter: real, current: nat, sample: real)
    requires policy.scale >= 0.0 && sample >= 0.0 && jitter >= 0.0001
    ensures IsLargest(NextInterval(policy, jitter, current, sample), sample, policy.maxDelay)
  {
  }

  /** Without spread it is the scaled interval that does. */
  lemma ScaleDecides(policy: Policy, jitter: real, current: nat, sample: real)
    requires policy.scale >= 0.0 && sample >= 0.0 && jitter < 0.0001
    ensures IsLargest(NextInterval(policy, jitter, current, sample), policy.scale * current as real, policy.maxDelay)
  {
    ProductPositive(policy.scale, current as real);
  }

  /** The k-th delay; the samples drawn before it decide the spread. */
  function DelayAt(policy: Policy, jitter: real, samples: seq<real>, k: nat): nat
    requires policy.scale >= 0.0 && k <= |samples| && forall i :: 0 <= i < k ==> samples[i] >= 0.0
  {
    if k == 0 then policy.initialDelay
    else NextInterval(policy, jitter, DelayAt(policy, jitter, samples, k - 1), samples[k - 1])
  }

  class ExpoBackoff {
    const policy: Policy
    const jitter: real
    var currentInterval: nat
    var attempt: nat

    constructor (policy: Policy)
      ensures this.policy == policy && jitter == DEFAULT_JITTER
      ensures currentInterval == policy.initialDelay && attempt == 0
    {
      this.policy := policy;
      jitter := DEFAULT_JITTER;
      currentInterval, attempt := policy.initialDelay, 0;
    }

    method CalculateNext(sample: real)
      requires policy.scale >= 0.0 && sample >= 0.0
      modifies this`currentInterval
      ensures currentInterval == NextInterval(policy, jitter, old(currentInterval), sample)
      ensures jitter >= 0.0001 ==> IsLargest(currentInterval, sample, policy.maxDelay)
      ensures jitter < 0.0001 ==>
                IsLargest(currentInterval, policy.scale * old(currentInterval) as real, policy.maxDelay)
    {
      if jitter < 0.0001 {
        ScaleDecides(policy, jitter, currentInterval, sample);
      } else {
        SpreadDecides(policy, jitter, currentInterval, sample);
      }
      hide Product;
      ProductPositive(policy.scale, currentInterval as real);
      var nextTime := Product(policy.scale, currentInterval as real);
      if nextTime.Floor > policy.maxDelay {
        nextTime := policy.maxDelay as real;
      }
      if jitter < 0.0001 {
        currentInterval := nextTime.Floor;
      } else {
        currentInterval := sample.Floor;
      }
      if currentInterval > policy.maxDelay {
        currentInterval := policy.maxDelay;
      }
    }

    /** Gives the current interval and moves on to the next. */
    method Delay(sample: real) returns (delay: nat)
      requires policy.scale >= 0.0 && sample >= 0.0
      modifies this`currentInterval, this`attempt
      ensures delay == old(currentInterval) && attempt == old(attempt) + 1
      ensures currentInterval == NextInterval(policy, jitter, old(currentInterval), sample)
      ensures jitter >= 0.0001 ==> IsLargest(currentInterval, sample, policy.maxDelay)
    {
      attempt := attempt + 1;
      delay := currentInterval;
      CalculateNext(sample);
    }
  }

  /** So each delay after the first is, with spread, the largest whole number that exceeds neither the sample drawn when
      the one before it was given nor the largest delay. */
  lemma DelaysFollowSamples(policy: Policy, jitter: real, samples: seq<real>, k: nat)
    requires policy.scale >= 0.0 && jitter >= 0.0001
    requires k <= |samples| && forall i :: 0 <= i < k ==> samples[i] >= 0.0
    ensures DelayAt(policy, jitter, samples, 0) == policy.initialDelay
    ensures k > 0 ==> IsLargest(DelayAt(policy, jitter, samples, k), samples[k - 1], policy.maxDelay)
  {
    if k > 0 {
      SpreadDecides(policy, jitter, DelayAt(policy, jitter, samples, k - 1), samples[k - 1]);
    }
  }

  /** The reference: scale and truncate, k times, without any cap. */
  function Uncapped(policy: Policy, k: nat): nat
    requires policy.scale >= 0.0
  {
    if k == 0 then policy.initialDelay else Scaled(Uncapped(policy, k - 1), policy.scale)
  }

  lemma ScalingGrows(x: nat, y: nat, scale: real)
    requires scale >= 1.0 && x <= y
    ensures x <= Scaled(x, scale) <= Scaled(y, scale)
  {
    hide Product;
    ProductOrdered(x as real, y as real, scale);
  }

  lemma StepIsCapped(policy: Policy, jitter: real, uncapped: nat, sample: real)
    requires policy.scale >= 1.0 && jitter < 0.0001 && sample >= 0.0
    ensures var d := Cap(uncapped, policy.maxDelay);
            d <= NextInterval(policy, jitter, d, sample) == Cap(Scaled(uncapped, policy.scale), policy.maxDelay)
  {
    ScalingGrows(Cap(uncapped, policy.maxDelay), uncapped, policy.scale);
  }

  /** Without spread, as the source provides for but never asks for, capping each step is the same as capping the
      reference once. */
  lemma {:induction false} DelaysAreCappedGeometric(policy: Policy, jitter: real, samples: seq<real>, k: nat)
    requires policy.scale >= 1.0 && policy.initialDelay <= policy.maxDelay && jitter < 0.0001
    requires k <= |samples| && forall i :: 0 <= i < |samples| ==> samples[i] >= 0.0
    ensures DelayAt(policy, jitter, samples, k) == Cap(Uncapped(policy, k), policy.maxDelay)
  {
    if k > 0 {
      var u, d := Uncapped(policy, k - 1), DelayAt(policy, jitter, samples, k - 1);
      assert d == Cap(u, policy.maxDelay) by {
        DelaysAreCappedGeometric(policy, jitter, samples, k - 1);
      }
      assert NextInterval(policy, jitter, d, samples[k - 1]) == Cap(Scaled(u, policy.scale), policy.maxDelay) by {
        StepIsCapped(policy, jitter, u, samples[k - 1]);
      }
    }
  }

  /** So the delays never shrink, and stay at the largest delay from the moment they reach it. */
  lemma DelaysNeverShrink(policy: Policy, jitter: real, samples: seq<real>, k: nat)
    requires policy.scale >= 1.0 && policy.initialDelay <= policy.maxDelay && jitter < 0.0001
    requires k < |samples| && forall i :: 0 <= i < |samples| ==> samples[i] >= 0.0
    ensures DelayAt(policy, jitter, samples, k) <= DelayAt(policy, jitter, samples, k + 1) <= policy.maxDelay
  {
    DelaysAreCappedGeometric(policy, jitter, samples, k);
    StepIsCapped(policy, jitter, Uncapped(policy, k), samples[k]);
  }

  /** With any spread, only the first delay can exceed the largest delay, and it does when configured so. */
  lemma DelaysAreCapped(policy: Policy, jitter: real, samples: seq<real>, k: nat)
    requires policy.scale >= 0.0 && k <= |samples| && forall i :: 0 <= i < |samples| ==> samples[i] >= 0.0
    ensures DelayAt(policy, jitter, samples, k) > policy.maxDelay <==> k == 0 && policy.initialDelay > policy.maxDelay
  {
  }
}
