/** How long a completed id waits to be sent. */
module Latency {
  import opened Types
  import opened Batching
  import opened Protocol
  import opened Conservation
  import opened Leases
  import opened Timing
  import opened SeveralTiming
  import Histogram

  /** No shorter limit than half of the longest deadline and an overrun is put on idle waits. */
  predicate Paced(p: Pace) {
    && 0 <= p.e && MIN_ACK_DEADLINE <= p.longest
    && p.idle.Some? && p.idle.value <= p.longest / 2 + p.e
  }

  predicate InHand(s: State, id: AckId) {
    id in s.acks || id in s.nacks
  }

  predicate Pending(s: State, id: AckId) {
    id in s.q.acks || id in s.q.nacks
  }

  /** What an id that is completed by the given time, and not sent yet, says about where the ack thread is: that the
      pass which sends it, or the wait before that pass, has begun soon enough. */
  ghost predicate Waits(s: State, id: AckId, time: Time, p: Pace) {
    && (InHand(s, id) ==> s.mark <= time + p.longest / 2 + 2 * p.e)
    && (Pending(s, id) ==>
          if s.phase == Merged then s.mark <= time + p.longest / 2 + 2 * p.e
          else if InPass(s) then s.mark <= time
          else if s.needSleep then s.mark + s.sleep <= time + p.longest / 2 + p.e
          else if Resting(s) then s.rested <= time + p.e
          else s.mark <= time + p.e)
  }

  /** Nothing is dropped, and what the waiting depends on. */
  ghost predicate Steady(s: State, p: Pace) {
    && Conserved(s) && Chosen(s) && WithinLongest(s, p.longest) && Marked(s) && OnTime(s, p)
    && s.rested <= s.now && s.h.dropped == {}
  }

  lemma SteadyStep(s: State, step: Step, p: Pace)
    requires Paced(p) && Steady(s, p) && TimelyStep(s, step, p)
    ensures Steady(Apply(s, step), p)
  {
    ConservedStep(s, step);
    ChosenStep(s, step);
    WithinStep(s, step, p.longest);
    MarkedStep(s, step);
    NothingDropped(s, step);
    hide Conserved, Chosen, WithinLongest, Marked, OnTime, Apply, Enabled;
  }

  lemma NothingDropped(s: State, step: Step)
    requires Enabled(s, step) && Succeeds(step) && s.h.dropped == {} && s.rested <= s.now
    ensures Apply(s, step).h.dropped == {} && Apply(s, step).rested <= Apply(s, step).now
  {
  }

  lemma WaitsWhileSending(s: State, step: Step, id: AckId, time: Time, p: Pace)
    requires Steady(s, p) && Waits(s, id, time, p) && TimelyStep(s, step, p) && id in s.h.first
    requires step.Drain? || step.SendAckBatch? || step.SendNackBatch? || step.EraseNacks?
    ensures Waits(Apply(s, step), id, time, p)
  {
    hide AllPlaced, InOneCall, Chosen, WithinLongest;
    match step {
      case Drain(acks, nacks) =>
        assert forall x :: x in acks ==> x in Elements(acks);
        assert forall x :: x in nacks ==> x in Elements(nacks);
      case SendAckBatch(_) => Halves(s.acks, Cut(s.acks, MAX_PAYLOAD));
      case SendNackBatch(_, _) => Halves(s.nacks, Cut(s.nacks, MAX_PAYLOAD));
      case _ =>
    }
  }

  lemma WaitsWhileExtending(s: State, step: Step, id: AckId, time: Time, p: Pace)
    requires Paced(p) && Steady(s, p) && Waits(s, id, time, p) && TimelyStep(s, step, p) && Extends(step)
    requires WithinLongest(Apply(s, step), p.longest)
    ensures Waits(Apply(s, step), id, time, p)
  {
    hide AllPlaced, InOneCall, Chosen, Histogram.IsDeadline;
  }

  lemma WaitsOnWaiting(s: State, step: Step, id: AckId, time: Time, p: Pace)
    requires Paced(p) && Steady(s, p) && Waits(s, id, time, p) && TimelyStep(s, step, p)
    requires step.Wait? || step.TimeOut? || step.Merge? || step.Tick?
    ensures Waits(Apply(s, step), id, time, p)
  {
    hide AllPlaced, InOneCall, Chosen, WithinLongest;
  }

  lemma WaitsByUser(s: State, step: Step, id: AckId, time: Time, p: Pace)
    requires Steady(s, p) && Waits(s, id, time, p) && TimelyStep(s, step, p) && id in s.h.first
    requires step.Add? || step.Complete?
    ensures Waits(Apply(s, step), id, time, p)
  {
    hide AllPlaced, InOneCall, Chosen, WithinLongest;
  }

  lemma WaitsStep(s: State, step: Step, id: AckId, time: Time, p: Pace)
    requires Paced(p) && Steady(s, p) && Waits(s, id, time, p) && TimelyStep(s, step, p) && id in s.h.first
    ensures Waits(Apply(s, step), id, time, p)
  {
    SteadyStep(s, step, p);
    if Extends(step) {
      WaitsWhileExtending(s, step, id, time, p);
    } else if step.Add? || step.Complete? {
      WaitsByUser(s, step, id, time, p);
    } else if step.Wait? || step.TimeOut? || step.Merge? || step.Tick? {
      WaitsOnWaiting(s, step, id, time, p);
    } else {
      assert !step.Skip?;
      WaitsWhileSending(s, step, id, time, p);
    }
    hide Steady, Waits, Apply, Enabled, OnTime;
  }

  lemma {:induction false} RunWaits(s: State, steps: seq<Step>, t: State, id: AckId, time: Time, p: Pace)
    requires Paced(p) && Steady(s, p) && Waits(s, id, time, p) && id in s.h.first && TimelyRun(s, steps, t, p)
    ensures Steady(t, p) && Waits(t, id, time, p) && id in t.h.first && t.h.first[id] == s.h.first[id]
    decreases |steps|
  {
    hide Steady, Waits, Apply, Enabled, OnTime, MergedInTime, Paced;
    if steps != [] {
      SteadyStep(s, steps[0], p);
      WaitsStep(s, steps[0], id, time, p);
      FirstStays(s, steps[0], id, p);
      RunWaits(Apply(s, steps[0]), steps[1..], t, id, time, p);
    }
  }

  lemma FirstStays(s: State, step: Step, id: AckId, p: Pace)
    requires Steady(s, p) && Enabled(s, step) && id in s.h.first
    ensures id in Apply(s, step).h.first && Apply(s, step).h.first[id] == s.h.first[id]
  {
    GrowsStep(s, step);
    hide Apply, Enabled, Conserved, Chosen, WithinLongest, Marked, OnTime;
  }

  lemma {:induction false} RunSteady(s: State, steps: seq<Step>, t: State, p: Pace)
    requires Paced(p) && Steady(s, p) && TimelyRun(s, steps, t, p)
    ensures Steady(t, p)
    decreases |steps|
  {
    hide Steady, Apply, Enabled, OnTime, MergedInTime, Paced;
    if steps != [] {
      SteadyStep(s, steps[0], p);
      RunSteady(Apply(s, steps[0]), steps[1..], t, p);
    }
  }

  lemma StartSteady(now: Time, p: Pace)
    requires Paced(p)
    ensures Steady(Start(now), p)
  {
    StartConserves(now);
    hide Conserved;
  }

  /** While an id waits, not much time can have passed. */
  lemma NotForLong(s: State, id: AckId, time: Time, p: Pace)
    requires Paced(p) && Steady(s, p) && Waits(s, id, time, p) && (Pending(s, id) || InHand(s, id))
    ensures s.now <= time + p.longest / 2 + 3 * p.e
  {
    hide AllPlaced, InOneCall, Chosen, WithinLongest;
  }

  lemma SentOtherwise(s: State, id: AckId, p: Pace)
    requires Steady(s, p) && id in s.h.first && !Pending(s, id) && !InHand(s, id)
    ensures SentIn(s.h.log, s.h.first[id], id)
  {
    assert Placed(s, id);
    hide SentIn;
  }

  /** In a timely run every completed id is sent, as its first completion asked, within half of the longest deadline and
      three overruns: whatever the ack thread was doing, it wakes, merges and drains by then. */
  lemma CompletedIsSent(now: Time, before: seq<Step>, s: State, steps: seq<Step>, t: State, p: Pace, id: AckId)
    requires Paced(p) && TimelyRun(Start(now), before, s, p) && id in s.h.first
    requires TimelyRun(s, steps, t, p) && t.now > s.now + p.longest / 2 + 3 * p.e
    ensures SentIn(t.h.log, s.h.first[id], id)
  {
    StartSteady(now, p);
    RunSteady(Start(now), before, s, p);
    hide TimelyRun;
    assert Waits(s, id, s.now, p) by {
      hide AllPlaced, InOneCall, Chosen;
    }
    RunWaits(s, steps, t, id, s.now, p);
    hide Steady, Waits, Pending, InHand;
    if Pending(t, id) || InHand(t, id) {
      NotForLong(t, id, s.now, p);
    }
    SentOtherwise(t, id, p);
  }
}
