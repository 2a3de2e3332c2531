/** When the loop itself merges input in time: exactly which deadlines may be granted, and how late an id may be
    watched, so that no lease runs out, not even one that is still waiting to be merged. */
module Prompt {
  import opened Types
  import opened Protocol
  import opened Conservation
  import opened Leases
  import opened Timing
  import opened Overrun
  import opened Histogram

  /** How long the idle ack thread waits before it looks at its input again. */
  const IDLE_WAIT: nat := 500

  /** Passes and waits, the idle ones included, overrun by at most e; an id is watched at most this lag after its pull;
      no deadline granted is longer than the longest. Nothing is said about when input is merged. */
  function Prompt(e: nat, lag: nat, longest: Time): Pace {
    Pace(e, None, Some(lag), Some(IDLE_WAIT + e), longest)
  }

  /** A fresh lease outlasts its lag, half of the longest deadline and of one overrun, and two overruns. */
  predicate Suffices(e: nat, lag: nat, longest: Time) {
    e <= MAX_OVERRUN && lag + (longest + e) / 2 + 2 * e < FRESH
  }

  // ----- Enough --------------------------------------------------------------------------------

  /** No lease is longer than the longest deadline allows, counted from the merge while nothing of the pass is extended;
      and no sleep is longer than half of it. */
  ghost predicate Bounded(s: State, longest: Time) {
    && (forall id :: id in s.q.keepAlive ==>
          s.q.keepAlive[id] <= longest
            + if s.phase == Merged || s.phase == SendingAcks || s.phase == SendingNacks then s.mark else s.now)
    && (forall id :: id in s.q.input ==> s.q.input[id] <= s.now + FRESH)
    && s.grant <= longest
    && Planned(s) <= longest / 2
  }

  /** An uncompleted id in the input has enough left until it is merged and the pass that merges it is over. */
  ghost predicate Roomy(s: State, e: nat, longest: Time) {
    forall id :: Live(s, id) && id in s.q.input ==>
      if InPass(s) then s.q.input[id] > s.mark + (longest + e) / 2 + 2 * e
      else if Resting(s) then s.q.input[id] > s.rested + IDLE_WAIT + 2 * e
      else s.q.input[id] > s.mark + Planned(s) + 2 * e
  }

  ghost predicate Holds(s: State, e: nat, lag: nat, longest: Time) {
    Safe(s, Prompt(e, lag, longest)) && s.rested <= s.now && Bounded(s, longest) && Roomy(s, e, longest)
  }

  /** Such runs merge their input in time of themselves. */
  lemma InputIsMergedInTime(s: State, step: Step, e: nat, lag: nat, longest: Time)
    requires Suffices(e, lag, longest) && Holds(s, e, lag, longest) && TimelyStep(s, step, Prompt(e, lag, longest))
    ensures TimelyStep(s, step, Prompt(e, lag, longest).(margin := Some(e)))
  {
    hide Sound, Unexpired, Bounded;
  }

  lemma BoundedWhileExtending(s: State, step: Step, e: nat, lag: nat, longest: Time)
    requires MIN_ACK_DEADLINE <= longest && Holds(s, e, lag, longest)
    requires TimelyStep(s, step, Prompt(e, lag, longest)) && Extends(step)
    ensures Bounded(Apply(s, step), longest)
  {
    hide Conserved, Believes, Unexpired, Roomy, OnTime, IsDeadline;
    match step {
      case Choose(_, _, _) => BoundedOnChoose(s, step, longest);
      case End(_) => BoundedOnEnd(s, step, longest);
      case _ =>
    }
  }

  lemma BoundedOnChoose(s: State, step: Step, longest: Time)
    requires Bounded(s, longest) && Marked(s) && Enabled(s, step) && step.Choose? && 1000 * step.seconds <= longest
    requires MIN_ACK_DEADLINE <= longest
    ensures Bounded(Apply(s, step), longest)
  {
    hide IsDeadline;
    if step.due == [] && s.q.keepAlive != map[] {
      var id :| id in s.q.keepAlive;
      assert step.shortest <= s.q.keepAlive[id] - s.now;
    }
  }

  lemma BoundedOnEnd(s: State, step: Step, longest: Time)
    requires Bounded(s, longest) && Chosen(s) && Enabled(s, step) && step.End?
    ensures Bounded(Apply(s, step), longest)
  {
  }

  lemma BoundedStep(s: State, step: Step, e: nat, lag: nat, longest: Time)
    requires MIN_ACK_DEADLINE <= longest && Holds(s, e, lag, longest)
    requires TimelyStep(s, step, Prompt(e, lag, longest))
    ensures Bounded(Apply(s, step), longest)
  {
    hide Conserved, Chosen, Believes, Unexpired, Roomy, OnTime;
    if Extends(step) {
      BoundedWhileExtending(s, step, e, lag, longest);
    }
  }

  /** The sleep asked for leaves the input enough: it is half of what some lease had left when it was chosen, and no
      lease had more than the longest deadline when the pass began. */
  lemma RoomyAfterChoosing(s: State, step: Step, e: nat, lag: nat, longest: Time)
    requires MIN_ACK_DEADLINE <= longest && e <= MAX_OVERRUN && Holds(s, e, lag, longest)
    requires TimelyStep(s, step, Prompt(e, lag, longest)) && step.Choose?
    ensures Roomy(Apply(s, step), e, longest)
  {
    hide Sound, Unexpired;
    var t := Apply(s, step);
    if step.due == [] && s.q.keepAlive != map[] {
      var id :| id in s.q.keepAlive;
      assert step.shortest <= s.q.keepAlive[id] - s.now <= s.mark + longest - s.now;
      assert t.mark + Planned(t) <= s.mark + (longest + e) / 2;
    }
  }

  lemma RoomyStep(s: State, step: Step, e: nat, lag: nat, longest: Time)
    requires MIN_ACK_DEADLINE <= longest && Suffices(e, lag, longest) && Holds(s, e, lag, longest)
    requires TimelyStep(s, step, Prompt(e, lag, longest))
    ensures Roomy(Apply(s, step), e, longest)
  {
    hide Sound, Unexpired;
    if step.Choose? {
      RoomyAfterChoosing(s, step, e, lag, longest);
    }
  }

  lemma HoldsStep(s: State, step: Step, e: nat, lag: nat, longest: Time)
    requires MIN_ACK_DEADLINE <= longest && Suffices(e, lag, longest) && Holds(s, e, lag, longest)
    requires TimelyStep(s, step, Prompt(e, lag, longest))
    ensures Holds(Apply(s, step), e, lag, longest)
  {
    var p := Prompt(e, lag, longest);
    InputIsMergedInTime(s, step, e, lag, longest);
    SafeStep(s, step, p.(margin := Some(e)));
    BoundedStep(s, step, e, lag, longest);
    RoomyStep(s, step, e, lag, longest);
    RestedStep(s, step);
    hide Sound, Unexpired, Bounded, Roomy, Apply, Enabled, OnTime, Marked;
  }

  lemma RestedStep(s: State, step: Step)
    requires s.rested <= s.now && Enabled(s, step)
    ensures Apply(s, step).rested <= Apply(s, step).now
  {
  }

  lemma {:induction false} RunHolds(s: State, steps: seq<Step>, t: State, e: nat, lag: nat, longest: Time)
    requires MIN_ACK_DEADLINE <= longest && Suffices(e, lag, longest) && Holds(s, e, lag, longest)
    requires TimelyRun(s, steps, t, Prompt(e, lag, longest))
    ensures Holds(t, e, lag, longest)
    decreases |steps|
  {
    hide Holds, Apply, Enabled, OnTime;
    if steps != [] {
      HoldsStep(s, steps[0], e, lag, longest);
      RunHolds(Apply(s, steps[0]), steps[1..], t, e, lag, longest);
    }
  }

  /** In every state of such a run each uncompleted id is held by the client with time left, and has at least as much
      left at the server, whether it is kept alive already or still in the input. */
  lemma EveryLeaseHolds(now: Time, steps: seq<Step>, s: State, e: nat, lag: nat, longest: Time, id: AckId)
    requires MIN_ACK_DEADLINE <= longest && Suffices(e, lag, longest)
    requires TimelyRun(Start(now), steps, s, Prompt(e, lag, longest)) && Live(s, id)
    ensures id in s.q.Held() && id in s.server && s.now < NextAck(s.q, id) <= s.server[id]
  {
    StartConserves(now);
    RunHolds(Start(now), steps, s, e, lag, longest);
    hide TimelyRun;
    LeaseHolds(s, e, lag, longest, id);
  }

  lemma LeaseHolds(s: State, e: nat, lag: nat, longest: Time, id: AckId)
    requires Suffices(e, lag, longest) && Holds(s, e, lag, longest) && Live(s, id)
    ensures id in s.q.Held() && id in s.server && s.now < NextAck(s.q, id) <= s.server[id]
  {
    hide AllPlaced, InOneCall, Locals;
  }

  // ----- And no less ---------------------------------------------------------------------------

  /** The lease of an uncompleted id has run out at the server. */
  ghost predicate Expired(s: State, id: AckId) {
    Live(s, id) && id in s.server && s.server[id] <= s.now
  }

  lemma WatchLate(s: State, p: Pace) returns (t: State)
    requires Reaches(s, p) && s.phase == SendingNacks && OnTime(s, p) && p.lag.Some? && "b" !in s.h.watched
    ensures var left := s.now - p.lag.value + FRESH;
            && Reaches(t, p)
            && t == s.(q := s.q.Watch("b", left), h := WithWatched(s.h, "b", s.now - p.lag.value),
                       server := s.server["b" := left])
  {
    hide Reaches, IsDeadline;
    var add := Add("b", s.now - p.lag.value, s.now - p.lag.value + FRESH);
    t := Apply(s, add);
    Onward(s, add, p);
  }

  lemma MergeLate(s: State, p: Pace) returns (t: State)
    requires Reaches(s, p) && s.phase == Waiting && p.margin.None? && 0 <= p.e
    ensures Reaches(t, p) && t == s.(q := s.q.Merge(), phase := Merged, needSleep := false, mark := s.now)
  {
    hide Reaches;
    Onward(s, Merge, p);
    t := Apply(s, Merge);
  }

  /** An id that is watched when a pass has already merged, with every limit used up. */
  lemma LapsesWhenLate(e: nat, lag: nat, seconds: nat) returns (s: State)
    requires e <= MAX_OVERRUN && 10 <= seconds <= 600
    requires lag + (1000 * seconds + e) / 2 + 2 * e >= FRESH
    ensures Reaches(s, Prompt(e, lag, 1000 * seconds)) && Expired(s, "b")
  {
    hide Reaches, IsDeadline;
    var p := Prompt(e, lag, 1000 * seconds);
    s := ExtendFully(seconds, p);
    var start := s.now;
    s := WatchLate(s, p);
    Onward(s, Tick(e), p);
    s := s.(now := start + e);
    s := SleepOn(s, "a", start + 1000 * seconds, seconds, p);
    s := OverrunsTwice(s, p);
  }

  /** The sleep, its overrun, and a pass that takes as long as it may. */
  lemma OverrunsTwice(s: State, p: Pace) returns (t: State)
    requires Reaches(s, p) && s.phase == Waiting && s.needSleep && s.now == s.mark && s.sleep >= 0 && 0 <= p.e
    requires p.margin.None?
    ensures Reaches(t, p) && t.now == s.now + s.sleep + 2 * p.e && t.h == s.h && t.server == s.server
  {
    hide Reaches;
    Onward(s, Tick(s.sleep + p.e), p);
    t := s.(now := s.now + s.sleep + p.e);
    t := MergeLate(t, p);
    Onward(t, Tick(p.e), p);
    t := t.(now := t.now + p.e);
  }

  /** The exact condition, for deadlines in whole seconds, as they are granted: no uncompleted lease runs out in any
      such run if and only if the overrun is at most a quarter of the grace period and a fresh lease outlasts the lag,
      half of the longest deadline and of an overrun, and two overruns. */
  lemma ExactlyTheDeadlinesThatHold(e: nat, lag: nat, seconds: nat)
    requires 10 <= seconds <= 600
    ensures (forall s, id | Reaches(s, Prompt(e, lag, 1000 * seconds)) :: !Expired(s, id))
            <==> Suffices(e, lag, 1000 * seconds)
  {
    var longest := 1000 * seconds;
    var p := Prompt(e, lag, longest);
    if Suffices(e, lag, longest) {
      forall s, id | Reaches(s, p)
        ensures !Expired(s, id)
      {
        var now, steps :| TimelyRun(Start(now), steps, s, p);
        if Live(s, id) {
          EveryLeaseHolds(now, steps, s, e, lag, longest, id);
        }
      }
    } else if e > MAX_OVERRUN {
      var s := LapsesAbove(p);
      assert Expired(s, "a");
    } else {
      var s := LapsesWhenLate(e, lag, seconds);
    }
  }
}
