/** When no lease lapses: runs whose passes and sleeps overrun by at most e, and whose calls succeed in the end. */
module Timing {
  import opened Types
  import opened Batching
  import opened Protocol
  import opened Conservation
  import opened Leases
  import Histogram

  predicate InPass(s: State) {
    s.phase != Top && s.phase != Waiting
  }

  /** How long the ack thread means to wait before its next pass. */
  function Planned(s: State): Time {
    if s.needSleep then s.sleep else 0
  }

  /** What a watched id has left, by the client's reckoning, when it has just been pulled. */
  const FRESH: Time := MIN_ACK_DEADLINE - 1000

  /** What a run keeps to: by how much passes and waits overrun at most; if given, how much every uncompleted id has
      left at least when it is merged, how long an id is watched after its pull, and how long the thread rests over
      nothing; and the largest deadline granted. */
  datatype Pace = Pace(e: Time, margin: Option<Time>, lag: Option<nat>, idle: Option<nat>, longest: Time)

  /** Any run whose input is merged with more than the margin left. */
  function Merging(e: Time, margin: Time): Pace {
    Pace(e, Some(margin), None, None, MAX_ACK_DEADLINE)
  }

  /** The thread has nothing to keep alive, and no sleep is wanted. */
  predicate Resting(s: State) {
    !InPass(s) && !s.needSleep && s.q.keepAlive == map[]
  }

  /** A pass takes at most e; after a sleep, or while any lease is kept alive, the next one starts at most e later than
      planned; and an idle wait has its own limit. */
  ghost predicate OnTime(s: State, p: Pace) {
    if InPass(s) then s.now <= s.mark + p.e
    else if Resting(s) then p.idle.Some? ==> s.now <= s.rested + p.idle.value
    else s.now <= s.mark + Planned(s) + p.e
  }

  /** No call fails for good. */
  predicate Succeeds(step: Step) {
    match step
    case SendAckBatch(ok) => ok
    case SendNackBatch(ok, _) => ok
    case Throw => false
    case Skip => false
    case _ => true
  }

  /** Every uncompleted id is merged with more than the margin left. */
  ghost predicate MergedInTime(s: State, margin: Time) {
    forall id :: Live(s, id) && id in s.q.input ==> s.q.input[id] > s.now + margin
  }

  ghost predicate TimelyStep(s: State, step: Step, p: Pace) {
    && Enabled(s, step) && Succeeds(step)
    && (step == Merge && p.margin.Some? ==> MergedInTime(s, p.margin.value))
    && (step.Add? && p.lag.Some? ==> s.now - p.lag.value <= step.pulledAt)
    && (step.Choose? ==> 1000 * step.seconds <= p.longest)
    && OnTime(Apply(s, step), p)
  }

  ghost predicate TimelyRun(s: State, steps: seq<Step>, t: State, p: Pace)
    decreases |steps|
  {
    if steps == [] then s == t
    else TimelyStep(s, steps[0], p) && TimelyRun(Apply(s, steps[0]), steps[1..], t, p)
  }

  /** Every uncompleted lease that is kept alive has enough left: outside a pass, for the wait, its overrun and the next
      pass; in a pass, for the rest of it, unless it is not due yet or has just been extended. */
  ghost predicate Unexpired(s: State, e: Time) {
    forall id :: Live(s, id) && id in s.q.keepAlive ==>
      if !InPass(s) then s.q.keepAlive[id] > s.mark + Planned(s) + 2 * e
      else if id in s.batch || id in s.due || s.phase == Merged || s.phase == SendingAcks || s.phase == SendingNacks
      then s.q.keepAlive[id] > s.mark + e
      else s.q.keepAlive[id] > s.chosenAt + GRACE
  }

  ghost predicate Marked(s: State) {
    && s.mark <= s.now
    && (s.phase == Extending || s.phase == Calling || s.phase == InFlight ==> s.mark <= s.chosenAt)
    && (InPass(s) ==> !s.needSleep)
  }

  ghost predicate Safe(s: State, p: Pace) {
    Sound(s) && Marked(s) && OnTime(s, p) && Unexpired(s, p.e)
  }

  /** The largest overrun that is always survived. */
  const MAX_OVERRUN: Time := GRACE / 4

  /** The overrun is survived, and is within the margin. */
  predicate Bearable(p: Pace) {
    0 <= p.e <= MAX_OVERRUN && p.margin.Some? && p.e <= p.margin.value
  }

  lemma UnexpiredWhileExtending(s: State, step: Step, p: Pace)
    requires Bearable(p) && Safe(s, p) && TimelyStep(s, step, p) && Extends(step)
    ensures Unexpired(Apply(s, step), p.e)
  {
    hide Conserved, Believes, Cut, CutFrom, Fits;
    match step {
      case Choose(_, _, _) => UnexpiredOnChoose(s, step, p);
      case Carve => UnexpiredOnCarve(s, p.e);
      case End(_) => UnexpiredOnEnd(s, step, p);
      case Finish => UnexpiredOnFinish(s, p);
      case _ =>
    }
  }

  lemma UnexpiredOnChoose(s: State, step: Step, p: Pace)
    requires Bearable(p) && Safe(s, p) && TimelyStep(s, step, p) && step.Choose?
    ensures Unexpired(Apply(s, step), p.e)
  {
    hide Conserved, Believes, Histogram.IsDeadline;
    assert forall id :: id in step.due <==> id in Elements(step.due);
  }

  lemma UnexpiredOnCarve(s: State, e: Time)
    requires Chosen(s) && Unexpired(s, e) && Enabled(s, Carve)
    ensures Unexpired(Apply(s, Carve), e)
  {
    var k := Cut(s.due, MAX_PAYLOAD);
    hide Cut;
    assert s.due == s.due[..k] + s.due[k..];
  }

  lemma UnexpiredOnEnd(s: State, step: Step, p: Pace)
    requires Bearable(p) && Safe(s, p) && TimelyStep(s, step, p) && step.End?
    ensures Unexpired(Apply(s, step), p.e)
  {
    hide Conserved, Believes;
  }

  lemma UnexpiredOnFinish(s: State, p: Pace)
    requires Bearable(p) && Safe(s, p) && TimelyStep(s, Finish, p)
    ensures Unexpired(Apply(s, Finish), p.e)
  {
    hide Conserved, Believes;
  }

  lemma UnexpiredStep(s: State, step: Step, p: Pace)
    requires Bearable(p) && Safe(s, p) && TimelyStep(s, step, p)
    ensures Unexpired(Apply(s, step), p.e)
  {
    hide AllPlaced, InOneCall, Believes;
    if Extends(step) {
      UnexpiredWhileExtending(s, step, p);
    }
  }

  lemma MarkedStep(s: State, step: Step)
    requires Marked(s) && Chosen(s) && Enabled(s, step)
    ensures Marked(Apply(s, step))
  {
  }

  lemma SafeStep(s: State, step: Step, p: Pace)
    requires Bearable(p) && Safe(s, p) && TimelyStep(s, step, p)
    ensures Safe(Apply(s, step), p)
  {
    ConservedStep(s, step);
    ChosenStep(s, step);
    BelievesStep(s, step);
    UnexpiredStep(s, step, p);
    MarkedStep(s, step);
    hide Conserved, Chosen, Believes, Unexpired, OnTime, Marked, Apply, Enabled;
  }

  lemma {:induction false} RunSafe(s: State, steps: seq<Step>, t: State, p: Pace)
    requires Bearable(p) && Safe(s, p) && TimelyRun(s, steps, t, p)
    ensures Safe(t, p)
    decreases |steps|
  {
    hide Safe, Apply, Enabled, OnTime, MergedInTime;
    if steps != [] {
      SafeStep(s, steps[0], p);
      RunSafe(Apply(s, steps[0]), steps[1..], t, p);
    }
  }

  /** The lease of an uncompleted id has run out while the client still means to keep it alive. */
  ghost predicate Lapsed(s: State, id: AckId) {
    Live(s, id) && id in s.q.keepAlive && id in s.server && s.server[id] <= s.now
  }

  /** No live lease lapses: in every state of every timely run each uncompleted id that is kept alive still has time
      left at the server. */
  lemma NoLeaseLapses(now: Time, steps: seq<Step>, s: State, p: Pace, id: AckId)
    requires Bearable(p) && TimelyRun(Start(now), steps, s, p)
    ensures !Lapsed(s, id)
  {
    StartConserves(now);
    RunSafe(Start(now), steps, s, p);
    hide Conserved;
  }
}
