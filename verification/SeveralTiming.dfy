/** When no lease lapses under an ack thread with several iterators. */
module SeveralTiming {
  import opened Types
  import opened Batching
  import opened Protocol
  import opened Conservation
  import opened Leases
  import opened Timing
  import opened Several
  import Overrun
  import Histogram

  /** e: by how much rounds and waits overrun at most; margin: how much every uncompleted id has left at least when it
      is merged; longest: the largest deadline granted. */
  datatype Bounds = Bounds(e: nat, margin: nat, longest: Time)

  function PlannedSleep(g: Group): Time {
    if g.needSleep then g.sleep else 0
  }

  ghost predicate NothingKept(g: Group) {
    forall i :: 0 <= i < |g.its| ==> g.its[i].q.keepAlive == map[]
  }

  /** A round takes at most e; and after a sleep, or while any lease is kept alive, the next one starts at most e later
      than planned. */
  ghost predicate RoundOnTime(g: Group, b: Bounds) {
    if g.at.Working? then g.now <= g.mark + b.e
    else g.needSleep || !NothingKept(g) ==> g.now <= g.mark + PlannedSleep(g) + b.e
  }

  ghost predicate TimelyMove(g: Group, move: Move, b: Bounds) {
    && Possible(g, move)
    && (move.Pass? ==> Succeeds(move.step) && (move.step.Choose? ==> 1000 * move.step.seconds <= b.longest))
    && (move.MergeAll? ==> forall i :: 0 <= i < |g.its| ==> MergedInTime(g.its[i], b.margin))
    && RoundOnTime(Act(g, move), b)
  }

  ghost predicate TimelyMoves(g: Group, moves: seq<Move>, g': Group, b: Bounds)
    decreases |moves|
  {
    if moves == [] then g == g'
    else TimelyMove(g, moves[0], b) && TimelyMoves(Act(g, moves[0]), moves[1..], g', b)
  }

  ghost predicate Arises(g: Group, b: Bounds) {
    exists n, now, moves :: TimelyMoves(Begun(n, now), moves, g, b)
  }

  /** The longest sleep that can be asked for, and the overrun of the wait, are within the grace period: all that a
      lease which is not due in its own turn is sure to have. */
  predicate Harmless(b: Bounds) {
    b.longest / 2 + b.e <= GRACE
  }

  // ----- Harmless ------------------------------------------------------------------------------

  predicate BeforeChoosing(s: State) {
    s.phase == Merged || s.phase == SendingAcks || s.phase == SendingNacks
  }

  /** In a round: a lease that was looked at and is not about to be extended has more than the grace period left. */
  ghost predicate Lasts(s: State, mark: Time) {
    forall id :: Live(s, id) && id in s.q.keepAlive ==>
      s.q.keepAlive[id] > mark + if BeforeChoosing(s) || id in s.batch || id in s.due then 0 else GRACE
  }

  ghost predicate LastsUntil(s: State, time: Time) {
    forall id :: Live(s, id) && id in s.q.keepAlive ==> s.q.keepAlive[id] > time
  }

  ghost predicate WithinLongest(s: State, longest: Time) {
    && (forall id :: id in s.q.keepAlive ==> s.q.keepAlive[id] <= s.now + longest)
    && (forall id :: id in s.q.input ==> s.q.input[id] <= s.now + longest)
    && s.grant <= longest
    && (s.needSleep ==> s.sleep <= longest / 2)
  }

  /** What each iterator keeps, apart from where the thread is. */
  ghost predicate Steady(s: State, longest: Time) {
    Sound(s) && Marked(s) && WithinLongest(s, longest)
  }

  /** What an iterator keeps besides: in a round its leases last; outside, they last until the given time. */
  ghost predicate TimedOne(s: State, inRound: bool, mark: Time, until: Time, longest: Time) {
    && Steady(s, longest)
    && if inRound then Lasts(s, mark) && (s.phase != Top ==> s.mark == mark) else LastsUntil(s, until)
  }

  ghost predicate Timed(g: Group, b: Bounds) {
    && Linked(g) && g.mark <= g.now && RoundOnTime(g, b)
    && (g.needSleep ==> g.sleep <= b.longest / 2)
    && forall i :: 0 <= i < |g.its| ==>
         TimedOne(g.its[i], g.at.Working?, g.mark, g.mark + PlannedSleep(g) + b.e, b.longest)
  }

  lemma SoundStep(s: State, step: Step)
    requires Sound(s) && Enabled(s, step)
    ensures Sound(Apply(s, step))
  {
    ConservedStep(s, step);
    ChosenStep(s, step);
    BelievesStep(s, step);
    hide Conserved, Chosen, Believes, Apply, Enabled;
  }

  lemma WithinStep(s: State, step: Step, longest: Time)
    requires Chosen(s) && WithinLongest(s, longest) && Enabled(s, step) && MIN_ACK_DEADLINE <= longest
    requires step.Choose? ==> 1000 * step.seconds <= longest
    ensures WithinLongest(Apply(s, step), longest)
  {
    match step {
      case Choose(_, _, _) => WithinOnChoose(s, step, longest);
      case End(_) => WithinOnEnd(s, step, longest);
      case _ =>
        if Extends(step) {
          WithinWhileExtending(s, step, longest);
        } else {
          WithinOtherwise(s, step, longest);
        }
    }
    hide Chosen, WithinLongest, Apply, Enabled;
  }

  lemma WithinOnEnd(s: State, step: Step, longest: Time)
    requires Chosen(s) && WithinLongest(s, longest) && Enabled(s, step) && step.End?
    ensures WithinLongest(Apply(s, step), longest)
  {
  }

  lemma WithinWhileExtending(s: State, step: Step, longest: Time)
    requires WithinLongest(s, longest) && Enabled(s, step) && Extends(step) && !step.Choose? && !step.End?
    ensures WithinLongest(Apply(s, step), longest)
  {
  }

  lemma WithinOtherwise(s: State, step: Step, longest: Time)
    requires WithinLongest(s, longest) && Enabled(s, step) && !Extends(step) && MIN_ACK_DEADLINE <= longest
    ensures WithinLongest(Apply(s, step), longest)
  {
  }

  lemma WithinOnChoose(s: State, step: Step, longest: Time)
    requires WithinLongest(s, longest) && Enabled(s, step) && MIN_ACK_DEADLINE <= longest
    requires step.Choose? && 1000 * step.seconds <= longest
    ensures WithinLongest(Apply(s, step), longest)
  {
    hide Histogram.IsDeadline;
    if step.due == [] && s.q.keepAlive != map[] {
      var id :| id in s.q.keepAlive;
      assert step.shortest <= s.q.keepAlive[id] - s.now;
    }
  }

  lemma MarkStays(s: State, step: Step)
    requires Marked(s) && Chosen(s) && Enabled(s, step)
    ensures Marked(Apply(s, step))
    ensures InTurn(step) && Apply(s, step).phase != Top ==> Apply(s, step).mark == s.mark
    ensures ByUser(step) ==> Apply(s, step).mark == s.mark && Apply(s, step).phase == s.phase
  {
    MarkedStep(s, step);
    if InTurn(step) {
      MarkInTurn(s, step);
    } else if ByUser(step) {
      MarkByUser(s, step);
    }
    hide Marked, Chosen, Apply, Enabled;
  }

  lemma MarkInTurn(s: State, step: Step)
    requires Enabled(s, step) && InTurn(step)
    ensures Apply(s, step).phase != Top ==> Apply(s, step).mark == s.mark
  {
  }

  lemma MarkByUser(s: State, step: Step)
    requires Enabled(s, step) && ByUser(step)
    ensures Apply(s, step).mark == s.mark && Apply(s, step).phase == s.phase
  {
  }

  lemma SteadyStep(s: State, step: Step, longest: Time)
    requires Steady(s, longest) && Enabled(s, step) && MIN_ACK_DEADLINE <= longest
    requires step.Choose? ==> 1000 * step.seconds <= longest
    ensures Steady(Apply(s, step), longest)
  {
    SoundStep(s, step);
    WithinStep(s, step, longest);
    MarkStays(s, step);
    hide Sound, Marked, WithinLongest, Apply, Enabled;
  }

  /** A round in which no time passes: what a turn does leaves every lease it has looked at more than the grace
      period. */
  lemma LastsInTurn(s: State, step: Step)
    requires Sound(s) && Marked(s) && Lasts(s, s.mark) && s.now == s.mark
    requires Enabled(s, step) && InTurn(step) && Succeeds(step) && InPass(s)
    ensures Lasts(Apply(s, step), s.mark)
  {
    hide Conserved, Believes, Cut, CutFrom, Fits;
    if step.Choose? {
      assert forall id :: id in step.due <==> id in Elements(step.due);
    }
    if step.Carve? {
      Halves(s.due, Cut(s.due, MAX_PAYLOAD));
    }
  }

  lemma UserChangesNoLease(s: State, step: Step, mark: Time)
    requires Sound(s) && Enabled(s, step) && ByUser(step)
    ensures Lasts(s, mark) ==> Lasts(Apply(s, step), mark)
    ensures LastsUntil(s, mark) ==> LastsUntil(Apply(s, step), mark)
  {
    hide AllPlaced, InOneCall, Locals, Chosen, Believes;
  }

  lemma TimedOneByUser(s: State, step: Step, inRound: bool, mark: Time, until: Time, longest: Time)
    requires TimedOne(s, inRound, mark, until, longest) && MIN_ACK_DEADLINE <= longest
    requires Enabled(s, step) && ByUser(step)
    ensures TimedOne(Apply(s, step), inRound, mark, until, longest)
  {
    SteadyStep(s, step, longest);
    MarkStays(s, step);
    UserChangesNoLease(s, step, mark);
    UserChangesNoLease(s, step, until);
    hide Sound, Marked, WithinLongest, Lasts, LastsUntil, Apply, Enabled;
  }

  lemma TimedUser(g: Group, move: Move, b: Bounds)
    requires Harmless(b) && MIN_ACK_DEADLINE <= b.longest && Timed(g, b) && TimelyMove(g, move, b) && move.User?
    ensures Timed(Act(g, move), b)
  {
    LinkedAct(g, move);
    TimedOneByUser(g.its[move.i], move.step, g.at.Working?, g.mark, g.mark + PlannedSleep(g) + b.e, b.longest);
    hide TimedOne, Linked, Apply, Enabled, RoundOnTime;
  }

  /** No time passes in a round. */
  lemma NoTime(g: Group, b: Bounds)
    requires Harmless(b) && MIN_ACK_DEADLINE <= b.longest && Timed(g, b) && g.at.Working?
    ensures b.e == 0 && g.now == g.mark
  {
  }

  lemma TimedOneInTurn(s: State, step: Step, until: Time, longest: Time)
    requires TimedOne(s, true, s.now, until, longest) && MIN_ACK_DEADLINE <= longest && InPass(s)
    requires Enabled(s, step) && InTurn(step) && Succeeds(step) && (step.Choose? ==> 1000 * step.seconds <= longest)
    ensures TimedOne(Apply(s, step), true, s.now, until, longest)
    ensures Apply(s, step).phase == Top ==> Concludes(step)
  {
    SteadyStep(s, step, longest);
    MarkStays(s, step);
    LastsInTurn(s, step);
    hide Sound, Marked, WithinLongest, Lasts, LastsUntil, Enabled;
  }

  lemma TimedOneAfterRound(s: State, mark: Time, mark': Time, until: Time, until': Time, longest: Time)
    requires TimedOne(s, true, mark, until, longest) && s.phase == Top && until' <= mark + GRACE
    ensures TimedOne(s, false, mark', until', longest)
  {
  }

  lemma TimedPass(g: Group, move: Move, b: Bounds)
    requires Harmless(b) && MIN_ACK_DEADLINE <= b.longest && Timed(g, b) && TimelyMove(g, move, b) && move.Pass?
    ensures Timed(Act(g, move), b)
  {
    var g' := Act(g, move);
    var until := g.mark + PlannedSleep(g) + b.e;
    NoTime(g, b);
    LinkedAct(g, move);
    TimedOneInTurn(g.its[g.at.turn], move.step, until, b.longest);
    var its := g.its[g.at.turn := Apply(g.its[g.at.turn], move.step)];
    assert forall i :: 0 <= i < |its| ==> TimedOne(its[i], true, g.mark, until, b.longest);
    hide Apply, Enabled, TimedOne, TimelyMove, Possible, RoundOnTime;
    if !g'.at.Working? {
      assert g'.its == its;
      TimedRound(g', its, g.mark, until, b);
    }
  }

  /** The round is over: whatever the thread's sleep is, the leases last until the next one. */
  lemma TimedRound(g: Group, its: seq<State>, mark: Time, until: Time, b: Bounds)
    requires Harmless(b) && Linked(g) && !g.at.Working? && g.its == its && g.mark == g.now == mark
    requires g.sleep == Least(its) && (g.needSleep <==> g.sleep != SO_MANY) && RoundOnTime(g, b)
    requires MIN_ACK_DEADLINE <= b.longest
    requires forall i :: 0 <= i < |its| ==> TimedOne(its[i], true, mark, until, b.longest)
    ensures Timed(g, b)
  {
    SleepIsShort(its, b.longest);
    forall i | 0 <= i < |its|
      ensures TimedOne(its[i], false, g.mark, g.mark + PlannedSleep(g) + b.e, b.longest)
    {
      TimedOneAfterRound(its[i], mark, g.mark, until, g.mark + PlannedSleep(g) + b.e, b.longest);
    }
  }

  lemma SleepIsShort(its: seq<State>, longest: Time)
    requires forall i :: 0 <= i < |its| ==> WithinLongest(its[i], longest)
    ensures Least(its) != SO_MANY ==> Least(its) <= longest / 2
  {
  }

  lemma TimedOneTick(s: State, time: nat, inRound: bool, mark: Time, until: Time, longest: Time)
    requires TimedOne(s, inRound, mark, until, longest) && MIN_ACK_DEADLINE <= longest
    ensures TimedOne(Apply(s, Tick(time)), inRound, mark, until, longest)
  {
    SteadyStep(s, Tick(time), longest);
    hide Sound, Marked, WithinLongest;
  }

  lemma TimedPause(g: Group, move: Move, b: Bounds)
    requires Harmless(b) && MIN_ACK_DEADLINE <= b.longest && Timed(g, b) && TimelyMove(g, move, b) && move.Pause?
    ensures Timed(Act(g, move), b)
  {
    LinkedAct(g, move);
    var g' := Act(g, move);
    var until := g.mark + PlannedSleep(g) + b.e;
    forall i | 0 <= i < |g.its|
      ensures TimedOne(Apply(g.its[i], Tick(move.time)), g.at.Working?, g.mark, until, b.longest)
    {
      TimedOneTick(g.its[i], move.time, g.at.Working?, g.mark, until, b.longest);
    }
    hide TimedOne, RoundOnTime, Apply, Linked;
  }

  lemma JoinedSteady(s: State, longest: Time)
    requires Steady(s, longest) && s.phase == Top && MIN_ACK_DEADLINE <= longest
    ensures Steady(Joined(s), longest) && Joined(s).mark == s.now && Joined(s).phase == Merged
    ensures Joined(s).h == s.h && Joined(s).q == s.q.Merge()
  {
    if s.needSleep || Idle(s.q) {
      SteadyStep(s, Wait, longest);
      SteadyStep(Apply(s, Wait), Merge, longest);
    } else {
      SteadyStep(s, Merge, longest);
    }
    hide Steady;
  }

  lemma TimedOneJoined(s: State, mark: Time, until: Time, longest: Time, margin: nat)
    requires TimedOne(s, false, mark, until, longest) && s.phase == Top && MIN_ACK_DEADLINE <= longest
    requires MergedInTime(s, margin) && (s.q.keepAlive != map[] ==> s.now <= until)
    ensures TimedOne(Joined(s), true, s.now, until, longest)
  {
    JoinedSteady(s, longest);
    hide Sound, Marked, WithinLongest, Joined;
  }

  lemma TimedMerge(g: Group, move: Move, b: Bounds)
    requires Harmless(b) && MIN_ACK_DEADLINE <= b.longest && Timed(g, b) && TimelyMove(g, move, b) && move.MergeAll?
    ensures Timed(Act(g, move), b)
  {
    LinkedAct(g, move);
    var g' := Act(g, move);
    var until := g.mark + PlannedSleep(g) + b.e;
    assert !NothingKept(g) ==> g.now <= until;
    forall i | 0 <= i < |g.its|
      ensures TimedOne(g'.its[i], true, g.now, g'.mark + PlannedSleep(g') + b.e, b.longest)
    {
      TimedOneJoined(g.its[i], g.mark, until, b.longest, b.margin);
      hide Steady, Lasts, LastsUntil;
    }
    hide TimedOne;
  }

  lemma TimedAct(g: Group, move: Move, b: Bounds)
    requires Harmless(b) && MIN_ACK_DEADLINE <= b.longest && Timed(g, b) && TimelyMove(g, move, b)
    ensures Timed(Act(g, move), b)
  {
    match move {
      case User(_, _) => TimedUser(g, move, b);
      case Pass(_) => TimedPass(g, move, b);
      case Pause(_) => TimedPause(g, move, b);
      case MergeAll => TimedMerge(g, move, b);
      case _ => hide TimedOne;
    }
  }

  lemma {:induction false} RunTimed(g: Group, moves: seq<Move>, g': Group, b: Bounds)
    requires Harmless(b) && MIN_ACK_DEADLINE <= b.longest && Timed(g, b) && TimelyMoves(g, moves, g', b)
    ensures Timed(g', b)
    decreases |moves|
  {
    hide Timed, TimelyMove, Act;
    if moves != [] {
      TimedMoveIsPossible(g, moves[0], b);
      TimedAct(g, moves[0], b);
      RunTimed(Act(g, moves[0]), moves[1..], g', b);
    }
  }

  lemma TimedMoveIsPossible(g: Group, move: Move, b: Bounds)
    requires TimelyMove(g, move, b)
    ensures Possible(g, move)
  {
  }

  lemma BegunTimed(n: nat, now: Time, b: Bounds)
    requires MIN_ACK_DEADLINE <= b.longest
    ensures Timed(Begun(n, now), b)
  {
    StartConserves(now);
    hide Conserved;
    assert Steady(Start(now), b.longest);
  }

  lemma NoneLapses(g: Group, b: Bounds, i: nat, id: AckId)
    requires Harmless(b) && MIN_ACK_DEADLINE <= b.longest && Arises(g, b) && i < |g.its|
    ensures !Lapsed(g.its[i], id)
  {
    var n, now, moves :| TimelyMoves(Begun(n, now), moves, g, b);
    BegunTimed(n, now, b);
    RunTimed(Begun(n, now), moves, g, b);
    hide Conserved, Chosen, TimelyMoves;
  }

  // ----- Harmless, since nothing is kept -------------------------------------------------------

  ghost predicate NoneMerged(g: Group) {
    forall i :: 0 <= i < |g.its| ==> Overrun.NeverMerged(g.its[i])
  }

  lemma JoinedNeverMerged(s: State, margin: Time)
    requires Overrun.NeverMerged(s) && margin >= FRESH && MergedInTime(s, margin)
    ensures Overrun.NeverMerged(Joined(s))
  {
    hide Overrun.NeverMerged;
    if s.phase == Top {
      if s.needSleep || Idle(s.q) {
        Overrun.NeverMergedStep(s, Wait, margin);
        Overrun.NeverMergedStep(Apply(s, Wait), Merge, margin);
      } else {
        Overrun.NeverMergedStep(s, Merge, margin);
      }
    }
  }

  lemma SkippedNeverMerged(s: State, margin: Time)
    requires Overrun.NeverMerged(s) && margin >= FRESH
    ensures Overrun.NeverMerged(Skipped(s))
  {
    hide Overrun.NeverMerged;
    if s.phase == Merged {
      Overrun.NeverMergedStep(s, Skip, margin);
    }
  }

  lemma NoneMergedAct(g: Group, move: Move, b: Bounds)
    requires b.margin >= FRESH && NoneMerged(g) && TimelyMove(g, move, b)
    ensures NoneMerged(Act(g, move))
  {
    hide Overrun.NeverMerged;
    var g' := Act(g, move);
    match move {
      case User(i, step) => Overrun.NeverMergedStep(g.its[i], step, b.margin);
      case Pass(step) =>
        Overrun.NeverMergedStep(g.its[g.at.turn], step, b.margin);
        var its := g.its[g.at.turn := Apply(g.its[g.at.turn], step)];
        hide Apply, Enabled, Skipped;
        forall i | 0 <= i < |its|
          ensures Overrun.NeverMerged(Skipped(its[i]))
        {
          SkippedNeverMerged(its[i], b.margin);
        }
      case Pause(time) =>
        forall i | 0 <= i < |g.its|
          ensures Overrun.NeverMerged(Apply(g.its[i], Tick(time)))
        {
          Overrun.NeverMergedStep(g.its[i], Tick(time), b.margin);
        }
      case MergeAll =>
        forall i | 0 <= i < |g.its|
          ensures Overrun.NeverMerged(Joined(g.its[i]))
        {
          JoinedNeverMerged(g.its[i], b.margin);
        }
      case _ =>
    }
  }

  lemma {:induction false} RunNoneMerged(g: Group, moves: seq<Move>, g': Group, b: Bounds)
    requires b.margin >= FRESH && NoneMerged(g) && TimelyMoves(g, moves, g', b)
    ensures NoneMerged(g')
    decreases |moves|
  {
    hide NoneMerged, TimelyMove, Act;
    if moves != [] {
      TimedMoveIsPossible(g, moves[0], b);
      NoneMergedAct(g, moves[0], b);
      RunNoneMerged(Act(g, moves[0]), moves[1..], g', b);
    }
  }

  lemma NoneLapsesUnmerged(g: Group, b: Bounds, i: nat, id: AckId)
    requires b.margin >= FRESH && Arises(g, b) && i < |g.its|
    ensures !Lapsed(g.its[i], id)
  {
    var n, now, moves :| TimelyMoves(Begun(n, now), moves, g, b);
    StartConserves(now);
    RunNoneMerged(Begun(n, now), moves, g, b);
  }
}
