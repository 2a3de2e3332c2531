/** One ack thread for several iterators: they merge together, take their turns in one round, and sleep together. */
module Several {
  import opened Types
  import opened Protocol
  import opened Conservation
  import opened Refinement

  /** Where the ack thread is: at the top of its loop, waiting there, or at the turn of one of the iterators. */
  datatype Where = AtTop | Asleep | Working(turn: nat)

  /** The iterators in the order of their turns, each as it sees itself, and how the thread means to wait. */
  datatype Group = Group(its: seq<State>, at: Where, now: Time, needSleep: bool, sleep: Time, mark: Time)

  datatype Move =
    | User(i: nat, step: Step)
    | Pass(step: Step)
    | Pause(time: nat)
    | Doze
    | Stir
    | MergeAll

  predicate ByUser(step: Step) {
    step.Add? || step.Complete?
  }

  ghost predicate AllIdle(g: Group) {
    forall i :: 0 <= i < |g.its| ==> Idle(g.its[i].q)
  }

  ghost predicate Possible(g: Group, move: Move) {
    match move
    case User(i, step) => i < |g.its| && ByUser(step) && Enabled(g.its[i], step)
    case Pass(step) =>
      g.at.Working? && g.at.turn < |g.its| && InTurn(step) && Enabled(g.its[g.at.turn], step)
    case Pause(_) => true
    case Doze => g.at == AtTop && (g.needSleep || AllIdle(g))
    case Stir => g.at == Asleep && !g.needSleep
    case MergeAll => |g.its| > 0 && (g.at == Asleep || (g.at == AtTop && !g.needSleep && !AllIdle(g)))
  }

  /** How long the last turn of an iterator asks the thread to sleep. */
  function Wish(s: State): Time {
    if s.needSleep then s.sleep else SO_MANY
  }

  function Least(its: seq<State>): (sleep: Time)
    ensures sleep <= SO_MANY && forall i :: 0 <= i < |its| ==> sleep <= Wish(its[i])
    ensures sleep == SO_MANY || exists i :: 0 <= i < |its| && sleep == Wish(its[i])
  {
    if its == [] then SO_MANY
    else
      var n := |its| - 1;
      var rest := Least(its[..n]);
      if Wish(its[n]) < rest then Wish(its[n]) else rest
  }

  /** An iterator whose turn has not come when another one throws. */
  ghost function Skipped(s: State): State {
    if s.phase == Merged then Apply(s, Skip) else s
  }

  /** Whatever an iterator wished itself, it merges with the others. */
  ghost function Joined(s: State): State {
    if s.phase != Top then s
    else if s.needSleep || Idle(s.q) then Apply(Apply(s, Wait), Merge)
    else Apply(s, Merge)
  }

  /** A turn is over: the next one begins, or the thread sleeps as long as the least of the wishes. */
  function NextTurn(g: Group, its: seq<State>): Group
    requires g.at.Working?
  {
    if g.at.turn + 1 < |its| then g.(its := its, at := Working(g.at.turn + 1))
    else g.(its := its, at := AtTop, needSleep := Least(its) != SO_MANY, sleep := Least(its), mark := g.now)
  }

  ghost function Act(g: Group, move: Move): Group
    requires Possible(g, move)
  {
    match move
    case User(i, step) => g.(its := g.its[i := Apply(g.its[i], step)])
    case Pass(step) =>
      var t := Apply(g.its[g.at.turn], step);
      var its := g.its[g.at.turn := t];
      if t.phase != Top then g.(its := its)
      else if Concludes(step) then NextTurn(g, its)
      else g.(its := seq(|its|, i requires 0 <= i < |its| => Skipped(its[i])), at := AtTop, needSleep := false,
              mark := g.now)
    case Pause(time) =>
      g.(its := seq(|g.its|, i requires 0 <= i < |g.its| => Apply(g.its[i], Tick(time))), now := g.now + time)
    case Doze => g.(at := Asleep)
    case Stir => g.(at := AtTop)
    case MergeAll =>
      g.(its := seq(|g.its|, i requires 0 <= i < |g.its| => Joined(g.its[i])), at := Working(0), needSleep := false,
         mark := g.now)
  }

  function Begun(n: nat, now: Time): Group {
    Group(seq(n, i => Start(now)), AtTop, now, false, 0, now)
  }

  ghost predicate GroupLeads(g: Group, moves: seq<Move>, g': Group)
    decreases |moves|
  {
    if moves == [] then g == g'
    else Possible(g, moves[0]) && GroupLeads(Act(g, moves[0]), moves[1..], g')
  }

  ghost predicate GroupReachable(g: Group) {
    exists n, now, moves :: GroupLeads(Begun(n, now), moves, g)
  }

  // ----- Each iterator lives by the protocol ---------------------------------------------------

  /** The iterators share a clock, and are where the thread's turn says. */
  ghost predicate Linked(g: Group) {
    && (forall i :: 0 <= i < |g.its| ==> g.its[i].now == g.now)
    && match g.at
       case Working(turn) =>
         && turn < |g.its| && g.its[turn].phase != Top && g.its[turn].phase != Waiting
         && (forall i :: 0 <= i < turn ==> g.its[i].phase == Top)
         && (forall i :: turn < i < |g.its| ==> g.its[i].phase == Merged)
       case _ => forall i :: 0 <= i < |g.its| ==> g.its[i].phase == Top
  }

  lemma PhaseAfter(s: State, step: Step)
    requires Enabled(s, step)
    ensures ByUser(step) ==> Apply(s, step).phase == s.phase && Apply(s, step).now == s.now
    ensures step.Tick? ==> Apply(s, step).phase == s.phase && Apply(s, step).now == s.now + step.time
    ensures InTurn(step) && s.phase != Waiting ==>
              Apply(s, step).phase != Waiting && Apply(s, step).phase != Merged && Apply(s, step).now == s.now
  {
  }

  lemma SkippedIs(s: State)
    ensures Skipped(s).now == s.now && (s.phase == Merged || s.phase == Top ==> Skipped(s).phase == Top)
  {
  }

  lemma JoinedIs(s: State)
    ensures Joined(s).now == s.now && (s.phase == Top ==> Joined(s).phase == Merged && Joined(s).q == s.q.Merge())
  {
  }

  lemma AllSkippedAre(its: seq<State>)
    ensures forall i :: 0 <= i < |its| ==> Skipped(its[i]).now == its[i].now
    ensures forall i :: 0 <= i < |its| && (its[i].phase == Merged || its[i].phase == Top) ==>
              Skipped(its[i]).phase == Top
  {
    forall i | 0 <= i < |its|
      ensures Skipped(its[i]).now == its[i].now
      ensures its[i].phase == Merged || its[i].phase == Top ==>
              Skipped(its[i]).phase == Top
    {
      SkippedIs(its[i]);
      hide Skipped;
    }
  }

  lemma LinkedPass(g: Group, step: Step)
    requires Linked(g) && Possible(g, Pass(step))
    ensures Linked(Act(g, Pass(step))) && |Act(g, Pass(step)).its| == |g.its|
  {
    PhaseAfter(g.its[g.at.turn], step);
    AllSkippedAre(g.its[g.at.turn := Apply(g.its[g.at.turn], step)]);
    hide Apply, Enabled, Skipped, Least;
  }

  lemma LinkedAct(g: Group, move: Move)
    requires Linked(g) && Possible(g, move)
    ensures Linked(Act(g, move)) && |Act(g, move).its| == |g.its|
  {
    match move {
      case User(i, step) => PhaseAfter(g.its[i], step);
      case Pass(step) => LinkedPass(g, step);
      case Pause(time) => LinkedPause(g, time);
      case MergeAll => LinkedMerge(g);
      case _ =>
    }
    hide Apply, Enabled, Joined, Skipped, Idle, Least;
  }

  lemma LinkedPause(g: Group, time: nat)
    requires Linked(g)
    ensures Linked(Act(g, Pause(time))) && |Act(g, Pause(time)).its| == |g.its|
  {
    forall i | 0 <= i < |g.its|
      ensures Apply(g.its[i], Tick(time)).phase == g.its[i].phase && Apply(g.its[i], Tick(time)).now == g.now + time
    {
      PhaseAfter(g.its[i], Tick(time));
    }
    hide Apply;
  }

  lemma LinkedMerge(g: Group)
    requires Linked(g) && Possible(g, MergeAll)
    ensures Linked(Act(g, MergeAll)) && |Act(g, MergeAll).its| == |g.its|
  {
    forall i | 0 <= i < |g.its|
      ensures Joined(g.its[i]).phase == Merged && Joined(g.its[i]).now == g.now
    {
      JoinedIs(g.its[i]);
    }
    hide Joined, Idle;
  }

  lemma JoinedLeads(s: State)
    requires s.phase == Top
    ensures exists steps :: Leads(s, steps, Joined(s))
  {
    if s.needSleep || Idle(s.q) {
      Single(Apply(s, Wait), Merge);
      Prefix(s, Wait, [Merge], Joined(s));
    } else {
      Single(s, Merge);
      assert Leads(s, [Merge], Joined(s));
    }
  }

  lemma NoSteps(s: State)
    ensures Leads(s, [], s)
  {
  }

  /** Whatever the thread and its users do, each iterator by itself goes through a run of the protocol. */
  lemma MoveProjects(g: Group, move: Move, i: nat)
    requires Linked(g) && Possible(g, move) && i < |g.its|
    ensures |Act(g, move).its| == |g.its| && exists steps :: Leads(g.its[i], steps, Act(g, move).its[i])
  {
    hide Leads, Apply, Enabled;
    var s, t := g.its[i], Act(g, move).its[i];
    NoSteps(s);
    match move {
      case User(j, step) => Single(g.its[j], step);
      case Pass(step) =>
        Single(g.its[g.at.turn], step);
        if s.phase == Merged {
          SkipLeads(s);
        }
      case Pause(time) => TickLeads(s, time);
      case MergeAll => JoinedLeads(s);
      case _ =>
    }
  }

  lemma SkipLeads(s: State)
    requires s.phase == Merged
    ensures Enabled(s, Skip) && Leads(s, [Skip], Skipped(s))
  {
    Single(s, Skip);
  }

  lemma TickLeads(s: State, time: nat)
    ensures Enabled(s, Tick(time)) && Leads(s, [Tick(time)], Apply(s, Tick(time)))
  {
    Single(s, Tick(time));
  }

  lemma ReachesOn(s: State, steps: seq<Step>, t: State)
    requires Reachable(s) && Leads(s, steps, t)
    ensures Reachable(t)
  {
    var now, first :| Leads(Start(now), first, s);
    Join(Start(now), first, s, steps, t);
  }

  ghost predicate AllReachable(g: Group) {
    Linked(g) && forall i :: 0 <= i < |g.its| ==> Reachable(g.its[i])
  }

  lemma AllReachableAct(g: Group, move: Move)
    requires AllReachable(g) && Possible(g, move)
    ensures AllReachable(Act(g, move))
  {
    LinkedAct(g, move);
    var g' := Act(g, move);
    hide Act, Possible, Reachable;
    forall i | 0 <= i < |g'.its|
      ensures Reachable(g'.its[i])
    {
      MoveProjects(g, move, i);
      var steps :| Leads(g.its[i], steps, g'.its[i]);
      ReachesOn(g.its[i], steps, g'.its[i]);
    }
  }

  lemma BegunReachable(n: nat, now: Time)
    ensures AllReachable(Begun(n, now))
  {
    StartReachable(now);
  }

  lemma {:induction false} RunAllReachable(g: Group, moves: seq<Move>, g': Group)
    requires AllReachable(g) && GroupLeads(g, moves, g')
    ensures AllReachable(g')
    decreases |moves|
  {
    hide AllReachable, Act, Possible;
    if moves != [] {
      AllReachableAct(g, moves[0]);
      RunAllReachable(Act(g, moves[0]), moves[1..], g');
    }
  }

  /** Each iterator of a reachable group is in a reachable state of the protocol: with any number of iterators, and with
      turns that a throw of another one skips, all that holds in reachable states holds of each. */
  lemma EachIsReachable(g: Group, i: nat)
    requires GroupReachable(g) && i < |g.its|
    ensures Reachable(g.its[i])
  {
    var n, now, moves :| GroupLeads(Begun(n, now), moves, g);
    BegunReachable(n, now);
    RunAllReachable(Begun(n, now), moves, g);
  }

  /** So when the thread waits for want of input and leases, no iterator has anything left to send. */
  lemma NothingStrandedWhenAllIdle(g: Group, i: nat)
    requires GroupReachable(g) && Possible(g, Doze) && !g.needSleep && i < |g.its|
    ensures var s := g.its[i]; s.q.acks == {} && s.q.nacks == {} && s.h.watched == s.h.first.Keys
  {
    var n, now, moves :| GroupLeads(Begun(n, now), moves, g);
    BegunReachable(n, now);
    RunAllReachable(Begun(n, now), moves, g);
    NothingStrandedWhenIdle(g.its[i]);
  }
}
