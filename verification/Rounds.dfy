/** A round of the ack thread over its iterators, as its methods carry it out, is a run of the group. */
module Rounds {
  import opened Types
  import opened Batching
  import opened Queues
  import opened Iterator
  import opened Protocol
  import opened Refinement
  import opened Several
  import E = Executor

  lemma GroupPrefix(g: Group, move: Move, more: seq<Move>, g': Group)
    requires Possible(g, move) && GroupLeads(Act(g, move), more, g')
    ensures GroupLeads(g, [move] + more, g')
  {
    assert ([move] + more)[1..] == more;
  }

  lemma {:induction false} GroupJoin(g: Group, moves: seq<Move>, m: Group, more: seq<Move>, g': Group)
    requires GroupLeads(g, moves, m) && GroupLeads(m, more, g')
    ensures GroupLeads(g, moves + more, g')
    decreases |moves|
  {
    hide Act, Possible;
    if moves == [] {
      assert moves + more == more;
    } else {
      assert (moves + more)[1..] == moves[1..] + more;
      GroupJoin(Act(g, moves[0]), moves[1..], m, more, g');
    }
  }

  lemma NoMoves(g: Group)
    ensures GroupLeads(g, [], g)
  {
  }

  // ----- One turn ------------------------------------------------------------------------------

  /** Only the clock of the other iterators has moved. */
  ghost predicate OnlyLater(s: State, t: State) {
    t.q == s.q && t.h == s.h && t.needSleep == s.needSleep && t.sleep == s.sleep && t.phase == s.phase
  }

  ghost predicate OthersLater(g: Group, g': Group, turn: nat) {
    && |g'.its| == |g.its|
    && forall i :: 0 <= i < |g.its| && i != turn ==>
         g'.its[i].q == g.its[i].q && g'.its[i].h == g.its[i].h
         && (i < turn ==> g'.its[i].needSleep == g.its[i].needSleep && g'.its[i].sleep == g.its[i].sleep)
  }

  /** The turn of an iterator is over: the next one has its turn, or the thread knows how long to sleep; or a call
      threw. */
  ghost predicate TurnPassed(g: Group, g': Group, turn: nat, t: State, concluded: bool) {
    && turn < |g.its| && OthersLater(g, g', turn) && Linked(g') && g'.now == t.now
    && g'.its[turn].q == t.q && g'.its[turn].h == t.h && g'.its[turn].needSleep == t.needSleep
    && g'.its[turn].sleep == t.sleep
    && (concluded ==> forall i :: turn < i < |g.its| ==> g'.its[i].phase == g.its[i].phase)
    && if !concluded then g'.at == AtTop && !g'.needSleep
       else if turn + 1 < |g.its| then g'.at == Working(turn + 1)
       else g'.at == AtTop && g'.sleep == Least(g'.its) && (g'.needSleep <==> g'.sleep != SO_MANY)
  }

  /** Time passes for all of them. */
  lemma Later(g: Group, time: nat)
    requires Linked(g)
    ensures var g' := Act(g, Pause(time));
            && Linked(g') && |g'.its| == |g.its| && g'.at == g.at && g'.needSleep == g.needSleep && g'.sleep == g.sleep
            && g'.now == g.now + time && Least(g'.its) == Least(g.its)
            && forall i :: 0 <= i < |g.its| ==>
                 g'.its[i] == Apply(g.its[i], Tick(time)) && OnlyLater(g.its[i], g'.its[i])
  {
    LinkedPause(g, time);
    forall i | 0 <= i < |g.its|
      ensures OnlyLater(g.its[i], Apply(g.its[i], Tick(time)))
    {
    }
    hide Apply;
    LeastAlike(g.its, Act(g, Pause(time)).its);
  }

  lemma LaterKeeps(g: Group, time: nat)
    requires Linked(g)
    ensures var g' := Act(g, Pause(time));
            && Linked(g') && |g'.its| == |g.its| && g'.at == g.at && g'.needSleep == g.needSleep && g'.sleep == g.sleep
            && g'.now == g.now + time && Least(g'.its) == Least(g.its)
            && forall i :: 0 <= i < |g.its| ==> OnlyLater(g.its[i], g'.its[i])
  {
    Later(g, time);
    hide Act, Apply, Linked, Least, OnlyLater;
  }

  lemma {:induction false} LeastAlike(its: seq<State>, its': seq<State>)
    requires |its| == |its'| && forall i :: 0 <= i < |its| ==> Wish(its[i]) == Wish(its'[i])
    ensures Least(its) == Least(its')
    decreases |its|
  {
    if its != [] {
      LeastAlike(its[..|its| - 1], its'[..|its| - 1]);
    }
  }

  /** Once the turn is over, only time passes in what is left of it. */
  lemma {:induction false} OnlyTicks(s: State, steps: seq<Step>, t: State)
    requires s.phase == Top && Leads(s, steps, t) && forall step :: step in steps ==> InTurn(step) || step.Tick?
    ensures s.now <= t.now && t == s.(now := t.now) && forall step :: step in steps ==> step.Tick?
    decreases |steps|
  {
    if steps != [] {
      assert steps[0] in steps && steps[0].Tick?;
      OnlyTicks(Apply(s, steps[0]), steps[1..], t);
      assert forall step :: step in steps ==> step == steps[0] || step in steps[1..];
    }
  }

  lemma TailOfTurn(steps: seq<Step>, concluded: bool)
    requires steps != [] && OfTurn(steps, concluded)
    ensures InTurn(steps[0]) || steps[0].Tick?
    ensures OfTurn(steps[1..], concluded) || Concludes(steps[0])
    ensures concluded || !Concludes(steps[0])
    ensures forall step :: step in steps[1..] ==> InTurn(step) || step.Tick?
    ensures (forall step :: step in steps[1..] ==> step.Tick?) ==> (concluded <==> Concludes(steps[0]))
  {
    assert steps[0] in steps;
    assert forall step :: step in steps <==> step == steps[0] || step in steps[1..];
  }

  lemma PassedThenLater(g: Group, g1: Group, turn: nat, s: State, concluded: bool, time: nat)
    requires TurnPassed(g, g1, turn, s, concluded)
    ensures TurnPassed(g, Act(g1, Pause(time)), turn, s.(now := s.now + time), concluded)
  {
    hide Act, Apply, Linked, Least;
    LaterKeeps(g1, time);
  }

  lemma LaterThenPassed(g: Group, time: nat, g': Group, turn: nat, t: State, concluded: bool)
    requires Linked(g) && TurnPassed(Act(g, Pause(time)), g', turn, t, concluded)
    ensures TurnPassed(g, g', turn, t, concluded)
  {
    hide Act, Apply, Linked, Least;
    LaterKeeps(g, time);
  }

  lemma StepThenPassed(g: Group, step: Step, g': Group, t: State, concluded: bool)
    requires Linked(g) && Possible(g, Move.Pass(step)) && Apply(g.its[g.at.turn], step).phase != Top
    requires TurnPassed(Act(g, Move.Pass(step)), g', g.at.turn, t, concluded)
    ensures TurnPassed(g, g', g.at.turn, t, concluded)
  {
    hide Apply, Enabled, Linked, Least;
  }

  /** The step that ends the turn, and whatever time passes after it. */
  lemma LastOfTurn(g: Group, step: Step, steps: seq<Step>, t: State, concluded: bool)
    returns (moves: seq<Move>, g': Group)
    requires Linked(g) && g.at.Working? && Enabled(g.its[g.at.turn], step) && InTurn(step)
    requires Apply(g.its[g.at.turn], step).phase == Top && Leads(Apply(g.its[g.at.turn], step), steps, t)
    requires OfTurn([step] + steps, concluded)
    ensures GroupLeads(g, moves, g') && TurnPassed(g, g', g.at.turn, t, concluded)
  {
    var turn, s1 := g.at.turn, Apply(g.its[g.at.turn], step);
    assert ([step] + steps)[1..] == steps;
    TailOfTurn([step] + steps, concluded);
    OnlyTicks(s1, steps, t);
    var g1 := PassEnds(g, step, concluded);
    var time := t.now - s1.now;
    PassedThenLater(g, g1, turn, s1, concluded, time);
    g' := Act(g1, Pause(time));
    hide Act, Leads, Linked, Least, OfTurn, TurnPassed, Apply, Enabled, GroupLeads;
    NoMoves(g');
    GroupPrefix(g1, Pause(time), [], g');
    GroupPrefix(g, Move.Pass(step), [Pause(time)] + [], g');
    moves := [Move.Pass(step)] + ([Pause(time)] + []);
  }

  lemma PassEnds(g: Group, step: Step, concluded: bool) returns (g': Group)
    requires Linked(g) && g.at.Working? && Enabled(g.its[g.at.turn], step) && InTurn(step)
    requires Apply(g.its[g.at.turn], step).phase == Top && (concluded <==> Concludes(step))
    ensures Possible(g, Move.Pass(step)) && g' == Act(g, Move.Pass(step))
    ensures TurnPassed(g, g', g.at.turn, Apply(g.its[g.at.turn], step), concluded)
  {
    g' := Act(g, Move.Pass(step));
    LinkedPass(g, step);
    if concluded {
      EndsWithResult(g, step);
    } else {
      EndsByThrow(g, step);
    }
    hide Act, Apply, Enabled, Linked, TurnPassed;
  }

  lemma EndsWithResult(g: Group, step: Step)
    requires Linked(g) && Possible(g, Move.Pass(step)) && Concludes(step)
    requires Apply(g.its[g.at.turn], step).phase == Top && Linked(Act(g, Move.Pass(step)))
    ensures TurnPassed(g, Act(g, Move.Pass(step)), g.at.turn, Apply(g.its[g.at.turn], step), true)
  {
    NowAfter(g.its[g.at.turn], step);
    hide Apply, Enabled, Least;
  }

  lemma EndsByThrow(g: Group, step: Step)
    requires Linked(g) && Possible(g, Move.Pass(step)) && !Concludes(step)
    requires Apply(g.its[g.at.turn], step).phase == Top && Linked(Act(g, Move.Pass(step)))
    ensures TurnPassed(g, Act(g, Move.Pass(step)), g.at.turn, Apply(g.its[g.at.turn], step), false)
  {
    NowAfter(g.its[g.at.turn], step);
    AllSkipped(g.its[g.at.turn := Apply(g.its[g.at.turn], step)]);
    hide Apply, Enabled, Skipped, Least;
  }

  lemma NowAfter(s: State, step: Step)
    requires Enabled(s, step) && InTurn(step)
    ensures Apply(s, step).now == s.now
  {
  }

  lemma AllSkipped(its: seq<State>)
    ensures forall i :: 0 <= i < |its| ==> SkippedKeeps(its[i])
  {
    forall i | 0 <= i < |its|
      ensures SkippedKeeps(its[i])
    {
    }
  }

  ghost predicate SkippedKeeps(s: State) {
    Skipped(s).q == s.q && Skipped(s).h == s.h && (s.phase != Merged ==> Skipped(s) == s)
  }

  /** A run of an iterator through its turn is a run of the group. */
  lemma {:induction false} TurnLifts(g: Group, steps: seq<Step>, t: State, concluded: bool)
    returns (moves: seq<Move>, g': Group)
    requires Linked(g) && g.at.Working? && OfTurn(steps, concluded)
    requires Leads(g.its[g.at.turn], steps, t) && t.phase == Top
    ensures GroupLeads(g, moves, g') && TurnPassed(g, g', g.at.turn, t, concluded)
    decreases |steps|
  {
    var turn, s := g.at.turn, g.its[g.at.turn];
    var step, s1 := steps[0], Apply(s, steps[0]);
    TailOfTurn(steps, concluded);
    assert steps == [step] + steps[1..];
    if step.Tick? {
      var g1 := TickedGroup(g, step.time);
      moves, g' := TurnLifts(g1, steps[1..], t, concluded);
      LaterThenPassed(g, step.time, g', turn, t, concluded);
      hide Act, Leads, Linked, OfTurn, TurnPassed, Apply, Enabled, GroupLeads;
      GroupPrefix(g, Pause(step.time), moves, g');
      moves := [Pause(step.time)] + moves;
    } else if s1.phase == Top {
      moves, g' := LastOfTurn(g, step, steps[1..], t, concluded);
    } else {
      GoesOnInTurn(s, step);
      var g1 := SteppedGroup(g, step);
      moves, g' := TurnLifts(g1, steps[1..], t, concluded);
      StepThenPassed(g, step, g', t, concluded);
      hide Act, Leads, Linked, OfTurn, TurnPassed, Apply, Enabled, GroupLeads;
      GroupPrefix(g, Move.Pass(step), moves, g');
      moves := [Move.Pass(step)] + moves;
    }
  }

  lemma TickedGroup(g: Group, time: nat) returns (g': Group)
    requires Linked(g) && g.at.Working?
    ensures g' == Act(g, Pause(time)) && Linked(g') && g'.at == g.at && |g'.its| == |g.its|
    ensures g'.its[g.at.turn] == Apply(g.its[g.at.turn], Tick(time))
  {
    Later(g, time);
    g' := Act(g, Pause(time));
    hide Apply, Enabled, Least;
  }

  lemma SteppedGroup(g: Group, step: Step) returns (g': Group)
    requires Linked(g) && g.at.Working? && Enabled(g.its[g.at.turn], step) && InTurn(step)
    requires Apply(g.its[g.at.turn], step).phase != Top
    ensures Possible(g, Move.Pass(step)) && g' == Act(g, Move.Pass(step)) && Linked(g') && g'.at == g.at
    ensures |g'.its| == |g.its| && g'.its[g.at.turn] == Apply(g.its[g.at.turn], step)
  {
    LinkedPass(g, step);
    g' := Act(g, Move.Pass(step));
    hide Apply, Enabled, Linked, Least;
  }

  lemma GoesOnInTurn(s: State, step: Step)
    requires Enabled(s, step) && InTurn(step) && Apply(s, step).phase != Top
    ensures !Concludes(step)
  {
  }

  // ----- The whole round -----------------------------------------------------------------------

  /** Each pass chooses its leases no earlier than the one before it was over, and its calls start in sequence. */
  ghost predicate RoundInTime(from: Time, clocks: seq<Time>, passes: seq<Pass>, k: nat)
    requires k <= |passes| <= |clocks|
    decreases |passes| - k
  {
    k < |passes| ==>
      && from <= clocks[k] && InSequence(clocks[k], passes[k].calls)
      && RoundInTime(TurnEnd(from, clocks[k], passes[k]), clocks, passes, k + 1)
  }

  /** The iterators whose turn is still to come have merged this, and have these processing times. */
  ghost predicate StillToCome(g: Group, views: seq<Queues>, samples: seq<seq<nat>>, k: nat) {
    && |g.its| == |views| == |samples|
    && forall i :: k <= i < |g.its| ==>
         g.its[i].phase == Merged && g.its[i].q == views[i] && g.its[i].h.samples == samples[i]
  }

  /** The iterators whose turn is over wish what their passes said. */
  ghost predicate Wished(g: Group, passes: seq<Pass>, k: nat) {
    k <= |g.its| && k <= |passes|
    && forall i :: 0 <= i < k ==> passes[i].result.Sleep? && Wish(g.its[i]) == passes[i].result.time
  }

  ghost predicate Covered(views: seq<Queues>, orders: seq<seq<AckId>>) {
    && |orders| == |views|
    && forall i :: 0 <= i < |views| ==> Enumerates(orders[i], views[i].keepAlive.Keys + views[i].acks + views[i].nacks)
  }

  lemma TurnOf(views: seq<Queues>, samples: seq<seq<nat>>, orders: seq<seq<AckId>>, clocks: seq<Time>,
               script: seq<Call>, passes: seq<Pass>, k: nat)
    requires |samples| == |orders| == |clocks| == |views| && E.AreTurns(views, samples, orders, clocks, script, passes)
    requires k < |passes|
    ensures |passes| <= |views| && (k + 1 < |passes| ==> passes[k].result.Sleep?)
    ensures IsPass(views[k], samples[k], orders[k], clocks[k], E.ScriptAfter(script, passes[..k]), passes[k])
  {
  }

  /** One turn of the round. */
  lemma OneTurn(g: Group, q: Queues, order: seq<AckId>, now: Time, script: seq<Call>, p: Pass)
    returns (moves: seq<Move>, g': Group, t: State)
    requires Linked(g) && g.at.Working? && g.its[g.at.turn].phase == Merged && g.its[g.at.turn].q == q
    requires IsPass(q, g.its[g.at.turn].h.samples, order, now, script, p) && p.result != StillSending
    requires Enumerates(order, q.keepAlive.Keys + q.acks + q.nacks) && g.now <= now && InSequence(now, p.calls)
    ensures GroupLeads(g, moves, g') && TurnPassed(g, g', g.at.turn, t, p.result.Sleep?)
    ensures t.q == PassQueues(q, p) && t.now == TurnEnd(g.now, now, p)
    ensures p.result.Sleep? ==> Wish(t) == p.result.time
  {
    hide IsPass, PassQueues, OfTurn, Leads, InSequence, GroupLeads, TurnPassed;
    var steps;
    steps, t := PassIsRun(g.its[g.at.turn], order, now, script, p);
    moves, g' := TurnLifts(g, steps, t, p.result.Sleep?);
  }

  lemma AfterOne(g: Group, g': Group, views: seq<Queues>, samples: seq<seq<nat>>, passes: seq<Pass>, k: nat, t: State)
    requires k < |passes| && k < |g.its| && StillToCome(g, views, samples, k) && Wished(g, passes, k)
    requires TurnPassed(g, g', k, t, passes[k].result.Sleep?) && t.q == PassQueues(views[k], passes[k])
    requires passes[k].result.Sleep? ==> Wish(t) == passes[k].result.time
    ensures |g'.its| == |g.its|
    ensures passes[k].result.Sleep? ==> StillToCome(g', views, samples, k + 1) && Wished(g', passes, k + 1)
    ensures forall i :: 0 <= i < |g.its| ==>
              g'.its[i].q == if i == k then PassQueues(views[k], passes[k]) else g.its[i].q
  {
    hide PassQueues, Linked, Least;
  }

  /** Where a round is when the turn of this iterator begins. */
  ghost predicate AtTurnOf(g: Group, views: seq<Queues>, samples: seq<seq<nat>>, clocks: seq<Time>, passes: seq<Pass>,
                           k: nat)
    requires |passes| <= |clocks|
  {
    && k < |passes| && Linked(g) && g.at == Working(k) && StillToCome(g, views, samples, k) && Wished(g, passes, k)
    && RoundInTime(g.now, clocks, passes, k)
  }

  /** Where it is when it is over. */
  ghost predicate RoundOver(g: Group, passes: seq<Pass>, n: nat)
    requires passes != []
  {
    && Linked(g) && g.at == AtTop && |g.its| == n
    && if passes[|passes| - 1].result.Sleep?
       then Wished(g, passes, n) && g.sleep == Least(g.its) && (g.needSleep <==> g.sleep != SO_MANY)
       else !g.needSleep
  }

  lemma NextOrOver(g: Group, g': Group, views: seq<Queues>, samples: seq<seq<nat>>, clocks: seq<Time>,
                   passes: seq<Pass>, k: nat, t: State)
    requires |passes| <= |clocks| == |views| && AtTurnOf(g, views, samples, clocks, passes, k)
    requires k + 1 < |passes| ==> passes[k].result.Sleep?
    requires |passes| == |views| || !passes[|passes| - 1].result.Sleep?
    requires TurnPassed(g, g', k, t, passes[k].result.Sleep?) && t.q == PassQueues(views[k], passes[k])
    requires t.now == TurnEnd(g.now, clocks[k], passes[k])
    requires passes[k].result.Sleep? ==> Wish(t) == passes[k].result.time
    ensures |g'.its| == |g.its| == |views|
    ensures if k + 1 < |passes| then AtTurnOf(g', views, samples, clocks, passes, k + 1)
            else RoundOver(g', passes, |views|)
    ensures forall i :: 0 <= i < |g.its| ==>
              g'.its[i].q == if i == k then PassQueues(views[k], passes[k]) else g.its[i].q
  {
    AfterOne(g, g', views, samples, passes, k, t);
    hide PassQueues, Linked, Least, StillToCome, Wished;
  }

  lemma TurnOfRound(g: Group, views: seq<Queues>, samples: seq<seq<nat>>, orders: seq<seq<AckId>>, clocks: seq<Time>,
                    script: seq<Call>, passes: seq<Pass>, k: nat) returns (moves: seq<Move>, g': Group)
    requires |samples| == |orders| == |clocks| == |views| && E.AreTurns(views, samples, orders, clocks, script, passes)
    requires k < |passes| <= |views| && passes[|passes| - 1].result != StillSending
    requires |passes| == |views| || !passes[|passes| - 1].result.Sleep?
    requires Covered(views, orders) && AtTurnOf(g, views, samples, clocks, passes, k)
    ensures GroupLeads(g, moves, g') && |g'.its| == |g.its| == |views|
    ensures if k + 1 < |passes| then AtTurnOf(g', views, samples, clocks, passes, k + 1)
            else RoundOver(g', passes, |views|)
    ensures forall i :: 0 <= i < |g.its| ==>
              g'.its[i].q == if i == k then PassQueues(views[k], passes[k]) else g.its[i].q
  {
    TurnOf(views, samples, orders, clocks, script, passes, k);
    hide E.AreTurns, IsPass, PassQueues, Least, GroupLeads, E.ScriptAfter, InSequence, TurnPassed;
    var t;
    moves, g', t := OneTurn(g, views[k], orders[k], clocks[k], E.ScriptAfter(script, passes[..k]), passes[k]);
    NextOrOver(g, g', views, samples, clocks, passes, k, t);
  }

  lemma {:induction false} RoundLifts(g: Group, views: seq<Queues>, samples: seq<seq<nat>>, orders: seq<seq<AckId>>,
                                      clocks: seq<Time>, script: seq<Call>, passes: seq<Pass>, k: nat)
    returns (moves: seq<Move>, g': Group)
    requires |samples| == |orders| == |clocks| == |views| && E.AreTurns(views, samples, orders, clocks, script, passes)
    requires k < |passes| <= |views| && passes[|passes| - 1].result != StillSending
    requires |passes| == |views| || !passes[|passes| - 1].result.Sleep?
    requires Covered(views, orders) && AtTurnOf(g, views, samples, clocks, passes, k)
    ensures GroupLeads(g, moves, g') && RoundOver(g', passes, |views|) && |g.its| == |views|
    ensures forall i :: 0 <= i < |g.its| ==>
              g'.its[i].q == if k <= i < |passes| then PassQueues(views[i], passes[i]) else g.its[i].q
    decreases |passes| - k
  {
    hide E.AreTurns, IsPass, PassQueues, GroupLeads, Covered, RoundOver, AtTurnOf;
    moves, g' := TurnOfRound(g, views, samples, orders, clocks, script, passes, k);
    if k + 1 < |passes| {
      var g1, more := g', [];
      more, g' := RoundLifts(g1, views, samples, orders, clocks, script, passes, k + 1);
      GroupJoin(g, moves, g1, more, g');
      moves := moves + more;
    }
  }

  lemma LeastIsResult(its: seq<State>, passes: seq<Pass>, sleep: Time)
    requires E.IsResult(Sleep(sleep), passes, |its|) && |passes| == |its|
    requires forall i :: 0 <= i < |its| ==> passes[i].result.Sleep? && Wish(its[i]) == passes[i].result.time
    ensures Least(its) == sleep
  {
    if Least(its) != SO_MANY {
      var i :| 0 <= i < |its| && Least(its) == Wish(its[i]);
      assert sleep <= passes[i].result.time;
    }
    if sleep != SO_MANY {
      var k :| 0 <= k < |its| && passes[k].result == Sleep(sleep);
      assert Least(its) <= Wish(its[k]);
    }
  }

  /** What the iterators hold, and the processing times they have recorded. */
  ghost predicate Shows(g: Group, views: seq<Queues>, samples: seq<seq<nat>>) {
    |g.its| == |views| == |samples|
    && forall i :: 0 <= i < |g.its| ==> g.its[i].q == views[i] && g.its[i].h.samples == samples[i]
  }

  /** From a group that may merge, what one round of the ack thread does to the containers of all its iterators, as its
      methods carry it out, and how long it then means to sleep, is what a run of the group does; a throw included. */
  lemma RoundIsGroupRun(g: Group, views: seq<Queues>, samples: seq<seq<nat>>, orders: seq<seq<AckId>>,
                        clocks: seq<Time>, script: seq<Call>, passes: seq<Pass>, sleep: Time)
    returns (moves: seq<Move>, g': Group)
    requires Linked(g) && Possible(g, MergeAll) && Shows(g, views, samples) && E.OrdersCover(views, orders)
    requires |samples| == |orders| == |clocks| == |views|
    requires E.AreTurns(E.Merged(views), samples, orders, clocks, script, passes) && passes != []
    requires passes[|passes| - 1].result != StillSending && RoundInTime(g.now, clocks, passes, 0)
    requires if passes[|passes| - 1].result.Sleep? then E.IsResult(Sleep(sleep), passes, |views|) else sleep == SO_MANY
    ensures GroupLeads(g, moves, g') && g'.at == AtTop && |g'.its| == |views|
    ensures forall i :: 0 <= i < |views| ==> g'.its[i].q == E.AfterTurns(E.Merged(views), passes)[i]
    ensures (g'.needSleep <==> sleep != SO_MANY) && (g'.needSleep ==> g'.sleep == sleep)
  {
    var merged, g1 := E.Merged(views), Act(g, MergeAll);
    MergedGroup(g, views, samples);
    MergedLength(views, orders);
    TurnOfLast(merged, samples, orders, clocks, script, passes);
    assert AtTurnOf(g1, merged, samples, clocks, passes, 0);
    hide Act, E.AreTurns, E.OrdersCover, PassQueues, GroupLeads, Possible, Least, Covered, RoundInTime, StillToCome,
         Linked, Shows, E.IsResult, E.Merged, AtTurnOf;
    moves, g' := RoundLifts(g1, merged, samples, orders, clocks, script, passes, 0);
    GroupPrefix(g, MergeAll, moves, g');
    moves := [MergeAll] + moves;
    if passes[|passes| - 1].result.Sleep? {
      WishedIsResult(g'.its, g', passes, sleep);
    }
  }

  lemma MergedLength(views: seq<Queues>, orders: seq<seq<AckId>>)
    requires E.OrdersCover(views, orders)
    ensures |E.Merged(views)| == |views| && Covered(E.Merged(views), orders)
  {
    E.MergedCovers(views, orders);
    CoveredByOrders(E.Merged(views), orders);
    hide Covered, E.OrdersCover;
  }

  lemma WishedIsResult(its: seq<State>, g: Group, passes: seq<Pass>, sleep: Time)
    requires g.its == its && Wished(g, passes, |its|) && E.IsResult(Sleep(sleep), passes, |its|)
    ensures Least(its) == sleep
  {
    LeastIsResult(its, passes, sleep);
  }

  lemma TurnOfLast(views: seq<Queues>, samples: seq<seq<nat>>, orders: seq<seq<AckId>>, clocks: seq<Time>,
                   script: seq<Call>, passes: seq<Pass>)
    requires |samples| == |orders| == |clocks| == |views| && E.AreTurns(views, samples, orders, clocks, script, passes)
    ensures |passes| <= |views|
  {
  }

  lemma CoveredByOrders(views: seq<Queues>, orders: seq<seq<AckId>>)
    requires E.OrdersCover(views, orders)
    ensures Covered(views, orders)
  {
    forall i | 0 <= i < |views|
      ensures Enumerates(orders[i], views[i].keepAlive.Keys + views[i].acks + views[i].nacks)
    {
      E.CoversTurn(views[i], orders[i]);
    }
  }

  lemma MergedGroup(g: Group, views: seq<Queues>, samples: seq<seq<nat>>)
    requires Linked(g) && Possible(g, MergeAll) && Shows(g, views, samples)
    ensures var g' := Act(g, MergeAll);
            && Linked(g') && g'.at == Working(0) && g'.now == g.now && |g'.its| == |views|
            && StillToCome(g', E.Merged(views), samples, 0)
  {
    LinkedMerge(g);
    forall i | 0 <= i < |g.its|
      ensures Joined(g.its[i]).phase == Merged && Joined(g.its[i]).q == views[i].Merge()
      ensures Joined(g.its[i]).h.samples == samples[i]
    {
      JoinedIs(g.its[i]);
      JoinedKeepsHistory(g.its[i]);
    }
    hide Joined, Linked;
  }

  lemma JoinedKeepsHistory(s: State)
    ensures Joined(s).h == s.h
  {
  }

  // ----- The whole loop ------------------------------------------------------------------------

  /** The group waits, times out and merges exactly when the ack thread does: it waits if a sleep is wanted or nothing
      is held, and otherwise merges at once; and only an idle wait can time out in vain. */
  lemma WaitsAlike(g: Group, views: seq<Queues>, samples: seq<seq<nat>>)
    requires Shows(g, views, samples)
    ensures var waits := g.needSleep || forall i :: 0 <= i < |views| ==> views[i].Held() == {};
            && (g.at == AtTop ==> (Possible(g, Doze) <==> waits) && (Possible(g, MergeAll) <==> |views| > 0 && !waits))
            && (g.at == Asleep ==> (Possible(g, Stir) <==> !g.needSleep) && (Possible(g, MergeAll) <==> |views| > 0))
  {
    forall i | 0 <= i < |views|
      ensures views[i].Held() == {} <==> Idle(g.its[i].q)
    {
      E.NothingHeld(views[i]);
    }
    hide Queues.Held, Idle;
  }

  lemma DozeAlike(g: Group) returns (g': Group)
    requires Linked(g) && Possible(g, Doze)
    ensures g' == Act(g, Doze) && g' == g.(at := Asleep) && Linked(g')
  {
    g' := Act(g, Doze);
  }

  lemma PausePossible(g: Group, time: nat)
    ensures Possible(g, Pause(time))
  {
  }

  /** Falling asleep and sleeping on. */
  lemma FallAsleep(g: Group, views: seq<Queues>, samples: seq<seq<nat>>, slept: nat)
    returns (moves: seq<Move>, g': Group)
    requires Linked(g) && g.at == AtTop && Shows(g, views, samples) && Possible(g, Doze)
    ensures GroupLeads(g, moves, g') && Linked(g') && Shows(g', views, samples)
    ensures g'.at == Asleep && g'.now == g.now + slept && g'.needSleep == g.needSleep && g'.sleep == g.sleep
  {
    var m := DozeAlike(g);
    hide Act, Possible, Least, GroupLeads, Linked;
    LaterKeeps(m, slept);
    g' := Act(m, Pause(slept));
    NoMoves(g');
    PausePossible(m, slept);
    GroupPrefix(m, Pause(slept), [], g');
    GroupPrefix(g, Doze, [Pause(slept)] + [], g');
    moves := [Doze] + ([Pause(slept)] + []);
  }

  /** What the ack thread does before its second section: it waits, or goes on at once. */
  lemma WaitRun(g: Group, waited: bool, slept: nat, views: seq<Queues>, samples: seq<seq<nat>>)
    returns (moves: seq<Move>, g': Group)
    requires Linked(g) && g.at == AtTop && Shows(g, views, samples) && |views| > 0 && (!waited ==> slept == 0)
    requires waited <==> g.needSleep || forall i :: 0 <= i < |views| ==> views[i].Held() == {}
    ensures GroupLeads(g, moves, g') && Linked(g') && Shows(g', views, samples) && Possible(g', MergeAll)
    ensures g'.at == (if waited then Asleep else AtTop) && g'.now == g.now + slept && g'.needSleep == g.needSleep
  {
    WaitsAlike(g, views, samples);
    hide Possible, GroupLeads, Least, Linked, Shows, Queues.Held, Act;
    if waited {
      moves, g' := FallAsleep(g, views, samples, slept);
      WaitsAlike(g', views, samples);
    } else {
      moves, g' := [], g;
      NoMoves(g);
    }
  }

  lemma StirredRun(g: Group, views: seq<Queues>, samples: seq<seq<nat>>) returns (moves: seq<Move>, g': Group)
    requires Linked(g) && g.at == Asleep && !g.needSleep && Shows(g, views, samples)
    ensures GroupLeads(g, moves, g') && Linked(g') && g'.at == AtTop && Shows(g', views, samples)
    ensures !g'.needSleep && g'.now == g.now
  {
    g' := Act(g, Stir);
    NoMoves(g');
    GroupPrefix(g, Stir, [], g');
    moves := [Stir] + [];
  }

  /** One iteration of the loop of the ack thread, as its two sections carry it out, is what a run of the group does. It
      waits exactly if a sleep is wanted or no iterator holds anything; when such a wait was idle and has timed out,
      nothing changes but the clock. */
  lemma IdleWaitIsGroupRun(g: Group, slept: nat, views: seq<Queues>, samples: seq<seq<nat>>)
    returns (moves: seq<Move>, g': Group)
    requires Linked(g) && g.at == AtTop && Shows(g, views, samples) && |views| > 0
    requires !g.needSleep && forall i :: 0 <= i < |views| ==> views[i].Held() == {}
    ensures GroupLeads(g, moves, g') && Linked(g') && g'.at == AtTop && Shows(g', views, samples)
    ensures !g'.needSleep && g'.now == g.now + slept
  {
    hide Possible, GroupLeads, Linked, Shows, Queues.Held, Act;
    var m, more;
    moves, m := WaitRun(g, true, slept, views, samples);
    more, g' := StirredRun(m, views, samples);
    GroupJoin(g, moves, m, more, g');
    moves := moves + more;
  }

  /** Otherwise there is a round, at once or when the wait is over. */
  lemma IterationIsGroupRun(g: Group, waited: bool, slept: nat, views: seq<Queues>, samples: seq<seq<nat>>,
                            orders: seq<seq<AckId>>, clocks: seq<Time>, script: seq<Call>, passes: seq<Pass>,
                            sleep: Time)
    returns (moves: seq<Move>, g': Group)
    requires Linked(g) && g.at == AtTop && Shows(g, views, samples) && E.OrdersCover(views, orders) && |views| > 0
    requires waited <==> g.needSleep || forall i :: 0 <= i < |views| ==> views[i].Held() == {}
    requires !waited ==> slept == 0
    requires |samples| == |orders| == |clocks| == |views|
    requires E.AreTurns(E.Merged(views), samples, orders, clocks, script, passes) && passes != []
    requires passes[|passes| - 1].result != StillSending && RoundInTime(g.now + slept, clocks, passes, 0)
    requires if passes[|passes| - 1].result.Sleep? then E.IsResult(Sleep(sleep), passes, |views|) else sleep == SO_MANY
    ensures GroupLeads(g, moves, g') && g'.at == AtTop && |g'.its| == |views|
    ensures forall i :: 0 <= i < |views| ==> g'.its[i].q == E.AfterTurns(E.Merged(views), passes)[i]
    ensures (g'.needSleep <==> sleep != SO_MANY) && (g'.needSleep ==> g'.sleep == sleep)
  {
    hide Possible, GroupLeads, Linked, Shows, Queues.Held, Act, E.AreTurns, E.OrdersCover, RoundInTime, E.IsResult,
         E.Merged, E.AfterTurns;
    var m, more;
    moves, m := WaitRun(g, waited, slept, views, samples);
    more, g' := RoundIsGroupRun(m, views, samples, orders, clocks, script, passes, sleep);
    GroupJoin(g, moves, m, more, g');
    moves := moves + more;
  }
}
