/** The ack thread: when it waits, and what it does when it wakes. */
module Executor {
  import opened Types
  import opened Batching
  import opened Queues
  import opened Iterator

  /** Why the wait on the condition ended. */
  datatype Wake = TimedOut | Notified

  // ----- The turns of a round ------------------------------------------------------------------

  ghost predicate Active(active: seq<ModAckIterator>)
    reads active, set it | it in active :: it.ackDist, set it | it in active :: it.ackDist.hist
  {
    Distinct(active) && forall i :: 0 <= i < |active| ==> active[i].Valid()
  }

  ghost function Views(active: seq<ModAckIterator>): (views: seq<Queues>)
    reads active
    ensures |views| == |active| && forall i :: 0 <= i < |active| ==> views[i] == active[i].View()
  {
    seq(|active|, i requires 0 <= i < |active| reads active => active[i].View())
  }

  /** The processing times each iterator has recorded. */
  ghost function Samples(active: seq<ModAckIterator>): (samples: seq<seq<nat>>)
    reads active, set it | it in active :: it.ackDist
    ensures |samples| == |active| && forall i :: 0 <= i < |active| ==> samples[i] == active[i].ackDist.samples
  {
    seq(|active|, i requires 0 <= i < |active|
        reads active, set it | it in active :: it.ackDist =>
        active[i].ackDist.samples)
  }

  /** The calls left after these passes, made one after the other. */
  ghost function ScriptAfter(script: seq<Call>, passes: seq<Pass>): seq<Call> {
    if passes == [] then script
    else var n := |passes| - 1; PassScript(ScriptAfter(script, passes[..n]), passes[n])
  }

  ghost function RequestsAfter(requests: seq<Request>, passes: seq<Pass>): seq<Request> {
    if passes == [] then requests
    else var n := |passes| - 1; PassRequests(RequestsAfter(requests, passes[..n]), passes[n])
  }

  /** The iterators take their turns, with the calls the ones before them have left; each turn but the last comes to its
      end, and if the last does not, it is because a call failed, and the iterators after it get no turn. */
  ghost predicate AreTurns(views: seq<Queues>, samples: seq<seq<nat>>, orders: seq<seq<AckId>>, clocks: seq<Time>,
                           script: seq<Call>, passes: seq<Pass>)
    requires |samples| == |orders| == |clocks| == |views|
  {
    && |passes| <= |views|
    && (forall k :: 0 <= k < |passes| ==>
          IsPass(views[k], samples[k], orders[k], clocks[k], ScriptAfter(script, passes[..k]), passes[k]))
    && (forall k :: 0 <= k < |passes| - 1 ==> passes[k].result.Sleep?)
  }

  /** The containers after a round: those whose turn did not come are as they were. */
  ghost function AfterTurns(views: seq<Queues>, passes: seq<Pass>): seq<Queues> {
    seq(|views|, i requires 0 <= i < |views| => if i < |passes| then PassQueues(views[i], passes[i]) else views[i])
  }

  /** The least of the times the turns ask for, when they all came to their end; otherwise how the last one failed. */
  ghost predicate IsResult(result: PassResult, passes: seq<Pass>, n: nat) {
    match result
    case Sleep(time) =>
      && |passes| == n && time <= SO_MANY
      && (forall k :: 0 <= k < n ==> passes[k].result.Sleep? && time <= passes[k].result.time)
      && (time == SO_MANY || exists k :: 0 <= k < n && passes[k].result == result)
    case _ => 0 < |passes| <= n && passes[|passes| - 1].result == result
  }

  ghost predicate Covers(order: seq<AckId>, q: Queues) {
    Enumerates(order, q.Held() + q.acks + q.nacks)
  }

  /** An order for each iterator covers what it has to send and to extend. */
  ghost predicate OrdersCover(views: seq<Queues>, orders: seq<seq<AckId>>) {
    |orders| == |views| && forall i :: 0 <= i < |views| ==> Covers(orders[i], views[i])
  }

  /** What a round has done so far, one pass for each turn. */
  ghost predicate RoundSoFar(views: seq<Queues>, samples: seq<seq<nat>>, orders: seq<seq<AckId>>, clocks: seq<Time>,
                             script: seq<Call>, requests: seq<Request>, passes: seq<Pass>, views': seq<Queues>,
                             script': seq<Call>, requests': seq<Request>)
    requires |samples| == |orders| == |clocks| == |views|
  {
    && AreTurns(views, samples, orders, clocks, script, passes) && views' == AfterTurns(views, passes)
    && script' == ScriptAfter(script, passes) && requests' == RequestsAfter(requests, passes)
  }

  lemma RoundStarts(views: seq<Queues>, samples: seq<seq<nat>>, orders: seq<seq<AckId>>, clocks: seq<Time>,
                    script: seq<Call>, requests: seq<Request>)
    requires |samples| == |orders| == |clocks| == |views|
    ensures RoundSoFar(views, samples, orders, clocks, script, requests, [], views, script, requests)
    ensures IsResult(Sleep(SO_MANY), [], 0)
  {
  }

  lemma OneMoreTurn(views: seq<Queues>, samples: seq<seq<nat>>, orders: seq<seq<AckId>>, clocks: seq<Time>,
                    script: seq<Call>, requests: seq<Request>, passes: seq<Pass>, views': seq<Queues>,
                    script': seq<Call>, requests': seq<Request>, sleep: Time, p: Pass)
    requires |samples| == |orders| == |clocks| == |views| && |passes| < |views|
    requires RoundSoFar(views, samples, orders, clocks, script, requests, passes, views', script', requests')
    requires IsResult(Sleep(sleep), passes, |passes|)
    requires IsPass(views[|passes|], samples[|passes|], orders[|passes|], clocks[|passes|], script', p)
    ensures |views'| == |views| && views'[|passes|] == views[|passes|]
    ensures RoundSoFar(views, samples, orders, clocks, script, requests, passes + [p],
                       views'[|passes| := PassQueues(views[|passes|], p)], PassScript(script', p),
                       PassRequests(requests', p))
    ensures if p.result.Sleep?
            then IsResult(Sleep(if p.result.time < sleep then p.result.time else sleep), passes + [p], |passes| + 1)
            else IsResult(p.result, passes + [p], |views|)
  {
    hide IsPass, PassScript, PassRequests, PassQueues;
    var passes' := passes + [p];
    assert passes'[..|passes|] == passes;
    forall k | 0 <= k < |passes'|
      ensures IsPass(views[k], samples[k], orders[k], clocks[k], ScriptAfter(script, passes'[..k]), passes'[k])
    {
      if k < |passes| {
        assert passes'[..k] == passes[..k];
      }
    }
    if p.result.Sleep? {
      TimesExtend(passes, p, sleep);
    }
  }

  lemma TimesExtend(passes: seq<Pass>, p: Pass, sleep: Time)
    requires IsResult(Sleep(sleep), passes, |passes|) && p.result.Sleep?
    ensures IsResult(Sleep(if p.result.time < sleep then p.result.time else sleep), passes + [p], |passes| + 1)
  {
    var passes', sleep' := passes + [p], if p.result.time < sleep then p.result.time else sleep;
    if sleep' != SO_MANY {
      if sleep' == sleep {
        var k :| 0 <= k < |passes| && passes[k].result == Sleep(sleep);
        assert passes'[k].result == Sleep(sleep');
      } else {
        assert passes'[|passes|].result == Sleep(sleep');
      }
    }
  }

  lemma CoverAt(views: seq<Queues>, orders: seq<seq<AckId>>, i: nat)
    requires OrdersCover(views, orders) && i < |views|
    ensures |orders| == |views| && Covers(orders[i], views[i])
  {
  }

  lemma CoversTurn(q: Queues, order: seq<AckId>)
    requires Covers(order, q)
    ensures Enumerates(order, q.keepAlive.Keys + q.acks + q.nacks)
  {
  }

  /** One turn, which changes no other iterator. */
  method Turn(active: seq<ModAckIterator>, i: nat, subscriber: Subscriber, order: seq<AckId>, now: Time)
    returns (result: PassResult, ghost p: Pass)
    requires Active(active) && i < |active|
    requires Covers(order, active[i].View())
    modifies subscriber, active[i]
    ensures Active(active)
            && IsPass(old(active[i].View()), active[i].ackDist.samples, order, now, old(subscriber.script), p)
            && result == p.result
    ensures Views(active) == old(Views(active))[i := PassQueues(old(active[i].View()), p)]
    ensures Samples(active) == old(Samples(active)) && active[i].ackDist.samples == Samples(active)[i]
    ensures subscriber.script == PassScript(old(subscriber.script), p)
    ensures subscriber.requests == PassRequests(old(subscriber.requests), p)
  {
    hide IsPass, PassQueues, PassScript, PassRequests;
    CoversTurn(active[i].View(), order);
    ghost var views := Views(active);
    result, p := active[i].ProcessModAcks(subscriber, order, now);
    assert forall j :: 0 <= j < |active| && j != i ==> active[j] != active[i] && active[j].View() == views[j];
  }

  /** One round: every active iterator takes its turn, until one of them throws. */
  method ProcessModAcks(active: seq<ModAckIterator>, subscriber: Subscriber, orders: seq<seq<AckId>>, clocks: seq<Time>)
    returns (result: PassResult, ghost passes: seq<Pass>)
    requires Active(active) && OrdersCover(Views(active), orders) && |orders| == |clocks| == |active|
    modifies subscriber, active
    ensures Active(active)
            && AreTurns(old(Views(active)), Samples(active), orders, clocks, old(subscriber.script), passes)
    ensures Views(active) == AfterTurns(old(Views(active)), passes)
    ensures subscriber.script == ScriptAfter(old(subscriber.script), passes)
    ensures subscriber.requests == RequestsAfter(old(subscriber.requests), passes)
    ensures IsResult(result, passes, |active|)
  {
    ghost var views, script, requests := Views(active), subscriber.script, subscriber.requests;
    ghost var samples := Samples(active);
    var sleep := SO_MANY;
    passes := [];
    RoundStarts(views, samples, orders, clocks, script, requests);
    hide OrdersCover, RoundSoFar, IsResult, IsPass, PassQueues, PassScript, PassRequests, Covers, Active, AreTurns,
         AfterTurns, ScriptAfter, RequestsAfter;
    for i := 0 to |active|
      invariant Active(active) && |passes| == i && Samples(active) == samples
      invariant RoundSoFar(views, samples, orders, clocks, script, requests, passes, Views(active), subscriber.script,
                           subscriber.requests)
      invariant IsResult(Sleep(sleep), passes, i)
    {
      ghost var views', script', requests' := Views(active), subscriber.script, subscriber.requests;
      Unturned(views, samples, orders, clocks, script, requests, passes, views', script', requests');
      CoverAt(views, orders, i);
      var ms, p := Turn(active, i, subscriber, orders[i], clocks[i]);
      OneMoreTurn(views, samples, orders, clocks, script, requests, passes, views', script', requests', sleep, p);
      passes := passes + [p];
      if !ms.Sleep? {
        RoundIs(views, samples, orders, clocks, script, requests, passes, Views(active),
            subscriber.script, subscriber.requests);
        return ms, passes;
      }
      sleep := if ms.time < sleep then ms.time else sleep;
    }
    RoundIs(views, samples, orders, clocks, script, requests, passes, Views(active),
            subscriber.script, subscriber.requests);
    result := Sleep(sleep);
  }

  lemma Unturned(views: seq<Queues>, samples: seq<seq<nat>>, orders: seq<seq<AckId>>, clocks: seq<Time>,
                 script: seq<Call>, requests: seq<Request>, passes: seq<Pass>, views': seq<Queues>, script': seq<Call>,
                 requests': seq<Request>)
    requires |samples| == |orders| == |clocks| == |views|
    requires RoundSoFar(views, samples, orders, clocks, script, requests, passes, views', script', requests')
    ensures |views'| == |views| && forall i :: |passes| <= i < |views| ==> views'[i] == views[i]
  {
  }

  lemma RoundIs(views: seq<Queues>, samples: seq<seq<nat>>, orders: seq<seq<AckId>>, clocks: seq<Time>,
                script: seq<Call>, requests: seq<Request>, passes: seq<Pass>, views': seq<Queues>, script': seq<Call>,
                requests': seq<Request>)
    requires |samples| == |orders| == |clocks| == |views|
    requires RoundSoFar(views, samples, orders, clocks, script, requests, passes, views', script', requests')
    ensures AreTurns(views, samples, orders, clocks, script, passes) && views' == AfterTurns(views, passes)
    ensures script' == ScriptAfter(script, passes) && requests' == RequestsAfter(requests, passes)
  {
  }

  lemma ResultTells(result: PassResult, passes: seq<Pass>, n: nat)
    requires IsResult(result, passes, n)
    ensures result.Sleep? <==> forall k :: 0 <= k < |passes| ==> passes[k].result.Sleep?
  {
  }

  // ----- The loop ------------------------------------------------------------------------------

  /** The rounds of the ack thread over its active iterators. A round is two critical sections with a wait between them,
      during which other threads go on watching and completing ids. */
  class AckThread {
    const active: seq<ModAckIterator>
    var sleep: Time
    var needSleep: bool

    constructor (active: seq<ModAckIterator>)
      ensures this.active == active && sleep == SO_MANY && !needSleep
    {
      this.active := active;
      sleep, needSleep := SO_MANY, false;
    }

    /** The first section: whether to wait, and for how long. After a pass that found nothing due the thread waits
        whatever is in the input; otherwise only when no iterator has input or a lease. */
    method BeforeWait() returns (wait: Option<Time>)
      modifies this`sleep
      ensures sleep == if old(sleep) == SO_MANY then 500 else old(sleep)
      ensures wait.Some? <==> needSleep || forall i :: 0 <= i < |active| ==> active[i].View().Held() == {}
      ensures wait.Some? ==> wait.value == sleep
    {
      if sleep == SO_MANY {
        sleep := 500;
      }
      var keepAliveCount, inputCount := 0, 0;
      for i := 0 to |active|
        invariant keepAliveCount >= 0
        invariant keepAliveCount == 0 <==> forall j :: 0 <= j < i ==> active[j].keepAliveAckIDs == map[]
      {
        keepAliveCount := keepAliveCount + |active[i].keepAliveAckIDs|;
      }
      for i := 0 to |active|
        invariant inputCount >= 0
        invariant inputCount == 0 <==> forall j :: 0 <= j < i ==> active[j].inputAckIDs == map[]
      {
        inputCount := inputCount + |active[i].inputAckIDs|;
      }
      forall i | 0 <= i < |active|
        ensures active[i].View().Held() == {} <==> active[i].keepAliveAckIDs == map[] && active[i].inputAckIDs == map[]
      {
        NothingHeld(active[i].View());
      }
      wait := if needSleep || (inputCount == 0 && keepAliveCount == 0) then Some(sleep) else None;
    }

    /** The second section and the round: an idle wait that timed out changes nothing; otherwise every input is merged
        and one round runs. Afterwards the thread sleeps exactly if the round says so, and a call that fails means no
        sleep. */
    method AfterWait(waited: bool, wake: Wake, subscriber: Subscriber, orders: seq<seq<AckId>>, clocks: seq<Time>)
      returns (ghost round: Option<seq<Pass>>)
      requires Active(active) && OrdersCover(Views(active), orders) && |clocks| == |active|
      modifies this`sleep, this`needSleep, subscriber, active
      ensures Active(active)
      ensures round.None? <==> waited && !old(needSleep) && wake == TimedOut
      ensures round.None? ==> Views(active) == old(Views(active)) && sleep == old(sleep) && needSleep == old(needSleep)
                              && subscriber.requests == old(subscriber.requests)
                              && subscriber.script == old(subscriber.script)
      ensures round.Some? ==>
                var merged := Merged(old(Views(active)));
                && AreTurns(merged, Samples(active), orders, clocks, old(subscriber.script), round.value)
                && Views(active) == AfterTurns(merged, round.value)
                && subscriber.requests == RequestsAfter(old(subscriber.requests), round.value)
                && subscriber.script == ScriptAfter(old(subscriber.script), round.value)
                && (needSleep <==> sleep != SO_MANY)
                && if forall k :: 0 <= k < |round.value| ==> round.value[k].result.Sleep?
                   then IsResult(Sleep(sleep), round.value, |active|)
                   else sleep == SO_MANY
    {
      hide AreTurns, AfterTurns, Active, IsResult, ScriptAfter, RequestsAfter, OrdersCover, Merged;
      if waited && !needSleep && wake == TimedOut {
        return None;
      }
      MergeInputs();
      MergedCovers(old(Views(active)), orders);
      needSleep, sleep := false, SO_MANY;
      var result, passes := ProcessModAcks(active, subscriber, orders, clocks);
      ResultTells(result, passes, |active|);
      if result.Sleep? {
        sleep := result.time;
        needSleep := sleep != SO_MANY;
      }
      round := Some(passes);
    }

    method MergeInputs()
      requires Active(active)
      modifies active
      ensures Active(active) && Views(active) == Merged(old(Views(active)))
    {
      ghost var views := Views(active);
      for i := 0 to |active|
        invariant Active(active)
        invariant forall j :: 0 <= j < |active| ==> active[j].View() == if j < i then views[j].Merge() else views[j]
      {
        active[i].MergeInput();
      }
    }
  }

  ghost function Merged(views: seq<Queues>): seq<Queues> {
    seq(|views|, i requires 0 <= i < |views| => views[i].Merge())
  }

  lemma NothingHeld(q: Queues)
    ensures q.Held() == {} <==> q.input == map[] && q.keepAlive == map[]
  {
    assert q.Held() == {} ==> q.input.Keys == {} && q.keepAlive.Keys == {};
  }

  lemma MergedCovers(views: seq<Queues>, orders: seq<seq<AckId>>)
    requires OrdersCover(views, orders)
    ensures OrdersCover(Merged(views), orders)
  {
    forall i | 0 <= i < |views|
      ensures Merged(views)[i].Held() == views[i].Held()
    {
      assert views[i].Merge().keepAlive.Keys == views[i].input.Keys + views[i].keepAlive.Keys;
    }
  }
}
