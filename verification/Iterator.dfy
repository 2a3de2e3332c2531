/** The lease manager of one subscription: its containers, its passes, and the requests they make. */
module Iterator {
  import opened Types
  import opened Batching
  import opened Histogram
  import opened Queues

  // ----- The send loops, one batch at a time ---------------------------------------------------

  /** The sending after some batches have already gone out. */
  function Resumes(sent: seq<seq<AckId>>, r: Sending): Sending {
    r.(sent := sent + r.sent)
  }

  lemma OneMore(sent: seq<seq<AckId>>, remainder: seq<AckId>, script: seq<Call>)
    ensures Resumes([], SendAll(remainder, MAX_PAYLOAD, script)) == SendAll(remainder, MAX_PAYLOAD, script)
    ensures var r := Resumes(sent, SendAll(remainder, MAX_PAYLOAD, script));
            var k := Cut(remainder, MAX_PAYLOAD);
            if remainder == [] then r == Sending(Finished, sent, [], [])
            else if script == [] then r == Sending(Unfinished, sent, [], remainder)
            else if !script[0].ok then r == Sending(Threw, sent, remainder[..k], remainder[k..])
            else r == Resumes(sent + [remainder[..k]], SendAll(remainder[k..], MAX_PAYLOAD, script[1..]))
  {
    if remainder != [] && script != [] && script[0].ok {
      var k := Cut(remainder, MAX_PAYLOAD);
      var r := SendAll(remainder[k..], MAX_PAYLOAD, script[1..]);
      assert sent + ([remainder[..k]] + r.sent) == (sent + [remainder[..k]]) + r.sent;
    }
  }

  /** The loop after some batches: what it has sent, together with what it will do, is the whole. */
  ghost predicate Partway(ids: seq<AckId>, script: seq<Call>, remainder: seq<AckId>, sent: seq<seq<AckId>>) {
    && |sent| <= |script|
    && Resumes(sent, SendAll(remainder, MAX_PAYLOAD, script[|sent|..])) == SendAll(ids, MAX_PAYLOAD, script)
  }

  lemma PartwayStarts(ids: seq<AckId>, script: seq<Call>)
    ensures Partway(ids, script, ids, [])
  {
    OneMore([], ids, script);
    assert script[0..] == script;
  }

  lemma PartwayStep(ids: seq<AckId>, script: seq<Call>, remainder: seq<AckId>, sent: seq<seq<AckId>>)
    requires Partway(ids, script, remainder, sent)
    ensures var r := SendAll(ids, MAX_PAYLOAD, script);
            var k := Cut(remainder, MAX_PAYLOAD);
            if remainder == [] then r == Sending(Finished, sent, [], [])
            else if |sent| == |script| then r == Sending(Unfinished, sent, [], remainder)
            else if !script[|sent|].ok then r == Sending(Threw, sent, remainder[..k], remainder[k..])
            else Partway(ids, script, remainder[k..], sent + [remainder[..k]])
  {
    hide SendAll, Cut;
    OneMore(sent, remainder, script[|sent|..]);
    if remainder != [] && |sent| < |script| {
      assert script[|sent|..][0] == script[|sent|] && script[|sent|..][1..] == script[|sent| + 1..];
    }
  }

  // ----- The remote side -----------------------------------------------------------------------

  datatype Request = Acknowledge(ids: seq<AckId>) | ModifyAckDeadline(ids: seq<AckId>, seconds: nat)

  /** The stub: how its next retried calls will come out, and a record of the requests made. */
  class Subscriber {
    var script: seq<Call>
    var requests: seq<Request>

    /** None: the script is over, so nothing is known about this call. */
    method Invoke(request: Request) returns (call: Option<Call>)
      modifies this
      ensures old(script) == [] ==> call == None && script == [] && requests == old(requests)
      ensures old(script) != [] ==>
                call == Some(old(script)[0]) && script == old(script)[1..] && requests == old(requests) + [request]
    {
      if script == [] {
        return None;
      }
      call := Some(script[0]);
      script, requests := script[1..], requests + [request];
    }
  }

  /** Every batch for which a call was made. */
  function Tried(r: Sending): seq<seq<AckId>> {
    r.sent + if r.outcome.Threw? then [r.failed] else []
  }

  /** The calls that are left for whatever comes next. */
  function After(script: seq<Call>, r: Sending): seq<Call> {
    if |Tried(r)| <= |script| then script[|Tried(r)|..] else []
  }

  function Acknowledges(batches: seq<seq<AckId>>): seq<Request> {
    seq(|batches|, i requires 0 <= i < |batches| => Acknowledge(batches[i]))
  }

  function Modifies(batches: seq<seq<AckId>>, seconds: nat): seq<Request> {
    seq(|batches|, i requires 0 <= i < |batches| => ModifyAckDeadline(batches[i], seconds))
  }

  lemma RequestsAppend(batches: seq<seq<AckId>>, b: seq<AckId>, seconds: nat)
    ensures Acknowledges(batches + [b]) == Acknowledges(batches) + [Acknowledge(b)]
    ensures Modifies(batches + [b], seconds) == Modifies(batches, seconds) + [ModifyAckDeadline(b, seconds)]
  {
  }

  /** The leases after batches were extended one by one, each from the start of its own call. */
  ghost function Extended(leases: map<AckId, Time>, sent: seq<seq<AckId>>, calls: seq<Call>,
                          grant: Time): map<AckId, Time>
    requires |sent| <= |calls|
  {
    if sent == [] then leases
    else
      var n := |sent| - 1;
      Stamped(Extended(leases, sent[..n], calls, grant), Elements(sent[n]), calls[n].start + grant)
  }

  /** Sleep(SO_MANY) asks for another pass at once; StillSending: the script ended first. */
  datatype PassResult = Sleep(time: Time) | Thrown | StillSending

  function Failure(outcome: Outcome): PassResult {
    if outcome.Threw? then Thrown else StillSending
  }

  ghost predicate IsSleepAfter(leases: map<AckId, Time>, now: Time, result: PassResult) {
    if leases == map[] || Due(leases, now) != {} then result == Sleep(SO_MANY)
    else exists m :: IsShortest(leases, now, m) && result == Sleep(m / 2)
  }

  /** No lease that was visited and is not due has less left than m, and one of them has that much. */
  ghost predicate ShortestOf(leases: map<AckId, Time>, now: Time, visited: seq<AckId>, m: Time) {
    && m <= SO_MANY
    && (forall id :: id in visited && id in leases && id !in Due(leases, now) ==> m <= leases[id] - now)
    && (m < SO_MANY ==> exists id :: id in leases && m == leases[id] - now)
  }

  lemma NoneDue(leases: map<AckId, Time>, now: Time, order: seq<AckId>, m: Time)
    requires Enumerates(order, leases.Keys) && ShortestOf(leases, now, order, m)
    ensures InOrder(order, Due(leases, now)) == [] <==> Due(leases, now) == {}
    ensures Due(leases, now) == {} ==> IsShortest(leases, now, m)
  {
    var r := InOrder(order, Due(leases, now));
    assert forall id :: id in Due(leases, now) ==> id in r;
    if Due(leases, now) == {} {
      InOrderEmpty(order, Due(leases, now));
    }
  }

  /** Picks the leases inside the grace period; of the others, keeps the shortest time left. */
  method GiveMeTheKeys(leases: map<AckId, Time>, order: seq<AckId>, now: Time)
    returns (toModify: seq<AckId>, sleepTime: Time)
    requires Enumerates(order, leases.Keys)
    ensures toModify == InOrder(order, Due(leases, now))
    ensures toModify == [] <==> Due(leases, now) == {}
    ensures toModify == [] ==> IsShortest(leases, now, sleepTime)
  {
    ghost var due := Due(leases, now);
    toModify, sleepTime := [], SO_MANY;
    for i := 0 to |order|
      invariant toModify == InOrder(order[..i], due)
      invariant ShortestOf(leases, now, order[..i], sleepTime)
    {
      assert order[..i + 1] == order[..i] + [order[i]];
      InOrderAppend(order[..i], order[i], due);
      hide InOrder;
      if order[i] in leases {
        var ms := leases[order[i]] - now;
        if ms > GRACE {
          sleepTime := if ms < sleepTime then ms else sleepTime;
        } else {
          toModify := toModify + [order[i]];
        }
      }
    }
    assert order[..|order|] == order;
    NoneDue(leases, now, order, sleepTime);
  }

  /** What one pass did: how the acknowledging, the giving back and the extending went, the deadline granted, the
      calls the extending met, and the result. */
  datatype Pass = Pass(acks: Sending, nacks: Sending, extended: Sending, seconds: nat, calls: seq<Call>,
                       result: PassResult)

  /** Each part runs only if the one before it finished; what is granted is the percentile of the processing times. */
  ghost predicate IsPass(q: Queues, samples: seq<nat>, order: seq<AckId>, now: Time, script: seq<Call>, p: Pass) {
    && p.acks == SendAll(InOrder(order, q.acks), MAX_PAYLOAD, script)
    && if !p.acks.outcome.Finished? then p.result == Failure(p.acks.outcome)
       else
         var script' := After(script, p.acks);
         && p.nacks == SendAll(InOrder(order, q.nacks), MAX_PAYLOAD, script')
         && if !p.nacks.outcome.Finished? then p.result == Failure(p.nacks.outcome)
            else
              var leases := q.keepAlive - q.acks - q.nacks;
              && p.calls == After(script', p.nacks)
              && 10 <= p.seconds <= 600 && IsDeadline(samples, p.seconds)
              && p.extended == SendAll(InOrder(order, Due(leases, now)), MAX_PAYLOAD, p.calls)
              && |p.extended.sent| <= |p.calls|
              && if p.extended.outcome.Finished? then IsSleepAfter(leases, now, p.result)
                 else p.result == Failure(p.extended.outcome)
  }

  /** A call that fails ends the pass; what was drained but not yet sent is dropped with it, and ids to give back are
      then still kept alive. */
  ghost function PassQueues(q: Queues, p: Pass): Queues {
    if !p.acks.outcome.Finished? then q.Drain().Erase(q.acks)
    else if !p.nacks.outcome.Finished? then q.Drain().Erase(q.acks).Erase(q.nacks)
    else
      var q' := q.Drain().Erase(q.acks).Erase(q.nacks);
      if |p.extended.sent| <= |p.calls|
      then q'.(keepAlive := Extended(q'.keepAlive, p.extended.sent, p.calls, 1000 * p.seconds))
      else q'
  }

  /** The requests of a pass, after those made before it. */
  ghost function PassRequests(requests: seq<Request>, p: Pass): seq<Request> {
    var acked := requests + Acknowledges(Tried(p.acks));
    if !p.acks.outcome.Finished? then acked
    else
      var nacked := acked + Modifies(Tried(p.nacks), 0);
      if !p.nacks.outcome.Finished? then nacked else nacked + Modifies(Tried(p.extended), p.seconds)
  }

  /** The calls a pass leaves for whatever comes next. */
  ghost function PassScript(script: seq<Call>, p: Pass): seq<Call> {
    var acked := After(script, p.acks);
    if !p.acks.outcome.Finished? then acked
    else
      var nacked := After(acked, p.nacks);
      if !p.nacks.outcome.Finished? then nacked else After(nacked, p.extended)
  }

  const NOTHING := Sending(Finished, [], [], [])

  lemma PassUpToAcks(q: Queues, samples: seq<nat>, order: seq<AckId>, now: Time, script: seq<Call>,
                     requests: seq<Request>, a: Sending)
    returns (p: Pass)
    requires a == SendAll(InOrder(order, q.acks), MAX_PAYLOAD, script) && !a.outcome.Finished?
    ensures IsPass(q, samples, order, now, script, p) && p.result == Failure(a.outcome)
    ensures PassQueues(q, p) == Queues(q.input, q.keepAlive - q.acks, {}, {})
    ensures PassRequests(requests, p) == requests + Acknowledges(Tried(a)) && PassScript(script, p) == After(script, a)
  {
    p := Pass(a, NOTHING, NOTHING, 0, [], Failure(a.outcome));
  }

  lemma PassUpToNacks(q: Queues, samples: seq<nat>, order: seq<AckId>, now: Time, script: seq<Call>,
                      requests: seq<Request>, a: Sending, n: Sending) returns (p: Pass)
    requires a == SendAll(InOrder(order, q.acks), MAX_PAYLOAD, script) && a.outcome.Finished?
    requires n == SendAll(InOrder(order, q.nacks), MAX_PAYLOAD, After(script, a)) && !n.outcome.Finished?
    ensures IsPass(q, samples, order, now, script, p) && p.result == Failure(n.outcome)
    ensures PassQueues(q, p) == Queues(q.input, q.keepAlive - q.acks - q.nacks, {}, {})
    ensures PassRequests(requests, p) == requests + Acknowledges(Tried(a)) + Modifies(Tried(n), 0)
    ensures PassScript(script, p) == After(After(script, a), n)
  {
    p := Pass(a, n, NOTHING, 0, [], Failure(n.outcome));
  }

  lemma WholePass(q: Queues, samples: seq<nat>, order: seq<AckId>, now: Time, script: seq<Call>,
                  requests: seq<Request>, a: Sending, n: Sending, m: Sending, seconds: nat, calls: seq<Call>,
                  result: PassResult)
    returns (p: Pass)
    requires a == SendAll(InOrder(order, q.acks), MAX_PAYLOAD, script) && a.outcome.Finished?
    requires n == SendAll(InOrder(order, q.nacks), MAX_PAYLOAD, After(script, a)) && n.outcome.Finished?
    requires calls == After(After(script, a), n) && |m.sent| <= |calls|
    requires 10 <= seconds <= 600 && IsDeadline(samples, seconds)
    requires m == SendAll(InOrder(order, Due(q.keepAlive - q.acks - q.nacks, now)), MAX_PAYLOAD, calls)
    requires if m.outcome.Finished? then IsSleepAfter(q.keepAlive - q.acks - q.nacks, now, result)
             else result == Failure(m.outcome)
    ensures IsPass(q, samples, order, now, script, p) && p.result == result
    ensures PassQueues(q, p)
            == Queues(q.input, Extended(q.keepAlive - q.acks - q.nacks, m.sent, calls, 1000 * seconds), {}, {})
    ensures PassRequests(requests, p)
            == requests + Acknowledges(Tried(a)) + Modifies(Tried(n), 0) + Modifies(Tried(m), seconds)
    ensures PassScript(script, p) == After(calls, m)
  {
    p := Pass(a, n, m, seconds, calls, result);
  }

  lemma NothingExtended(leases: map<AckId, Time>, calls: seq<Call>, grant: Time)
    ensures Extended(leases, [], calls, grant) == leases
  {
  }

  lemma ExtendedLast(leases: map<AckId, Time>, sent: seq<seq<AckId>>, last: seq<AckId>, calls: seq<Call>, grant: Time)
    requires |sent| < |calls|
    ensures Extended(leases, sent + [last], calls, grant)
            == Stamped(Extended(leases, sent, calls, grant), Elements(last), calls[|sent|].start + grant)
  {
    assert (sent + [last])[..|sent|] == sent;
  }

  /** Extends the given leases batch by batch, each from the start of its own call. */
  method ExtendAckDeadlines(subscriber: Subscriber, leases: map<AckId, Time>, ids: seq<AckId>, seconds: nat)
    returns (extended: map<AckId, Time>, r: Sending)
    modifies subscriber
    ensures r == SendAll(ids, MAX_PAYLOAD, old(subscriber.script))
    ensures |Tried(r)| <= |old(subscriber.script)| && subscriber.script == After(old(subscriber.script), r)
    ensures subscriber.requests == old(subscriber.requests) + Modifies(Tried(r), seconds)
    ensures extended == Extended(leases, r.sent, old(subscriber.script), 1000 * seconds)
  {
    hide Partway, SendAll, Extended, Stamped, Cut;
    ghost var script := subscriber.script;
    var remainder, sent := ids, [];
    extended := leases;
    PartwayStarts(ids, script);
    NothingExtended(leases, script, 1000 * seconds);
    while remainder != []
      invariant |sent| <= |script| && subscriber.script == script[|sent|..]
      invariant subscriber.requests == old(subscriber.requests) + Modifies(sent, seconds)
      invariant Partway(ids, script, remainder, sent) && extended == Extended(leases, sent, script, 1000 * seconds)
      decreases |subscriber.script|
    {
      PartwayStep(ids, script, remainder, sent);
      var toSend, rest := SplitRequestIds(remainder, MAX_PAYLOAD);
      assert toSend == remainder[..|toSend|] && rest == remainder[|toSend|..];
      RequestsAppend(sent, toSend, seconds);
      var call := subscriber.Invoke(ModifyAckDeadline(toSend, seconds));
      if call == None {
        return extended, Sending(Unfinished, sent, [], remainder);
      }
      if !call.value.ok {
        return extended, Sending(Threw, sent, toSend, rest);
      }
      ExtendedLast(leases, sent, toSend, script, 1000 * seconds);
      extended := Stamped(extended, Elements(toSend), call.value.start + 1000 * seconds);
      sent, remainder := sent + [toSend], rest;
    }
    PartwayStep(ids, script, remainder, sent);
    r := Sending(Finished, sent, [], []);
  }

  class ModAckIterator {
    var inputAckIDs: map<AckId, Time>
    var pendingAckIDs: set<AckId>
    var pendingNackIDs: set<AckId>
    var keepAliveAckIDs: map<AckId, Time>
    const ackDist: Distribution
    /** Whether the executor still owns this iterator; messages only hold it weakly. */
    var alive: bool

    ghost predicate Valid()
      reads this, ackDist, ackDist.hist
    {
      ackDist.Valid() && ackDist.hist.Length == BUCKETS
    }

    function View(): Queues
      reads this
    {
      Queues(inputAckIDs, keepAliveAckIDs, pendingAckIDs, pendingNackIDs)
    }

    constructor ()
      ensures Valid() && fresh(ackDist) && fresh(ackDist.hist) && ackDist.samples == []
      ensures View() == Queues(map[], map[], {}, {}) && alive
    {
      alive := true;
      inputAckIDs, keepAliveAckIDs := map[], map[];
      pendingAckIDs, pendingNackIDs := {}, {};
      ackDist := new Distribution(BUCKETS);
    }

    method AddDeadlineWatcher(id: AckId, nextAck: Time)
      modifies this`inputAckIDs
      ensures View() == old(View()).Watch(id, nextAck)
    {
      inputAckIDs := inputAckIDs[id := nextAck];
    }

    method Done(id: AckId, receiveTime: Time, now: Time, action: Action)
      requires Valid() && receiveTime <= now
      modifies this`pendingAckIDs, this`pendingNackIDs, ackDist, ackDist.hist
      ensures Valid() && ackDist.samples == old(ackDist.samples) + [(now - receiveTime) / 1000]
      ensures View() == old(View()).Complete(id, action)
    {
      ackDist.Record((now - receiveTime) / 1000);
      match action
      case Ack =>
        pendingNackIDs := pendingNackIDs - {id};
        pendingAckIDs := pendingAckIDs + {id};
      case Nack =>
        pendingAckIDs := pendingAckIDs - {id};
        pendingNackIDs := pendingNackIDs + {id};
    }

    /** A lease that is already kept alive stays as it is. */
    method MergeInput()
      modifies this`keepAliveAckIDs, this`inputAckIDs
      ensures View() == old(View()).Merge()
      ensures inputAckIDs == map[] && keepAliveAckIDs.Keys == old(inputAckIDs).Keys + old(keepAliveAckIDs).Keys
      ensures forall id :: id in keepAliveAckIDs ==>
                keepAliveAckIDs[id]
                == if id in old(keepAliveAckIDs) then old(keepAliveAckIDs)[id] else old(inputAckIDs)[id]
    {
      keepAliveAckIDs := inputAckIDs + keepAliveAckIDs;
      inputAckIDs := map[];
    }

    /** Acknowledges the ids, batch by batch. */
    method SendAcks(subscriber: Subscriber, ids: seq<AckId>) returns (r: Sending)
      modifies subscriber
      ensures r == SendAll(ids, MAX_PAYLOAD, old(subscriber.script))
      ensures |Tried(r)| <= |old(subscriber.script)| && subscriber.script == After(old(subscriber.script), r)
      ensures subscriber.requests == old(subscriber.requests) + Acknowledges(Tried(r))
    {
      hide Partway, SendAll, Cut;
      ghost var script := subscriber.script;
      var remainder, sent := ids, [];
      PartwayStarts(ids, script);
      while remainder != []
        invariant |sent| <= |script| && subscriber.script == script[|sent|..]
        invariant subscriber.requests == old(subscriber.requests) + Acknowledges(sent)
        invariant Partway(ids, script, remainder, sent)
        decreases |subscriber.script|
      {
        PartwayStep(ids, script, remainder, sent);
        var toSend, rest := SplitRequestIds(remainder, MAX_PAYLOAD);
        assert toSend == remainder[..|toSend|] && rest == remainder[|toSend|..];
        RequestsAppend(sent, toSend, 0);
        var call := subscriber.Invoke(Acknowledge(toSend));
        if call == None {
          return Sending(Unfinished, sent, [], remainder);
        }
        if !call.value.ok {
          return Sending(Threw, sent, toSend, rest);
        }
        sent, remainder := sent + [toSend], rest;
      }
      PartwayStep(ids, script, remainder, sent);
      r := Sending(Finished, sent, [], []);
    }

    /** Gives the ids back to the server, batch by batch, as leases of no length. */
    method SendNacks(subscriber: Subscriber, ids: seq<AckId>) returns (r: Sending)
      modifies subscriber
      ensures r == SendAll(ids, MAX_PAYLOAD, old(subscriber.script))
      ensures |Tried(r)| <= |old(subscriber.script)| && subscriber.script == After(old(subscriber.script), r)
      ensures subscriber.requests == old(subscriber.requests) + Modifies(Tried(r), 0)
    {
      hide Partway, SendAll, Cut;
      ghost var script := subscriber.script;
      var remainder, sent := ids, [];
      PartwayStarts(ids, script);
      while remainder != []
        invariant |sent| <= |script| && subscriber.script == script[|sent|..]
        invariant subscriber.requests == old(subscriber.requests) + Modifies(sent, 0)
        invariant Partway(ids, script, remainder, sent)
        decreases |subscriber.script|
      {
        PartwayStep(ids, script, remainder, sent);
        var toSend, rest := SplitRequestIds(remainder, MAX_PAYLOAD);
        assert toSend == remainder[..|toSend|] && rest == remainder[|toSend|..];
        RequestsAppend(sent, toSend, 0);
        var call := subscriber.Invoke(ModifyAckDeadline(toSend, 0));
        if call == None {
          return Sending(Unfinished, sent, [], remainder);
        }
        if !call.value.ok {
          return Sending(Threw, sent, toSend, rest);
        }
        sent, remainder := sent + [toSend], rest;
      }
      PartwayStep(ids, script, remainder, sent);
      r := Sending(Finished, sent, [], []);
    }

    /** Extends the leases inside the grace period; when there are none, says how long to sleep. */
    method ModifyAckDeadlines(subscriber: Subscriber, order: seq<AckId>, now: Time, seconds: nat)
      returns (result: PassResult, r: Sending)
      requires Enumerates(order, keepAliveAckIDs.Keys)
      modifies subscriber, this`keepAliveAckIDs
      ensures r == SendAll(InOrder(order, Due(old(keepAliveAckIDs), now)), MAX_PAYLOAD, old(subscriber.script))
      ensures |Tried(r)| <= |old(subscriber.script)| && subscriber.script == After(old(subscriber.script), r)
      ensures subscriber.requests == old(subscriber.requests) + Modifies(Tried(r), seconds)
      ensures keepAliveAckIDs == Extended(old(keepAliveAckIDs), r.sent, old(subscriber.script), 1000 * seconds)
      ensures r.outcome.Finished? ==> IsSleepAfter(old(keepAliveAckIDs), now, result)
      ensures !r.outcome.Finished? ==> result == Failure(r.outcome)
    {
      r := Sending(Finished, [], [], []);
      if keepAliveAckIDs == map[] {
        InOrderEmpty(order, Due(keepAliveAckIDs, now));
        return Sleep(SO_MANY), r;
      }
      var toModify, sleepTime := GiveMeTheKeys(keepAliveAckIDs, order, now);
      if toModify == [] {
        return Sleep(sleepTime / 2), r;
      }
      keepAliveAckIDs, r := ExtendAckDeadlines(subscriber, keepAliveAckIDs, toModify, seconds);
      result := if r.outcome.Finished? then Sleep(SO_MANY) else Failure(r.outcome);
    }

    /** One pass: drain the completed ids, acknowledge, give back, extend. */
    method ProcessModAcks(subscriber: Subscriber, order: seq<AckId>, now: Time)
      returns (result: PassResult, ghost p: Pass)
      requires Valid() && Enumerates(order, keepAliveAckIDs.Keys + pendingAckIDs + pendingNackIDs)
      modifies subscriber, this`keepAliveAckIDs, this`pendingAckIDs, this`pendingNackIDs
      ensures Valid()
      ensures IsPass(old(View()), ackDist.samples, order, now, old(subscriber.script), p)
      ensures View() == PassQueues(old(View()), p) && result == p.result
      ensures subscriber.requests == PassRequests(old(subscriber.requests), p)
      ensures subscriber.script == PassScript(old(subscriber.script), p)
    {
      hide SendAll, InOrder, Extended, IsDeadline;
      ghost var q, script, requests := View(), subscriber.script, subscriber.requests;
      var pendingAcks, pendingNacks := pendingAckIDs, pendingNackIDs;
      pendingAckIDs, pendingNackIDs := {}, {};

      keepAliveAckIDs := keepAliveAckIDs - pendingAcks;
      var a := SendAcks(subscriber, InOrder(order, pendingAcks));
      if !a.outcome.Finished? {
        p := PassUpToAcks(q, ackDist.samples, order, now, script, requests, a);
        return Failure(a.outcome), p;
      }
      keepAliveAckIDs := keepAliveAckIDs - pendingNacks;
      var n := SendNacks(subscriber, InOrder(order, pendingNacks));
      if !n.outcome.Finished? {
        p := PassUpToNacks(q, ackDist.samples, order, now, script, requests, a, n);
        return Failure(n.outcome), p;
      }
      ghost var calls, leases := subscriber.script, keepAliveAckIDs;
      var seconds := AckDeadline(ackDist);
      var m;
      result, m := ModifyAckDeadlines(subscriber, order, now, seconds);
      assert View() == Queues(q.input, Extended(leases, m.sent, calls, 1000 * seconds), {}, {});
      p := WholePass(q, ackDist.samples, order, now, script, requests, a, n, m, seconds, calls, result);
    }
  }
}
