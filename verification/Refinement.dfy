/** A pass of the iterator, as its methods carry it out, is a run of the protocol. */
module Refinement {
  import opened Types
  import opened Batching
  import opened Queues
  import opened Iterator
  import opened Protocol
  import opened Histogram
  import R = Retry

  lemma {:induction false} Join(s: State, steps: seq<Step>, m: State, more: seq<Step>, t: State)
    requires Leads(s, steps, m) && Leads(m, more, t)
    ensures Leads(s, steps + more, t)
    decreases |steps|
  {
    hide Apply, Enabled;
    if steps == [] {
      assert steps + more == more;
    } else {
      assert (steps + more)[1..] == steps[1..] + more;
      Join(Apply(s, steps[0]), steps[1..], m, more, t);
    }
  }

  lemma Prefix(s: State, step: Step, more: seq<Step>, t: State)
    requires Enabled(s, step) && Leads(Apply(s, step), more, t)
    ensures Leads(s, [step] + more, t)
  {
    assert ([step] + more)[1..] == more;
  }

  lemma Single(s: State, step: Step)
    requires Enabled(s, step)
    ensures Leads(s, [step], Apply(s, step))
  {
    assert Leads(Apply(s, step), [], Apply(s, step));
    Prefix(s, step, [], Apply(s, step));
  }

  // ----- What belongs to a turn ----------------------------------------------------------------

  /** Nothing but a turn, with a result or without one. */
  ghost predicate OfTurn(steps: seq<Step>, concluded: bool) {
    && (forall step :: step in steps ==> InTurn(step) || step.Tick?)
    && (concluded <==> exists step :: step in steps && Concludes(step))
  }

  lemma TurnJoin(a: seq<Step>, ca: bool, b: seq<Step>, cb: bool)
    requires OfTurn(a, ca) && OfTurn(b, cb)
    ensures OfTurn(a + b, ca || cb)
  {
    assert forall step :: step in a + b <==> step in a || step in b;
  }

  lemma TurnOne(step: Step)
    requires InTurn(step) || step.Tick?
    ensures OfTurn([step], Concludes(step)) && OfTurn([], false)
  {
    assert step in [step];
  }

  /** The calls of a sending as the protocol records them. */
  function Logged(action: Action, r: Sending): seq<Batch> {
    seq(|r.sent|, i requires 0 <= i < |r.sent| => Batch(action, Elements(r.sent[i]), true))
    + if r.outcome.Threw? then [Batch(action, Elements(r.failed), false)] else []
  }

  lemma LoggedFirst(action: Action, first: seq<AckId>, r: Sending)
    ensures Logged(action, r.(sent := [first] + r.sent)) == [Batch(action, Elements(first), true)] + Logged(action, r)
  {
  }

  lemma LoggedFailure(action: Action, failed: seq<AckId>, rest: seq<AckId>)
    ensures Logged(action, Sending(Threw, [], failed, rest)) == [Batch(action, Elements(failed), false)]
    ensures Logged(action, Sending(Finished, [], [], [])) == []
  {
  }

  lemma NothingToDo(s: State, calls: seq<Call>, action: Action)
    ensures Leads(s, [], s) && SendAll([], MAX_PAYLOAD, calls) == Sending(Finished, [], [], [])
    ensures s.h.log + Logged(action, Sending(Finished, [], [], [])) == s.h.log
  {
  }

  lemma FirstCall(ids: seq<AckId>, calls: seq<Call>)
    requires ids != [] && !SendAll(ids, MAX_PAYLOAD, calls).outcome.Unfinished?
    ensures calls != []
    ensures var k := Cut(ids, MAX_PAYLOAD);
            var r := SendAll(ids[k..], MAX_PAYLOAD, calls[1..]);
            SendAll(ids, MAX_PAYLOAD, calls)
            == if calls[0].ok then r.(sent := [ids[..k]] + r.sent) else Sending(Threw, [], ids[..k], ids[k..])
  {
  }

  // ----- Sending what was completed ------------------------------------------------------------

  lemma AckCall(s: State, ok: bool)
    requires s.phase == SendingAcks && s.acks != []
    ensures var k := Cut(s.acks, MAX_PAYLOAD);
            var log := s.h.log + [Batch(Ack, Elements(s.acks[..k]), ok)];
            var m := Apply(s, SendAckBatch(ok));
            && m.q == s.q && m.now == s.now && m.h.log == log && m.h.samples == s.h.samples && m.server == s.server
            && if ok then m == s.(acks := s.acks[k..], h := s.h.(log := log)) else m.phase == Top && !m.needSleep
  {
  }

  /** The leases of these ids are over at the server, and the others are as they were. */
  ghost predicate EndedFor(s: State, t: State, ids: seq<AckId>) {
    && t.server.Keys == s.server.Keys
    && forall id :: id in s.server ==> t.server[id] == if id in ids then s.now else s.server[id]
  }

  lemma EndedTogether(s: State, m: State, t: State, first: seq<AckId>, batches: seq<seq<AckId>>)
    requires EndedFor(s, m, first) && EndedFor(m, t, Flatten(batches)) && m.now == s.now
    ensures EndedFor(s, t, Flatten([first] + batches))
  {
    assert Flatten([first] + batches) == first + Flatten(batches);
  }

  lemma NoneEnded(s: State)
    ensures EndedFor(s, s, []) && Flatten<AckId>([]) == []
  {
  }

  lemma NackCall(s: State, ok: bool)
    requires s.phase == SendingNacks && s.nacks != []
    ensures var k := Cut(s.nacks, MAX_PAYLOAD);
            var log := s.h.log + [Batch(Nack, Elements(s.nacks[..k]), ok)];
            var m := Apply(s, SendNackBatch(ok, ok));
            && m.q == s.q && m.now == s.now && m.h.log == log && m.h.samples == s.h.samples
            && EndedFor(s, m, if ok then s.nacks[..k] else [])
            && if ok then m == s.(nacks := s.nacks[k..], h := s.h.(log := log), server := m.server)
               else m.phase == Top && !m.needSleep
  {
  }

  lemma {:induction false} AcksRun(s: State, calls: seq<Call>) returns (steps: seq<Step>, t: State)
    requires s.phase == SendingAcks
    requires !SendAll(s.acks, MAX_PAYLOAD, calls).outcome.Unfinished?
    ensures Leads(s, steps, t) && OfTurn(steps, false)
    ensures var r := SendAll(s.acks, MAX_PAYLOAD, calls);
            && t.q == s.q && t.now == s.now && t.h.samples == s.h.samples && t.h.log == s.h.log + Logged(Ack, r)
            && t.server == s.server
            && if r.outcome.Finished? then t == s.(acks := [], h := t.h) else t.phase == Top && !t.needSleep
    decreases |calls|
  {
    hide Leads, SendAll, Logged, Apply, OfTurn;
    if s.acks == [] {
      NothingToDo(s, calls, Ack);
      TurnOne(Drain([], []));
      steps, t := [], s;
      return;
    }
    FirstCall(s.acks, calls);
    AckCall(s, calls[0].ok);
    var k := Cut(s.acks, MAX_PAYLOAD);
    var step, batch := SendAckBatch(calls[0].ok), s.acks[..k];
    var m := Apply(s, step);
    TurnOne(step);
    if calls[0].ok {
      var r := SendAll(s.acks[k..], MAX_PAYLOAD, calls[1..]);
      steps, t := AcksRun(m, calls[1..]);
      LoggedFirst(Ack, batch, r);
      assert m.h.log + Logged(Ack, r) == s.h.log + ([Batch(Ack, Elements(batch), true)] + Logged(Ack, r));
      Prefix(s, step, steps, t);
      TurnJoin([step], false, steps, false);
      steps := [step] + steps;
    } else {
      Single(s, step);
      LoggedFailure(Ack, batch, s.acks[k..]);
      steps, t := [step], m;
    }
  }

  lemma {:induction false} NacksRun(s: State, calls: seq<Call>) returns (steps: seq<Step>, t: State)
    requires s.phase == SendingNacks
    requires !SendAll(s.nacks, MAX_PAYLOAD, calls).outcome.Unfinished?
    ensures Leads(s, steps, t) && OfTurn(steps, false)
    ensures var r := SendAll(s.nacks, MAX_PAYLOAD, calls);
            && t.q == s.q && t.now == s.now && t.h.samples == s.h.samples && t.h.log == s.h.log + Logged(Nack, r)
            && EndedFor(s, t, Flatten(r.sent))
            && if r.outcome.Finished? then t == s.(nacks := [], h := t.h, server := t.server)
               else t.phase == Top && !t.needSleep
    decreases |calls|
  {
    hide Leads, SendAll, Logged, Apply, OfTurn, EndedFor;
    if s.nacks == [] {
      NothingToDo(s, calls, Nack);
      TurnOne(Drain([], []));
      NoneEnded(s);
      steps, t := [], s;
      return;
    }
    FirstCall(s.nacks, calls);
    NackCall(s, calls[0].ok);
    var k := Cut(s.nacks, MAX_PAYLOAD);
    var step, batch := SendNackBatch(calls[0].ok, calls[0].ok), s.nacks[..k];
    var m := Apply(s, step);
    TurnOne(step);
    if calls[0].ok {
      var r := SendAll(s.nacks[k..], MAX_PAYLOAD, calls[1..]);
      steps, t := NacksRun(m, calls[1..]);
      LoggedFirst(Nack, batch, r);
      assert m.h.log + Logged(Nack, r) == s.h.log + ([Batch(Nack, Elements(batch), true)] + Logged(Nack, r));
      Prefix(s, step, steps, t);
      TurnJoin([step], false, steps, false);
      EndedTogether(s, m, t, batch, r.sent);
      steps := [step] + steps;
    } else {
      Single(s, step);
      LoggedFailure(Nack, batch, s.nacks[k..]);
      steps, t := [step], m;
    }
  }

  // ----- Extending -----------------------------------------------------------------------------

  /** The calls start one after the other, none before the given time. */
  ghost predicate InSequence(from: Time, calls: seq<Call>) {
    && (forall i :: 0 <= i < |calls| ==> from <= calls[i].start)
    && (forall i, j :: 0 <= i < j < |calls| ==> calls[i].start <= calls[j].start)
  }

  lemma {:induction false} ExtendedFirst(leases: map<AckId, Time>, first: seq<AckId>, sent: seq<seq<AckId>>,
                                         calls: seq<Call>, grant: Time)
    requires |sent| < |calls|
    ensures Extended(leases, [first] + sent, calls, grant)
            == Extended(Stamped(leases, Elements(first), calls[0].start + grant), sent, calls[1..], grant)
    decreases |sent|
  {
    var whole := [first] + sent;
    if sent == [] {
      assert whole[..0] == [];
    } else {
      var n := |sent| - 1;
      assert whole[..|whole| - 1] == [first] + sent[..n];
      ExtendedFirst(leases, first, sent[..n], calls, grant);
    }
  }

  lemma BatchIsOfTurn(time: nat, start: Time)
    ensures OfTurn([Carve] + ([Tick(time)] + [Begin, Reach(start), End(Success)]), false)
  {
  }

  lemma CarveAndWait(s: State, start: Time) returns (t: State)
    requires s.phase == Extending && s.due != [] && s.now <= start
    ensures Enabled(s, Carve) && Enabled(Apply(s, Carve), Tick(start - s.now))
    ensures t == Apply(Apply(s, Carve), Tick(start - s.now))
    ensures var k := Cut(s.due, MAX_PAYLOAD);
            t == s.(phase := Calling, batch := s.due[..k], due := s.due[k..], now := start)
  {
    t := Apply(Apply(s, Carve), Tick(start - s.now));
  }

  /** One batch: carved, and extended by a single attempt that starts when the call says. */
  lemma BatchRun(s: State, start: Time) returns (steps: seq<Step>, t: State)
    requires s.phase == Extending && s.due != [] && s.now <= start
    ensures Leads(s, steps, t) && OfTurn(steps, false)
    ensures var k := Cut(s.due, MAX_PAYLOAD);
            && t.phase == Extending && t.due == s.due[k..] && t.now == start && t.grant == s.grant && t.h == s.h
            && t.q == s.q.Stamp(Elements(s.due[..k]), start + s.grant)
            && t.server == Stamped(s.server, Elements(s.due[..k]), start + s.grant)
  {
    hide Leads, OfTurn, Apply, Enabled, Cut, Stamped, Elements;
    var m := CarveAndWait(s, start);
    t := CallRun(m);
    steps := BatchSteps(s, start - s.now, start, t);
  }

  lemma BatchSteps(s: State, time: nat, start: Time, t: State) returns (steps: seq<Step>)
    requires Enabled(s, Carve) && Enabled(Apply(s, Carve), Tick(time))
    requires Leads(Apply(Apply(s, Carve), Tick(time)), [Begin, Reach(start), End(Success)], t)
    ensures Leads(s, steps, t) && OfTurn(steps, false)
  {
    hide Leads, OfTurn, Apply, Enabled;
    BatchIsOfTurn(time, start);
    var call := [Begin, Reach(start), End(Success)];
    Prefix(Apply(s, Carve), Tick(time), call, t);
    Prefix(s, Carve, [Tick(time)] + call, t);
    steps := [Carve] + ([Tick(time)] + call);
  }

  lemma CallRun(s: State) returns (t: State)
    requires s.phase == Calling
    ensures Leads(s, [Begin, Reach(s.now), End(Success)], t)
    ensures t.phase == Extending && t.due == s.due && t.now == s.now && t.grant == s.grant && t.h == s.h
    ensures t.q == s.q.Stamp(Elements(s.batch), s.now + s.grant)
    ensures t.server == Stamped(s.server, Elements(s.batch), s.now + s.grant)
  {
    hide Leads;
    var s1 := Apply(s, Begin);
    var s2 := Apply(s1, Reach(s.now));
    t := Apply(s2, End(Success));
    Single(s2, End(Success));
    Prefix(s1, Reach(s.now), [End(Success)], t);
    Prefix(s, Begin, [Reach(s.now)] + [End(Success)], t);
    assert [Begin] + ([Reach(s.now)] + [End(Success)]) == [Begin, Reach(s.now), End(Success)];
  }

  /** When the last of the calls that succeeded started, if any did. */
  function LastStart(from: Time, sent: seq<seq<AckId>>, calls: seq<Call>): Time
    requires |sent| <= |calls|
  {
    if sent == [] then from else calls[|sent| - 1].start
  }

  lemma {:induction false} ExtensionRun(s: State, calls: seq<Call>) returns (steps: seq<Step>, t: State)
    requires s.phase == Extending && InSequence(s.now, calls)
    requires !SendAll(s.due, MAX_PAYLOAD, calls).outcome.Unfinished?
    ensures Leads(s, steps, t)
    ensures var r := SendAll(s.due, MAX_PAYLOAD, calls);
            && OfTurn(steps, r.outcome.Finished?) && |r.sent| <= |calls|
            && t.now == LastStart(s.now, r.sent, calls) && t.phase == Top && !t.needSleep && t.h == s.h
            && t.q == s.q.(keepAlive := Extended(s.q.keepAlive, r.sent, calls, s.grant))
            && t.server == Extended(s.server, r.sent, calls, s.grant)
    decreases |calls|
  {
    hide Leads, Extended, OfTurn;
    if s.due == [] {
      t := Apply(s, Finish);
      Single(s, Finish);
      TurnOne(Finish);
      steps := [Finish];
      NothingExtended(s.q.keepAlive, calls, s.grant);
      NothingExtended(s.server, calls, s.grant);
    } else if calls[0].ok {
      var k := Cut(s.due, MAX_PAYLOAD);
      var r := SendAll(s.due[k..], MAX_PAYLOAD, calls[1..]);
      var first, m := BatchRun(s, calls[0].start);
      steps, t := ExtensionRun(m, calls[1..]);
      ExtendedFirst(s.q.keepAlive, s.due[..k], r.sent, calls, s.grant);
      ExtendedFirst(s.server, s.due[..k], r.sent, calls, s.grant);
      Join(s, first, m, steps, t);
      TurnJoin(first, false, steps, r.outcome.Finished?);
      steps := first + steps;
    } else {
      steps, t := FailedRun(s);
      NothingExtended(s.q.keepAlive, calls, s.grant);
      NothingExtended(s.server, calls, s.grant);
    }
  }

  lemma FailedRun(s: State) returns (steps: seq<Step>, t: State)
    requires s.phase == Extending && s.due != []
    ensures Leads(s, steps, t) && t.phase == Top && !t.needSleep && t.h == s.h && t.q == s.q && t.now == s.now
    ensures t.server == s.server
    ensures OfTurn(steps, false)
  {
    hide Leads;
    var m := Apply(s, Carve);
    t := Apply(m, Throw);
    Single(m, Throw);
    Prefix(s, Carve, [Throw], t);
    steps := [Carve] + [Throw];
  }

  // ----- One call, with its retries ------------------------------------------------------------

  /** What a finished call is to the loops that make it: a success only if the server said OK. */
  function CallOf(result: R.Result): (call: Call)
    requires !result.Trying?
    ensures call.ok <==> result.Returned? && result.status == R.OK
    ensures call.ok ==> result == R.Returned(R.OK, call.start)
  {
    match result
    case Returned(status, start) => Call(status == R.OK, start)
    case Exhausted(_) => Call(false, 0)
  }

  /** Of the batch and the leases the protocol's state is the same, but for the server. */
  ghost predicate SameButCall(s: State, t: State) {
    t == s.(now := t.now, attempt := t.attempt, reached := t.reached, server := t.server)
  }

  /** The last of the first attempts that took effect at the server, if any did. */
  function LastReached(reached: seq<bool>, k: nat): (last: Option<nat>)
    requires k <= |reached|
    ensures last == None <==> forall i :: 0 <= i < k ==> !reached[i]
    ensures last.Some? ==> last.value < k && reached[last.value] && forall i :: last.value < i < k ==> !reached[i]
  {
    if k == 0 then None
    else if reached[k - 1] then Some(k - 1)
    else LastReached(reached, k - 1)
  }

  /** The leases at the server after the first attempts of a call: those of the batch run from the start of the last
      attempt that took effect, and no other lease is touched. */
  ghost predicate ServerAfter(s: State, t: State, tries: seq<R.Attempt>, reached: seq<bool>, k: nat)
    requires k <= |tries| && k <= |reached|
  {
    match LastReached(reached, k)
    case None => t.server == s.server
    case Some(i) =>
      && t.server.Keys == s.server.Keys
      && forall id :: id in s.server ==>
           t.server[id] == if id in s.batch then tries[i].start + s.grant else s.server[id]
  }

  /** An attempt, up to when it comes back: whether or not it took effect, the client does not know yet. */
  lemma AttemptRun(s: State, took: nat, reached: bool) returns (steps: seq<Step>, t: State)
    requires s.phase == Calling
    ensures Leads(s, steps, t) && SameButCall(s.(phase := InFlight), t)
    ensures t.now == s.now + took && t.attempt == s.now && t.reached == reached
    ensures t.server == if reached then Lease(s.server, Elements(s.batch), s.now + s.grant) else s.server
  {
    hide Leads;
    var s1 := Apply(s, Begin);
    var s2 := if reached then Apply(s1, Reach(s.now)) else s1;
    t := Apply(s2, Tick(took));
    Single(s2, Tick(took));
    steps := [Tick(took)];
    if reached {
      Prefix(s1, Reach(s.now), steps, t);
      steps := [Reach(s.now)] + steps;
    }
    Prefix(s, Begin, steps, t);
    steps := [Begin] + steps;
  }

  /** An attempt that is to be retried: whether or not it took effect, the next one can begin after the delay. */
  lemma RetriedRun(s: State, took: nat, reached: bool, wait: nat) returns (steps: seq<Step>, t: State)
    requires s.phase == Calling
    ensures Leads(s, steps, t) && SameButCall(s, t) && t.now == s.now + took + wait
    ensures t.server == if reached then Lease(s.server, Elements(s.batch), s.now + s.grant) else s.server
  {
    hide Leads, Lease;
    var m;
    steps, m := AttemptRun(s, took, reached);
    var m' := Apply(m, End(Retry));
    t := Apply(m', Tick(wait));
    Single(m', Tick(wait));
    Prefix(m, End(Retry), [Tick(wait)], t);
    Join(s, steps, m, [End(Retry)] + [Tick(wait)], t);
    steps := steps + ([End(Retry)] + [Tick(wait)]);
  }

  /** The first attempts of a call; reached says which of them took effect at the server. */
  lemma {:induction false} RetriesRun(s: State, p: R.Policies, rpcTimeout: nat, replies: seq<R.Reply>,
                                      tries: seq<R.Attempt>, reached: seq<bool>, k: nat)
    returns (steps: seq<Step>, t: State)
    requires s.phase == Calling && R.Valid(p, replies) && R.IsRun(p, rpcTimeout, s.now, replies, tries)
    requires k <= |tries| && |reached| == |replies| && forall i :: 0 <= i < k ==> R.Retryable(replies[i].status)
    ensures Leads(s, steps, t) && SameButCall(s, t) && t.now == R.StartOf(s.now, replies, tries, k)
    ensures ServerAfter(s, t, tries, reached, k)
    decreases k
  {
    hide Leads;
    if k == 0 {
      NothingToDo(s, [], Ack);
      steps, t := [], s;
    } else {
      var m, last;
      steps, m := RetriesRun(s, p, rpcTimeout, replies, tries, reached, k - 1);
      assert R.IsAttempt(p, rpcTimeout, s.now, replies, tries, k - 1);
      last, t := RetriedRun(m, replies[k - 1].took, reached[k - 1], tries[k - 1].delay + replies[k - 1].overslept);
      Join(s, steps, m, last, t);
      steps := steps + last;
    }
  }

  lemma Ending(s: State, ok: bool) returns (t: State, steps: seq<Step>)
    requires s.phase == InFlight && (ok ==> s.reached)
    ensures Leads(s, steps, t) && t.h == s.h && t.server == s.server
    ensures if ok then t.phase == Extending && t.due == s.due
                       && t.q == s.q.Stamp(Elements(s.batch), s.attempt + s.grant)
            else t.phase == Top && !t.needSleep && t.q == s.q
  {
    var last := if ok then End(Success) else Throw;
    t, steps := Apply(s, last), [last];
    Single(s, last);
  }

  /** The last attempt: it extends the batch from its own start, or the call throws. */
  lemma LastRun(s: State, took: nat, ok: bool, reached: bool) returns (steps: seq<Step>, t: State)
    requires s.phase == Calling && (ok ==> reached)
    ensures Leads(s, steps, t) && t.h == s.h
    ensures t.server == if reached then Lease(s.server, Elements(s.batch), s.now + s.grant) else s.server
    ensures if ok then t.phase == Extending && t.due == s.due && t.q == s.q.Stamp(Elements(s.batch), s.now + s.grant)
            else t.phase == Top && !t.needSleep && t.q == s.q
  {
    hide Leads, Lease, Stamped;
    var m, last;
    steps, m := AttemptRun(s, took, reached);
    t, last := Ending(m, ok);
    Join(s, steps, m, last, t);
    steps := steps + last;
  }

  /** A call as the retry loop makes it is a run of the protocol, whichever of its failed attempts took effect: if it
      returns OK, and only then, the batch runs from the start it reports; with any other status, and with the exception
      of an exhausted loop, the pass ends and no lease is changed. */
  lemma CallIsRun(s: State, p: R.Policies, rpcTimeout: nat, replies: seq<R.Reply>, tries: seq<R.Attempt>,
                  result: R.Result, reached: seq<bool>) returns (steps: seq<Step>, t: State)
    requires s.phase == Calling && R.Valid(p, replies) && R.IsRun(p, rpcTimeout, s.now, replies, tries)
    requires R.Concludes(p, s.now, replies, tries, result) && !result.Trying?
    requires |reached| == |replies| && (result.Returned? && result.status == R.OK ==> reached[|tries| - 1])
    ensures Leads(s, steps, t) && t.h == s.h
    ensures t.phase == Extending <==> result.Returned? && result.status == R.OK
    ensures t.phase == Extending ==>
              t.due == s.due && t.q.input == s.q.input && t.q.keepAlive.Keys == s.q.keepAlive.Keys
    ensures t.phase == Extending ==>
              forall id :: id in s.q.keepAlive ==>
                t.q.keepAlive[id] == if id in s.batch then result.start + s.grant else s.q.keepAlive[id]
    ensures t.phase != Extending ==> t.phase == Top && !t.needSleep && t.q == s.q
    ensures ServerAfter(s, t, tries, reached, |tries|)
    ensures CallOf(result).ok <==> t.phase == Extending
  {
    hide Leads, R.RetriesExhausted;
    if result.Exhausted? {
      var m;
      steps, m := RetriesRun(s, p, rpcTimeout, replies, tries, reached, |tries|);
      t := Apply(m, Throw);
      Single(m, Throw);
      Join(s, steps, m, [Throw], t);
      steps := steps + [Throw];
    } else {
      var k := |tries| - 1;
      var m, last;
      steps, m := RetriesRun(s, p, rpcTimeout, replies, tries, reached, k);
      assert R.IsAttempt(p, rpcTimeout, s.now, replies, tries, k);
      last, t := LastRun(m, replies[k].took, result.status == R.OK, reached[k]);
      Join(s, steps, m, last, t);
      steps := steps + last;
    }
  }

  // ----- The whole pass ------------------------------------------------------------------------

  /** How the ack thread goes on after a pass with this result. */
  ghost predicate GoesOn(s: State, result: PassResult) {
    && s.phase == Top
    && match result
       case Sleep(time) => if time == SO_MANY then !s.needSleep else s.needSleep && s.sleep == time
       case Thrown => !s.needSleep
       case StillSending => false
  }

  function LoggedPass(p: Pass): seq<Batch> {
    Logged(Ack, p.acks) + if p.acks.outcome.Finished? then Logged(Nack, p.nacks) else []
  }

  lemma ChooseRun(s: State, order: seq<AckId>, p: Pass) returns (steps: seq<Step>, t: State)
    requires s.phase == SendingNacks && s.nacks == [] && InSequence(s.now, p.calls)
    requires Enumerates(order, s.q.keepAlive.Keys)
    requires 10 <= p.seconds <= 600 && IsDeadline(s.h.samples, p.seconds)
    requires p.extended == SendAll(InOrder(order, Due(s.q.keepAlive, s.now)), MAX_PAYLOAD, p.calls)
    requires |p.extended.sent| <= |p.calls| && !p.extended.outcome.Unfinished?
    requires if p.extended.outcome.Finished? then IsSleepAfter(s.q.keepAlive, s.now, p.result)
             else p.result == Failure(p.extended.outcome)
    ensures Leads(s, steps, t) && GoesOn(t, p.result) && t.h == s.h
    ensures OfTurn(steps, p.extended.outcome.Finished?) && t.now == LastStart(s.now, p.extended.sent, p.calls)
    ensures t.q == s.q.(keepAlive := Extended(s.q.keepAlive, p.extended.sent, p.calls, 1000 * p.seconds))
    ensures t.server == Extended(s.server, p.extended.sent, p.calls, 1000 * p.seconds)
  {
    var due := InOrder(order, Due(s.q.keepAlive, s.now));
    InOrderDistinct(order, Due(s.q.keepAlive, s.now));
    assert Lists(due, Due(s.q.keepAlive, s.now));
    assert due == [] <==> Due(s.q.keepAlive, s.now) == {} by {
      assert forall id :: id in Due(s.q.keepAlive, s.now) ==> id in due;
      assert due != [] ==> due[0] in due;
    }
    hide InOrder, Leads, OfTurn;
    if due == [] {
      steps, t := NothingDueRun(s, p);
    } else {
      var m := Shortest(s.q.keepAlive, s.now);
      var choose := Choose(due, p.seconds, m);
      hide Extended;
      var s' := Apply(s, choose);
      steps, t := ExtensionRun(s', p.calls);
      Prefix(s, choose, steps, t);
      TurnOne(choose);
      TurnJoin([choose], false, steps, p.extended.outcome.Finished?);
      steps := [choose] + steps;
    }
  }

  lemma NothingDueRun(s: State, p: Pass) returns (steps: seq<Step>, t: State)
    requires s.phase == SendingNacks && s.nacks == [] && Due(s.q.keepAlive, s.now) == {}
    requires 10 <= p.seconds <= 600 && IsDeadline(s.h.samples, p.seconds)
    requires p.extended == SendAll([], MAX_PAYLOAD, p.calls) && IsSleepAfter(s.q.keepAlive, s.now, p.result)
    ensures p.extended.sent == [] && p.extended.outcome.Finished? && OfTurn(steps, true) && t.now == s.now
    ensures Leads(s, steps, t) && GoesOn(t, p.result) && t.h == s.h
    ensures t.q == s.q.(keepAlive := Extended(s.q.keepAlive, p.extended.sent, p.calls, 1000 * p.seconds))
    ensures t.server == Extended(s.server, p.extended.sent, p.calls, 1000 * p.seconds)
  {
    var m := SO_MANY;
    if s.q.keepAlive != map[] {
      m :| IsShortest(s.q.keepAlive, s.now, m) && p.result == Sleep(m / 2);
    }
    assert Lists([], Due(s.q.keepAlive, s.now));
    var choose := Choose([], p.seconds, m);
    t := Apply(s, choose);
    assert t.q == s.q.(keepAlive := s.q.keepAlive);
    Single(s, choose);
    TurnOne(choose);
    steps := [choose];
  }

  lemma {:induction false} Shortest(leases: map<AckId, Time>, now: Time) returns (m: Time)
    ensures IsShortest(leases, now, m)
    decreases |leases|
  {
    if leases == map[] {
      m := SO_MANY;
    } else {
      var id :| id in leases;
      var rest := leases - {id};
      assert |rest.Keys| < |leases.Keys| by {
        assert rest.Keys == leases.Keys - {id};
      }
      m := Shortest(rest, now);
      assert forall x :: x in leases ==> x == id || (x in rest && rest[x] == leases[x]);
      if leases[id] - now < m {
        m := leases[id] - now;
      }
    }
  }

  /** The drain and the acknowledgements; the ids to give back are in hand if these all went out. */
  lemma DrainRun(s: State, order: seq<AckId>, script: seq<Call>) returns (steps: seq<Step>, t: State)
    requires s.phase == Merged && Enumerates(order, s.q.acks + s.q.nacks)
    requires !SendAll(InOrder(order, s.q.acks), MAX_PAYLOAD, script).outcome.Unfinished?
    ensures OfTurn(steps, false)
    ensures Leads(s, steps, t) && t.q == s.q.Drain().Erase(s.q.acks) && t.now == s.now && t.h.samples == s.h.samples
    ensures var r := SendAll(InOrder(order, s.q.acks), MAX_PAYLOAD, script);
            && t.h.log == s.h.log + Logged(Ack, r) && t.server == s.server
            && if r.outcome.Finished? then t.phase == SendingAcks && t.acks == []
                                         && t.nacks == InOrder(order, s.q.nacks)
               else t.phase == Top && !t.needSleep
  {
    hide Leads, SendAll, InOrder, OfTurn;
    var drain := Drain(InOrder(order, s.q.acks), InOrder(order, s.q.nacks));
    InOrderDistinct(order, s.q.acks);
    InOrderDistinct(order, s.q.nacks);
    assert Lists(drain.acks, s.q.acks) && Lists(drain.nacks, s.q.nacks);
    steps, t := AcksRun(Apply(s, drain), script);
    Prefix(s, drain, steps, t);
    TurnOne(drain);
    TurnJoin([drain], false, steps, false);
    steps := [drain] + steps;
  }

  lemma GiveBackRun(s: State, script: seq<Call>) returns (steps: seq<Step>, t: State)
    requires s.phase == SendingAcks && s.acks == []
    requires !SendAll(s.nacks, MAX_PAYLOAD, script).outcome.Unfinished?
    ensures OfTurn(steps, false)
    ensures Leads(s, steps, t) && t.q == s.q.Erase(Elements(s.nacks)) && t.now == s.now && t.h.samples == s.h.samples
    ensures var r := SendAll(s.nacks, MAX_PAYLOAD, script);
            && t.h.log == s.h.log + Logged(Nack, r) && EndedFor(s, t, Flatten(r.sent))
            && if r.outcome.Finished? then t.phase == SendingNacks && t.nacks == [] else t.phase == Top && !t.needSleep
  {
    hide Leads, SendAll, OfTurn;
    steps, t := NacksRun(Apply(s, EraseNacks), script);
    Prefix(s, EraseNacks, steps, t);
    TurnOne(EraseNacks);
    TurnJoin([EraseNacks], false, steps, false);
    steps := [EraseNacks] + steps;
  }

  /** When a pass is over that was begun at one time and chose at the other. */
  function TurnEnd(from: Time, now: Time, p: Pass): Time {
    if !p.acks.outcome.Finished? || !p.nacks.outcome.Finished? || |p.extended.sent| > |p.calls| then from
    else LastStart(now, p.extended.sent, p.calls)
  }

  /** All that was completed is sent, unless a call fails. */
  lemma SendsRun(s: State, order: seq<AckId>, script: seq<Call>, a: Sending, n: Sending)
    returns (steps: seq<Step>, t: State)
    requires s.phase == Merged && Enumerates(order, s.q.acks + s.q.nacks)
    requires a == SendAll(InOrder(order, s.q.acks), MAX_PAYLOAD, script) && !a.outcome.Unfinished?
    requires a.outcome.Finished? ==>
               n == SendAll(InOrder(order, s.q.nacks), MAX_PAYLOAD, After(script, a)) && !n.outcome.Unfinished?
    ensures Leads(s, steps, t) && OfTurn(steps, false) && t.now == s.now && t.h.samples == s.h.samples
    ensures t.h.log == s.h.log + (Logged(Ack, a) + if a.outcome.Finished? then Logged(Nack, n) else [])
    ensures EndedFor(s, t, if a.outcome.Finished? then Flatten(n.sent) else [])
    ensures var drained := s.q.Drain().Erase(s.q.acks);
            t.q == if a.outcome.Finished? then drained.Erase(s.q.nacks) else drained
    ensures if a.outcome.Finished? && n.outcome.Finished? then t.phase == SendingNacks && t.nacks == []
            else t.phase == Top && !t.needSleep
  {
    hide Leads, SendAll, InOrder, OfTurn, Logged, After;
    steps, t := DrainRun(s, order, script);
    if a.outcome.Finished? {
      var drained, more := t, [];
      more, t := GiveBackRun(drained, After(script, a));
      assert Elements(InOrder(order, s.q.nacks)) == s.q.nacks;
      Join(s, steps, drained, more, t);
      TurnJoin(steps, false, more, false);
      steps := steps + more;
    }
  }

  lemma PassConcludes(q: Queues, samples: seq<nat>, order: seq<AckId>, now: Time, script: seq<Call>, p: Pass)
    requires IsPass(q, samples, order, now, script, p)
    ensures p.result.Sleep?
            <==> p.acks.outcome.Finished? && p.nacks.outcome.Finished? && p.extended.outcome.Finished?
  {
  }

  /** The leases at the server after a pass that was begun at this time: those of the ids that were given back are over,
      and those that were extended run exactly as long as the client believes. */
  ghost function ServerAfterPass(server: map<AckId, Time>, begun: Time, p: Pass): map<AckId, Time> {
    if !p.acks.outcome.Finished? then server
    else
      var ended := map id | id in server :: if id in Flatten(p.nacks.sent) then begun else server[id];
      if !p.nacks.outcome.Finished? || |p.extended.sent| > |p.calls| then ended
      else Extended(ended, p.extended.sent, p.calls, 1000 * p.seconds)
  }

  lemma ServerAfterSends(s: State, m: State, t: State, p: Pass)
    requires EndedFor(s, m, if p.acks.outcome.Finished? then Flatten(p.nacks.sent) else [])
    requires if p.acks.outcome.Finished? && p.nacks.outcome.Finished?
             then |p.extended.sent| <= |p.calls|
                  && t.server == Extended(m.server, p.extended.sent, p.calls, 1000 * p.seconds)
             else t.server == m.server
    ensures t.server == ServerAfterPass(s.server, s.now, p)
  {
    hide Flatten, Extended;
    if p.acks.outcome.Finished? {
      assert m.server == map id | id in s.server :: if id in Flatten(p.nacks.sent) then s.now else s.server[id];
    } else {
      assert m.server == s.server;
    }
  }

  /** From the merge on, what ProcessModAcks does to the containers, the calls it makes for completed ids, and how the
      ack thread goes on, is what some run of the protocol does, with the leases chosen at the given time. */
  lemma PassIsRun(s: State, order: seq<AckId>, now: Time, script: seq<Call>, p: Pass)
    returns (steps: seq<Step>, t: State)
    requires s.phase == Merged && s.now <= now && IsPass(s.q, s.h.samples, order, now, script, p)
             && p.result != StillSending
    requires Enumerates(order, s.q.keepAlive.Keys + s.q.acks + s.q.nacks)
    requires InSequence(now, p.calls)
    ensures Leads(s, steps, t) && t.q == PassQueues(s.q, p) && GoesOn(t, p.result)
    ensures t.h.log == s.h.log + LoggedPass(p)
    ensures OfTurn(steps, p.result.Sleep?) && t.now == TurnEnd(s.now, now, p)
    ensures t.server == ServerAfterPass(s.server, s.now, p)
  {
    PassConcludes(s.q, s.h.samples, order, now, script, p);
    hide Leads, SendAll, Extended, InOrder, OfTurn, IsSleepAfter, IsDeadline, Logged, EndedFor,
         ServerAfterPass, Flatten;
    var sent, more := s, [];
    steps, sent := SendsRun(s, order, script, p.acks, p.nacks);
    t := sent;
    if p.acks.outcome.Finished? && p.nacks.outcome.Finished? {
      assert sent.q.keepAlive == s.q.keepAlive - s.q.acks - s.q.nacks;
      more, t := ChooseLater(sent, order, now, p);
      Join(s, steps, sent, more, t);
      TurnJoin(steps, false, more, p.extended.outcome.Finished?);
      steps := steps + more;
    }
    ServerAfterSends(s, sent, t, p);
  }

  /** The choosing and all that follows, once everything has been sent. */
  lemma ChooseLater(s: State, order: seq<AckId>, now: Time, p: Pass) returns (steps: seq<Step>, t: State)
    requires s.phase == SendingNacks && s.nacks == [] && s.now <= now && InSequence(now, p.calls)
    requires Enumerates(order, s.q.keepAlive.Keys)
    requires 10 <= p.seconds <= 600 && IsDeadline(s.h.samples, p.seconds)
    requires p.extended == SendAll(InOrder(order, Due(s.q.keepAlive, now)), MAX_PAYLOAD, p.calls)
    requires |p.extended.sent| <= |p.calls| && !p.extended.outcome.Unfinished?
    requires if p.extended.outcome.Finished? then IsSleepAfter(s.q.keepAlive, now, p.result)
             else p.result == Failure(p.extended.outcome)
    ensures Leads(s, steps, t) && GoesOn(t, p.result) && t.h == s.h
    ensures OfTurn(steps, p.extended.outcome.Finished?) && t.now == LastStart(now, p.extended.sent, p.calls)
    ensures t.q == s.q.(keepAlive := Extended(s.q.keepAlive, p.extended.sent, p.calls, 1000 * p.seconds))
    ensures t.server == Extended(s.server, p.extended.sent, p.calls, 1000 * p.seconds)
  {
    hide Leads, SendAll, Extended, InOrder, OfTurn, IsSleepAfter, IsDeadline;
    var s' := s.(now := now);
    assert Apply(s, Tick(now - s.now)) == s';
    steps, t := ChooseRun(s', order, p);
    Prefix(s, Tick(now - s.now), steps, t);
    TurnOne(Tick(now - s.now));
    TurnJoin([Tick(now - s.now)], false, steps, p.extended.outcome.Finished?);
    steps := [Tick(now - s.now)] + steps;
  }

  /** So a round of the ack thread, from the merge to the end of the pass, leads from a reachable state to a reachable
      one: what holds in all of them holds of the containers after it. */
  lemma RoundIsRun(s: State, order: seq<AckId>, now: Time, script: seq<Call>, p: Pass)
    returns (steps: seq<Step>, t: State)
    requires Reachable(s) && Enabled(s, Merge) && s.now <= now
    requires IsPass(s.q.Merge(), s.h.samples, order, now, script, p) && p.result != StillSending
             && InSequence(now, p.calls)
    requires Enumerates(order, s.q.Held() + s.q.acks + s.q.nacks)
    ensures Leads(s, steps, t) && Reachable(t)
    ensures t.q == PassQueues(s.q.Merge(), p) && GoesOn(t, p.result) && t.h.log == s.h.log + LoggedPass(p)
  {
    hide Leads, IsPass, PassQueues, LoggedPass, GoesOn, InSequence;
    var merged := Apply(s, Merge);
    assert merged.q.keepAlive.Keys == s.q.Held();
    steps, t := PassIsRun(merged, order, now, script, p);
    Prefix(s, Merge, steps, t);
    steps := [Merge] + steps;
    var from, first :| Leads(Start(from), first, s);
    Join(Start(from), first, s, steps, t);
  }
}
