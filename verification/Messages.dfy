/** Messages as the user sees them, and the pull that watches and delivers them. */
module Messages {
  import opened Types
  import opened Queues
  import opened Iterator

  /** One call of Ack or Nack, with the time it is made. */
  datatype Use = Use(action: Action, time: Time)

  /** What the user does first decides; a message that is only dropped counts as given back. */
  function FirstAction(uses: seq<Use>): Action {
    if uses == [] then Nack else uses[0].action
  }

  class MessageImpl {
    const home: ModAckIterator
    /** Whether the weak reference to home has not been reset yet. */
    var attached: bool
    const ackId: AckId
    const receiveTime: Time

    constructor (home: ModAckIterator, ackId: AckId, receiveTime: Time)
      ensures this.home == home && this.ackId == ackId && this.receiveTime == receiveTime && attached
    {
      this.home, this.ackId, this.receiveTime := home, ackId, receiveTime;
      attached := true;
    }

    method Ack(now: Time)
      requires home.Valid() && receiveTime <= now
      modifies this`attached, home`pendingAckIDs, home`pendingNackIDs, home.ackDist, home.ackDist.hist
      ensures home.Valid() && attached == (old(attached) && !home.alive)
      ensures home.View()
              == if old(attached) && home.alive then old(home.View()).Complete(ackId, Action.Ack) else old(home.View())
      ensures home.ackDist.samples == old(home.ackDist.samples)
                                      + if old(attached) && home.alive then [(now - receiveTime) / 1000] else []
    {
      if attached && home.alive {
        home.Done(ackId, receiveTime, now, Action.Ack);
        attached := false;
      }
    }

    method Nack(now: Time)
      requires home.Valid() && receiveTime <= now
      modifies this`attached, home`pendingAckIDs, home`pendingNackIDs, home.ackDist, home.ackDist.hist
      ensures home.Valid() && attached == (old(attached) && !home.alive)
      ensures home.View()
              == if old(attached) && home.alive then old(home.View()).Complete(ackId, Action.Nack) else old(home.View())
      ensures home.ackDist.samples == old(home.ackDist.samples)
                                      + if old(attached) && home.alive then [(now - receiveTime) / 1000] else []
    {
      if attached && home.alive {
        home.Done(ackId, receiveTime, now, Action.Nack);
        attached := false;
      }
    }

    /** The destructor. */
    method Destroy(now: Time)
      requires home.Valid() && receiveTime <= now
      modifies this`attached, home`pendingAckIDs, home`pendingNackIDs, home.ackDist, home.ackDist.hist
      ensures home.Valid() && attached == (old(attached) && !home.alive)
      ensures home.View()
              == if old(attached) && home.alive then old(home.View()).Complete(ackId, Action.Nack) else old(home.View())
      ensures home.ackDist.samples == old(home.ackDist.samples)
                                      + if old(attached) && home.alive then [(now - receiveTime) / 1000] else []
    {
      Nack(now);
    }

    /** Any calls of the user, ending in destruction, complete the lease exactly once: with the first action, and
        with one sample, the time up to it. */
    method UseUp(uses: seq<Use>, end: Time)
      requires home.Valid() && home.alive && attached
      requires receiveTime <= end && forall i :: 0 <= i < |uses| ==> receiveTime <= uses[i].time
      modifies this`attached, home`pendingAckIDs, home`pendingNackIDs, home.ackDist, home.ackDist.hist
      ensures home.Valid() && !attached
      ensures home.View() == old(home.View()).Complete(ackId, FirstAction(uses))
      ensures home.ackDist.samples
              == old(home.ackDist.samples) + [((if uses == [] then end else uses[0].time) - receiveTime) / 1000]
    {
      for i := 0 to |uses|
        invariant home.Valid() && attached == (i == 0)
        invariant i == 0 ==> home.View() == old(home.View()) && home.ackDist.samples == old(home.ackDist.samples)
        invariant i > 0 ==>
            && home.View() == old(home.View()).Complete(ackId, FirstAction(uses))
            && home.ackDist.samples == old(home.ackDist.samples) + [(uses[0].time - receiveTime) / 1000]
      {
        match uses[i].action
        case Ack => Ack(uses[i].time);
        case Nack => Nack(uses[i].time);
      }
      Destroy(end);
    }
  }

  // ----- Pull ----------------------------------------------------------------------------------

  /** Something the user does with a message it has been given: an action, or none when the message is dropped. The
      messages kept from earlier pulls come first, then those of this one, in the order of delivery. */
  datatype Act = Act(message: nat, action: Option<Action>, time: Time)

  /** What one call of the callback does, with the message it is given and with those it has kept. */
  datatype Callback = Callback(acts: seq<Act>, throws: bool)

  /** What a pull does, in order; with each delivery goes what the iterator holds when the callback is called. */
  datatype Event = Watched(id: AckId) | Delivered(id: AckId, q: Queues)

  function Reverse<T>(s: seq<T>): (r: seq<T>)
    ensures |r| == |s| && forall i :: 0 <= i < |s| ==> r[i] == s[|s| - 1 - i]
  {
    seq(|s|, i requires 0 <= i < |s| => s[|s| - 1 - i])
  }

  function WatchAll(q: Queues, ids: seq<AckId>, nextAck: Time): Queues {
    if ids == [] then q else WatchAll(q, ids[..|ids| - 1], nextAck).Watch(ids[|ids| - 1], nextAck)
  }

  function ActionOf(act: Act): Action {
    if act.action.Some? then act.action.value else Nack
  }

  /** What is done first with a message. */
  function FirstUse(acts: seq<Act>, k: nat): Option<Action> {
    if acts == [] then None
    else
      var n := |acts| - 1;
      var first := FirstUse(acts[..n], k);
      if first == None && acts[n].message == k then Some(ActionOf(acts[n])) else first
  }

  /** The containers after these acts: what is done first with a message counts, and nothing after it. */
  function Settle(q: Queues, ids: seq<AckId>, acts: seq<Act>): Queues {
    if acts == [] then q
    else
      var n := |acts| - 1;
      var act, q' := acts[n], Settle(q, ids, acts[..n]);
      if FirstUse(acts[..n], act.message).Some? || act.message >= |ids| then q'
      else q'.Complete(ids[act.message], ActionOf(act))
  }

  /** Whole seconds from one time to a later one. */
  function Seconds(start: Time, end: Time): nat {
    if start <= end then (end - start) / 1000 else 0
  }

  /** The processing times after these acts: one more for each message that was used, from when it was received to when
      something was first done with it. */
  function Measured(samples: seq<nat>, times: seq<Time>, acts: seq<Act>): seq<nat>
    requires forall act :: act in acts ==> act.message < |times|
  {
    if acts == [] then samples
    else
      var n := |acts| - 1;
      var act, measured := acts[n], Measured(samples, times, acts[..n]);
      if FirstUse(acts[..n], act.message).Some? then measured else measured + [Seconds(times[act.message], act.time)]
  }

  /** When these messages were received. */
  function Times(all: seq<MessageImpl>): (times: seq<Time>)
    ensures |times| == |all|
  {
    seq(|all|, k requires 0 <= k < |all| => all[k].receiveTime)
  }

  /** What there is before the user does anything: the containers of the iterator, its processing times so far, and when
      each message was received. */
  datatype Before = Before(q: Queues, samples: seq<nat>, times: seq<Time>)

  /** All that the first callbacks do, one after the other. */
  function Trace(callbacks: seq<Callback>): seq<Act> {
    if callbacks == [] then [] else Trace(callbacks[..|callbacks| - 1]) + callbacks[|callbacks| - 1].acts
  }

  /** Each callback uses only messages that have been delivered, in this pull or before; kept is the number of those
      from before. */
  ghost predicate InReach(callbacks: seq<Callback>, kept: nat, now: Time) {
    forall n :: 0 <= n < |callbacks| ==>
      forall act :: act in callbacks[n].acts ==> act.message <= kept + n && now <= act.time
  }

  /** How many callbacks are called: up to and with the first that throws. */
  function Calls(callbacks: seq<Callback>): (n: nat)
    ensures n <= |callbacks|
    ensures n < |callbacks| ==> n > 0 && callbacks[n - 1].throws
  {
    CallsAfter(callbacks, 0)
  }

  function CallsAfter(callbacks: seq<Callback>, i: nat): (n: nat)
    requires i <= |callbacks|
    ensures i <= n <= |callbacks|
    ensures n < |callbacks| ==> n > i && callbacks[n - 1].throws
    decreases |callbacks| - i
  {
    if i == |callbacks| then i
    else if callbacks[i].throws then i + 1
    else CallsAfter(callbacks, i + 1)
  }

  /** When a callback throws, the messages not delivered yet are dropped with the rest of the response. */
  function Unwinding(n: nat, all: nat, end: Time): seq<Act>
    requires n <= all
  {
    seq(all - n, i requires 0 <= i < all - n => Act(n + i, None, end))
  }

  function Watches(ids: seq<AckId>): seq<Event> {
    seq(|ids|, i requires 0 <= i < |ids| => Watched(ids[i]))
  }

  /** The first n deliveries after the messages that were kept; each callback finds what the ones before it have
      left. */
  function Deliveries(q: Queues, ids: seq<AckId>, callbacks: seq<Callback>, kept: nat, n: nat): seq<Event>
    requires kept + n <= |ids| && n <= |callbacks|
  {
    seq(n, i requires 0 <= i < n => Delivered(ids[kept + i], Settle(q, ids, Trace(callbacks[..i]))))
  }

  /** The messages of a response, each bound to the iterator and to its own id. */
  ghost predicate MessagesOf(vec: seq<MessageImpl>, it: ModAckIterator, ids: seq<AckId>, now: Time)
    reads vec
  {
    && |vec| == |ids|
    && (forall j :: 0 <= j < |vec| ==>
          vec[j].home == it && vec[j].ackId == ids[j] && vec[j].receiveTime == now && vec[j].attached)
    && Distinct(vec)
  }

  /** The first loop of a pull: schedules the extension of every lease, apart from the delivery. */
  method WatchResponse(it: ModAckIterator, response: seq<AckId>, now: Time)
    returns (events: seq<Event>, vec: seq<MessageImpl>)
    modifies it`inputAckIDs
    ensures it.View() == WatchAll(old(it.View()), response, now + MIN_ACK_DEADLINE - 1000)
    ensures events == Watches(response) && MessagesOf(vec, it, response, now)
    ensures forall j :: 0 <= j < |vec| ==> fresh(vec[j])
  {
    events, vec := [], [];
    var nextAck := now + MIN_ACK_DEADLINE - 1000;
    for i := 0 to |response|
      invariant it.View() == WatchAll(old(it.View()), response[..i], nextAck)
      invariant events == Watches(response[..i]) && MessagesOf(vec, it, response[..i], now)
      invariant forall j :: 0 <= j < i ==> fresh(vec[j])
    {
      assert response[..i + 1][..i] == response[..i];
      it.AddDeadlineWatcher(response[i], nextAck);
      events := events + [Watched(response[i])];
      var message := new MessageImpl(it, response[i], now);
      vec := vec + [message];
    }
    assert response[..|response|] == response;
  }

  /** The messages in the order of delivery, still attached unless something was done with them. */
  ghost predicate Attached(all: seq<MessageImpl>, it: ModAckIterator, ids: seq<AckId>, now: Time, acts: seq<Act>)
    reads all
  {
    && |all| == |ids| && Distinct(all) && (forall act :: act in acts ==> act.message < |ids|)
    && forall k :: 0 <= k < |all| ==>
         && all[k].home == it && all[k].ackId == ids[k] && all[k].receiveTime <= now
         && (all[k].attached <==> FirstUse(acts, k) == None)
  }

  /** All acts so far have been performed, and no others. */
  ghost predicate Performed(it: ModAckIterator, delivered: seq<MessageImpl>, ids: seq<AckId>, now: Time, was: Before,
                            acts: seq<Act>)
    reads it, it.ackDist, it.ackDist.hist, delivered
  {
    && it.Valid() && it.alive && Attached(delivered, it, ids, now, acts) && it.View() == Settle(was.q, ids, acts)
    && was.times == Times(delivered) && it.ackDist.samples == Measured(was.samples, was.times, acts)
  }

  method Perform(it: ModAckIterator, all: seq<MessageImpl>, act: Act, ghost ids: seq<AckId>, ghost now: Time,
                 ghost was: Before, ghost acts: seq<Act>)
    requires Performed(it, all, ids, now, was, acts) && act.message < |all| && now <= act.time
    modifies it`pendingAckIDs, it`pendingNackIDs, it.ackDist, it.ackDist.hist, all
    ensures Performed(it, all, ids, now, was, acts + [act])
  {
    hide Settle, FirstUse, Measured;
    FirstUseAppend(acts, act);
    SettleLast(was.q, ids, acts, act);
    MeasuredLast(was.samples, was.times, acts, act);
    var message := all[act.message];
    match act.action {
      case Some(Ack) => message.Ack(act.time);
      case Some(Nack) => message.Nack(act.time);
      case None => message.Destroy(act.time);
    }
  }

  lemma FirstUseAppend(acts: seq<Act>, act: Act)
    ensures forall k :: FirstUse(acts + [act], k)
              == if FirstUse(acts, k) == None && k == act.message then Some(ActionOf(act)) else FirstUse(acts, k)
  {
    assert (acts + [act])[..|acts|] == acts;
  }

  lemma SettleLast(q: Queues, ids: seq<AckId>, acts: seq<Act>, act: Act)
    requires act.message < |ids| && forall a :: a in acts ==> a.message < |ids|
    ensures Settle(q, ids, acts + [act])
            == if FirstUse(acts, act.message).Some? then Settle(q, ids, acts)
               else Settle(q, ids, acts).Complete(ids[act.message], ActionOf(act))
  {
    assert (acts + [act])[..|acts|] == acts;
  }

  lemma MeasuredLast(samples: seq<nat>, times: seq<Time>, acts: seq<Act>, act: Act)
    requires act.message < |times| && forall a :: a in acts ==> a.message < |times|
    ensures Measured(samples, times, acts + [act])
            == Measured(samples, times, acts)
               + if FirstUse(acts, act.message).Some? then [] else [Seconds(times[act.message], act.time)]
  {
    assert (acts + [act])[..|acts|] == acts;
  }

  method PerformAll(it: ModAckIterator, all: seq<MessageImpl>, todo: seq<Act>, ghost ids: seq<AckId>, ghost now: Time,
                    ghost was: Before, ghost acts: seq<Act>)
    requires Performed(it, all, ids, now, was, acts)
    requires forall act :: act in todo ==> act.message < |all| && now <= act.time
    modifies it`pendingAckIDs, it`pendingNackIDs, it.ackDist, it.ackDist.hist, all
    ensures Performed(it, all, ids, now, was, acts + todo)
  {
    hide Performed, FirstUse;
    assert acts + todo[..0] == acts;
    for i := 0 to |todo|
      invariant Performed(it, all, ids, now, was, acts + todo[..i])
    {
      assert acts + todo[..i + 1] == (acts + todo[..i]) + [todo[i]];
      Perform(it, all, todo[i], ids, now, was, acts + todo[..i]);
    }
    assert todo[..|todo|] == todo;
  }

  /** What is done in all: by the callbacks that are called, and by unwinding when the last of them threw. */
  function AllActs(callbacks: seq<Callback>, kept: nat, end: Time): seq<Act> {
    var n := Calls(callbacks);
    Trace(callbacks[..n])
    + if n > 0 && callbacks[n - 1].throws then Unwinding(kept + n, kept + |callbacks|, end) else []
  }

  lemma InReachAt(callbacks: seq<Callback>, kept: nat, now: Time, n: nat)
    requires InReach(callbacks, kept, now) && n < |callbacks|
    ensures forall act :: act in callbacks[n].acts ==> act.message < kept + |callbacks| && now <= act.time
    ensures Trace(callbacks[..n]) + callbacks[n].acts == Trace(callbacks[..n + 1])
    ensures Trace(callbacks[..n]) + callbacks[n].acts + [] == Trace(callbacks[..n + 1])
  {
    assert callbacks[..n + 1][..n] == callbacks[..n];
  }

  lemma CallsFrom(callbacks: seq<Callback>, n: nat)
    requires n <= |callbacks| && forall i :: 0 <= i < n ==> !callbacks[i].throws
    ensures n < |callbacks| && callbacks[n].throws ==> Calls(callbacks) == n + 1
    ensures n == |callbacks| ==> Calls(callbacks) == n
  {
    CallsSkip(callbacks, 0, n);
  }

  lemma {:induction false} CallsFirst(callbacks: seq<Callback>, i: nat)
    requires i <= |callbacks|
    ensures forall j :: i <= j < CallsAfter(callbacks, i) - 1 ==> !callbacks[j].throws
    decreases |callbacks| - i
  {
    if i < |callbacks| && !callbacks[i].throws {
      CallsFirst(callbacks, i + 1);
    }
  }

  lemma {:induction false} CallsSkip(callbacks: seq<Callback>, i: nat, n: nat)
    requires i <= n <= |callbacks| && forall j :: i <= j < n ==> !callbacks[j].throws
    ensures CallsAfter(callbacks, i) == CallsAfter(callbacks, n)
    decreases n - i
  {
    if i < n {
      CallsSkip(callbacks, i + 1, n);
    }
  }

  lemma AttachedFirst(response: seq<MessageImpl>, it: ModAckIterator, ids: seq<AckId>, now: Time)
    requires MessagesOf(response, it, ids, now)
    ensures |response| == |ids| && Attached(Reverse(response), it, Reverse(ids), now, [])
  {
  }

  lemma AttachedAt(all: seq<MessageImpl>, it: ModAckIterator, ids: seq<AckId>, now: Time, was: Before, acts: seq<Act>,
                   k: nat)
    requires Performed(it, all, ids, now, was, acts) && k < |all|
    ensures |all| == |ids| && all[k].ackId == ids[k]
  {
  }

  /** With one more callback, given the message of this index. */
  function WithCallback(acts: seq<Act>, callback: Callback, n: nat, all: nat, end: Time): seq<Act>
    requires n < all
  {
    acts + callback.acts + if callback.throws then Unwinding(n + 1, all, end) else []
  }

  /** Every id of the response is held by the iterator. */
  ghost predicate ResponseHeld(q: Queues, ids: seq<AckId>, kept: nat) {
    forall k :: kept <= k < |ids| ==> ids[k] in q.Held()
  }

  /** One call of the callback, with every id of the response held by then; when it throws, unwinding drops what has
      not been delivered. */
  method CallBack(it: ModAckIterator, delivered: seq<MessageImpl>, callback: Callback, n: nat, end: Time,
                  ghost ids: seq<AckId>, ghost kept: nat, ghost now: Time, ghost was: Before, ghost acts: seq<Act>)
    requires Performed(it, delivered, ids, now, was, acts) && n < |delivered| && now <= end
    requires ResponseHeld(it.View(), ids, kept)
    requires forall act :: act in callback.acts ==> act.message < |delivered| && now <= act.time
    modifies it`pendingAckIDs, it`pendingNackIDs, it.ackDist, it.ackDist.hist, delivered
    ensures Performed(it, delivered, ids, now, was, WithCallback(acts, callback, n, |delivered|, end))
  {
    hide Settle, FirstUse, Attached;
    PerformAll(it, delivered, callback.acts, ids, now, was, acts);
    if callback.throws {
      PerformAll(it, delivered, Unwinding(n + 1, |delivered|, end), ids, now, was, acts + callback.acts);
    } else {
      assert acts + callback.acts + [] == acts + callback.acts;
    }
  }

  /** The first messages have been delivered, and none of their callbacks threw. */
  ghost predicate Progress(it: ModAckIterator, delivered: seq<MessageImpl>, ids: seq<AckId>, now: Time, was: Before,
                           callbacks: seq<Callback>, kept: nat, n: nat, events: seq<Event>)
    reads it, it.ackDist, it.ackDist.hist, delivered
  {
    && n <= |callbacks| && kept + |callbacks| == |delivered| == |ids|
    && (forall i :: 0 <= i < n ==> !callbacks[i].throws)
    && events == Deliveries(was.q, ids, callbacks, kept, n)
    && Performed(it, delivered, ids, now, was, Trace(callbacks[..n]))
  }

  /** Everything that is going to happen has happened. */
  ghost predicate Complete(it: ModAckIterator, delivered: seq<MessageImpl>, ids: seq<AckId>, now: Time, was: Before,
                           callbacks: seq<Callback>, kept: nat, end: Time, threw: bool, events: seq<Event>)
    reads it, it.ackDist, it.ackDist.hist, delivered
  {
    && it.Valid() && Attached(delivered, it, ids, now, AllActs(callbacks, kept, end))
    && kept + Calls(callbacks) <= |ids|
    && events == Deliveries(was.q, ids, callbacks, kept, Calls(callbacks))
    && (threw <==> Calls(callbacks) > 0 && callbacks[Calls(callbacks) - 1].throws)
    && (forall act :: act in AllActs(callbacks, kept, end) ==> act.message < |ids|)
    && it.View() == Settle(was.q, ids, AllActs(callbacks, kept, end)) && |was.times| == |ids|
    && it.ackDist.samples == Measured(was.samples, was.times, AllActs(callbacks, kept, end))
  }

  function NextDelivery(q: Queues, ids: seq<AckId>, callbacks: seq<Callback>, kept: nat, n: nat): Event
    requires kept + n < |ids| && n < |callbacks|
  {
    Delivered(ids[kept + n], Settle(q, ids, Trace(callbacks[..n])))
  }

  lemma DeliveriesStep(q: Queues, ids: seq<AckId>, callbacks: seq<Callback>, kept: nat, n: nat)
    requires kept + n < |ids| && n < |callbacks|
    ensures Deliveries(q, ids, callbacks, kept, n) + [NextDelivery(q, ids, callbacks, kept, n)]
            == Deliveries(q, ids, callbacks, kept, n + 1)
  {
  }

  /** Whatever is done with messages, everything that was held still is. */
  lemma {:induction false} SettleHolds(q: Queues, ids: seq<AckId>, acts: seq<Act>)
    ensures Settle(q, ids, acts).Held() == q.Held()
  {
    if acts != [] {
      SettleHolds(q, ids, acts[..|acts| - 1]);
    }
  }

  /** What one more call of the callback finds. */
  lemma ProgressAt(it: ModAckIterator, delivered: seq<MessageImpl>, ids: seq<AckId>, now: Time, was: Before,
                   callbacks: seq<Callback>, kept: nat, n: nat, events: seq<Event>)
    requires Progress(it, delivered, ids, now, was, callbacks, kept, n, events) && InReach(callbacks, kept, now)
    requires n < |callbacks|
    ensures kept + n < kept + |callbacks| == |delivered| == |ids| && delivered[kept + n].ackId == ids[kept + n]
    ensures Performed(it, delivered, ids, now, was, Trace(callbacks[..n]))
    ensures Delivered(delivered[kept + n].ackId, it.View()) == NextDelivery(was.q, ids, callbacks, kept, n)
    ensures ResponseHeld(was.q, ids, kept) ==> ResponseHeld(it.View(), ids, kept)
    ensures forall act :: act in callbacks[n].acts ==> act.message < |delivered| && now <= act.time
  {
    InReachAt(callbacks, kept, now, n);
    SettleHolds(was.q, ids, Trace(callbacks[..n]));
    AttachedAt(delivered, it, ids, now, was, Trace(callbacks[..n]), kept + n);
  }

  /** What it leaves when it does not throw. */
  lemma ProgressNext(it: ModAckIterator, delivered: seq<MessageImpl>, ids: seq<AckId>, now: Time, was: Before,
                     callbacks: seq<Callback>, kept: nat, n: nat)
    requires n < |callbacks| && kept + |callbacks| == |delivered| == |ids| && InReach(callbacks, kept, now)
    requires forall i :: 0 <= i <= n ==> !callbacks[i].throws
    requires Performed(it, delivered, ids, now, was, Trace(callbacks[..n]) + callbacks[n].acts + [])
    ensures Progress(it, delivered, ids, now, was, callbacks, kept, n + 1,
                     Deliveries(was.q, ids, callbacks, kept, n) + [NextDelivery(was.q, ids, callbacks, kept, n)])
  {
    InReachAt(callbacks, kept, now, n);
    DeliveriesStep(was.q, ids, callbacks, kept, n);
    hide Performed, Trace, InReach, Calls, AllActs, Deliveries, Settle, Measured, Unwinding, Attached, FirstUse;
  }

  /** And when it does. */
  lemma ProgressThrows(it: ModAckIterator, delivered: seq<MessageImpl>, ids: seq<AckId>, now: Time, was: Before,
                       callbacks: seq<Callback>, kept: nat, n: nat, end: Time)
    requires n < |callbacks| && kept + |callbacks| == |delivered| == |ids| && InReach(callbacks, kept, now)
    requires callbacks[n].throws && forall i :: 0 <= i < n ==> !callbacks[i].throws
    requires Performed(it, delivered, ids, now, was,
                       Trace(callbacks[..n]) + callbacks[n].acts + Unwinding(kept + n + 1, |delivered|, end))
    ensures Complete(it, delivered, ids, now, was, callbacks, kept, end, true,
                     Deliveries(was.q, ids, callbacks, kept, n) + [NextDelivery(was.q, ids, callbacks, kept, n)])
  {
    InReachAt(callbacks, kept, now, n);
    CallsFrom(callbacks, n);
    DeliveriesStep(was.q, ids, callbacks, kept, n);
    hide Performed, Trace, InReach, Calls, AllActs, Deliveries, Settle, Measured, Unwinding, Attached, FirstUse,
         ModAckIterator.Valid, ModAckIterator.View;
    assert Calls(callbacks) == n + 1;
    PerformedAll(it, delivered, ids, now, was, callbacks, kept, end);
  }

  lemma ProgressAfter(it: ModAckIterator, delivered: seq<MessageImpl>, ids: seq<AckId>, now: Time, was: Before,
                      callbacks: seq<Callback>, kept: nat, n: nat, end: Time)
    requires n < |callbacks| && kept + |callbacks| == |delivered| == |ids| && InReach(callbacks, kept, now)
    requires forall i :: 0 <= i < n ==> !callbacks[i].throws
    requires Performed(it, delivered, ids, now, was,
                       WithCallback(Trace(callbacks[..n]), callbacks[n], kept + n, |delivered|, end))
    ensures var events := Deliveries(was.q, ids, callbacks, kept, n) + [NextDelivery(was.q, ids, callbacks, kept, n)];
            if callbacks[n].throws then Complete(it, delivered, ids, now, was, callbacks, kept, end, true, events)
            else Progress(it, delivered, ids, now, was, callbacks, kept, n + 1, events)
  {
    hide Performed, Trace, InReach, Calls, AllActs, Deliveries, Settle, Measured, Unwinding, Attached, FirstUse,
         Progress, Complete;
    if callbacks[n].throws {
      ProgressThrows(it, delivered, ids, now, was, callbacks, kept, n, end);
    } else {
      ProgressNext(it, delivered, ids, now, was, callbacks, kept, n);
    }
  }

  lemma ProgressSays(it: ModAckIterator, delivered: seq<MessageImpl>, ids: seq<AckId>, now: Time, was: Before,
                     callbacks: seq<Callback>, kept: nat, n: nat, events: seq<Event>)
    requires Progress(it, delivered, ids, now, was, callbacks, kept, n, events)
    ensures n <= |callbacks| && kept + |callbacks| == |delivered| == |ids|
    ensures events == Deliveries(was.q, ids, callbacks, kept, n) && forall i :: 0 <= i < n ==> !callbacks[i].throws
  {
  }

  method HandOver(it: ModAckIterator, delivered: seq<MessageImpl>, message: MessageImpl, callbacks: seq<Callback>,
                  ghost kept: nat, n: nat, at: nat, end: Time, ghost ids: seq<AckId>, ghost now: Time,
                  ghost was: Before, events: seq<Event>)
    returns (events': seq<Event>)
    requires Progress(it, delivered, ids, now, was, callbacks, kept, n, events) && InReach(callbacks, kept, now)
             && now <= end
    requires n < |callbacks| && at == kept + n < |delivered| && message == delivered[at]
    requires ResponseHeld(was.q, ids, kept)
    modifies it`pendingAckIDs, it`pendingNackIDs, it.ackDist, it.ackDist.hist, delivered
    ensures if callbacks[n].throws then Complete(it, delivered, ids, now, was, callbacks, kept, end, true, events')
            else Progress(it, delivered, ids, now, was, callbacks, kept, n + 1, events')
  {
    ProgressAt(it, delivered, ids, now, was, callbacks, kept, n, events);
    ProgressSays(it, delivered, ids, now, was, callbacks, kept, n, events);
    hide Progress, Complete, Performed, Trace, InReach, Deliveries, Unwinding, Attached, Settle, Measured, FirstUse,
         AllActs, Calls, ModAckIterator.Valid, ModAckIterator.View, NextDelivery, ResponseHeld,
         WithCallback;
    events' := events + [Delivered(message.ackId, it.View())];
    CallBack(it, delivered, callbacks[n], at, end, ids, kept, now, was, Trace(callbacks[..n]));
    ProgressAfter(it, delivered, ids, now, was, callbacks, kept, n, end);
  }

  lemma ProgressEnds(it: ModAckIterator, delivered: seq<MessageImpl>, ids: seq<AckId>, now: Time, was: Before,
                     callbacks: seq<Callback>, kept: nat, end: Time, events: seq<Event>)
    requires Progress(it, delivered, ids, now, was, callbacks, kept, |callbacks|, events)
    ensures Complete(it, delivered, ids, now, was, callbacks, kept, end, false, events)
  {
    CallsFrom(callbacks, |callbacks|);
    hide Performed, Trace, Calls, AllActs, Deliveries, Settle, Measured;
    PerformedAll(it, delivered, ids, now, was, callbacks, kept, end);
  }

  /** Messages the user has kept from earlier pulls and not used yet, apart from those of the response. */
  ghost predicate KeptMessages(older: seq<MessageImpl>, it: ModAckIterator, olderIds: seq<AckId>, now: Time,
                               response: seq<MessageImpl>)
    reads older
  {
    Attached(older, it, olderIds, now, []) && forall m :: m in older ==> m !in response
  }

  /** The messages of one response are all received at the same time. */
  function ReceivedAt(n: nat, now: Time): seq<Time> {
    seq(n, _ => now)
  }

  lemma TimesTogether(older: seq<MessageImpl>, it: ModAckIterator, response: seq<MessageImpl>, ids: seq<AckId>,
                      now: Time)
    requires MessagesOf(response, it, ids, now)
    ensures Times(older + Reverse(response)) == Times(older) + ReceivedAt(|ids|, now)
  {
  }

  lemma ProgressStarts(it: ModAckIterator, older: seq<MessageImpl>, olderIds: seq<AckId>, response: seq<MessageImpl>,
                       ids: seq<AckId>, now: Time, callbacks: seq<Callback>)
    requires it.Valid() && it.alive && MessagesOf(response, it, ids, now) && |callbacks| == |ids|
    requires KeptMessages(older, it, olderIds, now, response)
    ensures Progress(it, older + Reverse(response), olderIds + Reverse(ids), now,
                     Before(it.View(), it.ackDist.samples, Times(older) + ReceivedAt(|ids|, now)),
                     callbacks, |older|, 0, [])
  {
    TimesTogether(older, it, response, ids, now);
    AttachedFirst(response, it, ids, now);
    AttachedTogether(older, it, olderIds, Reverse(response), Reverse(ids), now);
    SettleNothing(it.View(), olderIds + Reverse(ids));
    TraceNothing(callbacks);
  }

  lemma AttachedTogether(older: seq<MessageImpl>, it: ModAckIterator, olderIds: seq<AckId>, newer: seq<MessageImpl>,
                         ids: seq<AckId>, now: Time)
    requires Attached(older, it, olderIds, now, []) && Attached(newer, it, ids, now, [])
    requires forall m :: m in older ==> m !in newer
    ensures Attached(older + newer, it, olderIds + ids, now, [])
  {
    SettleNothing(Queues(map[], map[], {}, {}), []);
    hide FirstUse, Settle;
    var all := older + newer;
    forall i, j | 0 <= i < j < |all|
      ensures all[i] != all[j]
    {
      if i < |older| && j >= |older| {
        assert all[i] in older && all[j] in newer;
      }
    }
  }

  /** The second loop: takes the messages from the end of the response and hands them to the callback. */
  method DeliverAll(it: ModAckIterator, delivered: seq<MessageImpl>, kept: nat, response: seq<MessageImpl>,
                    ghost ids: seq<AckId>, ghost now: Time, callbacks: seq<Callback>, end: Time, ghost was: Before)
    returns (threw: bool, events: seq<Event>)
    requires Progress(it, delivered, ids, now, was, callbacks, kept, 0, [])
    requires InReach(callbacks, kept, now) && now <= end && kept <= |delivered|
             && delivered[kept..] == Reverse(response)
    requires |callbacks| == |response|
    requires ResponseHeld(was.q, ids, kept)
    modifies it`pendingAckIDs, it`pendingNackIDs, it.ackDist, it.ackDist.hist, delivered
    ensures Complete(it, delivered, ids, now, was, callbacks, kept, end, threw, events)
  {
    hide Progress, Complete, InReach;
    var vec := response;
    var n := 0;
    events := [];
    while vec != []
      invariant n <= |response| && vec == response[..|response| - n]
      invariant Progress(it, delivered, ids, now, was, callbacks, kept, n, events)
    {
      LastIsNext(response, n);
      var message := vec[|vec| - 1];
      vec := vec[..|vec| - 1];
      assert message == delivered[kept..][n] == delivered[kept + n];
      events := HandOver(it, delivered, message, callbacks, kept, n, kept + n, end, ids, now, was, events);
      if callbacks[n].throws {
        return true, events;
      }
      n := n + 1;
    }
    ProgressSays(it, delivered, ids, now, was, callbacks, kept, n, events);
    ProgressEnds(it, delivered, ids, now, was, callbacks, kept, end, events);
    threw := false;
  }

  /** Delivers a response to a user who has kept some messages. */
  method Deliver(it: ModAckIterator, older: seq<MessageImpl>, ghost olderIds: seq<AckId>, response: seq<MessageImpl>,
                 ghost ids: seq<AckId>, now: Time, callbacks: seq<Callback>, end: Time)
    returns (threw: bool, events: seq<Event>)
    requires it.Valid() && it.alive && MessagesOf(response, it, ids, now)
    requires KeptMessages(older, it, olderIds, now, response)
    requires |callbacks| == |ids| && InReach(callbacks, |older|, now) && now <= end
    requires forall id :: id in ids ==> id in it.View().Held()
    modifies it`pendingAckIDs, it`pendingNackIDs, it.ackDist, it.ackDist.hist, older, response
    ensures it.Valid() && |older| == |olderIds|
    ensures events == Deliveries(old(it.View()), olderIds + Reverse(ids), callbacks, |older|, Calls(callbacks))
    ensures threw <==> Calls(callbacks) > 0 && callbacks[Calls(callbacks) - 1].throws
    ensures forall act :: act in AllActs(callbacks, |older|, end) ==> act.message < |olderIds + Reverse(ids)|
    ensures it.View() == Settle(old(it.View()), olderIds + Reverse(ids), AllActs(callbacks, |older|, end))
    ensures it.ackDist.samples
            == Measured(old(it.ackDist.samples), Times(older) + ReceivedAt(|ids|, now),
                        AllActs(callbacks, |older|, end))
    ensures forall k :: 0 <= k < |older| ==>
              (older[k].attached <==> FirstUse(AllActs(callbacks, |older|, end), k) == None)
  {
    ProgressStarts(it, older, olderIds, response, ids, now, callbacks);
    AttachedLength(older, it, olderIds, now);
    hide Progress, Attached, KeptMessages, InReach, AllActs, Deliveries, Settle, Measured;
    ghost var was := Before(it.View(), it.ackDist.samples, Times(older) + ReceivedAt(|ids|, now));
    assert (older + Reverse(response))[|older|..] == Reverse(response);
    threw, events := DeliverAll(it, older + Reverse(response), |older|, response, olderIds + Reverse(ids), now,
                                callbacks, end, was);
    StillAttached(it, older, Reverse(response), olderIds + Reverse(ids), now, AllActs(callbacks, |older|, end));
  }

  lemma StillAttached(it: ModAckIterator, older: seq<MessageImpl>, newer: seq<MessageImpl>, ids: seq<AckId>, now: Time,
                      acts: seq<Act>)
    requires Attached(older + newer, it, ids, now, acts)
    ensures forall k :: 0 <= k < |older| ==> (older[k].attached <==> FirstUse(acts, k) == None)
  {
    assert forall k :: 0 <= k < |older| ==> (older + newer)[k] == older[k];
  }

  lemma LastIsNext<T>(all: seq<T>, n: nat)
    requires n < |all|
    ensures var rest := all[..|all| - n];
            |rest| == |all| - n && rest[|rest| - 1] == Reverse(all)[n] && rest[..|rest| - 1] == all[..|all| - n - 1]
  {
  }

  lemma AttachedLength(all: seq<MessageImpl>, it: ModAckIterator, ids: seq<AckId>, now: Time)
    requires Attached(all, it, ids, now, [])
    ensures |all| == |ids|
  {
  }

  lemma TraceNothing(callbacks: seq<Callback>)
    ensures Trace(callbacks[..0]) == []
  {
  }

  lemma PerformedAll(it: ModAckIterator, delivered: seq<MessageImpl>, ids: seq<AckId>, now: Time, was: Before,
                     callbacks: seq<Callback>, kept: nat, end: Time)
    requires var n := Calls(callbacks);
             Performed(it, delivered, ids, now, was,
                       if n > 0 && callbacks[n - 1].throws
                       then Trace(callbacks[..n]) + Unwinding(kept + n, kept + |callbacks|, end)
                       else Trace(callbacks[..n]))
    ensures it.Valid() && (forall act :: act in AllActs(callbacks, kept, end) ==> act.message < |ids|)
    ensures it.View() == Settle(was.q, ids, AllActs(callbacks, kept, end)) && |was.times| == |ids|
    ensures Attached(delivered, it, ids, now, AllActs(callbacks, kept, end))
    ensures it.ackDist.samples == Measured(was.samples, was.times, AllActs(callbacks, kept, end))
  {
    assert Trace(callbacks[..Calls(callbacks)]) + [] == Trace(callbacks[..Calls(callbacks)]);
  }

  lemma SettleNothing(q: Queues, ids: seq<AckId>)
    ensures Settle(q, ids, []) == q && forall k :: FirstUse([], k) == None
  {
  }

  /** Watches every lease of the response before the callback gets the first message, then delivers each message once,
      the last one first, until a callback throws. A failed call throws, too, and does nothing else. */
  method Pull(it: ModAckIterator, older: seq<MessageImpl>, ghost olderIds: seq<AckId>, ok: bool, response: seq<AckId>,
              now: Time, callbacks: seq<Callback>, end: Time)
    returns (threw: bool, events: seq<Event>)
    requires it.Valid() && it.alive && Attached(older, it, olderIds, now, [])
    requires |callbacks| == |response| && InReach(callbacks, |older|, now) && now <= end
    modifies it`inputAckIDs, it`pendingAckIDs, it`pendingNackIDs, it.ackDist, it.ackDist.hist, older
    ensures it.Valid()
    ensures threw <==> !ok || (Calls(callbacks) > 0 && callbacks[Calls(callbacks) - 1].throws)
    ensures |older| == |olderIds|
    ensures !ok ==> events == [] && it.View() == old(it.View())
    ensures ok ==>
              var watched := WatchAll(old(it.View()), response, now + MIN_ACK_DEADLINE - 1000);
              events == Watches(response)
                        + Deliveries(watched, olderIds + Reverse(response), callbacks, |older|, Calls(callbacks))
    ensures forall id, q :: Delivered(id, q) in events ==> Elements(response) <= q.Held()
    ensures forall act :: act in AllActs(callbacks, |older|, end) ==> act.message < |olderIds + Reverse(response)|
    ensures ok ==>
              var watched := WatchAll(old(it.View()), response, now + MIN_ACK_DEADLINE - 1000);
              it.View() == Settle(watched, olderIds + Reverse(response), AllActs(callbacks, |older|, end))
    ensures !ok ==> it.ackDist.samples == old(it.ackDist.samples)
    ensures ok ==>
              it.ackDist.samples == Measured(old(it.ackDist.samples), Times(older) + ReceivedAt(|response|, now),
                                             AllActs(callbacks, |older|, end))
    ensures forall k :: 0 <= k < |older| ==>
              (older[k].attached <==> !ok || FirstUse(AllActs(callbacks, |older|, end), k) == None)
  {
    ActsInReach(callbacks, |older|, now, end);
    if !ok {
      return true, [];
    }
    ghost var watched := WatchAll(it.View(), response, now + MIN_ACK_DEADLINE - 1000);
    AllWatched(it.View(), response, now + MIN_ACK_DEADLINE - 1000);
    var watches, vec := WatchResponse(it, response, now);
    var deliveries;
    threw, deliveries := Deliver(it, older, olderIds, vec, response, now, callbacks, end);
    DeliveriesHold(watched, olderIds + Reverse(response), callbacks, |older|, Calls(callbacks));
    events := watches + deliveries;
  }

  lemma AllWatched(q: Queues, ids: seq<AckId>, nextAck: Time)
    ensures Elements(ids) <= WatchAll(q, ids, nextAck).Held()
  {
    WatchedAfterPull(q, ids, nextAck, "");
  }

  /** Every callback finds held what was held before the first. */
  lemma DeliveriesHold(q: Queues, ids: seq<AckId>, callbacks: seq<Callback>, kept: nat, n: nat)
    requires kept + n <= |ids| && n <= |callbacks|
    ensures forall id, q' :: Delivered(id, q') in Deliveries(q, ids, callbacks, kept, n) ==> q'.Held() == q.Held()
  {
    forall i | 0 <= i < n
      ensures Settle(q, ids, Trace(callbacks[..i])).Held() == q.Held()
    {
      SettleHolds(q, ids, Trace(callbacks[..i]));
    }
  }

  lemma {:induction false} TraceInReach(callbacks: seq<Callback>, kept: nat, now: Time)
    requires InReach(callbacks, kept, now)
    ensures forall act :: act in Trace(callbacks) ==> act.message < kept + |callbacks|
  {
    if callbacks != [] {
      TraceInReach(callbacks[..|callbacks| - 1], kept, now);
    }
  }

  lemma ActsInReach(callbacks: seq<Callback>, kept: nat, now: Time, end: Time)
    requires InReach(callbacks, kept, now)
    ensures forall act :: act in AllActs(callbacks, kept, end) ==> act.message < kept + |callbacks|
  {
    TraceInReach(callbacks[..Calls(callbacks)], kept, now);
  }

  /** After a pull every lease of the response is watched for as long as the least deadline, less a second. */
  lemma {:induction false} WatchedAfterPull(q: Queues, ids: seq<AckId>, nextAck: Time, id: AckId)
    ensures var q' := WatchAll(q, ids, nextAck);
            && q' == q.(input := q'.input) && q'.input.Keys == q.input.Keys + Elements(ids)
            && (id in q'.input.Keys ==> q'.input[id] == (if id in ids then nextAck else q.input[id]))
  {
    if ids != [] {
      var n := |ids| - 1;
      WatchedAfterPull(q, ids[..n], nextAck, id);
      assert ids == ids[..n] + [ids[n]];
    }
  }

  /** A message settles its own lease only: an id is pending for what was first done with its message, and as before
      when nothing was. */
  lemma {:induction false} SettledAfterPull(q: Queues, ids: seq<AckId>, acts: seq<Act>, id: AckId)
    requires Distinct(ids) && forall act :: act in acts ==> act.message < |ids|
    ensures var q' := Settle(q, ids, acts);
            && q'.input == q.input && q'.keepAlive == q.keepAlive
            && (forall k :: 0 <= k < |ids| && ids[k] == id ==>
                  match FirstUse(acts, k)
                  case None => (id in q'.acks <==> id in q.acks) && (id in q'.nacks <==> id in q.nacks)
                  case Some(Ack) => id in q'.acks && id !in q'.nacks
                  case Some(Nack) => id in q'.nacks && id !in q'.acks)
            && (id !in ids ==> (id in q'.acks <==> id in q.acks) && (id in q'.nacks <==> id in q.nacks))
  {
    if acts != [] {
      SettledAfterPull(q, ids, acts[..|acts| - 1], id);
    }
  }

  lemma UnwindingHas(n: nat, all: nat, end: Time, i: nat)
    requires n + i < all
    ensures var acts := Unwinding(n, all, end);
            && |acts| == all - n && acts[i] == Act(n + i, None, end)
            && forall j :: 0 <= j < |acts| && j != i ==> acts[j].message != n + i
  {
  }

  /** When a callback throws, nothing is left undecided that was not delivered: those messages are given back. */
  lemma UndeliveredAreGivenBack(callbacks: seq<Callback>, kept: nat, now: Time, end: Time, k: nat)
    requires InReach(callbacks, kept, now) && Calls(callbacks) <= k < |callbacks|
    ensures FirstUse(AllActs(callbacks, kept, end), kept + k) == Some(Nack)
  {
    AllActsThrown(callbacks, kept, end);
    hide AllActs, Trace, Unwinding, InReach, FirstUse;
    var n := Calls(callbacks);
    var trace, rest := Trace(callbacks[..n]), Unwinding(kept + n, kept + |callbacks|, end);
    TraceBefore(callbacks, kept, now, n, kept + k);
    UnwindingHas(kept + n, kept + |callbacks|, end, k - n);
    GivenBackBy(trace, rest, kept + k, k - n);
  }

  lemma AllActsThrown(callbacks: seq<Callback>, kept: nat, end: Time)
    requires Calls(callbacks) < |callbacks|
    ensures var n := Calls(callbacks);
            AllActs(callbacks, kept, end)
            == Trace(callbacks[..n]) + Unwinding(kept + n, kept + |callbacks|, end)
  {
    hide Trace, Unwinding;
  }

  lemma TraceBefore(callbacks: seq<Callback>, kept: nat, now: Time, n: nat, k: nat)
    requires InReach(callbacks, kept, now) && n <= |callbacks| && kept + n <= k
    ensures forall act :: act in Trace(callbacks[..n]) ==> act.message != k
  {
    TraceInReach(callbacks[..n], kept, now);
    hide Trace;
  }

  lemma GivenBackBy(trace: seq<Act>, rest: seq<Act>, k: nat, i: nat)
    requires (forall act :: act in trace ==> act.message != k) && i < |rest|
    requires rest[i].message == k && rest[i].action == None
    requires forall j :: 0 <= j < |rest| && j != i ==> rest[j].message != k
    ensures FirstUse(trace + rest, k) == Some(Nack)
  {
    hide FirstUse;
    Unused(trace, k);
    FirstAmong(trace, rest, k, i);
  }

  lemma {:induction false} Unused(acts: seq<Act>, k: nat)
    requires forall act :: act in acts ==> act.message != k
    ensures FirstUse(acts, k) == None
  {
    if acts != [] {
      Unused(acts[..|acts| - 1], k);
    }
  }

  lemma {:induction false} FirstAmong(acts: seq<Act>, more: seq<Act>, k: nat, i: nat)
    requires FirstUse(acts, k) == None && i < |more| && more[i].message == k
    requires forall j :: 0 <= j < |more| && j != i ==> more[j].message != k
    ensures FirstUse(acts + more, k) == Some(ActionOf(more[i]))
    decreases |more|
  {
    var n := |more| - 1;
    assert (acts + more)[..|acts| + n] == acts + more[..n];
    if i < n {
      FirstAmong(acts, more[..n], k, i);
    } else {
      NoneAmong(acts, more[..n], k);
    }
  }

  lemma {:induction false} NoneAmong(acts: seq<Act>, more: seq<Act>, k: nat)
    requires FirstUse(acts, k) == None && forall act :: act in more ==> act.message != k
    ensures FirstUse(acts + more, k) == None
    decreases |more|
  {
    if more == [] {
      assert acts + more == acts;
    } else {
      assert (acts + more)[..|acts + more| - 1] == acts + more[..|more| - 1];
      NoneAmong(acts, more[..|more| - 1], k);
    }
  }
}
