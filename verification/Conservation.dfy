/** Every id is in one place at a time, and only moves forward. */
module Conservation {
  import opened Types
  import opened Batching
  import opened Protocol

  // ----- Places --------------------------------------------------------------------------------

  ghost predicate SentIn(log: seq<Batch>, action: Action, id: AckId) {
    exists i :: 0 <= i < |log| && log[i].action == action && log[i].ok && id in log[i].ids
  }

  function One(b: bool): nat {
    if b then 1 else 0
  }

  /** In how many of these places an id is: live, pending, drained, sent, or dropped. */
  ghost function Places(s: State, id: AckId): nat {
    One(id in s.h.watched && id !in s.h.first)
    + One(id in s.q.acks) + One(id in s.q.nacks)
    + One(id in s.acks) + One(id in s.nacks)
    + One(SentIn(s.h.log, Ack, id)) + One(SentIn(s.h.log, Nack, id))
    + One(id in s.h.dropped)
  }

  /** The ack thread's locals: distinct ids, and none outside the part of the pass that uses them. */
  ghost predicate Locals(s: State) {
    && Distinct(s.acks) && Distinct(s.nacks)
    && (s.acks != [] ==> s.phase == SendingAcks)
    && (s.nacks != [] ==> s.phase == SendingAcks || s.phase == SendingNacks)
  }

  /** An id that was watched is in exactly one place, any other in none; and where a completed id goes is decided by
      its first completion. */
  ghost predicate Placed(s: State, id: AckId) {
    && Places(s, id) == One(id in s.h.watched)
    && (id in s.q.acks || id in s.acks || SentIn(s.h.log, Ack, id) ==> id in s.h.first && s.h.first[id] == Ack)
    && (id in s.q.nacks || id in s.nacks || SentIn(s.h.log, Nack, id) ==> id in s.h.first && s.h.first[id] == Nack)
  }

  ghost predicate AllPlaced(s: State) {
    s.h.first.Keys <= s.h.watched && forall id :: Placed(s, id)
  }

  /** No id is in two calls for completed ids, not even in one that threw; the call does what the first completion
      asked for; and an id whose call threw is dropped. */
  ghost predicate InOneCall(s: State) {
    && (forall i, j :: 0 <= i < j < |s.h.log| ==> s.h.log[i].ids !! s.h.log[j].ids)
    && (forall i, id :: 0 <= i < |s.h.log| && id in s.h.log[i].ids ==>
          id in s.h.first && s.h.first[id] == s.h.log[i].action && (s.h.log[i].ok || id in s.h.dropped))
  }

  /** Uncompleted and pending ids are in the containers the ack thread looks at. */
  ghost predicate Watching(s: State) {
    && s.q.Held() <= s.h.watched
    && s.q.input.Keys !! s.q.keepAlive.Keys
    && s.h.watched - s.h.first.Keys <= s.q.Held()
    && s.q.acks + s.q.nacks <= s.q.Held()
  }

  ghost predicate Conserved(s: State) {
    Locals(s) && AllPlaced(s) && InOneCall(s) && Watching(s)
  }

  lemma SentInAppend(log: seq<Batch>, b: Batch, action: Action, id: AckId)
    ensures SentIn(log + [b], action, id) <==> SentIn(log, action, id) || (b.action == action && b.ok && id in b.ids)
  {
    if SentIn(log, action, id) {
      var i :| 0 <= i < |log| && log[i].action == action && log[i].ok && id in log[i].ids;
      assert (log + [b])[i] == log[i];
    }
    if b.action == action && b.ok && id in b.ids {
      assert (log + [b])[|log|] == b;
    }
  }

  /** A prefix of a duplicate-free sequence and what follows it have no id in common. */
  lemma Halves(ids: seq<AckId>, k: nat)
    requires Distinct(ids) && k <= |ids|
    ensures Distinct(ids[..k]) && Distinct(ids[k..])
    ensures forall id :: id in ids <==> id in ids[..k] || id in ids[k..]
    ensures forall id :: id in ids[..k] ==> id !in ids[k..]
  {
    assert ids == ids[..k] + ids[k..];
  }

  lemma PlacedInSendAck(s: State, step: Step, id: AckId)
    requires Conserved(s) && Enabled(s, step) && step.SendAckBatch?
    ensures Placed(Apply(s, step), id)
  {
    assert Placed(s, id);
    var k := Cut(s.acks, MAX_PAYLOAD);
    var b := Batch(Ack, Elements(s.acks[..k]), step.ok);
    Halves(s.acks, k);
    SentInAppend(s.h.log, b, Ack, id);
    SentInAppend(s.h.log, b, Nack, id);
  }

  lemma PlacedInSendNack(s: State, step: Step, id: AckId)
    requires Conserved(s) && Enabled(s, step) && step.SendNackBatch?
    ensures Placed(Apply(s, step), id)
  {
    assert Placed(s, id);
    var k := Cut(s.nacks, MAX_PAYLOAD);
    var b := Batch(Nack, Elements(s.nacks[..k]), step.ok);
    Halves(s.nacks, k);
    SentInAppend(s.h.log, b, Ack, id);
    SentInAppend(s.h.log, b, Nack, id);
  }

  lemma PlacedInDrain(s: State, step: Step, id: AckId)
    requires Conserved(s) && Enabled(s, step) && step.Drain?
    ensures Placed(Apply(s, step), id)
  {
    assert Placed(s, id);
    assert id in step.acks <==> id in Elements(step.acks);
    assert id in step.nacks <==> id in Elements(step.nacks);
  }

  /** Nothing an id's place depends on differs. */
  ghost predicate SamePlaces(s: State, t: State) {
    t.h == s.h && t.q.acks == s.q.acks && t.q.nacks == s.q.nacks && t.acks == s.acks && t.nacks == s.nacks
  }

  predicate Quiet(step: Step) {
    !step.Add? && !step.Complete? && !step.Drain? && !step.SendAckBatch? && !step.SendNackBatch?
  }

  lemma QuietStep(s: State, step: Step)
    requires Locals(s) && Enabled(s, step) && Quiet(step)
    ensures SamePlaces(s, Apply(s, step))
  {
  }

  lemma PlacedInAdd(s: State, step: Step, id: AckId)
    requires Conserved(s) && Enabled(s, step) && step.Add?
    ensures Placed(Apply(s, step), id)
  {
    hide SentIn;
    assert Placed(s, id);
  }

  lemma PlacedInComplete(s: State, step: Step, id: AckId)
    requires Conserved(s) && Enabled(s, step) && step.Complete?
    ensures Placed(Apply(s, step), id)
  {
    hide SentIn;
    assert Placed(s, id);
  }

  lemma PlacesStep(s: State, step: Step)
    requires Conserved(s) && Enabled(s, step)
    ensures AllPlaced(Apply(s, step))
  {
    hide Places, SentIn;
    var t := Apply(s, step);
    if Quiet(step) {
      QuietStep(s, step);
    }
    assert t.h.first.Keys <= t.h.watched;
    forall id
      ensures Placed(t, id)
    {
      assert Placed(s, id);
      match step
      case SendAckBatch(_) => PlacedInSendAck(s, step, id);
      case SendNackBatch(_, _) => PlacedInSendNack(s, step, id);
      case Drain(_, _) => PlacedInDrain(s, step, id);
      case Add(_, _, _) => PlacedInAdd(s, step, id);
      case Complete(_, _) => PlacedInComplete(s, step, id);
      case _ => PlacedAlike(s, t, id);
    }
  }

  lemma PlacedAlike(s: State, t: State, id: AckId)
    requires SamePlaces(s, t) && Placed(s, id)
    ensures Placed(t, id)
  {
  }

  lemma LocalsStep(s: State, step: Step)
    requires Conserved(s) && Enabled(s, step)
    ensures Locals(Apply(s, step))
  {
    hide Places, SentIn;
    match step {
      case SendAckBatch(_) => Halves(s.acks, Cut(s.acks, MAX_PAYLOAD));
      case SendNackBatch(_, _) => Halves(s.nacks, Cut(s.nacks, MAX_PAYLOAD));
      case _ =>
    }
  }

  /** An id that is being sent has not been in a call before. */
  lemma Unsent(s: State, id: AckId)
    requires Conserved(s) && (id in s.acks || id in s.nacks)
    ensures id !in s.h.dropped && forall i :: 0 <= i < |s.h.log| ==> id !in s.h.log[i].ids
    ensures id in s.acks ==> id in s.h.first && s.h.first[id] == Ack
    ensures id in s.nacks ==> id in s.h.first && s.h.first[id] == Nack
  {
    assert Placed(s, id);
    assert !SentIn(s.h.log, Ack, id) && !SentIn(s.h.log, Nack, id);
  }

  lemma InOneCallStep(s: State, step: Step)
    requires Conserved(s) && Enabled(s, step)
    ensures InOneCall(Apply(s, step))
  {
    hide Places, SentIn;
    if step.SendAckBatch? || step.SendNackBatch? {
      CallsStayApart(s, step);
    } else if Quiet(step) {
      QuietStep(s, step);
    }
  }

  /** One more call for ids that were in none before. */
  lemma OneMoreCall(s: State, t: State, b: Batch)
    requires InOneCall(s) && t.h.log == s.h.log + [b] && t.h.first == s.h.first && s.h.dropped <= t.h.dropped
    requires forall i, id :: 0 <= i < |s.h.log| && id in b.ids ==> id !in s.h.log[i].ids
    requires forall id :: id in b.ids ==>
               id in s.h.first && s.h.first[id] == b.action && (b.ok || id in t.h.dropped)
    ensures InOneCall(t)
  {
  }

  lemma CallsStayApart(s: State, step: Step)
    requires Conserved(s) && Enabled(s, step)
    requires step.SendAckBatch? || step.SendNackBatch?
    ensures InOneCall(Apply(s, step))
  {
    var ids := if step.SendAckBatch? then s.acks else s.nacks;
    var k := Cut(ids, MAX_PAYLOAD);
    forall id | id in ids
      ensures forall i :: 0 <= i < |s.h.log| ==> id !in s.h.log[i].ids
      ensures id in s.h.first && s.h.first[id] == if step.SendAckBatch? then Ack else Nack
    {
      Unsent(s, id);
    }
    hide Places, SentIn, AllPlaced, Watching, InOneCall;
    var b := Batch(if step.SendAckBatch? then Ack else Nack, Elements(ids[..k]), step.ok);
    assert forall id :: id in b.ids ==> id in ids;
    OneMoreCall(s, Apply(s, step), b);
  }

  lemma WatchingStep(s: State, step: Step)
    requires Conserved(s) && Enabled(s, step)
    ensures Watching(Apply(s, step))
  {
    hide SentIn;
    var t := Apply(s, step);
    if !step.Add? && !step.Complete? && !step.Merge? && !step.Drain? && !step.EraseNacks? {
      hide Places;
      HeldSame(s, step);
    } else {
      forall id
        ensures id in s.q.acks || id in s.q.nacks || id in s.nacks ==> id in s.h.first
        ensures id in s.nacks ==> id !in s.q.acks && id !in s.q.nacks
      {
        assert Placed(s, id);
      }
      hide Places;
      assert t.q.input.Keys !! t.q.keepAlive.Keys;
      assert t.q.Held() <= t.h.watched;
    }
  }

  lemma HeldSame(s: State, step: Step)
    requires Locals(s) && Enabled(s, step)
    requires !step.Add? && !step.Complete? && !step.Merge? && !step.Drain? && !step.EraseNacks?
    ensures var t := Apply(s, step);
            && t.q.input == s.q.input && t.q.keepAlive.Keys == s.q.keepAlive.Keys
            && t.q.acks == s.q.acks && t.q.nacks == s.q.nacks && t.h.watched == s.h.watched && t.h.first == s.h.first
  {
    if !step.End? {
      QueuesSame(s, step);
    }
  }

  lemma QueuesSame(s: State, step: Step)
    requires Locals(s) && Enabled(s, step)
    requires !step.Add? && !step.Complete? && !step.Merge? && !step.Drain? && !step.EraseNacks? && !step.End?
    ensures var t := Apply(s, step);
            t.q == s.q && t.h.watched == s.h.watched && t.h.first == s.h.first
  {
  }

  /** Every step keeps all of it. */
  lemma ConservedStep(s: State, step: Step)
    requires Conserved(s) && Enabled(s, step)
    ensures Conserved(Apply(s, step))
  {
    PlacesStep(s, step);
    LocalsStep(s, step);
    InOneCallStep(s, step);
    WatchingStep(s, step);
  }

  // ----- Only forward --------------------------------------------------------------------------

  /** How far an id has come: unknown, live, pending, drained, and at last sent or dropped. */
  ghost function Rank(s: State, id: AckId): nat {
    if id !in s.h.watched then 0
    else if id !in s.h.first then 1
    else if id in s.q.acks || id in s.q.nacks then 2
    else if id in s.acks || id in s.nacks then 3
    else 4
  }

  lemma ForwardStep(s: State, step: Step, id: AckId)
    requires Conserved(s) && Enabled(s, step)
    ensures Rank(s, id) <= Rank(Apply(s, step), id)
  {
    hide SentIn;
    assert Placed(s, id);
    if Quiet(step) {
      QuietStep(s, step);
    } else if step.SendAckBatch? {
      Halves(s.acks, Cut(s.acks, MAX_PAYLOAD));
    } else if step.SendNackBatch? {
      Halves(s.nacks, Cut(s.nacks, MAX_PAYLOAD));
    } else if step.Drain? {
      assert id in step.acks <==> id in Elements(step.acks);
      assert id in step.nacks <==> id in Elements(step.nacks);
    }
  }

  /** Histories only grow: what an id was first completed with, the calls made and the ids dropped stay as they are. */
  ghost predicate Grows(h: History, h': History) {
    && h.watched <= h'.watched && h.dropped <= h'.dropped && h.early <= h'.early && h.unerased <= h'.unerased
    && h.log <= h'.log && h.samples <= h'.samples
    && (forall id :: id in h.pulled && id in h.watched ==> id in h'.pulled && h'.pulled[id] == h.pulled[id])
    && forall id :: id in h.first ==> id in h'.first && h'.first[id] == h.first[id]
  }

  lemma GrowsStep(s: State, step: Step)
    requires Conserved(s) && Enabled(s, step)
    ensures Grows(s.h, Apply(s, step).h)
  {
    if Quiet(step) {
      QuietStep(s, step);
    }
  }

  lemma {:induction false} RunConserves(s: State, steps: seq<Step>, t: State)
    requires Conserved(s) && Leads(s, steps, t)
    ensures Conserved(t) && Grows(s.h, t.h)
    ensures forall id :: Rank(s, id) <= Rank(t, id)
    decreases |steps|
  {
    hide Conserved, Apply, Enabled, Rank;
    if steps != [] {
      var s' := Apply(s, steps[0]);
      ConservedStep(s, steps[0]);
      GrowsStep(s, steps[0]);
      RunConserves(s', steps[1..], t);
      forall id
        ensures Rank(s, id) <= Rank(t, id)
      {
        ForwardStep(s, steps[0], id);
      }
    }
  }

  lemma StartConserves(now: Time)
    ensures Conserved(Start(now))
  {
    assert forall id :: Placed(Start(now), id);
  }

  /** In every reachable state, however the threads interleave and whatever throws: each watched id is in exactly one
      place; it has been in at most one call; and that call is what its first completion asked for. */
  lemma EveryIdInOnePlace(s: State)
    requires Reachable(s)
    ensures forall id :: id in s.h.watched ==> Places(s, id) == 1
    ensures forall id :: id !in s.h.watched ==> Places(s, id) == 0
    ensures forall i, j :: 0 <= i < j < |s.h.log| ==> s.h.log[i].ids !! s.h.log[j].ids
    ensures forall i, id :: 0 <= i < |s.h.log| && id in s.h.log[i].ids ==>
              id in s.h.first && s.h.first[id] == s.h.log[i].action
    ensures Conserved(s)
  {
    var now, steps :| Leads(Start(now), steps, s);
    StartConserves(now);
    RunConserves(Start(now), steps, s);
    hide Places;
    forall id
      ensures Places(s, id) == One(id in s.h.watched)
    {
      assert Placed(s, id);
    }
  }

  /** Over every run from a reachable state ids only move forward: through pending and drained to sent or dropped,
      where they stay; and nothing that was recorded is revised. */
  lemma IdsOnlyMoveForward(s: State, steps: seq<Step>, t: State, id: AckId)
    requires Reachable(s) && Leads(s, steps, t)
    ensures Rank(s, id) <= Rank(t, id) && Grows(s.h, t.h)
  {
    EveryIdInOnePlace(s);
    RunConserves(s, steps, t);
  }

  /** When there is neither input nor a lease to keep alive, which is when the ack thread waits unless it was told to
      sleep, nothing is left to send: every id ever watched has been completed, and no completion is pending. */
  lemma NothingStrandedWhenIdle(s: State)
    requires Reachable(s) && s.phase == Top && Idle(s.q)
    ensures s.q.acks == {} && s.q.nacks == {} && s.h.watched == s.h.first.Keys
    ensures forall id :: id in s.h.watched ==> Rank(s, id) == 4
  {
    EveryIdInOnePlace(s);
    assert s.q.Held() == {};
    assert forall id :: id in s.h.watched ==> id !in s.h.watched - s.h.first.Keys;
  }

  // ----- Processing times ----------------------------------------------------------------------

  /** Every watched id has a pull time in the past, and every completed one has left one sample. */
  ghost predicate Recorded(s: State) {
    && s.h.pulled.Keys == s.h.watched && (forall id :: id in s.h.pulled ==> s.h.pulled[id] <= s.now)
    && |s.h.samples| == |s.h.first|
  }

  lemma RecordedStep(s: State, step: Step)
    requires Recorded(s) && Enabled(s, step)
    ensures Recorded(Apply(s, step))
  {
    if step.Complete? {
      assert Apply(s, step).h.first.Keys == s.h.first.Keys + {step.id};
      assert |s.h.first.Keys| == |s.h.first| && |Apply(s, step).h.first.Keys| == |Apply(s, step).h.first|;
    }
  }

  lemma {:induction false} RunRecorded(s: State, steps: seq<Step>, t: State)
    requires Recorded(s) && Leads(s, steps, t)
    ensures Recorded(t)
    decreases |steps|
  {
    hide Recorded, Apply, Enabled;
    if steps != [] {
      RecordedStep(s, steps[0]);
      RunRecorded(Apply(s, steps[0]), steps[1..], t);
    }
  }

  /** In every reachable state, what a completion records is the time since the pull of that very id, in whole seconds,
      and there is one record for each completed id. */
  lemma CompletionIsRecorded(s: State, id: AckId, action: Action)
    requires Reachable(s) && Enabled(s, Complete(id, action))
    ensures id in s.h.pulled && s.h.pulled[id] <= s.now
    ensures Apply(s, Complete(id, action)).h.samples == s.h.samples + [(s.now - s.h.pulled[id]) / 1000]
    ensures |s.h.samples| == |s.h.first|
  {
    ReachableRecorded(s);
    hide Reachable;
  }

  lemma ReachableRecorded(s: State)
    requires Reachable(s)
    ensures Recorded(s)
  {
    var now, steps :| Leads(Start(now), steps, s);
    RunRecorded(Start(now), steps, s);
    hide Leads, Recorded;
  }
}
