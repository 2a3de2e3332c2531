/** Which completed ids the client goes on keeping alive. */
module Retention {
  import opened Types
  import opened Batching
  import opened Queues
  import opened Protocol
  import opened Conservation
  import opened Leases
  import Histogram

  /** Drained before it was merged, or dropped before it was erased. */
  ghost predicate Leaked(s: State, id: AckId) {
    id in s.h.early || id in s.h.unerased
  }

  /** Completed, drained and done with: sent, or dropped by a throw. */
  ghost predicate Settled(s: State, id: AckId) {
    SentIn(s.h.log, Ack, id) || SentIn(s.h.log, Nack, id) || id in s.h.dropped
  }

  /** An id that is settled, or drained and erased in this pass, is still held exactly when it leaked. Ids drained to
      be given back stay held until the acknowledgements are out; those drained early are still in the input. */
  ghost predicate Kept(s: State, id: AckId) {
    && (Settled(s, id) || id in s.acks || (id in s.nacks && s.phase == SendingNacks) ==>
          (id in s.q.Held() <==> Leaked(s, id)))
    && (id in s.nacks && s.phase == SendingAcks ==>
          id in s.q.Held() && (id in s.h.early <==> id in s.q.input) && id !in s.h.unerased)
    && (Leaked(s, id) ==> id in s.h.first && id !in s.q.acks && id !in s.q.nacks)
    && (id in s.h.unerased ==> id in s.h.dropped)
  }

  ghost predicate Retains(s: State) {
    Conserved(s) && forall id :: Kept(s, id)
  }

  lemma KeptQuietly(s: State, step: Step, id: AckId)
    requires Retains(s) && Enabled(s, step) && Quiet(step) && !step.EraseNacks? && !step.Merge?
    ensures Kept(Apply(s, step), id)
  {
    hide SentIn, Placed, InOneCall;
    assert Kept(s, id);
    QuietStep(s, step);
    HeldSame(s, step);
  }

  lemma KeptByUser(s: State, step: Step, id: AckId)
    requires Retains(s) && Enabled(s, step)
    requires step.Add? || step.Complete? || step.Merge?
    ensures Kept(Apply(s, step), id)
  {
    hide SentIn;
    assert Kept(s, id) && Placed(s, id);
  }

  lemma KeptByErasing(s: State, step: Step, id: AckId)
    requires Retains(s) && Enabled(s, step) && (step.Drain? || step.EraseNacks?)
    ensures Kept(Apply(s, step), id)
  {
    hide SentIn;
    assert Kept(s, id) && Placed(s, id);
    if step.Drain? {
      assert id in step.acks <==> id in Elements(step.acks);
      assert id in step.nacks <==> id in Elements(step.nacks);
    }
  }

  lemma KeptByAcknowledging(s: State, step: Step, id: AckId)
    requires Retains(s) && Enabled(s, step) && step.SendAckBatch?
    ensures Kept(Apply(s, step), id)
  {
    assert Kept(s, id) && Placed(s, id);
    var k := Cut(s.acks, MAX_PAYLOAD);
    var b := Batch(Ack, Elements(s.acks[..k]), step.ok);
    Halves(s.acks, k);
    SentInAppend(s.h.log, b, Ack, id);
    SentInAppend(s.h.log, b, Nack, id);
    hide SentIn, AllPlaced, InOneCall;
  }

  lemma KeptByGivingBack(s: State, step: Step, id: AckId)
    requires Retains(s) && Enabled(s, step) && step.SendNackBatch?
    ensures Kept(Apply(s, step), id)
  {
    assert Kept(s, id) && Placed(s, id);
    var k := Cut(s.nacks, MAX_PAYLOAD);
    var b := Batch(Nack, Elements(s.nacks[..k]), step.ok);
    Halves(s.nacks, k);
    SentInAppend(s.h.log, b, Ack, id);
    SentInAppend(s.h.log, b, Nack, id);
    hide SentIn, AllPlaced, InOneCall;
  }

  lemma RetainsStep(s: State, step: Step)
    requires Retains(s) && Enabled(s, step)
    ensures Retains(Apply(s, step))
  {
    ConservedStep(s, step);
    hide Kept, Conserved, Apply;
    forall id
      ensures Kept(Apply(s, step), id)
    {
      match step
      case Add(_, _, _) => KeptByUser(s, step, id);
      case Complete(_, _) => KeptByUser(s, step, id);
      case Merge => KeptByUser(s, step, id);
      case Drain(_, _) => KeptByErasing(s, step, id);
      case EraseNacks => KeptByErasing(s, step, id);
      case SendAckBatch(_) => KeptByAcknowledging(s, step, id);
      case SendNackBatch(_, _) => KeptByGivingBack(s, step, id);
      case _ => KeptQuietly(s, step, id);
    }
  }

  /** A settled id stays settled, and does not leak any more if it has not. */
  lemma SettledStep(s: State, step: Step, id: AckId)
    requires Retains(s) && Enabled(s, step) && Settled(s, id)
    ensures Settled(Apply(s, step), id) && (Leaked(Apply(s, step), id) <==> Leaked(s, id))
  {
    var t := Apply(s, step);
    assert Kept(s, id) && Placed(s, id);
    GrowsStep(s, step);
    SentGrows(s.h.log, t.h.log, Ack, id);
    SentGrows(s.h.log, t.h.log, Nack, id);
    hide SentIn;
    if Quiet(step) {
      QuietStep(s, step);
    }
  }

  lemma SentGrows(log: seq<Batch>, log': seq<Batch>, action: Action, id: AckId)
    requires log <= log'
    ensures SentIn(log, action, id) ==> SentIn(log', action, id)
  {
    if SentIn(log, action, id) {
      var i :| 0 <= i < |log| && log[i].action == action && log[i].ok && id in log[i].ids;
      assert log'[i] == log[i];
    }
  }

  lemma {:induction false} RunRetains(s: State, steps: seq<Step>, t: State)
    requires Retains(s) && Leads(s, steps, t)
    ensures Retains(t)
    ensures forall id :: Settled(s, id) ==> Settled(t, id) && (Leaked(t, id) <==> Leaked(s, id))
    decreases |steps|
  {
    hide Retains, Settled, Leaked, Apply, Enabled;
    if steps != [] {
      RetainsStep(s, steps[0]);
      RunRetains(Apply(s, steps[0]), steps[1..], t);
      forall id | Settled(s, id)
        ensures Settled(t, id) && (Leaked(t, id) <==> Leaked(s, id))
      {
        SettledStep(s, steps[0], id);
      }
    }
  }

  lemma ReachableRetains(s: State)
    requires Reachable(s)
    ensures Retains(s)
  {
    var now, steps :| Leads(Start(now), steps, s);
    StartConserves(now);
    RunRetains(Start(now), steps, s);
  }

  /** Completed ids stay gone, exactly when they should: once an id is settled, then in that state and in every later
      one of the run the client still holds it if it was drained before it was merged or dropped before it was erased;
      otherwise it does not hold it, and no extension ever takes it. */
  lemma CompletedIdsStayGone(s: State, steps: seq<Step>, t: State, id: AckId)
    requires Reachable(s) && Leads(s, steps, t) && Settled(s, id)
    ensures id in t.q.Held() <==> Leaked(s, id)
    ensures !Leaked(s, id) ==> id !in t.batch && id !in t.due
  {
    ReachableRetains(s);
    RunRetains(s, steps, t);
    assert Kept(t, id);
    ReachableSound(s);
    RunSound(s, steps, t);
  }

  // ----- What becomes of leases that are given back --------------------------------------------

  /** The lease is over at the server. */
  ghost predicate Ended(s: State, id: AckId) {
    id in s.server && s.server[id] <= s.now
  }

  /** An id that a successful call has given back, and that did not leak, has no lease any more. */
  ghost predicate GivenBack(s: State, id: AckId) {
    SentIn(s.h.log, Nack, id) && !Leaked(s, id) ==> Ended(s, id)
  }

  /** The call that gives an id back ends its lease. */
  lemma GivenBackByCall(s: State, step: Step, id: AckId)
    requires Retains(s) && s.h.watched <= s.server.Keys && GivenBack(s, id)
    requires Enabled(s, step) && step.SendNackBatch?
    ensures GivenBack(Apply(s, step), id)
  {
    assert Placed(s, id);
    var k := Cut(s.nacks, MAX_PAYLOAD);
    SentInAppend(s.h.log, Batch(Nack, Elements(s.nacks[..k]), step.ok), Nack, id);
    ServerStep(s, step, id);
    hide SentIn, Kept, AllPlaced, InOneCall;
  }

  /** No later call extends it: the id is not kept alive. */
  lemma GivenBackStep(s: State, step: Step, id: AckId)
    requires Retains(s) && Sound(s) && Enabled(s, step) && GivenBack(s, id)
    ensures GivenBack(Apply(s, step), id)
  {
    if step.SendNackBatch? {
      GivenBackByCall(s, step, id);
    } else {
      assert Kept(s, id) && Placed(s, id);
      ServerStep(s, step, id);
      GivenBackBefore(s, step, id);
      assert Apply(s, step).now >= s.now;
      if SentIn(s.h.log, Nack, id) {
        SettledStep(s, step, id);
      }
      hide SentIn, AllPlaced, InOneCall, Apply, Enabled, Believes;
    }
  }

  lemma GivenBackBefore(s: State, step: Step, id: AckId)
    requires Enabled(s, step) && !step.SendNackBatch?
    ensures SentIn(Apply(s, step).h.log, Nack, id) ==> SentIn(s.h.log, Nack, id)
  {
    if step.SendAckBatch? {
      var k := Cut(s.acks, MAX_PAYLOAD);
      SentInAppend(s.h.log, Batch(Ack, Elements(s.acks[..k]), step.ok), Nack, id);
    }
    hide SentIn;
  }

  lemma {:induction false} RunGivesBack(s: State, steps: seq<Step>, t: State, id: AckId)
    requires Retains(s) && Sound(s) && GivenBack(s, id) && Leads(s, steps, t)
    ensures GivenBack(t, id)
    decreases |steps|
  {
    hide Retains, Sound, GivenBack, Apply, Enabled;
    if steps != [] {
      RetainsStep(s, steps[0]);
      OneStepSound(s, steps[0]);
      GivenBackStep(s, steps[0], id);
      RunGivesBack(Apply(s, steps[0]), steps[1..], t, id);
    }
  }

  lemma OneStepSound(s: State, step: Step)
    requires Sound(s) && Enabled(s, step)
    ensures Sound(Apply(s, step))
  {
    ConservedStep(s, step);
    ChosenStep(s, step);
    BelievesStep(s, step);
    hide Conserved, Chosen, Believes, Apply, Enabled;
  }

  /** What was given back stays given back: once a call with a deadline of zero has succeeded for an id, its lease is
      over at the server, in that state and for the rest of every run, unless the id was drained before it was
      merged. */
  lemma GivenBackStaysEnded(s: State, steps: seq<Step>, t: State, id: AckId)
    requires Reachable(s) && Leads(s, steps, t) && SentIn(s.h.log, Nack, id) && !Leaked(s, id)
    ensures id in s.server && s.server[id] <= s.now
    ensures id in t.server && t.server[id] <= t.now
  {
    var now, first :| Leads(Start(now), first, s);
    StartConserves(now);
    RunGivesBack(Start(now), first, s, id);
    ReachableRetains(s);
    ReachableSound(s);
    RunGivesBack(s, steps, t, id);
    RunRetains(s, steps, t);
    RunLogs(s, steps, t, id);
    hide Leads, Retains, Sound, SentIn, Leaked;
  }

  lemma {:induction false} RunLogs(s: State, steps: seq<Step>, t: State, id: AckId)
    requires Conserved(s) && Leads(s, steps, t) && SentIn(s.h.log, Nack, id)
    ensures SentIn(t.h.log, Nack, id)
    decreases |steps|
  {
    hide Conserved, SentIn, Apply, Enabled;
    if steps != [] {
      ConservedStep(s, steps[0]);
      GrowsStep(s, steps[0]);
      SentGrows(s.h.log, Apply(s, steps[0]).h.log, Nack, id);
      RunLogs(Apply(s, steps[0]), steps[1..], t, id);
    }
  }

  // ----- Both ways to leak occur ---------------------------------------------------------------

  /** Two leases, both merged. */
  lemma TwoMerged() returns (s: State)
    ensures Reachable(s) && s.phase == Merged && s.now == 0 && Conserved(s)
    ensures s.q == Queues(map[], map["a" := 9000, "b" := 9000], {}, {}) && s.h.watched == {"a", "b"}
            && s.h.first == map[] && s.h.log == [] && s.h.dropped == {}
    ensures s.h.early == {} && s.h.unerased == {}
  {
    hide Reachable;
    StartReachable(0);
    s := Start(0);
    NextReachable(s, Add("a", 0, 9000));
    s := Apply(s, Add("a", 0, 9000));
    NextReachable(s, Add("b", 0, 9000));
    s := Apply(s, Add("b", 0, 9000));
    assert "a" in s.q.input;
    NextReachable(s, Merge);
    s := Apply(s, Merge);
    assert s.q.keepAlive == map["a" := 9000, "b" := 9000];
    EveryIdInOnePlace(s);
  }

  lemma BatchOfOne(id: AckId)
    requires |id| < 1000
    ensures Cut([id], MAX_PAYLOAD) == 1 && [id][..1] == [id] && [id][1..] == []
  {
    assert [id][..1] == [id];
    CutUnique([id], MAX_PAYLOAD, 1);
  }

  /** A call that fails while acknowledging drops the ids to give back before they are erased: they were never sent,
      and their leases are extended from now on. */
  lemma FailedAcknowledgeLeaks() returns (s: State)
    ensures Reachable(s) && Settled(s, "b") && "b" in s.q.keepAlive
    ensures "b" in s.h.first && s.h.first["b"] == Nack && forall i :: 0 <= i < |s.h.log| ==> "b" !in s.h.log[i].ids
  {
    hide Reachable;
    s := TwoMerged();
    NextReachable(s, Complete("a", Ack));
    s := Apply(s, Complete("a", Ack));
    NextReachable(s, Complete("b", Nack));
    s := Apply(s, Complete("b", Nack));
    assert Lists(["a"], s.q.acks) && Lists(["b"], s.q.nacks);
    NextReachable(s, Drain(["a"], ["b"]));
    s := Apply(s, Drain(["a"], ["b"]));
    BatchOfOne("a");
    NextReachable(s, SendAckBatch(false));
    s := Apply(s, SendAckBatch(false));
  }

  /** An id watched and completed after the merge but before the drain is acknowledged, and kept alive all the same. */
  lemma EarlyDrainLeaks() returns (s: State)
    ensures Reachable(s) && SentIn(s.h.log, Ack, "c") && "c" in s.q.input
  {
    hide Reachable;
    s := TwoMerged();
    NextReachable(s, Add("c", 0, 9000));
    s := Apply(s, Add("c", 0, 9000));
    NextReachable(s, Complete("c", Ack));
    s := Apply(s, Complete("c", Ack));
    assert Lists(["c"], s.q.acks) && Lists([], s.q.nacks);
    NextReachable(s, Drain(["c"], []));
    s := Apply(s, Drain(["c"], []));
    BatchOfOne("c");
    NextReachable(s, SendAckBatch(true));
    s := Apply(s, SendAckBatch(true));
    assert s.h.log[0] == Batch(Ack, {"c"}, true);
  }

  /** An id that is watched and completed after the merge but before the drain. */
  lemma CompletedEarly() returns (s: State)
    ensures Reachable(s) && s.phase == Merged && s.now == 0 && s.h.log == [] && s.h.samples == [0] && s.h.early == {}
    ensures s.q == Queues(map["c" := 9000], map[], {}, {"c"}) && s.server == map["c" := 9000]
  {
    hide Reachable;
    StartReachable(0);
    s := Start(0);
    NextReachable(s, Wait);
    s := Apply(s, Wait);
    NextReachable(s, Merge);
    s := Apply(s, Merge);
    NextReachable(s, Add("c", 0, 9000));
    s := Apply(s, Add("c", 0, 9000));
    NextReachable(s, Complete("c", Nack));
    s := Apply(s, Complete("c", Nack));
  }

  /** It is given back. */
  lemma GivenBackEarly() returns (s: State)
    ensures Reachable(s) && s.phase == SendingNacks && s.nacks == [] && s.now == 0 && SentIn(s.h.log, Nack, "c")
    ensures s.q == Queues(map["c" := 9000], map[], {}, {}) && s.h.samples == [0] && s.server == map["c" := 0]
  {
    hide Reachable;
    s := CompletedEarly();
    assert Lists([], s.q.acks) && Lists(["c"], s.q.nacks);
    NextReachable(s, Drain([], ["c"]));
    s := Apply(s, Drain([], ["c"]));
    NextReachable(s, EraseNacks);
    s := Apply(s, EraseNacks);
    s := GiveBackOne(s);
  }

  lemma GiveBackOne(s: State) returns (t: State)
    requires Reachable(s) && s.phase == SendingNacks && s.nacks == ["c"] && s.h.log == []
    requires s.now == 0 && s.server == map["c" := 9000]
    ensures Reachable(t) && SentIn(t.h.log, Nack, "c")
    ensures t == s.(nacks := [], server := map["c" := 0], h := t.h) && t.h == s.h.(log := t.h.log)
  {
    hide Reachable;
    BatchOfOne("c");
    NextReachable(s, SendNackBatch(true, true));
    t := Apply(s, SendNackBatch(true, true));
    assert t.h.log[0] == Batch(Nack, {"c"}, true);
  }

  /** Four seconds later it is merged after all. */
  lemma MergedAfterGivingBack() returns (s: State)
    ensures Reachable(s) && s.phase == Merged && s.now == 4000 && SentIn(s.h.log, Nack, "c")
    ensures s.q == Queues(map[], map["c" := 9000], {}, {}) && s.h.samples == [0] && s.server == map["c" := 0]
  {
    hide Reachable;
    s := GivenBackEarly();
    LeastDeadline();
    hide Histogram.IsDeadline, SentIn;
    assert Lists([], {}) && Due(s.q.keepAlive, s.now) == {} && IsShortest(s.q.keepAlive, s.now, SO_MANY);
    NextReachable(s, Choose([], 10, SO_MANY));
    s := Apply(s, Choose([], 10, SO_MANY));
    NextReachable(s, Tick(4000));
    s := Apply(s, Tick(4000));
    assert "c" in s.q.input;
    NextReachable(s, Merge);
    s := Apply(s, Merge);
    assert s.q.keepAlive == map["c" := 9000];
  }

  /** With nothing to send the pass comes to extending. */
  lemma DueAfterGivingBack() returns (s: State)
    ensures Reachable(s) && s.phase == SendingNacks && s.nacks == [] && s.now == 4000 && SentIn(s.h.log, Nack, "c")
    ensures s.q == Queues(map[], map["c" := 9000], {}, {}) && s.h.samples == [0] && s.server == map["c" := 0]
  {
    hide Reachable, SentIn;
    s := MergedAfterGivingBack();
    assert Lists([], {});
    NextReachable(s, Drain([], []));
    s := Apply(s, Drain([], []));
    assert s.q.keepAlive == map["c" := 9000];
    NextReachable(s, EraseNacks);
    s := Apply(s, EraseNacks);
    assert s.q.keepAlive == map["c" := 9000];
  }

  lemma LeastDeadline()
    ensures Histogram.IsDeadline([0], 10)
  {
    assert [0][..0] == [];
    assert Histogram.CountLe([0], 10) == 1;
  }

  /** Without that, giving back may be undone: an id drained before it was merged is given back, and then its lease is
      extended like that of any other, so the message is not delivered again. */
  lemma GivenBackRevives() returns (s: State)
    ensures Reachable(s) && SentIn(s.h.log, Nack, "c") && "c" in s.server && s.server["c"] == s.now + MIN_ACK_DEADLINE
  {
    hide Reachable;
    s := DueAfterGivingBack();
    LeastDeadline();
    hide Histogram.IsDeadline, SentIn;
    assert "c" in s.q.keepAlive && Due(s.q.keepAlive, s.now) == {"c"} && Lists(["c"], {"c"});
    assert IsShortest(s.q.keepAlive, s.now, 5000);
    NextReachable(s, Choose(["c"], 10, 5000));
    s := Apply(s, Choose(["c"], 10, 5000));
    BatchOfOne("c");
    NextReachable(s, Carve);
    s := Apply(s, Carve);
    NextReachable(s, Begin);
    s := Apply(s, Begin);
    NextReachable(s, Reach(4000));
    s := Apply(s, Reach(4000));
  }
}
