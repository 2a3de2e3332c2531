/** How exact the timing theorem is: the overrun it allows is the largest one, and it needs input merged in time. */
module Overrun {
  import opened Types
  import opened Batching
  import opened Queues
  import opened Protocol
  import opened Conservation
  import opened Leases
  import opened Timing
  import opened Histogram

  // ----- Building runs forward -----------------------------------------------------------------

  ghost predicate Reaches(s: State, p: Pace) {
    exists now, steps :: TimelyRun(Start(now), steps, s, p)
  }

  lemma {:induction false} RunThen(s: State, steps: seq<Step>, t: State, step: Step, p: Pace)
    requires TimelyRun(s, steps, t, p) && TimelyStep(t, step, p)
    ensures TimelyRun(s, steps + [step], Apply(t, step), p)
    decreases |steps|
  {
    hide Apply, Enabled, OnTime, MergedInTime;
    if steps == [] {
      assert [step][1..] == [];
    } else {
      assert (steps + [step])[1..] == steps[1..] + [step];
      RunThen(Apply(s, steps[0]), steps[1..], t, step, p);
    }
  }

  lemma Onward(s: State, step: Step, p: Pace)
    requires Reaches(s, p) && TimelyStep(s, step, p)
    ensures Reaches(Apply(s, step), p)
  {
    var now, steps :| TimelyRun(Start(now), steps, s, p);
    RunThen(Start(now), steps, s, step, p);
  }

  /** Runs of this pace can grant the least deadline, and can merge an id that has just been pulled. */
  predicate Sane(p: Pace) {
    0 <= p.e && MIN_ACK_DEADLINE <= p.longest && (p.margin.Some? ==> p.margin.value < FRESH)
  }

  /** What the iterator grants, going by the processing times so far, is within the pace. */
  ghost predicate Grants(s: State, seconds: nat, p: Pace) {
    10 <= seconds <= 600 && 1000 * seconds <= p.longest && IsDeadline(s.h.samples, seconds)
  }

  /** Nothing is completed, drained or chosen, and one lease is kept alive. */
  ghost predicate OnlyLease(s: State, id: AckId, nextAck: Time) {
    && s.q.keepAlive == map[id := nextAck] && s.q.acks == {} && s.q.nacks == {}
    && s.acks == [] && s.nacks == [] && s.due == [] && s.batch == []
  }

  /** Between passes, with nothing in hand; the id is new. */
  ghost predicate Fresh(s: State, id: AckId, p: Pace) {
    && Reaches(s, p) && OnTime(s, p) && s.phase == Top && !s.needSleep && s.q == Queues(map[], map[], {}, {})
    && s.acks == [] && s.nacks == [] && s.due == [] && s.batch == []
    && id !in s.h.watched && id !in s.h.first
  }

  lemma FromStart(id: AckId, p: Pace)
    ensures Fresh(Start(0), id, p) && IsDeadline(Start(0).h.samples, 10)
  {
    assert TimelyRun(Start(0), [], Start(0), p);
    DeadlineOfOne(10);
  }

  /** The history once an id has been watched, too. */
  function WithWatched(h: History, id: AckId, pulledAt: Time): History {
    h.(watched := h.watched + {id}, pulled := h.pulled[id := pulledAt])
  }

  /** One lease, watched and merged at once; the server holds it no longer than the client means to. */
  lemma WatchAndMerge(s: State, id: AckId, left: Time, p: Pace) returns (t: State)
    requires Fresh(s, id, p) && 0 <= p.e && left <= FRESH && (p.lag.Some? ==> FRESH - left <= p.lag.value)
    requires p.margin.Some? ==> p.margin.value < left
    ensures Reaches(t, p) && t.phase == Merged && !t.needSleep && t.now == t.mark == s.now
            && OnlyLease(t, id, s.now + left)
    ensures t.server == s.server[id := s.now + left] && t.q.input == map[]
    ensures t.h == WithWatched(s.h, id, s.now + left - FRESH)
  {
    hide Reaches;
    var add := Add(id, s.now + left - FRESH, s.now + left);
    var s1 := s.(q := Queues(map[id := s.now + left], map[], {}, {}), server := s.server[id := s.now + left],
                 h := WithWatched(s.h, id, s.now + left - FRESH));
    assert Apply(s, add) == s1;
    Onward(s, add, p);
    t := MergeFresh(s1, id, left, p);
  }

  lemma MergeFresh(s: State, id: AckId, left: Time, p: Pace) returns (t: State)
    requires Reaches(s, p) && s.phase == Top && !s.needSleep && 0 <= p.e
    requires s.q == Queues(map[id := s.now + left], map[], {}, {}) && (p.margin.Some? ==> p.margin.value < left)
    ensures Reaches(t, p)
    ensures t == s.(q := Queues(map[], map[id := s.now + left], {}, {}), phase := Merged, needSleep := false,
                    mark := s.now)
  {
    hide Reaches;
    assert id in s.q.input;
    t := Apply(s, Merge);
    assert s.q.input + s.q.keepAlive == map[id := s.now + left];
    Onward(s, Merge, p);
  }

  /** The leases are merged again after a wait, or at once. */
  lemma MergeAgain(s: State, id: AckId, p: Pace) returns (t: State)
    requires Reaches(s, p) && id in s.q.keepAlive && s.q.input == map[] && 0 <= p.e
    requires s.phase == Waiting || (s.phase == Top && !s.needSleep)
    ensures Reaches(t, p) && t == s.(phase := Merged, needSleep := false, mark := s.now)
  {
    hide Reaches;
    t := s.(phase := Merged, needSleep := false, mark := s.now);
    assert s.q.input + s.q.keepAlive == s.q.keepAlive;
    assert Apply(s, Merge) == t;
    Onward(s, Merge, p);
  }

  /** A pass with nothing completed goes straight to choosing. */
  lemma NothingToSend(s: State, p: Pace) returns (t: State)
    requires Reaches(s, p) && s.phase == Merged && s.q.acks == {} && s.q.nacks == {} && OnTime(s, p)
    ensures Reaches(t, p) && t == s.(phase := SendingNacks, acks := [], nacks := [])
  {
    hide Reaches;
    var s' := s.(phase := SendingAcks, acks := [], nacks := []);
    t := s.(phase := SendingNacks, acks := [], nacks := []);
    assert Lists([], {});
    assert s.q.keepAlive - {} == s.q.keepAlive;
    assert s.h.early + ({} + {}) * s.q.input.Keys == s.h.early;
    assert Apply(s, Drain([], [])) == s';
    Onward(s, Drain([], []), p);
    assert Apply(s', EraseNacks) == t;
    Onward(s', EraseNacks, p);
  }

  /** A lease that is not due makes the ack thread wait for half of what it has left. */
  lemma SleepOn(s: State, id: AckId, nextAck: Time, seconds: nat, p: Pace) returns (t: State)
    requires Reaches(s, p) && s.phase == SendingNacks && OnlyLease(s, id, nextAck) && 0 <= p.e && Grants(s, seconds, p)
    requires GRACE < nextAck - s.now <= SO_MANY
    ensures Reaches(t, p)
    ensures t == s.(phase := Waiting, needSleep := true, sleep := (nextAck - s.now) / 2, mark := s.now,
                    rested := s.now)
  {
    hide Reaches, IsDeadline;
    assert id in s.q.keepAlive;
    assert Due(s.q.keepAlive, s.now) == {} && Lists([], {});
    assert IsShortest(s.q.keepAlive, s.now, nextAck - s.now);
    var choose := Choose([], seconds, nextAck - s.now);
    Onward(s, choose, p);
    t := Apply(s, choose);
    Onward(t, Wait, p);
    t := Apply(t, Wait);
  }

  lemma ChooseOne(s: State, id: AckId, nextAck: Time, seconds: nat, p: Pace) returns (t: State)
    requires Reaches(s, p) && s.phase == SendingNacks && OnlyLease(s, id, nextAck) && OnTime(s, p) && |id| < 1000
    requires nextAck - s.now <= GRACE && Grants(s, seconds, p)
    ensures Reaches(t, p) && t == s.(phase := Calling, batch := [id], chosenAt := s.now, grant := 1000 * seconds)
  {
    hide Reaches, IsDeadline;
    assert Due(s.q.keepAlive, s.now) == {id} && Lists([id], {id});
    assert IsShortest(s.q.keepAlive, s.now, nextAck - s.now);
    var choose := Choose([id], seconds, nextAck - s.now);
    var s1 := Apply(s, choose);
    Onward(s, choose, p);
    assert [id][..1] == [id] && [id][1..] == [];
    CutUnique([id], MAX_PAYLOAD, 1);
    t := s.(phase := Calling, batch := [id], chosenAt := s.now, grant := 1000 * seconds);
    assert Apply(s1, Carve) == t;
    Onward(s1, Carve, p);
  }

  /** One attempt, which reaches the server and comes back within the same instant. */
  lemma CallOnce(s: State, id: AckId, p: Pace) returns (t: State)
    requires Reaches(s, p) && s.phase == Calling && s.batch == [id] && OnTime(s, p)
    requires s.q.keepAlive.Keys == {id} && id in s.server
    ensures Reaches(t, p)
    ensures t == s.(phase := Extending, attempt := s.now, reached := true, batch := [],
                    q := s.q.(keepAlive := map[id := s.now + s.grant]), server := s.server[id := s.now + s.grant])
  {
    hide Reaches;
    t := s.(phase := InFlight, attempt := s.now, reached := false);
    assert Apply(s, Begin) == t;
    Onward(s, Begin, p);
    t := Reached(t, id, p);
    t := Replied(t, id, p);
  }

  lemma Reached(s: State, id: AckId, p: Pace) returns (t: State)
    requires Reaches(s, p) && s.phase == InFlight && s.batch == [id] && OnTime(s, p) && id in s.server
    requires s.attempt <= s.now
    ensures Reaches(t, p) && t == s.(server := s.server[id := s.now + s.grant], reached := true)
  {
    hide Reaches;
    t := s.(server := s.server[id := s.now + s.grant], reached := true);
    assert Apply(s, Reach(s.now)) == t;
    Onward(s, Reach(s.now), p);
  }

  lemma Replied(s: State, id: AckId, p: Pace) returns (t: State)
    requires Reaches(s, p) && s.phase == InFlight && s.batch == [id] && OnTime(s, p) && s.reached
    requires s.q.keepAlive.Keys == {id}
    ensures Reaches(t, p)
    ensures t == s.(phase := Extending, batch := [], q := s.q.(keepAlive := map[id := s.attempt + s.grant]))
  {
    hide Reaches;
    t := s.(phase := Extending, batch := [], q := s.q.(keepAlive := map[id := s.attempt + s.grant]));
    assert Apply(s, End(Success)) == t;
    Onward(s, End(Success), p);
  }

  /** Chooses the one lease there is, extends it at once, and ends the pass. */
  lemma ExtendAtOnce(s: State, id: AckId, nextAck: Time, seconds: nat, p: Pace) returns (t: State)
    requires Reaches(s, p) && s.phase == SendingNacks && OnlyLease(s, id, nextAck) && OnTime(s, p)
    requires |id| < 1000 && 0 <= p.e && nextAck - s.now <= GRACE && Grants(s, seconds, p) && id in s.server
    ensures Reaches(t, p) && t.phase == Top && !t.needSleep && t.now == t.mark == s.now
    ensures OnlyLease(t, id, s.now + 1000 * seconds)
    ensures t.server == s.server[id := s.now + 1000 * seconds] && t.h == s.h && t.q.input == s.q.input
  {
    hide Reaches, IsDeadline;
    t := ChooseOne(s, id, nextAck, seconds, p);
    t := CallOnce(t, id, p);
    Onward(t, Finish, p);
    t := Apply(t, Finish);
  }

  /** The sleep over a fresh lease is cut short by a notification. */
  lemma WokenAt(s: State, id: AckId, time: nat, seconds: nat, p: Pace) returns (t: State)
    requires time <= 4500 && Sane(p) && Fresh(s, id, p) && Grants(s, seconds, p)
    ensures Reaches(t, p) && t.phase == Merged && !t.needSleep && t.now == t.mark == s.now + time
    ensures OnlyLease(t, id, s.now + FRESH) && t.q.input == map[]
    ensures t.server == s.server[id := s.now + FRESH] && t.h == WithWatched(s.h, id, s.now)
  {
    hide Reaches, IsDeadline;
    t := WatchAndMerge(s, id, FRESH, p);
    t := NothingToSend(t, p);
    t := SleepOn(t, id, s.now + FRESH, seconds, p);
    Onward(t, Tick(time), p);
    t := t.(now := s.now + time);
    t := MergeAgain(t, id, p);
  }

  // ----- Processing times that really occur ----------------------------------------------------

  /** A lease is extended when it is due, and again five seconds later, with nothing but the least deadline. */
  lemma KeptOnceMore(s: State, id: AckId, p: Pace) returns (t: State)
    requires Reaches(s, p) && Sane(p) && s.phase == Merged && !s.needSleep && s.now == s.mark && s.q.input == map[]
    requires OnlyLease(s, id, s.now + GRACE) && Grants(s, 10, p) && id in s.server && |id| < 1000
    ensures Reaches(t, p) && t.phase == Waiting && t.needSleep && t.sleep == GRACE && t.now == t.mark == s.now
    ensures OnlyLease(t, id, s.now + MIN_ACK_DEADLINE) && t.q.input == map[] && t.h == s.h && id in t.server
  {
    hide Reaches, IsDeadline;
    t := NothingToSend(s, p);
    t := ExtendAtOnce(t, id, s.now + GRACE, 10, p);
    t := MergeAgain(t, id, p);
    t := NothingToSend(t, p);
    t := SleepOn(t, id, s.now + MIN_ACK_DEADLINE, 10, p);
  }

  lemma {:induction false} KeptFor(id: AckId, n: nat, p: Pace) returns (t: State)
    requires Sane(p) && |id| < 1000
    ensures Reaches(t, p) && t.phase == Waiting && t.needSleep && t.sleep == GRACE && t.now == t.mark == 4000 + 5000 * n
    ensures OnlyLease(t, id, t.now + MIN_ACK_DEADLINE) && t.q.input == map[]
    ensures t.h == WithWatched(Start(0).h, id, 0) && id in t.server
    decreases n
  {
    hide Reaches, IsDeadline;
    if n == 0 {
      FromStart(id, p);
      t := WokenAt(Start(0), id, 4000, 10, p);
    } else {
      t := KeptFor(id, n - 1, p);
      Onward(t, Tick(GRACE), p);
      t := t.(now := t.now + GRACE);
      t := MergeAgain(t, id, p);
    }
    DeadlineOfOne(10);
    t := KeptOnceMore(t, id, p);
  }

  /** The only lease is completed during the sleep over it, and acknowledged after the next merge. */
  lemma Finished(s: State, id: AckId, seconds: nat, p: Pace) returns (t: State)
    requires Reaches(s, p) && Sane(p) && s.phase == Waiting && |id| < 1000 && OnTime(s, p)
    requires id in s.q.keepAlive && OnlyLease(s, id, s.q.keepAlive[id]) && s.q.input == map[] && s.now == 1000 * seconds
    requires s.h == WithWatched(Start(0).h, id, 0) && 10 <= seconds <= 600 && 1000 * seconds <= p.longest
    ensures forall other :: other != id ==> Fresh(t, other, p)
    ensures t.h.samples == [seconds] && Grants(t, seconds, p)
  {
    hide Reaches;
    DeadlineOfOne(seconds);
    hide IsDeadline;
    t := Completed(s, id, seconds, p);
    t := Acknowledged(t, id, p);
    assert Lists([], {}) && Due(t.q.keepAlive, t.now) == {} && IsShortest(t.q.keepAlive, t.now, SO_MANY);
    var choose := Choose([], seconds, SO_MANY);
    Onward(t, choose, p);
    t := Apply(t, choose);
  }

  lemma Completed(s: State, id: AckId, seconds: nat, p: Pace) returns (t: State)
    requires Reaches(s, p) && 0 <= p.e && s.phase == Waiting && OnTime(s, p) && s.now == 1000 * seconds
    requires id in s.q.keepAlive && OnlyLease(s, id, s.q.keepAlive[id]) && s.q.input == map[]
             && s.h == WithWatched(Start(0).h, id, 0)
    ensures Reaches(t, p)
    ensures t == s.(phase := Merged, needSleep := false, mark := s.now, q := s.q.(acks := {id}),
                    h := s.h.(first := map[id := Ack], samples := [seconds]))
  {
    hide Reaches;
    var s1 := s.(q := s.q.(acks := {id}), h := s.h.(first := map[id := Ack], samples := [seconds]));
    assert Apply(s, Complete(id, Ack)) == s1;
    Onward(s, Complete(id, Ack), p);
    assert id in s1.q.keepAlive;
    t := MergeAgain(s1, id, p);
  }

  lemma Acknowledged(s: State, id: AckId, p: Pace) returns (t: State)
    requires Reaches(s, p) && 0 <= p.e && s.phase == Merged && s.now == s.mark && |id| < 1000
             && s.q.keepAlive.Keys == {id}
    requires s.q.acks == {id} && s.q.nacks == {} && s.q.input == map[]
    ensures Reaches(t, p)
    ensures t == s.(phase := SendingNacks, q := Queues(map[], map[], {}, {}), acks := [], nacks := [],
                    h := s.h.(log := s.h.log + [Batch(Ack, {id}, true)]))
  {
    hide Reaches;
    assert Lists([id], {id}) && Lists([], {});
    var s1 := s.(phase := SendingAcks, q := Queues(map[], map[], {}, {}), acks := [id], nacks := []);
    assert s.q.keepAlive - {id} == map[];
    assert s.h.early + ({id} + {}) * s.q.input.Keys == s.h.early;
    assert Apply(s, Drain([id], [])) == s1;
    Onward(s, Drain([id], []), p);
    assert [id][..1] == [id] && [id][1..] == [] && Elements([id]) == {id};
    CutUnique([id], MAX_PAYLOAD, 1);
    var s2 := s1.(acks := [], h := s.h.(log := s.h.log + [Batch(Ack, {id}, true)]));
    assert Apply(s1, SendAckBatch(true)) == s2;
    Onward(s1, SendAckBatch(true), p);
    t := s2.(phase := SendingNacks);
    assert Apply(s2, EraseNacks) == t;
    Onward(s2, EraseNacks, p);
  }

  /** Any deadline can come about: the user takes that long with a single message, which the client keeps alive with the
      least deadline, and from then on that is what it grants. */
  lemma Experienced(seconds: nat, p: Pace) returns (s: State)
    requires Sane(p) && 10 <= seconds <= 600 && 1000 * seconds <= p.longest
    ensures Fresh(s, "a", p) && Fresh(s, "b", p) && Grants(s, seconds, p)
  {
    hide Reaches;
    var n := (1000 * seconds - 4000) / 5000;
    s := KeptFor("z", n, p);
    var rest := 1000 * seconds - s.now;
    Onward(s, Tick(rest), p);
    s := s.(now := 1000 * seconds);
    s := Finished(s, "z", seconds, p);
  }

  // ----- Larger overruns, smaller margins ------------------------------------------------------

  /** Above the bound: half of what is left, the overrun, and the next pass together use up the lease. */
  lemma LapsesAbove(p: Pace) returns (s: State)
    requires Sane(p) && p.e > MAX_OVERRUN
    ensures Reaches(s, p) && Lapsed(s, "a")
  {
    hide Reaches, IsDeadline;
    FromStart("a", p);
    s := WokenAt(Start(0), "a", 3999, 10, p);
    s := NothingToSend(s, p);
    s := SleepOn(s, "a", FRESH, 10, p);
    Onward(s, Tick(3751), p);
    s := s.(now := 7750);
    s := MergeAgain(s, "a", p);
    Onward(s, Tick(1250), p);
    s := s.(now := FRESH);
  }

  /** An id that is merged with no more left than a pass may take does not last until it is extended. */
  lemma LapsesBeyondMargin(e: Time, margin: nat) returns (s: State)
    requires margin < e && margin < FRESH
    ensures Reaches(s, Merging(e, margin)) && Lapsed(s, "a")
  {
    hide Reaches, IsDeadline;
    var p := Merging(e, margin);
    FromStart("a", p);
    s := WatchAndMerge(Start(0), "a", margin + 1, p);
    Onward(s, Tick(margin + 1), p);
    s := s.(now := margin + 1);
  }

  /** With a margin as long as a fresh lease no uncompleted id is ever merged in time. */
  ghost predicate NeverMerged(s: State) {
    && Conserved(s)
    && forall id :: Live(s, id) ==> id !in s.q.keepAlive && id in s.q.input && s.q.input[id] <= s.now + FRESH
  }

  lemma {:induction false} RunNeverMerges(s: State, steps: seq<Step>, t: State, p: Pace)
    requires p.margin.Some? && p.margin.value >= FRESH && NeverMerged(s) && TimelyRun(s, steps, t, p)
    ensures NeverMerged(t)
    decreases |steps|
  {
    if steps != [] {
      NeverMergedStep(s, steps[0], p.margin.value);
      RunNeverMerges(Apply(s, steps[0]), steps[1..], t, p);
    }
  }

  lemma StillUnmerged(s: State, step: Step)
    requires NeverMerged(s) && Enabled(s, step) && Conserved(Apply(s, step))
    requires !step.Add? && !step.Complete? && !step.Merge? && !step.Drain? && !step.EraseNacks?
    ensures NeverMerged(Apply(s, step))
  {
    HeldSame(s, step);
    assert Apply(s, step).now >= s.now;
    hide Conserved, Apply, Enabled;
  }

  lemma NeverMergedStep(s: State, step: Step, margin: Time)
    requires margin >= FRESH && NeverMerged(s) && Enabled(s, step) && (step.Merge? ==> MergedInTime(s, margin))
    ensures NeverMerged(Apply(s, step))
  {
    ConservedStep(s, step);
    if !step.Add? && !step.Complete? && !step.Merge? && !step.Drain? && !step.EraseNacks? {
      StillUnmerged(s, step);
    } else {
      hide AllPlaced, InOneCall;
    }
  }

  /** The exact condition: no lease lapses in any timely run if and only if the overrun is at most a quarter of the
      grace period and within the margin, or the margin is so long that nothing uncompleted is ever merged. */
  lemma ExactlyTheOverrunsThatNeverLapse(e: Time, margin: nat)
    requires e >= 0
    ensures (forall s, id | Reaches(s, Merging(e, margin)) :: !Lapsed(s, id))
            <==> (e <= MAX_OVERRUN && e <= margin) || margin >= FRESH
  {
    var p := Merging(e, margin);
    if margin >= FRESH {
      forall s, id | Reaches(s, p)
        ensures !Lapsed(s, id)
      {
        var now, steps :| TimelyRun(Start(now), steps, s, p);
        StartConserves(now);
        RunNeverMerges(Start(now), steps, s, p);
      }
    } else if e > margin {
      var s := LapsesBeyondMargin(e, margin);
    } else if e > MAX_OVERRUN {
      var s := LapsesAbove(p);
    } else {
      forall s, id | Reaches(s, p)
        ensures !Lapsed(s, id)
      {
        var now, steps :| TimelyRun(Start(now), steps, s, p);
        NoLeaseLapses(now, steps, s, p, id);
      }
    }
  }

  // ----- Input that waits ----------------------------------------------------------------------

  /** A pass that is about to choose, over a lease that has just been extended as far as possible; some message has
      taken the user that long before. */
  lemma ExtendFully(seconds: nat, p: Pace) returns (s: State)
    requires Sane(p) && 10 <= seconds <= 600 && 1000 * seconds <= p.longest
    ensures Reaches(s, p) && s.phase == SendingNacks && s.now == s.mark && OnlyLease(s, "a", s.now + 1000 * seconds)
    ensures s.q.input == map[] && "b" !in s.h.watched && "b" !in s.h.first && Grants(s, seconds, p)
  {
    hide Reaches, IsDeadline;
    s := Experienced(seconds, p);
    var start := s.now;
    s := WokenAt(s, "a", 4000, seconds, p);
    s := NothingToSend(s, p);
    s := ExtendAtOnce(s, "a", start + FRESH, seconds, p);
    s := MergeAgain(s, "a", p);
    s := NothingToSend(s, p);
  }

  /** An id watched during a pass is not looked at before the sleep after it, which may last half of the largest
      deadline, once messages have taken the user long: punctual as everything is, its lease runs out before it is
      merged. */
  lemma InputMayWaitTooLong(p: Pace) returns (s: State)
    requires Sane(p) && p.longest >= MAX_ACK_DEADLINE
    ensures Reaches(s, p) && Live(s, "b") && "b" in s.q.input && "b" in s.server && s.server["b"] <= s.now
  {
    hide Reaches, IsDeadline;
    s := ExtendFully(600, p);
    var add := Add("b", s.now, s.now + FRESH);
    Onward(s, add, p);
    s := Apply(s, add);
    s := SleepOn(s, "a", s.now + MAX_ACK_DEADLINE, 600, p);
    Onward(s, Tick(9000), p);
    s := s.(now := s.now + 9000);
  }
}
