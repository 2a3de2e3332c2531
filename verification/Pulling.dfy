/** A pull, and what its callbacks do, is a run of the protocol: watching is adding, and the first use of a message is
    the completion of its id. */
module Pulling {
  import opened Types
  import opened Messages
  import opened Protocol

  /** The protocol knows these ids, and when their messages were received, and none of them is completed. */
  ghost predicate Outstanding(s: State, ids: seq<AckId>, times: seq<Time>) {
    && |ids| == |times| && Distinct(ids)
    && forall k :: 0 <= k < |ids| ==>
         ids[k] in s.h.watched && ids[k] !in s.h.first && ids[k] in s.h.pulled && s.h.pulled[ids[k]] == times[k]
  }

  /** Exactly these ids have been watched, just now; everything else about ids is as it was. */
  ghost predicate Learnt(s: State, t: State, ids: seq<AckId>) {
    && t.h.watched == s.h.watched + Elements(ids) && t.h.first == s.h.first && t.h.samples == s.h.samples
    && (forall id :: id in s.h.pulled && id !in ids ==> id in t.h.pulled && t.h.pulled[id] == s.h.pulled[id])
    && forall id :: id in ids ==> id in t.h.pulled && t.h.pulled[id] == s.now
  }

  lemma Longer(s: State, steps: seq<Step>, t: State, step: Step) returns (steps': seq<Step>)
    requires Leads(s, steps, t) && Enabled(t, step)
    ensures Leads(s, steps', Apply(t, step))
  {
    LeadsOn(s, steps, t, step);
    steps' := steps + [step];
  }

  /** The first loop: every id of the response is added. */
  lemma {:induction false} WatchRun(s: State, ids: seq<AckId>) returns (steps: seq<Step>, t: State)
    requires Distinct(ids) && forall id :: id in ids ==> id !in s.h.watched
    ensures Leads(s, steps, t) && t.q == WatchAll(s.q, ids, s.now + MIN_ACK_DEADLINE - 1000) && t.now == s.now
    ensures Learnt(s, t, ids)
    decreases |ids|
  {
    hide Leads, Enabled;
    if ids == [] {
      steps, t := [], s;
      Stays(s);
    } else {
      var n := |ids| - 1;
      var first, id := ids[..n], ids[n];
      assert ids == first + [id];
      steps, t := WatchRun(s, first);
      assert id !in first;
      steps, t := AddRun(s, steps, t, id);
      assert Elements(ids) == Elements(first) + {id};
    }
  }

  lemma Stays(s: State)
    ensures Leads(s, [], s)
  {
  }

  lemma AddRun(s: State, steps: seq<Step>, t: State, id: AckId) returns (steps': seq<Step>, t': State)
    requires Leads(s, steps, t) && id !in t.h.watched
    ensures Leads(s, steps', t') && t'.q == t.q.Watch(id, t.now + MIN_ACK_DEADLINE - 1000) && t'.now == t.now
    ensures t'.h == t.h.(watched := t.h.watched + {id}, pulled := t.h.pulled[id := t.now])
  {
    hide Leads;
    var add := Add(id, t.now, t.now + MIN_ACK_DEADLINE - 1000);
    t' := Apply(t, add);
    steps' := Longer(s, steps, t, add);
  }

  /** The user acts as time goes by. */
  ghost predicate InTimeOrder(now: Time, acts: seq<Act>) {
    && (forall i :: 0 <= i < |acts| ==> now <= acts[i].time)
    && (forall i, j :: 0 <= i < j < |acts| ==> acts[i].time <= acts[j].time)
  }

  /** The messages used so far are the ones whose ids are completed, each as its first use says. */
  ghost predicate UsedUp(t: State, ids: seq<AckId>, acts: seq<Act>) {
    forall k :: 0 <= k < |ids| ==>
      match FirstUse(acts, k)
      case None => ids[k] !in t.h.first
      case Some(action) => ids[k] in t.h.first && t.h.first[ids[k]] == action
  }

  /** The second loop: the first use of each message completes its id and records how long it took, and later uses do
      nothing. */
  lemma {:induction false} ActsRun(s: State, ids: seq<AckId>, times: seq<Time>, acts: seq<Act>)
    returns (steps: seq<Step>, t: State)
    requires Outstanding(s, ids, times) && InTimeOrder(s.now, acts)
    requires forall act :: act in acts ==> act.message < |ids|
    ensures Leads(s, steps, t) && t.q == Settle(s.q, ids, acts) && t.h.samples == Measured(s.h.samples, times, acts)
    ensures t.h.watched == s.h.watched && t.h.pulled == s.h.pulled
    ensures UsedUp(t, ids, acts) && s.now <= t.now <= (if acts == [] then s.now else acts[|acts| - 1].time)
    decreases |acts|
  {
    hide Leads, Enabled, Apply;
    if acts == [] {
      steps, t := [], s;
      Stays(s);
    } else {
      var n := |acts| - 1;
      var act := acts[n];
      steps, t := ActsRun(s, ids, times, acts[..n]);
      if FirstUse(acts[..n], act.message) == None {
        steps, t := CompleteRun(s, steps, t, ids[act.message], ActionOf(act), act.time);
      }
    }
  }

  lemma CompleteRun(s: State, steps: seq<Step>, t: State, id: AckId, action: Action, time: Time)
    returns (steps': seq<Step>, t': State)
    requires Leads(s, steps, t) && id in t.h.watched && id !in t.h.first && t.now <= time && id in t.h.pulled
    ensures Leads(s, steps', t') && t'.q == t.q.Complete(id, action) && t'.now == time
    ensures t'.h == t.h.(first := t.h.first[id := action],
                         samples := t.h.samples + [Seconds(t.h.pulled[id], time)])
  {
    hide Leads;
    var tick, complete := Tick(time - t.now), Complete(id, action);
    steps' := Longer(s, steps, t, tick);
    t' := Apply(t, tick);
    steps' := Longer(s, steps', t', complete);
    t' := Apply(t', complete);
  }

  /** What a pull does to the containers and to the processing times, as its method has it, with the messages kept from
      before, is what a run of the protocol does from any state in which the ids of the response are new and those of
      the kept messages are not completed. */
  lemma PullIsRun(s: State, olderIds: seq<AckId>, times: seq<Time>, response: seq<AckId>, acts: seq<Act>)
    returns (steps: seq<Step>, t: State)
    requires Distinct(response) && forall id :: id in response ==> id !in s.h.watched && id !in s.h.first
    requires Outstanding(s, olderIds, times) && InTimeOrder(s.now, acts)
    requires forall act :: act in acts ==> act.message < |olderIds + Reverse(response)|
    ensures Leads(s, steps, t)
    ensures t.q == Settle(WatchAll(s.q, response, s.now + MIN_ACK_DEADLINE - 1000), olderIds + Reverse(response), acts)
    ensures t.h.samples == Measured(s.h.samples, times + ReceivedAt(|response|, s.now), acts)
    ensures UsedUp(t, olderIds + Reverse(response), acts)
  {
    hide Leads, Settle, Measured;
    var m, more;
    steps, m := WatchRun(s, response);
    OutstandingTogether(s, m, olderIds, times, response);
    more, t := ActsRun(m, olderIds + Reverse(response), times + ReceivedAt(|response|, s.now), acts);
    steps := Joined(s, steps, m, more, t);
  }

  lemma OutstandingTogether(s: State, t: State, olderIds: seq<AckId>, times: seq<Time>, response: seq<AckId>)
    requires Distinct(response) && forall id :: id in response ==> id !in s.h.watched && id !in s.h.first
    requires Outstanding(s, olderIds, times) && Learnt(s, t, response)
    ensures Outstanding(t, olderIds + Reverse(response), times + ReceivedAt(|response|, s.now))
  {
    var ids := olderIds + Reverse(response);
    forall id | id in olderIds
      ensures id !in response
    {
      assert id in s.h.watched;
    }
    DistinctTogether(olderIds, response);
    forall k | 0 <= k < |ids|
      ensures ids[k] in t.h.watched && ids[k] !in t.h.first && ids[k] in t.h.pulled
      ensures t.h.pulled[ids[k]] == (times + ReceivedAt(|response|, s.now))[k]
    {
      if k < |olderIds| {
        assert ids[k] in olderIds;
      } else {
        assert ids[k] in response;
      }
    }
  }

  lemma DistinctTogether(olderIds: seq<AckId>, response: seq<AckId>)
    requires Distinct(olderIds) && Distinct(response) && forall id :: id in olderIds ==> id !in response
    ensures Distinct(olderIds + Reverse(response))
  {
    var newer := Reverse(response);
    forall i, j | 0 <= i < j < |olderIds + newer|
      ensures (olderIds + newer)[i] != (olderIds + newer)[j]
    {
      if j >= |olderIds| {
        assert newer[j - |olderIds|] in response;
        assert i < |olderIds| ==> olderIds[i] in olderIds;
      }
    }
  }

  lemma {:induction false} Joined(s: State, steps: seq<Step>, m: State, more: seq<Step>, t: State)
    returns (all: seq<Step>)
    requires Leads(s, steps, m) && Leads(m, more, t)
    ensures Leads(s, all, t)
    decreases |more|
  {
    if more == [] {
      all := steps;
    } else {
      var steps' := Longer(s, steps, m, more[0]);
      all := Joined(s, steps', Apply(m, more[0]), more[1..], t);
    }
  }
}
