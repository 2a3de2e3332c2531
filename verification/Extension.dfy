/** What a pass does to the leases: which it extends, to when, and what the sleep after it leaves them. */
module Extension {
  import opened Types
  import opened Batching
  import opened Queues
  import opened Iterator

  ghost predicate InSome(id: AckId, batches: seq<seq<AckId>>) {
    exists i :: 0 <= i < |batches| && id in batches[i]
  }

  lemma {:induction false} FlattenHas(id: AckId, batches: seq<seq<AckId>>)
    ensures id in Flatten(batches) <==> InSome(id, batches)
  {
    if batches != [] {
      FlattenHas(id, batches[1..]);
      if InSome(id, batches) {
        var i :| 0 <= i < |batches| && id in batches[i];
        assert i > 0 ==> id in batches[1..][i - 1];
      }
      if InSome(id, batches[1..]) {
        var i :| 0 <= i < |batches[1..]| && id in batches[1..][i];
        assert id in batches[i + 1];
      }
    }
  }

  /** Batches cut from ids without repetitions have no id in common. */
  lemma {:induction false} BatchesDisjoint(batches: seq<seq<AckId>>, i: nat, j: nat, id: AckId)
    requires Distinct(Flatten(batches)) && i < j < |batches| && id in batches[i]
    ensures id !in batches[j]
  {
    var first, tail := batches[0], Flatten(batches[1..]);
    assert Flatten(batches) == first + tail;
    if i == 0 {
      assert id !in tail by {
        var k :| 0 <= k < |first| && first[k] == id;
        assert (first + tail)[k] == id;
        assert forall n :: 0 <= n < |tail| ==> (first + tail)[|first| + n] == tail[n];
      }
      FlattenHas(id, batches[1..]);
      assert batches[j] == batches[1..][j - 1];
    } else {
      assert Distinct(tail) by {
        assert forall n :: 0 <= n < |tail| ==> (first + tail)[|first| + n] == tail[n];
      }
      BatchesDisjoint(batches[1..], i - 1, j - 1, id);
    }
  }

  lemma {:induction false} ExtendedTo(leases: map<AckId, Time>, sent: seq<seq<AckId>>, calls: seq<Call>, grant: Time,
                                      id: AckId)
    requires |sent| <= |calls| && id in leases
    requires forall i, j :: 0 <= i < j < |sent| && id in sent[i] ==> id !in sent[j]
    ensures Extended(leases, sent, calls, grant).Keys == leases.Keys
    ensures forall i :: 0 <= i < |sent| && id in sent[i] ==>
              Extended(leases, sent, calls, grant)[id] == calls[i].start + grant
    ensures !InSome(id, sent) ==> Extended(leases, sent, calls, grant)[id] == leases[id]
  {
    if sent != [] {
      var n := |sent| - 1;
      ExtendedTo(leases, sent[..n], calls, grant, id);
      if InSome(id, sent[..n]) {
        var i :| 0 <= i < n && id in sent[..n][i];
        assert id in sent[i];
      }
    }
  }

  /** The ids of the batches that went out, all of them inside the grace period, now run from the start of their own
      call; every other lease, and the set of leases, is as before; and of the leases inside the grace period only
      those of a batch that failed, and those after it, were not extended. */
  ghost predicate Exact(leases: map<AckId, Time>, now: Time, calls: seq<Call>, grant: Time, r: Sending,
                        extended: map<AckId, Time>) {
    && |r.sent| <= |calls|
    && extended.Keys == leases.Keys
    && (forall i, id :: 0 <= i < |r.sent| && id in r.sent[i] ==>
          id in Due(leases, now) && id in extended && extended[id] == calls[i].start + grant)
    && (forall id :: id in leases && !InSome(id, r.sent) ==> extended[id] == leases[id])
    && (forall id :: id in Due(leases, now) ==> (InSome(id, r.sent) <==> id !in r.failed + r.rest))
    && (r.outcome.Finished? ==> r.failed + r.rest == [])
  }

  /** The extension loop is exact, whatever the calls do. */
  lemma ExtensionIsExact(leases: map<AckId, Time>, order: seq<AckId>, now: Time, calls: seq<Call>, grant: Time)
    requires Enumerates(order, leases.Keys)
    ensures var r := SendAll(InOrder(order, Due(leases, now)), MAX_PAYLOAD, calls);
            |r.sent| <= |calls| && Exact(leases, now, calls, grant, r, Extended(leases, r.sent, calls, grant))
  {
    hide SendAll, Extended, InOrder;
    var ids := InOrder(order, Due(leases, now));
    var r := SendAll(ids, MAX_PAYLOAD, calls);
    SendAllAccounts(ids, MAX_PAYLOAD, calls);
    SendAllPartitions(ids, MAX_PAYLOAD, calls);
    InOrderDistinct(order, Due(leases, now));
    var extended := Extended(leases, r.sent, calls, grant);
    ExtendedKeys(leases, r.sent, calls, grant);
    DistinctParts(Flatten(r.sent), r.failed + r.rest);
    forall id
      ensures InSome(id, r.sent) <==> id in Flatten(r.sent)
    {
      FlattenHas(id, r.sent);
    }
    forall i, id | 0 <= i < |r.sent| && id in r.sent[i]
      ensures id in Due(leases, now) && id in extended && extended[id] == calls[i].start + grant
    {
      assert InSome(id, r.sent);
      assert id in ids;
      SentOnce(r.sent, id);
      ExtendedTo(leases, r.sent, calls, grant, id);
    }
    forall id | id in leases && !InSome(id, r.sent)
      ensures extended[id] == leases[id]
    {
      ExtendedTo(leases, r.sent, calls, grant, id);
    }
    assert forall id :: id in Due(leases, now) ==> id in ids;
  }

  lemma SentOnce(batches: seq<seq<AckId>>, id: AckId)
    requires Distinct(Flatten(batches))
    ensures forall i, j :: 0 <= i < j < |batches| && id in batches[i] ==> id !in batches[j]
  {
    forall i, j | 0 <= i < j < |batches| && id in batches[i]
      ensures id !in batches[j]
    {
      BatchesDisjoint(batches, i, j, id);
    }
  }

  lemma DistinctParts(a: seq<AckId>, b: seq<AckId>)
    requires Distinct(a + b)
    ensures Distinct(a) && forall id :: id in a ==> id !in b
  {
    forall i, j | 0 <= i < |a| && 0 <= j < |b|
      ensures a[i] != b[j]
    {
      assert (a + b)[i] == a[i] && (a + b)[|a| + j] == b[j];
    }
    assert forall i :: 0 <= i < |a| ==> (a + b)[i] == a[i];
  }

  lemma {:induction false} ExtendedKeys(leases: map<AckId, Time>, sent: seq<seq<AckId>>, calls: seq<Call>, grant: Time)
    requires |sent| <= |calls|
    ensures Extended(leases, sent, calls, grant).Keys == leases.Keys
  {
    if sent != [] {
      ExtendedKeys(leases, sent[..|sent| - 1], calls, grant);
    }
  }

  lemma SentWhole(order: seq<AckId>, ids: set<AckId>, calls: seq<Call>)
    requires Enumerates(order, ids) && SendAll(InOrder(order, ids), MAX_PAYLOAD, calls).outcome.Finished?
    ensures var sent := SendAll(InOrder(order, ids), MAX_PAYLOAD, calls).sent;
            Distinct(Flatten(sent)) && Elements(Flatten(sent)) == ids
  {
    hide SendAll;
    var listed := InOrder(order, ids);
    SendAllAccounts(listed, MAX_PAYLOAD, calls);
    SendAllPartitions(listed, MAX_PAYLOAD, calls);
    InOrderDistinct(order, ids);
    var r := SendAll(listed, MAX_PAYLOAD, calls);
    assert Flatten(r.sent) + (r.failed + r.rest) == Flatten(r.sent);
  }

  /** A pass that comes to its end has acknowledged exactly the ids pending for it, given back exactly those pending
      for that, and extended exactly the due ones among the other leases, each id in one batch; no completed id is kept
      alive any longer or extended, and every other one still is kept alive. */
  lemma WholePassIsExact(q: Queues, samples: seq<nat>, order: seq<AckId>, now: Time, script: seq<Call>, p: Pass)
    requires IsPass(q, samples, order, now, script, p) && p.result.Sleep?
    requires Enumerates(order, q.keepAlive.Keys + q.acks + q.nacks)
    ensures Distinct(Flatten(p.acks.sent)) && Elements(Flatten(p.acks.sent)) == q.acks
    ensures Distinct(Flatten(p.nacks.sent)) && Elements(Flatten(p.nacks.sent)) == q.nacks
    ensures var leases := q.keepAlive - q.acks - q.nacks;
            && Distinct(Flatten(p.extended.sent)) && Elements(Flatten(p.extended.sent)) == Due(leases, now)
            && Exact(leases, now, p.calls, 1000 * p.seconds, p.extended, PassQueues(q, p).keepAlive)
    ensures var q' := PassQueues(q, p);
            q'.input == q.input && q'.acks == q'.nacks == {} && q'.keepAlive.Keys == q.keepAlive.Keys - q.acks - q.nacks
  {
    hide SendAll, InOrder, Extended, Flatten, IsSleepAfter;
    var leases := q.keepAlive - q.acks - q.nacks;
    SentWhole(order, q.acks, script);
    SentWhole(order, q.nacks, After(script, p.acks));
    SentWhole(order, Due(leases, now), p.calls);
    ExtensionIsExact(leases, order, now, p.calls, 1000 * p.seconds);
  }

  /** An extension that goes out during the pass moves the lease forward by at least the grace period. */
  lemma ExtensionGains(leases: map<AckId, Time>, now: Time, calls: seq<Call>, grant: Time, r: Sending,
                       extended: map<AckId, Time>, id: AckId)
    requires Exact(leases, now, calls, grant, r, extended) && grant >= MIN_ACK_DEADLINE
    requires forall i :: 0 <= i < |calls| ==> calls[i].start >= now
    requires InSome(id, r.sent)
    ensures id in leases && id in extended && extended[id] >= leases[id] + GRACE
  {
    var i :| 0 <= i < |r.sent| && id in r.sent[i];
    assert id in Due(leases, now);
  }

  /** With a frozen clock the next pass finds nothing to extend, and if any lease remains it asks for a sleep of half
      the shortest time left: at least half the grace period, and at most half of what every lease has. */
  lemma NextPassSleeps(leases: map<AckId, Time>, now: Time, calls: seq<Call>, grant: Time, r: Sending,
                       extended: map<AckId, Time>, result: PassResult)
    requires Exact(leases, now, calls, grant, r, extended) && r.outcome.Finished? && grant >= MIN_ACK_DEADLINE
    requires forall i :: 0 <= i < |calls| ==> calls[i].start == now
    requires extended != map[] && IsSleepAfter(extended, now, result)
    ensures Due(extended, now) == {}
    ensures result.Sleep? && result.time >= GRACE / 2
    ensures forall id :: id in extended ==> 2 * result.time <= extended[id] - now
    ensures result.time < SO_MANY / 2 ==> exists id :: id in extended && result.time == (extended[id] - now) / 2
  {
    forall id | id in extended
      ensures extended[id] - now > GRACE
    {
      if InSome(id, r.sent) {
        var i :| 0 <= i < |r.sent| && id in r.sent[i];
        assert extended[id] == calls[i].start + grant;
      } else {
        assert id !in Due(leases, now);
      }
    }
  }
}
