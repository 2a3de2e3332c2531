/** The four containers of an iterator as one value, and what each critical section does to them. */
module Queues {
  import opened Types

  /** input and keepAlive map an id to the time its lease must be extended by; acks and nacks are completed ids that
      have not been drained. */
  datatype Queues = Queues(input: map<AckId, Time>, keepAlive: map<AckId, Time>, acks: set<AckId>, nacks: set<AckId>) {

    function Watch(id: AckId, nextAck: Time): Queues {
      this.(input := input[id := nextAck])
    }

    /** The last completion of an id wins. */
    function Complete(id: AckId, action: Action): Queues {
      match action
      case Ack => this.(nacks := nacks - {id}, acks := acks + {id})
      case Nack => this.(acks := acks - {id}, nacks := nacks + {id})
    }

    /** A lease that is already kept alive stays as it is. */
    function Merge(): Queues {
      this.(keepAlive := input + keepAlive, input := map[])
    }

    function Drain(): Queues {
      this.(acks := {}, nacks := {})
    }

    function Erase(ids: set<AckId>): Queues {
      this.(keepAlive := keepAlive - ids)
    }

    function Stamp(ids: set<AckId>, nextAck: Time): Queues {
      this.(keepAlive := Stamped(keepAlive, ids, nextAck))
    }

    function Held(): set<AckId> {
      input.Keys + keepAlive.Keys
    }
  }

  function Stamped(leases: map<AckId, Time>, ids: set<AckId>, nextAck: Time): (r: map<AckId, Time>)
    ensures r.Keys == leases.Keys
  {
    map id | id in leases :: if id in ids then nextAck else leases[id]
  }

  // ----- Which leases a pass extends, and how long it sleeps when there are none ---------------

  /** The leases inside the grace period. */
  ghost function Due(leases: map<AckId, Time>, now: Time): set<AckId> {
    set id | id in leases && leases[id] - now <= GRACE
  }

  /** m is the shortest time any lease has left, or "so many" if all have more. */
  ghost predicate IsShortest(leases: map<AckId, Time>, now: Time, m: Time) {
    && m <= SO_MANY
    && (forall id :: id in leases ==> m <= leases[id] - now)
    && (m < SO_MANY ==> exists id :: id in leases && m == leases[id] - now)
  }

  // ----- Iteration order -----------------------------------------------------------------------

  /** A hash container is visited in some order: a sequence without repetitions that covers it. */
  ghost predicate Enumerates(order: seq<AckId>, ids: set<AckId>) {
    Distinct(order) && forall id :: id in ids ==> id in order
  }

  /** The members of a set, in the given order. */
  function InOrder(order: seq<AckId>, ids: set<AckId>): (r: seq<AckId>)
    ensures forall id :: id in r <==> id in order && id in ids
    ensures |r| <= |order|
  {
    if order == [] then []
    else (if order[0] in ids then [order[0]] else []) + InOrder(order[1..], ids)
  }

  lemma {:induction false} InOrderDistinct(order: seq<AckId>, ids: set<AckId>)
    requires Distinct(order)
    ensures Distinct(InOrder(order, ids))
  {
    if order != [] {
      assert forall i, j :: 0 <= i < j < |order[1..]| ==>
          order[1..][i] == order[i + 1] && order[1..][j] == order[j + 1];
      InOrderDistinct(order[1..], ids);
      assert order[0] !in order[1..];
    }
  }

  lemma {:induction false} InOrderEmpty(order: seq<AckId>, ids: set<AckId>)
    requires ids == {}
    ensures InOrder(order, ids) == []
  {
    if order != [] {
      InOrderEmpty(order[1..], ids);
    }
  }

  lemma InOrderFirst(order: seq<AckId>, ids: set<AckId>)
    requires order != []
    ensures InOrder(order, ids) == (if order[0] in ids then [order[0]] else []) + InOrder(order[1..], ids)
    ensures InOrder([], ids) == []
  {
  }

  lemma {:induction false} InOrderAppend(order: seq<AckId>, id: AckId, ids: set<AckId>)
    ensures InOrder(order + [id], ids) == InOrder(order, ids) + if id in ids then [id] else []
  {
    hide InOrder;
    var longer := order + [id];
    InOrderFirst(longer, ids);
    if order == [] {
      assert longer[1..] == [];
    } else {
      assert longer[1..] == order[1..] + [id];
      InOrderAppend(order[1..], id, ids);
      InOrderFirst(order, ids);
    }
  }
}
