/** The greedy packing of ack ids into requests, and the loops that send one request per batch. */
module Batching {
  import opened Types

  // ----- Sizes ---------------------------------------------------------------------------------

  /** What the ids contribute to the estimated size of a request. */
  function Weight(ids: seq<AckId>): nat {
    if ids == [] then 0 else OVERHEAD_PER_ID + |ids[0]| + Weight(ids[1..])
  }

  predicate Fits(ids: seq<AckId>, maxSize: nat) {
    REQ_FIXED_OVERHEAD + Weight(ids) < maxSize
  }

  ghost predicate EachFits(ids: seq<AckId>, maxSize: nat) {
    forall id :: id in ids ==> Fits([id], maxSize)
  }

  lemma {:induction false} WeightAppend(a: seq<AckId>, b: seq<AckId>)
    ensures Weight(a + b) == Weight(a) + Weight(b)
  {
    if a == [] {
      assert a + b == b;
    } else {
      assert (a + b)[1..] == a[1..] + b;
      WeightAppend(a[1..], b);
    }
  }

  lemma WeightPrefix(ids: seq<AckId>, k: nat)
    requires k < |ids|
    ensures Weight(ids[..k + 1]) == Weight(ids[..k]) + OVERHEAD_PER_ID + |ids[k]|
  {
    assert ids[..k + 1] == ids[..k] + [ids[k]];
    WeightAppend(ids[..k], [ids[k]]);
  }

  lemma {:induction false} WeightMonotone(ids: seq<AckId>, k: nat, n: nat)
    requires k <= n <= |ids|
    ensures Weight(ids[..k]) <= Weight(ids[..n])
  {
    assert ids[..n] == ids[..k] + ids[k..n];
    WeightAppend(ids[..k], ids[k..n]);
  }

  // ----- One batch -----------------------------------------------------------------------------

  /** How many ids the split takes: the longest prefix that fits, and none when not even the first id fits. */
  function Cut(ids: seq<AckId>, maxSize: nat): (k: nat)
    ensures k <= |ids|
    ensures k > 0 ==> Fits(ids[..k], maxSize)
    ensures forall n :: k < n <= |ids| ==> !Fits(ids[..n], maxSize)
  {
    CutFrom(ids, maxSize, 0)
  }

  function CutFrom(ids: seq<AckId>, maxSize: nat, from: nat): (k: nat)
    requires from <= |ids|
    requires from > 0 ==> Fits(ids[..from], maxSize)
    ensures from <= k <= |ids|
    ensures k > 0 ==> Fits(ids[..k], maxSize)
    ensures forall n :: k < n <= |ids| ==> !Fits(ids[..n], maxSize)
    decreases |ids| - from
  {
    if from < |ids| && Fits(ids[..from + 1], maxSize) then
      CutFrom(ids, maxSize, from + 1)
    else
      assert forall n :: from < n <= |ids| ==> !Fits(ids[..n], maxSize) by {
        forall n | from < n <= |ids|
          ensures !Fits(ids[..n], maxSize)
        {
          WeightMonotone(ids, from + 1, n);
        }
      }
      from
  }

  /** The contract of Cut leaves no choice: two cuts that satisfy it are the same. */
  lemma CutUnique(ids: seq<AckId>, maxSize: nat, k: nat)
    requires k <= |ids|
    requires k > 0 ==> Fits(ids[..k], maxSize)
    requires forall n :: k < n <= |ids| ==> !Fits(ids[..n], maxSize)
    ensures k == Cut(ids, maxSize)
  {
    var c := Cut(ids, maxSize);
    assert !(k < c) && !(c < k);
  }

  /** Moves ids from the front of the remainder into a batch while the estimate stays below the limit. */
  method SplitRequestIds(remainder: seq<AckId>, maxSize: nat) returns (toSend: seq<AckId>, rest: seq<AckId>)
    ensures toSend + rest == remainder
    ensures |toSend| == Cut(remainder, maxSize)
  {
    var size := REQ_FIXED_OVERHEAD;
    toSend, rest := [], remainder;
    while size < maxSize && rest != []
      invariant |toSend| <= |remainder| && toSend == remainder[..|toSend|] && rest == remainder[|toSend|..]
      invariant toSend != [] ==> Fits(toSend, maxSize)
      invariant size == REQ_FIXED_OVERHEAD + Weight(toSend)
                || (rest != [] && maxSize <= size == REQ_FIXED_OVERHEAD + Weight(remainder[..|toSend| + 1]))
      decreases |rest|, maxSize - size
    {
      WeightPrefix(remainder, |toSend|);
      assert remainder[..|toSend| + 1] == toSend + [rest[0]];
      size := size + OVERHEAD_PER_ID + |rest[0]|;
      if size < maxSize {
        toSend, rest := toSend + [rest[0]], rest[1..];
      }
    }
    if rest != [] {
      WeightPrefix(remainder, |toSend|);
      forall n | |toSend| < n <= |remainder|
        ensures !Fits(remainder[..n], maxSize)
      {
        WeightMonotone(remainder, |toSend| + 1, n);
      }
    }
    CutUnique(remainder, maxSize, |toSend|);
  }

  /** A batch is non-empty exactly when the id at the front fits alone. */
  lemma CutProgress(ids: seq<AckId>, maxSize: nat)
    requires ids != []
    ensures Cut(ids, maxSize) > 0 <==> Fits([ids[0]], maxSize)
  {
    assert ids[..1] == [ids[0]];
    if Cut(ids, maxSize) > 0 {
      WeightMonotone(ids, 1, Cut(ids, maxSize));
    }
  }

  // ----- Sending everything --------------------------------------------------------------------

  /** What one retried call came to: whether its final status was OK, and when its last attempt started. */
  datatype Call = Call(ok: bool, start: Time)

  /** Finished: everything went out. Threw: a call failed. Unfinished: the loop is still going after these calls. */
  datatype Outcome = Finished | Threw | Unfinished

  /** sent: the batches whose calls succeeded; failed: the batch of the call that threw; rest: what is left. */
  datatype Sending = Sending(outcome: Outcome, sent: seq<seq<AckId>>, failed: seq<AckId>, rest: seq<AckId>)

  /** The send loop: one call per batch until nothing remains or a call fails. */
  function SendAll(ids: seq<AckId>, maxSize: nat, calls: seq<Call>): Sending
    decreases |calls|
  {
    if ids == [] then Sending(Finished, [], [], [])
    else if calls == [] then Sending(Unfinished, [], [], ids)
    else
      var k := Cut(ids, maxSize);
      if !calls[0].ok then Sending(Threw, [], ids[..k], ids[k..])
      else
        var r := SendAll(ids[k..], maxSize, calls[1..]);
        r.(sent := [ids[..k]] + r.sent)
  }

  ghost function Flatten<T>(batches: seq<seq<T>>): seq<T> {
    if batches == [] then [] else batches[0] + Flatten(batches[1..])
  }

  /** What the outcome says about the calls, the failed batch and the rest. */
  ghost predicate Accounted(r: Sending, calls: seq<Call>) {
    && |r.sent| <= |calls|
    && (forall i :: 0 <= i < |r.sent| ==> calls[i].ok)
    && (r.outcome.Finished? ==> r.failed == [] && r.rest == [])
    && (r.outcome.Threw? ==> |r.sent| < |calls| && !calls[|r.sent|].ok && r.failed + r.rest != [])
    && (r.outcome.Unfinished? ==> |r.sent| == |calls| && r.failed == [] && r.rest != [])
  }

  /** Whatever the calls do, the outcome reports them as they went. */
  lemma {:induction false} SendAllAccounts(ids: seq<AckId>, maxSize: nat, calls: seq<Call>)
    ensures Accounted(SendAll(ids, maxSize, calls), calls)
    decreases |calls|
  {
    if ids != [] && calls != [] {
      var k := Cut(ids, maxSize);
      if calls[0].ok {
        var r := SendAll(ids, maxSize, calls);
        SendAllAccounts(ids[k..], maxSize, calls[1..]);
        forall i | 0 <= i < |r.sent|
          ensures calls[i].ok
        {
          if i > 0 {
            assert calls[i] == calls[1..][i - 1];
          }
        }
      } else {
        assert ids[..k] + ids[k..] == ids;
      }
    }
  }

  lemma Prepend(ids: seq<AckId>, k: nat, batches: seq<seq<AckId>>, tail: seq<AckId>)
    requires k <= |ids| && Flatten(batches) + tail == ids[k..]
    ensures Flatten([ids[..k]] + batches) + tail == ids
  {
    assert ([ids[..k]] + batches)[1..] == batches;
    assert ids == ids[..k] + ids[k..];
  }

  /** Whatever the calls do, the sent batches, the failed one and the rest make up the ids, in order and without
      loss, and every batch obeys the size limit. */
  lemma {:induction false} SendAllPartitions(ids: seq<AckId>, maxSize: nat, calls: seq<Call>)
    ensures var r := SendAll(ids, maxSize, calls);
            && Flatten(r.sent) + (r.failed + r.rest) == ids
            && (forall b :: b in r.sent + [r.failed] && b != [] ==> Fits(b, maxSize))
    decreases |calls|
  {
    if ids != [] && calls != [] {
      var k := Cut(ids, maxSize);
      if calls[0].ok {
        var r, r' := SendAll(ids, maxSize, calls), SendAll(ids[k..], maxSize, calls[1..]);
        SendAllPartitions(ids[k..], maxSize, calls[1..]);
        Prepend(ids, k, r'.sent, r'.failed + r'.rest);
        assert forall b :: b in r.sent + [r.failed] ==> b == ids[..k] || b in r'.sent + [r'.failed];
      } else {
        assert ids[..k] + ids[k..] == ids;
      }
    }
  }

  /** Some calls let the loop finish exactly when every id fits alone, and then no batch is empty. An id that does
      not fit alone makes the loop send empty requests for as long as the calls succeed. */
  lemma {:induction false} SendAllFinishes(ids: seq<AckId>, maxSize: nat, calls: seq<Call>)
    ensures var r := SendAll(ids, maxSize, calls);
            && (r.outcome.Finished? ==> EachFits(ids, maxSize))
            && (EachFits(ids, maxSize) ==> forall i :: 0 <= i < |r.sent| ==> r.sent[i] != [])
            && (EachFits(ids, maxSize) && |calls| >= |ids| ==> !r.outcome.Unfinished?)
    decreases |calls|
  {
    if ids != [] && calls != [] && calls[0].ok {
      var k := Cut(ids, maxSize);
      CutProgress(ids, maxSize);
      SendAllFinishes(ids[k..], maxSize, calls[1..]);
      assert ids == ids[..k] + ids[k..];
      if SendAll(ids, maxSize, calls).outcome.Finished? {
        PrefixEachFits(ids, maxSize, k);
      }
    }
  }

  lemma PrefixEachFits(ids: seq<AckId>, maxSize: nat, k: nat)
    requires k <= |ids|
    requires k > 0 ==> Fits(ids[..k], maxSize)
    ensures EachFits(ids[..k], maxSize)
  {
    forall id | id in ids[..k]
      ensures Fits([id], maxSize)
    {
      var i :| 0 <= i < k && ids[i] == id;
      WeightPrefix(ids, i);
      WeightMonotone(ids, i + 1, k);
    }
  }

  // ----- How good the packing is ---------------------------------------------------------------

  ghost function Times(n: nat, c: nat): nat {
    if n == 0 then 0 else c + Times(n - 1, c)
  }

  lemma {:induction false} TimesStrict(n: nat, c: nat)
    requires 0 < n && 0 < c
    ensures Times(n, c - 1) < Times(n, c)
  {
    if n > 1 {
      TimesStrict(n - 1, c);
    }
  }

  /** How many batches the greedy packing makes. */
  ghost function Rounds(ids: seq<AckId>, maxSize: nat): nat
    requires EachFits(ids, maxSize)
    decreases |ids|
  {
    if ids == [] then 0
    else
      CutProgress(ids, maxSize);
      1 + Rounds(ids[Cut(ids, maxSize)..], maxSize)
  }

  lemma {:induction false} SentInRounds(ids: seq<AckId>, maxSize: nat, calls: seq<Call>)
    requires SendAll(ids, maxSize, calls).outcome.Finished? && EachFits(ids, maxSize)
    ensures |SendAll(ids, maxSize, calls).sent| == Rounds(ids, maxSize)
    decreases |calls|
  {
    if ids != [] {
      SentInRounds(ids[Cut(ids, maxSize)..], maxSize, calls[1..]);
    }
  }

  /** A batch and the one after it do not fit together: the second holds the id the first had no room for. */
  lemma NeighboursOverflow(ids: seq<AckId>, maxSize: nat) returns (k: nat)
    requires EachFits(ids, maxSize) && Rounds(ids, maxSize) >= 2
    ensures var k1 := Cut(ids, maxSize); k == k1 + Cut(ids[k1..], maxSize)
    ensures k <= |ids| && maxSize <= REQ_FIXED_OVERHEAD + Weight(ids[..k])
    ensures EachFits(ids[k..], maxSize) && Rounds(ids, maxSize) == 2 + Rounds(ids[k..], maxSize)
  {
    var k1 := Cut(ids, maxSize);
    assert ids[k1..] != [];
    var k2 := Cut(ids[k1..], maxSize);
    CutProgress(ids[k1..], maxSize);
    k := k1 + k2;
    assert ids[k1..][k2..] == ids[k..];
    assert !Fits(ids[..k], maxSize);
  }

  lemma TailWeighs(ids: seq<AckId>, k: nat, pairs: nat, c: nat)
    requires k <= |ids| && 0 < pairs && c <= Weight(ids[..k]) && Times(pairs - 1, c) <= Weight(ids[k..])
    ensures Times(pairs, c) <= Weight(ids)
  {
    assert ids[..k] + ids[k..] == ids;
    WeightAppend(ids[..k], ids[k..]);
  }

  /** So the ids outweigh the capacity once for every two batches. */
  lemma {:induction false} PairsAreHeavy(ids: seq<AckId>, maxSize: nat, pairs: nat)
    requires maxSize > REQ_FIXED_OVERHEAD && EachFits(ids, maxSize)
    requires 2 * pairs <= Rounds(ids, maxSize)
    ensures Times(pairs, maxSize - REQ_FIXED_OVERHEAD) <= Weight(ids)
    decreases pairs
  {
    if pairs > 0 {
      var k := NeighboursOverflow(ids, maxSize);
      PairsAreHeavy(ids[k..], maxSize, pairs - 1);
      TailWeighs(ids, k, pairs, maxSize - REQ_FIXED_OVERHEAD);
    }
  }

  lemma WeightWithout(ids: seq<AckId>, i: nat)
    requires i < |ids|
    ensures Weight(ids) == Weight(ids[..i] + ids[i + 1..]) + OVERHEAD_PER_ID + |ids[i]|
    ensures multiset(ids[..i] + ids[i + 1..]) == multiset(ids) - multiset{ids[i]}
  {
    assert ids == ids[..i] + ([ids[i]] + ids[i + 1..]);
    WeightAppend(ids[..i], [ids[i]] + ids[i + 1..]);
    WeightAppend(ids[..i], ids[i + 1..]);
  }

  lemma {:induction false} WeightOfMultiset(a: seq<AckId>, b: seq<AckId>)
    requires multiset(a) == multiset(b)
    ensures Weight(a) == Weight(b)
    decreases |a|
  {
    hide Weight;
    assert |multiset(b)| == |b|;
    if a != [] {
      assert a[0] in multiset(b);
      var i :| 0 <= i < |b| && b[i] == a[0];
      WeightWithout(a, 0);
      WeightWithout(b, i);
      WeightOfMultiset(a[..0] + a[1..], b[..i] + b[i + 1..]);
    }
  }

  lemma {:induction false} PackingWeighs(batches: seq<seq<AckId>>, maxSize: nat)
    requires maxSize > REQ_FIXED_OVERHEAD
    requires forall i :: 0 <= i < |batches| ==> Fits(batches[i], maxSize)
    ensures Weight(Flatten(batches)) <= Times(|batches|, maxSize - REQ_FIXED_OVERHEAD - 1)
  {
    if batches != [] {
      PackingWeighs(batches[1..], maxSize);
      WeightAppend(batches[0], Flatten(batches[1..]));
    }
  }

  /** Some way to distribute the ids over batches that all obey the limit. */
  ghost predicate IsPacking(packing: seq<seq<AckId>>, ids: seq<AckId>, maxSize: nat) {
    multiset(Flatten(packing)) == multiset(ids) && forall i :: 0 <= i < |packing| ==> Fits(packing[i], maxSize)
  }

  lemma PackingNeedsRoom(ids: seq<AckId>, maxSize: nat, packing: seq<seq<AckId>>)
    requires ids != [] && maxSize > REQ_FIXED_OVERHEAD
    requires IsPacking(packing, ids, maxSize)
    ensures packing != [] && Weight(ids) < Times(|packing|, maxSize - REQ_FIXED_OVERHEAD)
  {
    assert packing != [] by {
      assert ids[0] in multiset(ids);
    }
    PackingWeighs(packing, maxSize);
    WeightOfMultiset(Flatten(packing), ids);
    TimesStrict(|packing|, maxSize - REQ_FIXED_OVERHEAD);
  }

  /** The loop needs fewer than twice the batches of any other way to pack the same ids under the same limit. */
  lemma WithinTwiceOptimal(ids: seq<AckId>, maxSize: nat, calls: seq<Call>, packing: seq<seq<AckId>>)
    requires ids != []
    requires SendAll(ids, maxSize, calls).outcome.Finished?
    requires IsPacking(packing, ids, maxSize)
    ensures |SendAll(ids, maxSize, calls).sent| <= 2 * |packing| - 1
  {
    var batches := |SendAll(ids, maxSize, calls).sent|;
    assert EachFits(ids, maxSize) by {
      SendAllFinishes(ids, maxSize, calls);
    }
    assert Fits([ids[0]], maxSize);
    PackingNeedsRoom(ids, maxSize, packing);
    if 2 * |packing| <= batches {
      SentInRounds(ids, maxSize, calls);
      PairsAreHeavy(ids, maxSize, |packing|);
    }
  }

  // ----- The bound is reached ------------------------------------------------------------------

  /** Ids that differ in their first two bytes. */
  function Numbered(i: nat, length: nat): AckId
    requires i < 65536 && 2 <= length
  {
    [(i / 256) as char, (i % 256) as char] + seq(length - 2, _ => 'a')
  }

  function Small(i: nat): (id: AckId)
    requires i < 65536
    ensures |id| == 2
  {
    Numbered(i, 2)
  }

  /** Leaves no room for even a small id. */
  function Large(i: nat): (id: AckId)
    requires i < 65536
    ensures |id| == MAX_PAYLOAD - 108
  {
    Numbered(i, MAX_PAYLOAD - 108)
  }

  lemma NumberedDiffer(i: nat, j: nat, length: nat)
    requires i < 65536 && j < 65536 && i != j && 2 <= length
    ensures Numbered(i, length) != Numbered(j, length)
  {
    var a, b := Numbered(i, length), Numbered(j, length);
    assert a[0] == (i / 256) as char && a[1] == (i % 256) as char;
    assert b[0] == (j / 256) as char && b[1] == (j % 256) as char;
  }

  lemma WeightOfTwo(a: AckId, b: AckId)
    ensures Weight([a]) == OVERHEAD_PER_ID + |a|
    ensures Weight([a, b]) == Weight([a]) + Weight([b])
  {
    assert [a][1..] == [] && [a, b][1..] == [b];
  }

  /** Small and large ids in turn, from i on, beginning and ending with a small one. */
  function Alternating(i: nat, n: nat): (ids: seq<AckId>)
    requires i < n <= 65536
    ensures ids != [] && ids[0] == Small(i)
    decreases n - i
  {
    if i + 1 == n then [Small(i)] else [Small(i), Large(i)] + Alternating(i + 1, n)
  }

  function Smalls(i: nat, n: nat): (ids: seq<AckId>)
    requires i < n <= 65536
    ensures Weight(ids) == 5 * (n - i)
    decreases n - i
  {
    if i + 1 == n then [Small(i)] else [Small(i)] + Smalls(i + 1, n)
  }

  function Larges(i: nat, n: nat): (batches: seq<seq<AckId>>)
    requires i < n <= 65536
    ensures |batches| == n - i - 1
    ensures forall k :: 0 <= k < |batches| ==> Fits(batches[k], MAX_PAYLOAD)
    decreases n - i
  {
    WeightOfTwo(Large(i), []);
    if i + 1 == n then [] else [[Large(i)]] + Larges(i + 1, n)
  }

  lemma {:induction false} AlternatingHas(i: nat, n: nat, id: AckId)
    requires i < n <= 65536 && id in Alternating(i, n)
    ensures exists k :: i <= k < n && (id == Small(k) || id == Large(k))
    decreases n - i
  {
    if id != Small(i) && id != Large(i) {
      AlternatingHas(i + 1, n, id);
    }
  }

  lemma DistinctWithTwo(a: AckId, b: AckId, ids: seq<AckId>)
    requires a != b && a !in ids && b !in ids && Distinct(ids)
    ensures Distinct([a, b] + ids)
  {
  }

  lemma {:induction false} AlternatingDistinct(i: nat, n: nat)
    requires i < n <= 65536
    ensures Distinct(Alternating(i, n))
    decreases n - i
  {
    if i + 1 < n {
      AlternatingDistinct(i + 1, n);
      var tail := Alternating(i + 1, n);
      forall id | id in tail
        ensures id != Small(i) && id != Large(i)
      {
        AlternatingHas(i + 1, n, id);
        var k :| i + 1 <= k < n && (id == Small(k) || id == Large(k));
        NumberedDiffer(i, k, 2);
        NumberedDiffer(i, k, MAX_PAYLOAD - 108);
      }
      DistinctWithTwo(Small(i), Large(i), tail);
    }
  }

  /** Rearranged, the small ids make up one batch and the large ones one each. */
  lemma {:induction false} AlternatingRearranged(i: nat, n: nat)
    requires i < n <= 65536
    ensures multiset(Smalls(i, n) + Flatten(Larges(i, n))) == multiset(Alternating(i, n))
    decreases n - i
  {
    if i + 1 < n {
      AlternatingRearranged(i + 1, n);
      var larges := Larges(i + 1, n);
      assert ([[Large(i)]] + larges)[1..] == larges;
      hide Small, Large, Numbered, Fits, Flatten;
      Rearranged(Small(i), Large(i), Smalls(i + 1, n), Flatten(larges), Alternating(i + 1, n));
    }
  }

  lemma Rearranged(a: AckId, b: AckId, left: seq<AckId>, right: seq<AckId>, all: seq<AckId>)
    requires multiset(left + right) == multiset(all)
    ensures multiset(([a] + left) + ([b] + right)) == multiset([a, b] + all)
  {
  }

  lemma FirstAlone(ids: seq<AckId>, maxSize: nat)
    requires |ids| >= 1 && Fits([ids[0]], maxSize) && (|ids| >= 2 ==> !Fits([ids[0], ids[1]], maxSize))
    ensures Cut(ids, maxSize) == 1
  {
    assert ids[..1] == [ids[0]];
    forall n | 1 < n <= |ids|
      ensures !Fits(ids[..n], maxSize)
    {
      assert ids[..2] == [ids[0], ids[1]];
      WeightMonotone(ids, 2, n);
    }
    CutUnique(ids, maxSize, 1);
  }

  lemma OverflowTogether(i: nat, j: nat)
    requires i < 65536 && j < 65536
    ensures Fits([Small(i)], MAX_PAYLOAD) && Fits([Large(j)], MAX_PAYLOAD)
    ensures !Fits([Small(i), Large(j)], MAX_PAYLOAD) && !Fits([Large(j), Small(i)], MAX_PAYLOAD)
  {
    hide Numbered, Weight;
    WeightOfTwo(Small(i), Large(j));
    WeightOfTwo(Large(j), Small(i));
  }

  lemma {:induction false} AlternatingRounds(i: nat, n: nat)
    requires i < n <= 65536
    ensures EachFits(Alternating(i, n), MAX_PAYLOAD) && Rounds(Alternating(i, n), MAX_PAYLOAD) == 2 * (n - i) - 1
    decreases n - i
  {
    hide Small, Large, Fits;
    var ids := Alternating(i, n);
    OverflowTogether(i, i);
    if i + 1 == n {
      FirstAlone(ids, MAX_PAYLOAD);
      assert ids[1..] == [];
    } else {
      var tail := Alternating(i + 1, n);
      var rest := [Large(i)] + tail;
      OverflowTogether(i + 1, i);
      AlternatingRounds(i + 1, n);
      assert ids == [Small(i)] + rest && ids[1..] == rest && rest[1..] == tail;
      FirstAlone(ids, MAX_PAYLOAD);
      FirstAlone(rest, MAX_PAYLOAD);
    }
  }

  /** For every n up to 65536 there are different ids that fit into n requests and for which the client makes 2n - 1. */
  lemma TwiceOptimalIsTight(n: nat) returns (ids: seq<AckId>, packing: seq<seq<AckId>>)
    requires 1 <= n <= 65536
    ensures Distinct(ids) && IsPacking(packing, ids, MAX_PAYLOAD) && |packing| == n
    ensures EachFits(ids, MAX_PAYLOAD) && Rounds(ids, MAX_PAYLOAD) == 2 * n - 1
  {
    hide Alternating, Smalls, Larges, Rounds;
    ids, packing := Alternating(0, n), [Smalls(0, n)] + Larges(0, n);
    AlternatingDistinct(0, n);
    AlternatingRearranged(0, n);
    AlternatingRounds(0, n);
    assert packing[1..] == Larges(0, n);
  }
}
