/** The bounded histogram of processing times, and the ack deadline picked from it. */
module Histogram {
  import opened Types

  function Min(a: int, b: int): int {
    if a <= b then a else b
  }

  function Max(a: int, b: int): int {
    if a >= b then a else b
  }

  // ----- Samples -------------------------------------------------------------------------------

  /** How many samples are at most x. */
  ghost function CountLe(samples: seq<nat>, x: int): (c: nat)
    ensures c <= |samples|
  {
    if samples == [] then 0
    else
      var n := |samples| - 1;
      CountLe(samples[..n], x) + if samples[n] <= x then 1 else 0
  }

  /** How many samples n buckets hold in the first i + 1; the last bucket also takes every larger sample. */
  ghost function Below(samples: seq<nat>, n: nat, i: int): nat
    requires i < n
  {
    if i < n - 1 then CountLe(samples, i) else |samples|
  }

  lemma CountLeRecord(samples: seq<nat>, v: nat, x: int)
    ensures CountLe(samples + [v], x) == CountLe(samples, x) + if v <= x then 1 else 0
  {
    assert (samples + [v])[..|samples|] == samples;
  }

  lemma {:induction false} CountLeMonotone(samples: seq<nat>, x: int, y: int)
    requires x <= y
    ensures CountLe(samples, x) <= CountLe(samples, y)
    ensures x < 0 ==> CountLe(samples, x) == 0
  {
    if samples != [] {
      CountLeMonotone(samples[..|samples| - 1], x, y);
    }
  }

  lemma BelowRecord(samples: seq<nat>, n: nat, v: nat, i: int)
    requires -1 <= i < n
    ensures Below(samples + [v], n, i) == Below(samples, n, i) + if Min(v, n - 1) <= i then 1 else 0
  {
    CountLeRecord(samples, v, i);
  }

  function Share(n: nat, p: real): (x: real)
    requires 0.0 <= p <= 1.0
    ensures 0.0 <= x <= n as real
    ensures n > 0 && p > 0.0 ==> x > 0.0
  {
    ProductPositive(p, n as real);
    ProductOrdered(p, 1.0, n as real);
    Product(p, n as real)
  }

  /** The least whole number not below the share p of n. */
  function Rank(n: nat, p: real): (k: int)
    requires 0.0 <= p <= 1.0
    ensures k as real - 1.0 < Share(n, p) <= k as real
    ensures 0 <= k <= n
    ensures n > 0 && p > 0.0 ==> k > 0
  {
    -((-Share(n, p)).Floor)
  }

  // ----- The histogram -------------------------------------------------------------------------

  /** r is the first bucket at which the share p of all samples is reached. */
  ghost predicate IsPercentile(samples: seq<nat>, n: nat, p: real, r: nat)
    requires 0.0 <= p <= 1.0
  {
    && r < n
    && Rank(|samples|, p) <= Below(samples, n, r)
    && forall i :: 0 <= i < r ==> Below(samples, n, i) < Rank(|samples|, p)
  }

  /** The first index of sorted sums that reaches the target, or their number when none does. */
  method LowerBound(sums: seq<nat>, target: int) returns (r: nat)
    requires forall i, j :: 0 <= i < j < |sums| ==> sums[i] <= sums[j]
    ensures r <= |sums|
    ensures forall i :: 0 <= i < r ==> sums[i] < target
    ensures r < |sums| ==> target <= sums[r]
  {
    r := 0;
    var len: nat := |sums|;
    while len > 0
      invariant r + len <= |sums|
      invariant forall i :: 0 <= i < r ==> sums[i] < target
      invariant r + len < |sums| ==> target <= sums[r + len]
    {
      var half := len / 2;
      if sums[r + half] < target {
        r, len := r + half + 1, len - half - 1;
      } else {
        len := half;
      }
    }
  }

  lemma BelowMonotone(samples: seq<nat>, n: nat, sums: seq<nat>)
    requires |sums| == n && forall i :: 0 <= i < n ==> sums[i] == Below(samples, n, i)
    ensures forall i, j :: 0 <= i < j < n ==> sums[i] <= sums[j]
    ensures n > 0 ==> sums[n - 1] == |samples|
  {
    forall i, j | 0 <= i < j < n
      ensures sums[i] <= sums[j]
    {
      CountLeMonotone(samples, i, j);
    }
  }

  class Distribution {
    const hist: array<nat>
    ghost var samples: seq<nat>

    ghost predicate Valid()
      reads this, hist
    {
      && hist.Length > 0
      && forall i :: 0 <= i < hist.Length ==>
           hist[i] == Below(samples, hist.Length, i) - Below(samples, hist.Length, i - 1)
    }

    /** The counters start at zero. */
    constructor (highLimit: nat)
      requires highLimit > 0
      ensures Valid() && fresh(hist) && hist.Length == highLimit && samples == []
    {
      hist := new nat[highLimit](_ => 0);
      samples := [];
    }

    /** A sample beyond the last bucket is counted there. */
    method Record(v: nat)
      requires Valid()
      modifies this, hist
      ensures Valid() && samples == old(samples) + [v]
    {
      var b := if v >= hist.Length then hist.Length - 1 else v;
      hist[b] := hist[b] + 1;
      forall i | -1 <= i < hist.Length
        ensures Below(samples + [v], hist.Length, i) == Below(samples, hist.Length, i) + if b <= i then 1 else 0
      {
        BelowRecord(samples, hist.Length, v, i);
      }
      samples := samples + [v];
    }

    /** None stands for the exception. The search for the target never fails, so only a share outside [0, 1] throws. */
    method Percentile(p: real) returns (r: Option<nat>)
      requires Valid()
      ensures r.None? <==> p < 0.0 || p > 1.0
      ensures r.Some? ==> IsPercentile(samples, hist.Length, p, r.value)
    {
      if p < 0.0 || p > 1.0 {
        return None;
      }
      var sums := new nat[hist.Length](_ => 0);
      var sum := 0;
      CountLeMonotone(samples, -1, 0);
      ghost var n := hist.Length;
      for i := 0 to hist.Length
        invariant Valid() && fresh(sums)
        invariant sum == Below(samples, n, i - 1)
        invariant forall j :: 0 <= j < i ==> sums[j] == Below(samples, n, j)
      {
        sum := sum + hist[i];
        sums[i] := sum;
      }
      BelowMonotone(samples, n, sums[..]);
      var target := Rank(sum, p);
      var it := LowerBound(sums[..], target);
      if it == sums.Length {
        assert false;
      }
      return Some(it);
    }
  }

  lemma RankMonotone(n: nat, p: real, q: real)
    requires 0.0 <= p <= q <= 1.0
    ensures Rank(n, p) <= Rank(n, q)
  {
    hide Product;
    ProductOrdered(p, q, n as real);
    var j, k := Rank(n, p), Rank(n, q);
    assert j as real - 1.0 < k as real;
  }

  /** A larger share never gives a smaller percentile. */
  lemma PercentileMonotone(samples: seq<nat>, n: nat, p: real, q: real, r: nat, r': nat)
    requires 0.0 <= p <= q <= 1.0
    requires IsPercentile(samples, n, p, r) && IsPercentile(samples, n, q, r')
    ensures r <= r'
  {
    RankMonotone(|samples|, p, q);
    assert !(r' < r);
  }

  // ----- Against the sorted list of all samples ------------------------------------------------

  ghost predicate Sorted(s: seq<nat>) {
    forall i, j :: 0 <= i < j < |s| ==> s[i] <= s[j]
  }

  lemma {:induction false} CountLeSorted(t: seq<nat>, k: nat, x: int)
    requires Sorted(t) && 0 < k <= |t|
    ensures CountLe(t, x) >= k <==> t[k - 1] <= x
  {
    var n := |t| - 1;
    if k <= n {
      CountLeSorted(t[..n], k, x);
    } else if n > 0 {
      CountLeSorted(t[..n], n, x);
    }
  }

  lemma {:induction false} CountLeWithout(s: seq<nat>, i: nat, x: int)
    requires i < |s|
    ensures CountLe(s, x) == CountLe(s[..i] + s[i + 1..], x) + if s[i] <= x then 1 else 0
  {
    var n := |s| - 1;
    if i < n {
      CountLeWithout(s[..n], i, x);
      assert (s[..i] + s[i + 1..])[..n - 1] == s[..n][..i] + s[..n][i + 1..];
    } else {
      assert s[..i] + s[i + 1..] == s[..n];
    }
  }

  lemma MultisetWithout(s: seq<nat>, i: nat)
    requires i < |s|
    ensures multiset(s[..i] + s[i + 1..]) == multiset(s) - multiset{s[i]}
  {
    assert s == s[..i] + ([s[i]] + s[i + 1..]);
  }

  lemma {:induction false} CountLeOfMultiset(a: seq<nat>, b: seq<nat>, x: int)
    requires multiset(a) == multiset(b)
    ensures CountLe(a, x) == CountLe(b, x) && |a| == |b|
    decreases |a|
  {
    assert |multiset(a)| == |a| && |multiset(b)| == |b|;
    if a != [] {
      assert a[0] in multiset(b);
      var i :| 0 <= i < |b| && b[i] == a[0];
      MultisetWithout(a, 0);
      MultisetWithout(b, i);
      CountLeWithout(a, 0, x);
      CountLeWithout(b, i, x);
      CountLeOfMultiset(a[..0] + a[1..], b[..i] + b[i + 1..], x);
    }
  }

  /** The percentile is an element of the sorted samples, saturated: n buckets lose nothing but the excess. */
  lemma PercentileIsOrderStatistic(samples: seq<nat>, n: nat, p: real, r: nat, t: seq<nat>)
    requires 0.0 < p <= 1.0 && samples != []
    requires IsPercentile(samples, n, p, r)
    requires Sorted(t) && multiset(t) == multiset(samples)
    ensures |t| == |samples|
    ensures r == Min(t[Rank(|t|, p) - 1], n - 1)
  {
    CountLeOfMultiset(t, samples, r);
    FirstBucket(samples, n, Rank(|samples|, p), r, t);
  }

  lemma FirstBucket(samples: seq<nat>, n: nat, k: nat, r: nat, t: seq<nat>)
    requires Sorted(t) && multiset(t) == multiset(samples) && |t| == |samples|
    requires 0 < k <= |t| && r < n && k <= Below(samples, n, r)
    requires forall i :: 0 <= i < r ==> Below(samples, n, i) < k
    ensures r == Min(t[k - 1], n - 1)
  {
    CountLeOfMultiset(t, samples, r);
    CountLeSorted(t, k, r);
    assert t[k - 1] < r ==> Below(samples, n, t[k - 1]) < k;
    CountLeOfMultiset(t, samples, t[k - 1]);
    CountLeSorted(t, k, t[k - 1]);
  }

  const BUCKETS: nat := 601

  // ----- The ack deadline ----------------------------------------------------------------------

  /** The rank of the 99th percentile of n samples, in whole numbers. */
  function DeadlineRank(n: nat): nat {
    (99 * n + 99) / 100
  }

  /** In seconds: as many of the samples as the 99th percentile asks for are at most d, and fewer are below d, unless
      the least or the largest deadline decides. */
  ghost predicate IsDeadline(samples: seq<nat>, d: nat) {
    && 10 <= d <= 600
    && (d < 600 ==> DeadlineRank(|samples|) <= CountLe(samples, d))
    && (d > 10 ==> CountLe(samples, d - 1) < DeadlineRank(|samples|))
  }

  lemma DeadlineRankIsRank(n: nat)
    ensures DeadlineRank(n) == Rank(n, 0.99)
  {
    assert Share(n, 0.99) == n as real * 0.99;
  }

  lemma DeadlineByRank(samples: seq<nat>, d: nat, t: seq<nat>, k: nat)
    requires Sorted(t) && multiset(t) == multiset(samples) && |t| == |samples|
    requires k == DeadlineRank(|samples|) && 0 < k <= |t|
    ensures IsDeadline(samples, d) <==> d == Min(Max(t[k - 1], 10), 600)
  {
    CountLeOfMultiset(t, samples, d);
    CountLeOfMultiset(t, samples, d - 1);
    CountLeSorted(t, k, d);
    CountLeSorted(t, k, d - 1);
    hide CountLe, DeadlineRank, Sorted;
  }

  lemma DeadlineOfNone(d: nat)
    ensures IsDeadline([], d) <==> d == 10
  {
  }

  /** The deadline is that rank of the sorted, unbounded samples, clamped; and the least one before any sample. */
  lemma DeadlineIsOrderStatistic(samples: seq<nat>, d: nat, t: seq<nat>)
    requires samples != [] && Sorted(t) && multiset(t) == multiset(samples)
    ensures |t| == |samples| && IsDeadline([], 10)
    ensures IsDeadline(samples, d) <==> d == Min(Max(t[Rank(|t|, 0.99) - 1], 10), 600)
  {
    CountLeOfMultiset(t, samples, 0);
    DeadlineRankIsRank(|samples|);
    DeadlineByRank(samples, d, t, DeadlineRank(|samples|));
    DeadlineOfNone(10);
    hide CountLe, Sorted, IsDeadline;
  }

  /** One sample decides by itself. */
  lemma DeadlineOfOne(d: nat)
    requires 10 <= d <= 600
    ensures IsDeadline([], 10) && IsDeadline([d], d)
  {
    assert [d][..0] == [];
    assert CountLe([d], d) == 1 && CountLe([d], d - 1) == 0;
  }

  /** In seconds: the 99th percentile of the processing times, between the least and the largest deadline. */
  method AckDeadline(dist: Distribution) returns (seconds: nat)
    requires dist.Valid() && dist.hist.Length == BUCKETS
    ensures IsDeadline(dist.samples, seconds)
  {
    var dl := dist.Percentile(0.99);
    seconds := Min(Max(dl.value, 10), 600);
    PercentileIsDeadline(dist.samples, dl.value);
  }

  /** Clamping the percentile of the saturated samples gives the deadline of the unsaturated ones. */
  lemma PercentileIsDeadline(samples: seq<nat>, r: nat)
    requires IsPercentile(samples, BUCKETS, 0.99, r)
    ensures IsDeadline(samples, Min(Max(r, 10), 600))
  {
    DeadlineRankIsRank(|samples|);
    var d := Min(Max(r, 10), 600);
    CountLeMonotone(samples, r, d);
    if d > 10 {
      assert Below(samples, BUCKETS, d - 1) < DeadlineRank(|samples|);
    }
  }
}
