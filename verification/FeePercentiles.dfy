/**
 Percentiles of prioritization fees by transaction count and by compute units
 (prioritization_fees/src/stats_calculation.rs). The results are stated as quantiles of the
 unsorted input, so they depend on its elements only and not on their order.
 */
module FeePercentiles {
  import opened Common

  datatype PrioFeesData = PrioFeesData(priority: nat, cuConsumed: nat)

  const U64_LIMIT: nat := 0x1_0000_0000_0000_0000

  function TotalCu(s: seq<PrioFeesData>): nat {
    if s == [] then 0 else TotalCu(s[..|s| - 1]) + s[|s| - 1].cuConsumed
  }

  /** Compute units of all transactions that pay at most this fee. */
  function CuAtMost(s: seq<PrioFeesData>, fee: nat): nat {
    if s == [] then 0
    else CuAtMost(s[..|s| - 1], fee) + if s[|s| - 1].priority <= fee then s[|s| - 1].cuConsumed else 0
  }

  function CountAtMost(s: seq<PrioFeesData>, fee: nat): nat {
    if s == [] then 0
    else CountAtMost(s[..|s| - 1], fee) + if s[|s| - 1].priority <= fee then 1 else 0
  }

  function CountBelow(s: seq<PrioFeesData>, fee: nat): nat {
    if s == [] then 0
    else CountBelow(s[..|s| - 1], fee) + if s[|s| - 1].priority < fee then 1 else 0
  }

  predicate Present(s: seq<PrioFeesData>, fee: nat) {
    exists i :: 0 <= i < |s| && s[i].priority == fee
  }

  /** The share of the compute units that percentile p asks for. */
  function Target(total: nat, p: nat): nat {
    total * p / 100
  }

  /** The least fee present whose payers, with all cheaper ones, used at least this many compute units. */
  ghost predicate FirstToReach(s: seq<PrioFeesData>, target: nat, fee: nat) {
    && Present(s, fee)
    && CuAtMost(s, fee) >= target
    && forall cheaper: nat :: Present(s, cheaper) && cheaper < fee ==> CuAtMost(s, cheaper) < target
  }

  ghost predicate IsCuQuantile(s: seq<PrioFeesData>, p: nat, fee: nat) {
    FirstToReach(s, Target(TotalCu(s), p), fee)
  }

  /** The rank that the p-th percentile by transaction count looks at. */
  function Rank(n: nat, p: nat): nat {
    var index := n * p / 100;
    if index < n then index else SaturatingSub(n, 1)
  }

  /** The fee at that rank of the ascending order. */
  ghost predicate IsTxQuantile(s: seq<PrioFeesData>, p: nat, fee: nat) {
    Present(s, fee) && CountBelow(s, fee) <= Rank(|s|, p) < CountAtMost(s, fee)
  }

  /** The percentile of no transactions is that of a single default one. */
  function OrDefault(s: seq<PrioFeesData>): seq<PrioFeesData> {
    if s == [] then [PrioFeesData(0, 0)] else s
  }

  ghost predicate Sorted(s: seq<PrioFeesData>) {
    forall i, j :: 0 <= i < j < |s| ==> s[i].priority <= s[j].priority
  }

  // ----- sums over concatenations

  lemma {:induction false} SumsConcat(a: seq<PrioFeesData>, b: seq<PrioFeesData>, fee: nat)
    ensures TotalCu(a + b) == TotalCu(a) + TotalCu(b)
    ensures CuAtMost(a + b, fee) == CuAtMost(a, fee) + CuAtMost(b, fee)
    ensures CountAtMost(a + b, fee) == CountAtMost(a, fee) + CountAtMost(b, fee)
    ensures CountBelow(a + b, fee) == CountBelow(a, fee) + CountBelow(b, fee)
  {
    if b == [] {
      assert a + b == a;
    } else {
      SumsConcat(a, b[..|b| - 1], fee);
      assert (a + b)[..|a + b| - 1] == a + b[..|b| - 1];
    }
  }

  lemma {:induction false} SumsBounds(s: seq<PrioFeesData>, fee: nat)
    ensures CuAtMost(s, fee) <= TotalCu(s) && CountBelow(s, fee) <= CountAtMost(s, fee) <= |s|
  {
    if s != [] { SumsBounds(s[..|s| - 1], fee); }
  }

  lemma {:induction false} SumsOfCheap(s: seq<PrioFeesData>, fee: nat)
    requires forall i :: 0 <= i < |s| ==> s[i].priority <= fee
    ensures CuAtMost(s, fee) == TotalCu(s) && CountAtMost(s, fee) == |s|
  {
    if s != [] { SumsOfCheap(s[..|s| - 1], fee); }
  }

  lemma {:induction false} SumsOfDear(s: seq<PrioFeesData>, fee: nat)
    requires forall i :: 0 <= i < |s| ==> s[i].priority >= fee
    ensures CountBelow(s, fee) == 0 && (forall cheaper: nat :: cheaper < fee ==> CuAtMost(s, cheaper) == 0)
  {
    if s != [] { SumsOfDear(s[..|s| - 1], fee); }
  }

  lemma {:induction false} SumsMonotone(s: seq<PrioFeesData>, low: nat, high: nat)
    requires low < high
    ensures CountAtMost(s, low) <= CountBelow(s, high)
    ensures CuAtMost(s, low) <= CuAtMost(s, high)
  {
    if s != [] { SumsMonotone(s[..|s| - 1], low, high); }
  }

  lemma {:induction false} SumsWithout(s: seq<PrioFeesData>, i: nat, fee: nat)
    requires i < |s|
    ensures var rest := s[..i] + s[i + 1..];
      && TotalCu(s) == TotalCu(rest) + s[i].cuConsumed
      && CuAtMost(s, fee) == CuAtMost(rest, fee) + (if s[i].priority <= fee then s[i].cuConsumed else 0)
      && CountAtMost(s, fee) == CountAtMost(rest, fee) + (if s[i].priority <= fee then 1 else 0)
      && CountBelow(s, fee) == CountBelow(rest, fee) + (if s[i].priority < fee then 1 else 0)
  {
    assert s == s[..i + 1] + s[i + 1..] && s[..i + 1][..i] == s[..i];
    SumsConcat(s[..i + 1], s[i + 1..], fee);
    SumsConcat(s[..i], s[i + 1..], fee);
  }

  /** The sums depend on the elements only. */
  lemma {:induction false} SumsOfPermutation(a: seq<PrioFeesData>, b: seq<PrioFeesData>, fee: nat)
    requires multiset(a) == multiset(b)
    ensures TotalCu(a) == TotalCu(b) && CuAtMost(a, fee) == CuAtMost(b, fee)
    ensures CountAtMost(a, fee) == CountAtMost(b, fee) && CountBelow(a, fee) == CountBelow(b, fee)
    ensures |a| == |b|
    decreases |a|
  {
    assert |a| == |multiset(a)| == |multiset(b)| == |b|;
    if a != [] {
      var front, x := a[..|a| - 1], a[|a| - 1];
      assert x in multiset(b);
      var i :| 0 <= i < |b| && b[i] == x;
      MultisetPeel(a, b, i);
      SumsOfPermutation(front, b[..i] + b[i + 1..], fee);
      SumsWithout(b, i, fee);
      SumsWithout(a, |a| - 1, fee);
      assert front + a[|a|..] == front;
    }
  }

  lemma {:induction false} PresentInPermutation(a: seq<PrioFeesData>, b: seq<PrioFeesData>, fee: nat)
    requires multiset(a) == multiset(b) && Present(a, fee)
    ensures Present(b, fee)
  {
    var i :| 0 <= i < |a| && a[i].priority == fee;
    assert a[i] in multiset(b);
  }

  /** Quantiles depend on the elements of the input only. */
  lemma {:induction false} QuantilesOfPermutation(a: seq<PrioFeesData>, b: seq<PrioFeesData>, p: nat, fee: nat)
    requires multiset(a) == multiset(b)
    ensures IsCuQuantile(a, p, fee) ==> IsCuQuantile(b, p, fee)
    ensures IsTxQuantile(a, p, fee) ==> IsTxQuantile(b, p, fee)
  {
    forall f
      ensures Present(a, f) <==> Present(b, f)
      ensures CuAtMost(a, f) == CuAtMost(b, f)
    {
      SumsOfPermutation(a, b, f);
      if Present(a, f) { PresentInPermutation(a, b, f); }
      if Present(b, f) { PresentInPermutation(b, a, f); }
    }
    SumsOfPermutation(a, b, fee);
  }

  // ----- quantiles are unique and rise with the percentile

  lemma {:induction false} TargetMonotone(total: nat, p: nat, q: nat)
    requires p <= q
    ensures Target(total, p) <= Target(total, q)
    ensures q <= 100 ==> Target(total, q) <= total
  {
    assert total * p <= total * q;
    if q <= 100 { assert total * q <= total * 100; }
  }

  lemma {:induction false} RankMonotone(n: nat, p: nat, q: nat)
    requires p <= q
    ensures Rank(n, p) <= Rank(n, q)
  {
    TargetMonotone(n, p, q);
  }

  lemma {:induction false} QuantilesMonotone(s: seq<PrioFeesData>, p: nat, q: nat, low: nat, high: nat)
    requires p <= q
    ensures IsCuQuantile(s, p, low) && IsCuQuantile(s, q, high) ==> low <= high
    ensures IsTxQuantile(s, p, low) && IsTxQuantile(s, q, high) ==> low <= high
  {
    TargetMonotone(TotalCu(s), p, q);
    RankMonotone(|s|, p, q);
    if high < low {
      SumsMonotone(s, high, low);
    }
  }

  lemma {:induction false} QuantilesUnique(s: seq<PrioFeesData>, p: nat, a: nat, b: nat)
    ensures IsCuQuantile(s, p, a) && IsCuQuantile(s, p, b) ==> a == b
    ensures IsTxQuantile(s, p, a) && IsTxQuantile(s, p, b) ==> a == b
  {
    QuantilesMonotone(s, p, p, a, b);
    QuantilesMonotone(s, p, p, b, a);
  }

  // ----- positions of the sorted list

  lemma {:induction false} CheaperBefore(s: seq<PrioFeesData>, i: nat)
    requires Sorted(s) && i < |s|
    ensures CountBelow(s, s[i].priority) <= i
  {
    var fee := s[i].priority;
    assert s == s[..i] + s[i..];
    SumsConcat(s[..i], s[i..], fee);
    SumsBounds(s[..i], fee);
    SumsOfDear(s[i..], fee);
  }

  lemma {:induction false} NoDearerUpTo(s: seq<PrioFeesData>, i: nat)
    requires Sorted(s) && i < |s|
    ensures i < CountAtMost(s, s[i].priority)
  {
    var fee := s[i].priority;
    assert s == s[..i + 1] + s[i + 1..];
    SumsConcat(s[..i + 1], s[i + 1..], fee);
    assert forall k :: 0 <= k <= i ==> s[..i + 1][k] == s[k];
    SumsOfCheap(s[..i + 1], fee);
  }

  lemma {:induction false} RankOfSorted(s: seq<PrioFeesData>, i: nat)
    requires Sorted(s) && i < |s|
    ensures CountBelow(s, s[i].priority) <= i < CountAtMost(s, s[i].priority)
  {
    CheaperBefore(s, i);
    NoDearerUpTo(s, i);
  }

  /** All that pay less than position i come before it. */
  lemma {:induction false} CheaperCome(s: seq<PrioFeesData>, i: nat, cheaper: nat)
    requires Sorted(s) && i < |s| && cheaper < s[i].priority
    ensures CuAtMost(s, cheaper) <= TotalCu(s[..i])
  {
    assert s == s[..i] + s[i..];
    SumsConcat(s[..i], s[i..], cheaper);
    SumsBounds(s[..i], cheaper);
    SumsOfDear(s[i..], s[i].priority);
  }

  /** Where the running sum first reaches the target stands the quantile. */
  lemma {:induction false} CursorReaches(s: seq<PrioFeesData>, i: nat, target: nat)
    requires Sorted(s) && i < |s|
    requires TotalCu(s[..i + 1]) >= target && (i > 0 ==> TotalCu(s[..i]) < target)
    ensures FirstToReach(s, target, s[i].priority)
  {
    var fee := s[i].priority;
    UpToPosition(s, i);
    forall cheaper: nat | Present(s, cheaper) && cheaper < fee ensures CuAtMost(s, cheaper) < target {
      assert i > 0;
      CheaperCome(s, i, cheaper);
    }
  }

  lemma {:induction false} UpToPosition(s: seq<PrioFeesData>, i: nat)
    requires Sorted(s) && i < |s|
    ensures CuAtMost(s, s[i].priority) >= TotalCu(s[..i + 1])
  {
    assert s == s[..i + 1] + s[i + 1..];
    SumsConcat(s[..i + 1], s[i + 1..], s[i].priority);
    SumsOfCheap(s[..i + 1], s[i].priority);
  }

  // ----- the calculation

  method InsertByPriority(s: seq<PrioFeesData>, x: PrioFeesData) returns (r: seq<PrioFeesData>)
    requires Sorted(s)
    ensures Sorted(r) && multiset(r) == multiset(s) + multiset{x}
  {
    var i := |s|;
    while i > 0 && s[i - 1].priority > x.priority
      invariant 0 <= i <= |s|
      invariant forall k :: i <= k < |s| ==> s[k].priority > x.priority
    {
      i := i - 1;
    }
    r := InsertAt(s, i, x);
    InsertedElements(s, i, x);
    InsertedSorted(s, i, x);
  }

  function InsertAt(s: seq<PrioFeesData>, i: nat, x: PrioFeesData): (r: seq<PrioFeesData>)
    requires i <= |s|
    ensures |r| == |s| + 1 && forall k :: 0 <= k < |r| ==>
      r[k] == if k < i then s[k] else if k == i then x else s[k - 1]
  {
    s[..i] + [x] + s[i..]
  }

  lemma {:induction false} InsertedElements(s: seq<PrioFeesData>, i: nat, x: PrioFeesData)
    requires i <= |s|
    ensures multiset(InsertAt(s, i, x)) == multiset(s) + multiset{x}
  {
    var r := InsertAt(s, i, x);
    MultisetWithout(r, i);
    assert r[..i] + r[i + 1..] == s;
  }

  lemma {:induction false} InsertedSorted(s: seq<PrioFeesData>, i: nat, x: PrioFeesData)
    requires Sorted(s) && i <= |s| && (i < |s| ==> s[i].priority > x.priority)
      && (i > 0 ==> s[i - 1].priority <= x.priority)
    ensures Sorted(InsertAt(s, i, x))
  {
    var r := InsertAt(s, i, x);
    forall a, b | 0 <= a < b < |r| ensures r[a].priority <= r[b].priority {
      if b == i && a < i - 1 { assert s[a].priority <= s[i - 1].priority; }
      if a == i && b > i + 1 { assert s[i].priority <= s[b - 1].priority; }
    }
  }

  method SortByPriority(s: seq<PrioFeesData>) returns (r: seq<PrioFeesData>)
    ensures Sorted(r) && multiset(r) == multiset(s)
  {
    r := [];
    for i := 0 to |s|
      invariant Sorted(r) && multiset(r) == multiset(s[..i])
    {
      r := InsertByPriority(r, s[i]);
      assert s[..i + 1] == s[..i] + [s[i]];
    }
    assert s[..|s|] == s;
  }

  method FeesByIndex(sorted: seq<PrioFeesData>) returns (byTx: seq<nat>)
    requires Sorted(sorted) && sorted != []
    ensures |byTx| == 21 && forall k :: 0 <= k < 21 ==> IsTxQuantile(sorted, 5 * k, byTx[k])
  {
    byTx := [];
    for k := 0 to 21
      invariant |byTx| == k && forall j :: 0 <= j < k ==> IsTxQuantile(sorted, 5 * j, byTx[j])
    {
      var index := |sorted| * (5 * k) / 100;
      var capIndex := if index < |sorted| - 1 then index else |sorted| - 1;
      RankOfSorted(sorted, capIndex);
      assert capIndex == Rank(|sorted|, 5 * k);
      byTx := byTx + [sorted[capIndex].priority];
    }
  }

  /** Moves the cursor forward until the running sum reaches the target. */
  method Advance(sorted: seq<PrioFeesData>, target: nat, start: nat, sum: nat) returns (index: nat, agg: nat)
    requires start < |sorted| && sum == TotalCu(sorted[..start + 1]) && target <= TotalCu(sorted)
    requires start > 0 ==> TotalCu(sorted[..start]) < target
    ensures index < |sorted| && agg == TotalCu(sorted[..index + 1]) && agg >= target
    ensures index > 0 ==> TotalCu(sorted[..index]) < target
  {
    index, agg := start, sum;
    while agg < target
      invariant index < |sorted| && agg == TotalCu(sorted[..index + 1])
      invariant index > 0 ==> TotalCu(sorted[..index]) < target
      decreases |sorted| - index
    {
      CursorHasNext(sorted, index, target);
      index := index + 1;
      assert sorted[..index + 1][..index] == sorted[..index];
      agg := agg + sorted[index].cuConsumed;
    }
  }

  method FeesByCu(sorted: seq<PrioFeesData>) returns (byCu: seq<nat>)
    requires Sorted(sorted) && sorted != [] && TotalCu(sorted) * 100 < U64_LIMIT
    ensures |byCu| == 21 && forall k :: 0 <= k < 21 ==> IsCuQuantile(sorted, 5 * k, byCu[k])
  {
    var cuSum := TotalCu(sorted);
    var agg, index := sorted[0].cuConsumed, 0;
    assert sorted[..1][..0] == [];
    byCu := [];
    for k := 0 to 21
      invariant |byCu| == k && forall j :: 0 <= j < k ==> IsCuQuantile(sorted, 5 * j, byCu[j])
      invariant 0 <= index < |sorted| && agg == TotalCu(sorted[..index + 1])
      invariant index > 0 ==> TotalCu(sorted[..index]) < Target(cuSum, 5 * k)
    {
      TargetMonotone(cuSum, 5 * k, 100);
      index, agg := Advance(sorted, Target(cuSum, 5 * k), index, agg);
      PrefixCu(sorted, index + 1);
      CursorReaches(sorted, index, Target(cuSum, 5 * k));
      byCu := byCu + [sorted[index].priority];
      TargetMonotone(cuSum, 5 * k, 5 * (k + 1));
    }
  }

  lemma {:induction false} PrefixCu(s: seq<PrioFeesData>, n: nat)
    requires n <= |s|
    ensures TotalCu(s[..n]) <= TotalCu(s)
  {
    assert s == s[..n] + s[n..];
    SumsConcat(s[..n], s[n..], 0);
  }

  /** The cursor cannot be at the end while the target is not reached. */
  lemma {:induction false} CursorHasNext(s: seq<PrioFeesData>, index: nat, target: nat)
    requires index < |s| && TotalCu(s[..index + 1]) < target <= TotalCu(s)
    ensures index + 1 < |s|
  {
    assert s[..|s|] == s;
  }

  ghost predicate ArePercentiles(s: seq<PrioFeesData>, byTx: seq<nat>, byCu: seq<nat>) {
    && |byTx| == |byCu| == 21
    && forall k :: 0 <= k < 21 ==>
      IsTxQuantile(OrDefault(s), 5 * k, byTx[k]) && IsCuQuantile(OrDefault(s), 5 * k, byCu[k])
  }

  method CalculateSuppPercentiles(fees: seq<PrioFeesData>) returns (byTx: seq<nat>, byCu: seq<nat>)
    requires TotalCu(fees) * 100 < U64_LIMIT
    ensures ArePercentiles(fees, byTx, byCu)
  {
    var sorted;
    if fees == [] {
      sorted := [PrioFeesData(0, 0)];
      assert sorted[..0] == [];
    } else {
      sorted := SortByPriority(fees);
      SumsOfPermutation(fees, sorted, 0);
    }
    byTx := FeesByIndex(sorted);
    byCu := FeesByCu(sorted);
    forall k | 0 <= k < 21
      ensures IsTxQuantile(OrDefault(fees), 5 * k, byTx[k]) && IsCuQuantile(OrDefault(fees), 5 * k, byCu[k])
    {
      QuantilesOfPermutation(sorted, OrDefault(fees), 5 * k, byTx[k]);
      QuantilesOfPermutation(sorted, OrDefault(fees), 5 * k, byCu[k]);
    }
  }

  /** The percentiles are the same for any order of the input, and no later one is below an earlier one. */
  lemma {:induction false} PercentilesDetermined(
      a: seq<PrioFeesData>, b: seq<PrioFeesData>, byTxA: seq<nat>, byCuA: seq<nat>, byTxB: seq<nat>, byCuB: seq<nat>)
    requires multiset(a) == multiset(b) && ArePercentiles(a, byTxA, byCuA) && ArePercentiles(b, byTxB, byCuB)
    ensures byTxA == byTxB && byCuA == byCuB
    ensures forall j, k :: 0 <= j <= k < 21 ==> byTxA[j] <= byTxA[k] && byCuA[j] <= byCuA[k]
  {
    assert multiset(OrDefault(a)) == multiset(OrDefault(b)) by {
      assert |a| == |multiset(a)| == |multiset(b)| == |b|;
    }
    var s := OrDefault(a);
    forall k | 0 <= k < 21 ensures byTxA[k] == byTxB[k] && byCuA[k] == byCuB[k] {
      QuantilesOfPermutation(OrDefault(b), s, 5 * k, byTxB[k]);
      QuantilesOfPermutation(OrDefault(b), s, 5 * k, byCuB[k]);
      QuantilesUnique(s, 5 * k, byTxA[k], byTxB[k]);
      QuantilesUnique(s, 5 * k, byCuA[k], byCuB[k]);
    }
    forall j, k | 0 <= j <= k < 21 ensures byTxA[j] <= byTxA[k] && byCuA[j] <= byCuA[k] {
      QuantilesMonotone(s, 5 * j, 5 * k, byTxA[j], byTxA[k]);
      QuantilesMonotone(s, 5 * j, 5 * k, byCuA[j], byCuA[k]);
    }
  }

  // ----- the percentiles in plain arithmetic

  lemma {:induction false} TargetIs(total: nat, p: nat, cu: nat)
    ensures cu >= Target(total, p) <==> 100 * cu + 99 >= total * p
  {
    var x := total * p;
    assert x == 100 * (x / 100) + x % 100;
  }

  /** By compute units: the least fee present whose payers, with all cheaper ones, used the percentile of all units. */
  lemma {:induction false} CuQuantileMeans(s: seq<PrioFeesData>, p: nat, fee: nat)
    ensures IsCuQuantile(s, p, fee) <==>
      && Present(s, fee) && 100 * CuAtMost(s, fee) + 99 >= TotalCu(s) * p
      && forall cheaper: nat :: Present(s, cheaper) && cheaper < fee ==>
           100 * CuAtMost(s, cheaper) + 99 < TotalCu(s) * p
  {
    TargetIs(TotalCu(s), p, CuAtMost(s, fee));
    forall cheaper: nat
      ensures CuAtMost(s, cheaper) >= Target(TotalCu(s), p) <==> 100 * CuAtMost(s, cheaper) + 99 >= TotalCu(s) * p
    {
      TargetIs(TotalCu(s), p, CuAtMost(s, cheaper));
    }
  }

  /** By count: the fee of the transaction at the percentile of the ascending order, at most the last one. */
  lemma {:induction false} TxQuantileMeans(s: seq<PrioFeesData>, p: nat, fee: nat, rank: nat)
    requires rank < |s|
    requires (100 * rank <= |s| * p < 100 * rank + 100) || (rank == |s| - 1 && |s| * p >= 100 * rank)
    ensures IsTxQuantile(s, p, fee) <==> Present(s, fee) && CountBelow(s, fee) <= rank < CountAtMost(s, fee)
  {
    var x := |s| * p;
    assert x == 100 * (x / 100) + x % 100;
    assert Rank(|s|, p) == rank;
  }

  /** Without transactions every percentile is zero. */
  lemma {:induction false} EmptyPercentiles(byTx: seq<nat>, byCu: seq<nat>)
    requires ArePercentiles([], byTx, byCu)
    ensures forall k :: 0 <= k < 21 ==> byTx[k] == 0 && byCu[k] == 0
  {
  }
}
