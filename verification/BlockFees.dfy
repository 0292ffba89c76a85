/**
 Fee statistics of processed blocks and of the last N of them
 (prioritization_fees/src/prioritization_fee_data.rs and block_priofees.rs).
 */
module BlockFees {
  import opened Common
  import opened FeePercentiles

  datatype BlockPrioData = BlockPrioData(
    transactionData: seq<PrioFeesData>, nbNonVoteTx: nat, nbTotalTx: nat, nonVoteCuConsumed: nat, totalCuConsumed: nat)

  const NoData := BlockPrioData([], 0, 0, 0, 0)

  function Add(a: BlockPrioData, b: BlockPrioData): BlockPrioData {
    BlockPrioData(a.transactionData + b.transactionData, a.nbNonVoteTx + b.nbNonVoteTx, a.nbTotalTx + b.nbTotalTx,
                  a.nonVoteCuConsumed + b.nonVoteCuConsumed, a.totalCuConsumed + b.totalCuConsumed)
  }

  /** The fold over the blocks. */
  function Aggregate(blocks: seq<BlockPrioData>): BlockPrioData {
    if blocks == [] then NoData else Add(Aggregate(blocks[..|blocks| - 1]), blocks[|blocks| - 1])
  }

  datatype TransactionInfo = TransactionInfo(isVote: bool, prioritizationFees: Option<nat>, cuConsumed: Option<nat>)

  function OrZero(x: Option<nat>): nat {
    if x.Some? then x.value else 0
  }

  /** What is stored for a block: the fees of its non-vote transactions and the totals. */
  function FromTransactions(txs: seq<TransactionInfo>): BlockPrioData {
    if txs == [] then NoData
    else
      var before, tx := FromTransactions(txs[..|txs| - 1]), txs[|txs| - 1];
      var cu := OrZero(tx.cuConsumed);
      if tx.isVote then before.(nbTotalTx := before.nbTotalTx + 1, totalCuConsumed := before.totalCuConsumed + cu)
      else Add(before, BlockPrioData([PrioFeesData(OrZero(tx.prioritizationFees), cu)], 1, 1, cu, cu))
  }

  datatype PrioFeesStats = PrioFeesStats(byTx: seq<nat>, byCu: seq<nat>, totalTx: nat, nonVoteTx: nat, totalCu: nat,
        nonVoteCu: nat)

  ghost predicate AreStats(d: BlockPrioData, stats: PrioFeesStats) {
    && ArePercentiles(d.transactionData, stats.byTx, stats.byCu)
    && stats.totalTx == d.nbTotalTx && stats.nonVoteTx == d.nbNonVoteTx
    && stats.totalCu == d.totalCuConsumed && stats.nonVoteCu == d.nonVoteCuConsumed
  }

  method CalculateStats(d: BlockPrioData) returns (stats: PrioFeesStats)
    requires TotalCu(d.transactionData) * 100 < U64_LIMIT
    ensures AreStats(d, stats)
  {
    var byTx, byCu := CalculateSuppPercentiles(d.transactionData);
    stats := PrioFeesStats(byTx, byCu, d.nbTotalTx, d.nbNonVoteTx, d.totalCuConsumed, d.nonVoteCuConsumed);
  }

  // ----- the totals agree with the transactions

  ghost predicate Consistent(d: BlockPrioData) {
    && d.nbNonVoteTx == |d.transactionData| <= d.nbTotalTx
    && d.nonVoteCuConsumed == TotalCu(d.transactionData) <= d.totalCuConsumed
  }

  lemma {:induction false} AddConsistent(a: BlockPrioData, b: BlockPrioData)
    requires Consistent(a) && Consistent(b)
    ensures Consistent(Add(a, b))
  {
    SumsConcat(a.transactionData, b.transactionData, 0);
  }

  lemma {:induction false} BlockConsistent(txs: seq<TransactionInfo>)
    ensures Consistent(FromTransactions(txs)) && FromTransactions(txs).nbTotalTx == |txs|
  {
    if txs != [] {
      var before, tx := txs[..|txs| - 1], txs[|txs| - 1];
      BlockConsistent(before);
      if !tx.isVote {
        var one := PrioFeesData(OrZero(tx.prioritizationFees), OrZero(tx.cuConsumed));
        assert [one][..0] == [];
        AddConsistent(FromTransactions(before), BlockPrioData([one], 1, 1, one.cuConsumed, one.cuConsumed));
      }
    }
  }

  function NonVotes(txs: seq<TransactionInfo>): nat {
    if txs == [] then 0 else NonVotes(txs[..|txs| - 1]) + if txs[|txs| - 1].isVote then 0 else 1
  }

  /** The compute units of all transactions, those that report none counting as zero. */
  function AllCu(txs: seq<TransactionInfo>): nat {
    if txs == [] then 0
    else
      var cu := txs[|txs| - 1].cuConsumed;
      AllCu(txs[..|txs| - 1]) + if cu.Some? then cu.value else 0
  }

  /** What is counted of a block: all transactions, the non-vote ones, and the compute units of all. */
  lemma {:induction false} BlockTotals(txs: seq<TransactionInfo>)
    ensures var d := FromTransactions(txs);
      && d.nbTotalTx == |txs| && d.nbNonVoteTx == |d.transactionData| == NonVotes(txs)
      && d.totalCuConsumed == AllCu(txs)
  {
    if txs != [] { BlockTotals(txs[..|txs| - 1]); }
  }

  lemma {:induction false} NonVotesBefore(txs: seq<TransactionInfo>, i: nat)
    requires i < |txs| && !txs[i].isVote
    ensures NonVotes(txs[..i]) < NonVotes(txs)
  {
    if i == |txs| - 1 {
      assert txs[..i] == txs[..|txs| - 1];
    } else {
      NonVotesBefore(txs[..|txs| - 1], i);
      assert txs[..|txs| - 1][..i] == txs[..i];
    }
  }

  /** Each non-vote transaction is stored in its place with its own fee and compute units, zero if it has none. */
  lemma {:induction false} StoredFees(txs: seq<TransactionInfo>, i: nat)
    requires i < |txs| && !txs[i].isVote
    ensures NonVotes(txs[..i]) < |FromTransactions(txs).transactionData|
    ensures FromTransactions(txs).transactionData[NonVotes(txs[..i])] ==
      PrioFeesData(if txs[i].prioritizationFees.Some? then txs[i].prioritizationFees.value else 0,
                   if txs[i].cuConsumed.Some? then txs[i].cuConsumed.value else 0)
  {
    var before := txs[..|txs| - 1];
    BlockTotals(txs);
    BlockTotals(before);
    NonVotesBefore(txs, i);
    if i == |txs| - 1 {
      assert txs[..i] == before;
    } else {
      StoredFees(before, i);
      assert before[..i] == txs[..i];
    }
  }

  /** Whatever blocks are aggregated, the totals are those of the aggregated transactions. */
  lemma {:induction false} AggregateConsistent(blocks: seq<BlockPrioData>)
    requires forall i :: 0 <= i < |blocks| ==> Consistent(blocks[i])
    ensures Consistent(Aggregate(blocks))
  {
    if blocks != [] {
      AggregateConsistent(blocks[..|blocks| - 1]);
      AddConsistent(Aggregate(blocks[..|blocks| - 1]), blocks[|blocks| - 1]);
    }
  }

  function SumOf(blocks: seq<BlockPrioData>, f: BlockPrioData -> nat): nat {
    if blocks == [] then 0 else SumOf(blocks[..|blocks| - 1], f) + f(blocks[|blocks| - 1])
  }

  function AllData(blocks: seq<BlockPrioData>): seq<PrioFeesData> {
    if blocks == [] then [] else AllData(blocks[..|blocks| - 1]) + blocks[|blocks| - 1].transactionData
  }

  /** An aggregate is the data of all its blocks one after the other with the sums of their totals. */
  lemma {:induction false} AggregateIs(blocks: seq<BlockPrioData>)
    ensures var d := Aggregate(blocks);
      && d.transactionData == AllData(blocks)
      && d.nbNonVoteTx == SumOf(blocks, (b: BlockPrioData) => b.nbNonVoteTx)
      && d.nbTotalTx == SumOf(blocks, (b: BlockPrioData) => b.nbTotalTx)
      && d.nonVoteCuConsumed == SumOf(blocks, (b: BlockPrioData) => b.nonVoteCuConsumed)
      && d.totalCuConsumed == SumOf(blocks, (b: BlockPrioData) => b.totalCuConsumed)
  {
    if blocks != [] { AggregateIs(blocks[..|blocks| - 1]); }
  }

  // ----- the order of the blocks does not matter

  /** Equal up to the order of the transactions. */
  ghost predicate SameData(a: BlockPrioData, b: BlockPrioData) {
    && multiset(a.transactionData) == multiset(b.transactionData)
    && a.nbNonVoteTx == b.nbNonVoteTx && a.nbTotalTx == b.nbTotalTx
    && a.nonVoteCuConsumed == b.nonVoteCuConsumed && a.totalCuConsumed == b.totalCuConsumed
  }

  lemma {:induction false} AddSame(a: BlockPrioData, b: BlockPrioData, x: BlockPrioData)
    requires SameData(a, b)
    ensures SameData(Add(a, x), Add(b, x))
  {
  }

  lemma {:induction false} AddSwap(a: BlockPrioData, x: BlockPrioData, y: BlockPrioData)
    ensures SameData(Add(Add(a, x), y), Add(Add(a, y), x))
  {
  }

  lemma {:induction false} AggregateAppend(blocks: seq<BlockPrioData>, x: BlockPrioData)
    ensures Aggregate(blocks + [x]) == Add(Aggregate(blocks), x)
  {
    assert (blocks + [x])[..|blocks|] == blocks;
  }

  /** A block may be moved to the end of the fold. */
  lemma {:induction false} AggregateMove(a: seq<BlockPrioData>, x: BlockPrioData, b: seq<BlockPrioData>)
    ensures SameData(Aggregate(a + [x] + b), Add(Aggregate(a + b), x))
    decreases |b|
  {
    if b == [] {
      assert a + [x] + b == a + [x] && a + b == a;
      AggregateAppend(a, x);
    } else {
      var front, y := b[..|b| - 1], b[|b| - 1];
      AggregateMove(a, x, front);
      assert a + [x] + b == (a + [x] + front) + [y] && a + b == (a + front) + [y];
      AggregateAppend(a + [x] + front, y);
      AggregateAppend(a + front, y);
      AddSame(Aggregate(a + [x] + front), Add(Aggregate(a + front), x), y);
      AddSwap(Aggregate(a + front), x, y);
    }
  }

  lemma {:induction false} AggregateOfPermutation(a: seq<BlockPrioData>, b: seq<BlockPrioData>)
    requires multiset(a) == multiset(b)
    ensures SameData(Aggregate(a), Aggregate(b))
    decreases |a|
  {
    assert |a| == |multiset(a)| == |multiset(b)| == |b|;
    if a != [] {
      var x := a[|a| - 1];
      assert x in multiset(b);
      var i :| 0 <= i < |b| && b[i] == x;
      MultisetPeel(a, b, i);
      AggregateOfPermutation(a[..|a| - 1], b[..i] + b[i + 1..]);
      assert b == b[..i] + [x] + b[i + 1..];
      AggregateMove(b[..i], x, b[i + 1..]);
      AddSame(Aggregate(a[..|a| - 1]), Aggregate(b[..i] + b[i + 1..]), x);
    }
  }

  /** The statistics of aggregated blocks are the same in whatever order the blocks are folded. */
  lemma {:induction false} StatsIgnoreBlockOrder(
      a: seq<BlockPrioData>, b: seq<BlockPrioData>, statsA: PrioFeesStats, statsB: PrioFeesStats)
    requires multiset(a) == multiset(b) && AreStats(Aggregate(a), statsA) && AreStats(Aggregate(b), statsB)
    ensures statsA == statsB
  {
    AggregateOfPermutation(a, b);
    PercentilesDetermined(Aggregate(a).transactionData, Aggregate(b).transactionData, statsA.byTx, statsA.byCu,
      statsB.byTx, statsB.byCu);
  }

  // ----- the store of recent blocks

  /** The n greatest keys, newest first. */
  ghost predicate Newest(chosen: seq<Slot>, keys: set<Slot>, n: nat) {
    && |chosen| == (if |keys| < n then |keys| else n)
    && (forall i :: 0 <= i < |chosen| ==> chosen[i] in keys)
    && (forall i, j :: 0 <= i < j < |chosen| ==> chosen[i] > chosen[j])
    && (forall s, i :: s in keys && s !in chosen && 0 <= i < |chosen| ==> s < chosen[i])
  }

  function BlocksAt(recent: map<Slot, BlockPrioData>, slots: seq<Slot>): (r: seq<BlockPrioData>)
    requires forall i :: 0 <= i < |slots| ==> slots[i] in recent
    ensures |r| == |slots| && forall i :: 0 <= i < |slots| ==> r[i] == recent[slots[i]]
  {
    seq(|slots|, i requires 0 <= i < |slots| => recent[slots[i]])
  }

  /** The compute units of all transactions in the given blocks. */
  function AggregateCu(recent: map<Slot, BlockPrioData>, slots: seq<Slot>): nat
    requires forall i :: 0 <= i < |slots| ==> slots[i] in recent
  {
    TotalCu(Aggregate(BlocksAt(recent, slots)).transactionData)
  }

  class PrioFeeStore {
    var recent: map<Slot, BlockPrioData>

    constructor ()
      ensures recent == map[]
    {
      recent := map[];
    }

    /** A processed block arrives: store it, then drop what is too far behind it. */
    method OnBlock(slot: Slot, txs: seq<TransactionInfo>, slotsToRetain: nat)
      modifies this
      ensures forall s :: s in recent <==> (s == slot || s in old(recent)) && s > SaturatingSub(slot, slotsToRetain)
      ensures forall s :: s in recent ==> recent[s] == if s == slot then FromTransactions(txs) else old(recent)[s]
    {
      recent := recent[slot := FromTransactions(txs)];
      recent := map s | s in recent && s > SaturatingSub(slot, slotsToRetain) :: recent[s];
    }

    /** The statistics of the newest blocks together, with the newest slot. */
    method GetLastNAggregate(n: nat) returns (r: Option<(Slot, PrioFeesStats)>, ghost chosen: seq<Slot>)
      requires forall slots: seq<Slot> :: Newest(slots, recent.Keys, n) ==> AggregateCu(recent, slots) * 100 < U64_LIMIT
      ensures r.None? <==> recent == map[]
      ensures Newest(chosen, recent.Keys, n)
      ensures r.Some? ==> r.value.0 == Max(recent.Keys) && AreStats(Aggregate(BlocksAt(recent, chosen)), r.value.1)
    {
      var acc: BlockPrioData;
      acc, chosen := FoldNewest(n);
      if recent == map[] {
        return None, chosen;
      }
      var stats := CalculateStats(acc);
      r := Some((Max(recent.Keys), stats));
    }

    /** Folds the newest blocks, starting from the newest. */
    method FoldNewest(n: nat) returns (acc: BlockPrioData, ghost chosen: seq<Slot>)
      ensures Newest(chosen, recent.Keys, n)
      ensures acc == Aggregate(BlocksAt(recent, chosen))
    {
      chosen := [];
      acc := NoData;
      var left, k := recent.Keys, 0;
      while k < n && left != {}
        invariant k == |chosen| <= n && Picked(chosen, left, recent.Keys)
        invariant acc == Aggregate(BlocksAt(recent, chosen))
        decreases n - k
      {
        var slot := Max(left);
        PickNext(chosen, left, recent.Keys);
        AggregateNext(recent, chosen, slot);
        acc := Add(acc, recent[slot]);
        chosen := chosen + [slot];
        left := left - {slot};
        k := k + 1;
      }
    }
  }

  /** The keys are split into the newest ones, newest first, and the rest. */
  ghost predicate Picked(chosen: seq<Slot>, left: set<Slot>, keys: set<Slot>) {
    && |chosen| + |left| == |keys| && left <= keys
    && (forall i :: 0 <= i < |chosen| ==> chosen[i] in keys)
    && (forall i, j :: 0 <= i < j < |chosen| ==> chosen[i] > chosen[j])
    && (forall s, i :: s in left && 0 <= i < |chosen| ==> s < chosen[i])
    && (forall s :: s in keys ==> s in left || s in chosen)
  }

  lemma {:induction false} PickNext(chosen: seq<Slot>, left: set<Slot>, keys: set<Slot>)
    requires Picked(chosen, left, keys) && left != {}
    ensures Picked(chosen + [Max(left)], left - {Max(left)}, keys)
  {
    var slot := Max(left);
    assert forall s :: s in chosen + [slot] <==> s in chosen || s == slot;
  }

  lemma {:induction false} AggregateNext(recent: map<Slot, BlockPrioData>, chosen: seq<Slot>, slot: Slot)
    requires slot in recent && forall i :: 0 <= i < |chosen| ==> chosen[i] in recent
    ensures Aggregate(BlocksAt(recent, chosen + [slot])) == Add(Aggregate(BlocksAt(recent, chosen)), recent[slot])
  {
    assert BlocksAt(recent, chosen + [slot]) == BlocksAt(recent, chosen) + [recent[slot]];
    AggregateAppend(BlocksAt(recent, chosen), recent[slot]);
  }
}
