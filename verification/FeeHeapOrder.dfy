/** Which transactions the fee heap keeps, and in which order it hands them out. */
module FeeHeapOrder {
  import opened Common
  import opened FeeHeap

  // ----- the highest fees are kept

  function FeeList(l: seq<Tx>): (r: seq<nat>)
    ensures |r| == |l| && forall i :: 0 <= i < |l| ==> r[i] == l[i].fee
  {
    seq(|l|, i requires 0 <= i < |l| => l[i].fee)
  }

  /** The fees of a list, with multiplicity. */
  function Fees(l: seq<Tx>): multiset<nat> {
    multiset(FeeList(l))
  }

  /** Of all fees the n highest are kept. */
  ghost predicate IsTop(kept: multiset<nat>, all: multiset<nat>, n: nat) {
    && kept <= all
    && |kept| == (if |all| < n then |all| else n)
    && forall x, y :: x in kept && y in all - kept ==> y <= x
  }

  /** The n highest fees are determined. */
  lemma {:induction false} TopIsUnique(a: multiset<nat>, b: multiset<nat>, all: multiset<nat>, n: nat)
    requires IsTop(a, all, n) && IsTop(b, all, n)
    ensures a == b
  {
    if a != b {
      NotContained(a, b);
      NotContained(b, a);
      var x :| a[x] > b[x];
      var y :| b[y] > a[y];
      LeftOutIsLower(a, b, all, n, x, y);
      LeftOutIsLower(b, a, all, n, y, x);
      assert false;
    }
  }

  lemma {:induction false} LeftOutIsLower(
      a: multiset<nat>, b: multiset<nat>, all: multiset<nat>, n: nat, x: nat, y: nat)
    requires IsTop(b, all, n) && a <= all && a[x] > b[x] && y in b
    ensures x <= y
  {
    assert x in all - b;
  }

  lemma {:induction false} ContainedIsEqual(a: multiset<nat>, b: multiset<nat>)
    requires a <= b && |a| == |b|
    ensures a == b
  {
    assert b == a + (b - a);
    assert |b - a| == 0;
  }

  lemma {:induction false} NotContained(a: multiset<nat>, b: multiset<nat>)
    requires a != b && |a| == |b|
    ensures exists x :: a[x] > b[x]
  {
    if a <= b {
      ContainedIsEqual(a, b);
    }
  }

  function InsertAll(txs: seq<Tx>, max: nat): seq<Tx>
    requires max > 0
  {
    if txs == [] then [] else Inserted(InsertAll(txs[..|txs| - 1], max), txs[|txs| - 1], max)
  }

  lemma {:induction false} FeesMembers(l: seq<Tx>, fee: nat)
    ensures fee in Fees(l) <==> fee in FeesOf(l)
    ensures |Fees(l)| == |l|
  {
    if fee in FeesOf(l) {
      var i :| 0 <= i < |l| && l[i].fee == fee;
      assert FeeList(l)[i] == fee;
    }
    if fee in FeeList(l) {
      var i :| 0 <= i < |l| && FeeList(l)[i] == fee;
      assert l[i] in l;
    }
  }

  lemma {:induction false} FeesConcat(a: seq<Tx>, b: seq<Tx>)
    ensures Fees(a + b) == Fees(a) + Fees(b)
  {
    assert FeeList(a + b) == FeeList(a) + FeeList(b);
  }

  lemma {:induction false} FeesSingle(t: Tx)
    ensures Fees([t]) == multiset{t.fee}
  {
    assert FeeList([t]) == [t.fee];
  }

  lemma {:induction false} FeesRemove(l: seq<Tx>, i: nat)
    requires i < |l|
    ensures Fees(RemoveAt(l, i)) + multiset{l[i].fee} == Fees(l)
  {
    var tail := [l[i]] + l[i + 1..];
    assert l == l[..i] + tail;
    FeesConcat(l[..i], tail);
    FeesConcat([l[i]], l[i + 1..]);
    FeesSingle(l[i]);
    FeesConcat(l[..i], l[i + 1..]);
  }

  /** A fee no higher than any kept one may be left out of a full selection. */
  lemma {:induction false} TopSkips(kept: multiset<nat>, all: multiset<nat>, n: nat, fee: nat)
    requires IsTop(kept, all, n) && |kept| >= n && forall x :: x in kept ==> fee <= x
    ensures IsTop(kept, all + multiset{fee}, n)
  {
    assert forall y :: y in all + multiset{fee} - kept ==> y in all - kept || y == fee;
  }

  /** A higher fee pushes out the lowest kept one. */
  lemma {:induction false} TopReplaces(kept: multiset<nat>, all: multiset<nat>, n: nat, fee: nat, least: nat)
    requires IsTop(kept, all, n) && |kept| >= n && least in kept && (forall x :: x in kept ==> least <= x)
      && least < fee
    ensures IsTop(kept + multiset{fee} - multiset{least}, all + multiset{fee}, n)
  {
    var now, total := kept + multiset{fee} - multiset{least}, all + multiset{fee};
    assert total - now == (all - kept) + multiset{least};
  }

  lemma {:induction false} TopGrows(kept: multiset<nat>, all: multiset<nat>, n: nat, fee: nat)
    requires IsTop(kept, all, n) && |kept| < n
    ensures IsTop(kept + multiset{fee}, all + multiset{fee}, n)
  {
    assert all == kept + (all - kept);
    assert |all - kept| == 0;
    assert kept == all;
  }

  lemma {:induction false} LeastOfGrown(l: seq<Tx>, tx: Tx)
    requires l != []
    requires FeesOf(l) != {} && FeesOf(l + [tx]) != {} && Min(FeesOf(l)) < tx.fee
    ensures Min(FeesOf(l + [tx])) == Min(FeesOf(l))
  {
    forall x ensures x in FeesOf(l + [tx]) <==> x in FeesOf(l) || x == tx.fee { OfFeeAppend(l, tx, x); }
  }

  /** A full heap that takes a higher fee drops one transaction of its lowest fee. */
  lemma {:induction false} InsertReplaces(l: seq<Tx>, tx: Tx, max: nat)
    requires max > 0 && tx.signature !in SignaturesOf(l) && |l| == max && FeesOf(l) != {} && Min(FeesOf(l)) < tx.fee
    ensures Fees(Inserted(l, tx, max)) == Fees(l) + multiset{tx.fee} - multiset{Min(FeesOf(l))}
      && |Inserted(l, tx, max)| == max
  {
    var grown := l + [tx];
    FeesOfNonempty(grown);
    LeastOfGrown(l, tx);
    FeesConcat(l, [tx]);
    FeesSingle(tx);
    FeesRemove(grown, FirstOf(grown, Min(FeesOf(l))));
  }

  lemma {:induction false} InsertKeepsTop(l: seq<Tx>, tx: Tx, all: multiset<nat>, max: nat)
    requires max > 0 && tx.signature !in SignaturesOf(l) && |l| <= max && IsTop(Fees(l), all, max)
    ensures IsTop(Fees(Inserted(l, tx, max)), all + multiset{tx.fee}, max) && |Inserted(l, tx, max)| <= max
  {
    FeesMembers(l, 0);
    if |l| >= max {
      FeesOfNonempty(l);
      var least := Min(FeesOf(l));
      forall x ensures x in Fees(l) <==> x in FeesOf(l) { FeesMembers(l, x); }
      if tx.fee <= least {
        TopSkips(Fees(l), all, max, tx.fee);
      } else {
        TopReplaces(Fees(l), all, max, tx.fee, least);
        InsertReplaces(l, tx, max);
      }
    } else {
      TopGrows(Fees(l), all, max, tx.fee);
      FeesConcat(l, [tx]);
      FeesSingle(tx);
    }
  }

  lemma {:induction false} InsertedSignatures(l: seq<Tx>, tx: Tx, max: nat)
    requires max > 0
    ensures SignaturesOf(Inserted(l, tx, max)) <= SignaturesOf(l) + {tx.signature}
  {
    var grown := l + [tx];
    SignaturesAppend(l, tx);
    if |grown| > max && !(|l| >= max && (FeesOfNonempty(l); tx.fee <= Min(FeesOf(l)))) {
      FeesOfNonempty(grown);
      var i := FirstOf(grown, Min(FeesOf(grown)));
      forall t | t in RemoveAt(grown, i) ensures t in grown {}
    }
  }

  /** Inserting transactions of distinct signatures into an empty heap leaves exactly the highest fees. */
  lemma {:induction false} HighestFeesKept(txs: seq<Tx>, max: nat)
    requires max > 0 && Distinct(txs)
    ensures IsTop(Fees(InsertAll(txs, max)), Fees(txs), max)
    ensures |InsertAll(txs, max)| <= max && SignaturesOf(InsertAll(txs, max)) <= SignaturesOf(txs)
  {
    if txs != [] {
      var front, tx := txs[..|txs| - 1], txs[|txs| - 1];
      HighestFeesKept(front, max);
      assert txs == front + [tx];
      FeesConcat(front, [tx]);
      FeesSingle(tx);
      SignaturesAppend(front, tx);
      LastIsNew(txs);
      InsertKeepsTop(InsertAll(front, max), tx, Fees(front), max);
      InsertedSignatures(InsertAll(front, max), tx, max);
    }
  }

  // ----- the order in which transactions are handed out

  /** Everything that repeated pops return. */
  function Drain(l: seq<Tx>): seq<Tx>
    decreases |l|
  {
    if l == [] then [] else [l[Next(l)]] + Drain(RemoveAt(l, Next(l)))
  }

  ghost predicate NonIncreasing(l: seq<Tx>) {
    forall i, j :: 0 <= i < j < |l| ==> l[i].fee >= l[j].fee
  }

  ghost predicate SameQueues(a: seq<Tx>, b: seq<Tx>) {
    forall fee :: OfFee(a, fee) == OfFee(b, fee)
  }

  /** Popping the next transaction and putting it in front gives back every queue. */
  lemma {:induction false} PopKeepsQueues(l: seq<Tx>, drained: seq<Tx>, fee: nat)
    requires l != [] && OfFee(drained, fee) == OfFee(RemoveAt(l, Next(l)), fee)
    ensures OfFee([l[Next(l)]] + drained, fee) == OfFee(l, fee)
  {
    FeesOfNonempty(l);
    PushFront(l[Next(l)], drained, fee);
    RemoveFirst(l, Max(FeesOf(l)), fee);
  }

  lemma {:induction false} PushFront(t: Tx, drained: seq<Tx>, fee: nat)
    ensures OfFee([t] + drained, fee) == if t.fee == fee then [t] + OfFee(drained, fee) else OfFee(drained, fee)
  {
    OfFeeConcat([t], drained, fee);
    OfFeeSingle(t, fee);
    assert [] + OfFee(drained, fee) == OfFee(drained, fee);
  }

  lemma {:induction false} NoHigherFee(l: seq<Tx>, t: Tx)
    requires l != [] && t in RemoveAt(l, Next(l))
    ensures t.fee <= l[Next(l)].fee
  {
    FeesOfNonempty(l);
    assert t in l;
    assert t.fee in FeesOf(l);
  }

  lemma {:induction false} QueuesKeepElements(a: seq<Tx>, b: seq<Tx>, t: Tx)
    requires SameQueues(a, b) && t in a
    ensures t in b
  {
    OfFeeMembers(a, t.fee, t);
    OfFeeMembers(b, t.fee, t);
  }

  /** Draining hands out non-increasing fees, and within a fee in arrival order. */
  lemma {:induction false} DrainIsStable(l: seq<Tx>)
    ensures NonIncreasing(Drain(l)) && SameQueues(Drain(l), l)
    decreases |l|
  {
    if l != [] {
      var rest := RemoveAt(l, Next(l));
      DrainIsStable(rest);
      forall fee ensures OfFee(Drain(l), fee) == OfFee(l, fee) { PopKeepsQueues(l, Drain(rest), fee); }
      forall i | 0 <= i < |Drain(rest)| ensures Drain(rest)[i].fee <= l[Next(l)].fee {
        QueuesKeepElements(Drain(rest), rest, Drain(rest)[i]);
        NoHigherFee(l, Drain(rest)[i]);
      }
    }
  }

  lemma {:induction false} HeadIsHighest(l: seq<Tx>, fee: nat)
    requires l != [] && NonIncreasing(l) && OfFee(l, fee) != []
    ensures fee <= l[0].fee && OfFee(l, l[0].fee) != [] && OfFee(l, l[0].fee)[0] == l[0]
  {
    OfFeeEmpty(l, fee);
    var t :| t in l && t.fee == fee;
    assert l == [l[0]] + l[1..];
    OfFeeConcat([l[0]], l[1..], l[0].fee);
    OfFeeSingle(l[0], l[0].fee);
  }

  /** Non-increasing lists with the same queues are equal. */
  lemma {:induction false} StableOrderUnique(a: seq<Tx>, b: seq<Tx>)
    requires NonIncreasing(a) && NonIncreasing(b) && SameQueues(a, b)
    ensures a == b
  {
    if a == [] || b == [] {
      if a != [] { QueuesKeepElements(a, b, a[0]); }
      if b != [] { QueuesKeepElements(b, a, b[0]); }
    } else {
      HeadsAgree(a, b);
      TailsAgree(a, b);
      StableOrderUnique(a[1..], b[1..]);
      assert a == [a[0]] + a[1..] && b == [b[0]] + b[1..];
    }
  }

  lemma {:induction false} HeadsAgree(a: seq<Tx>, b: seq<Tx>)
    requires NonIncreasing(a) && NonIncreasing(b) && SameQueues(a, b) && a != [] && b != []
    ensures a[0] == b[0]
  {
    OfFeeMembers(a, a[0].fee, a[0]);
    OfFeeMembers(b, b[0].fee, b[0]);
    assert OfFee(a, a[0].fee) == OfFee(b, a[0].fee) && OfFee(a, b[0].fee) == OfFee(b, b[0].fee);
    HeadIsHighest(a, b[0].fee);
    HeadIsHighest(b, a[0].fee);
  }

  lemma {:induction false} TailsAgree(a: seq<Tx>, b: seq<Tx>)
    requires SameQueues(a, b) && a != [] && b != [] && a[0] == b[0]
    ensures SameQueues(a[1..], b[1..])
  {
    forall fee ensures OfFee(a[1..], fee) == OfFee(b[1..], fee) {
      TailQueues(a, fee);
      TailQueues(b, fee);
      assert OfFee(a, fee) == OfFee(b, fee);
    }
  }

  lemma {:induction false} TailQueues(l: seq<Tx>, fee: nat)
    requires l != []
    ensures l[0].fee != fee ==> OfFee(l[1..], fee) == OfFee(l, fee)
    ensures l[0].fee == fee ==> OfFee(l, fee) != [] && OfFee(l[1..], fee) == OfFee(l, fee)[1..]
  {
    assert l == [l[0]] + l[1..];
    OfFeeConcat([l[0]], l[1..], fee);
    OfFeeSingle(l[0], fee);
  }

  lemma {:induction false} LiveNonIncreasing(l: seq<Tx>, height: nat)
    requires NonIncreasing(l)
    ensures NonIncreasing(Live(l, height))
  {
    if l != [] {
      var front := l[..|l| - 1];
      LiveNonIncreasing(front, height);
      forall i | 0 <= i < |Live(front, height)| ensures Live(front, height)[i].fee >= l[|l| - 1].fee {
        LiveMembers(front, height, Live(front, height)[i]);
      }
    }
  }

  /** Expiry commutes with draining. */
  lemma {:induction false} ExpiryCommutesWithDrain(l: seq<Tx>, height: nat)
    ensures Drain(Live(l, height)) == Live(Drain(l), height)
  {
    DrainIsStable(l);
    DrainIsStable(Live(l, height));
    LiveNonIncreasing(Drain(l), height);
    forall fee ensures OfFee(Drain(Live(l, height)), fee) == OfFee(Live(Drain(l), height), fee) {
      LiveOfFee(l, height, fee);
      LiveOfFee(Drain(l), height, fee);
    }
    StableOrderUnique(Drain(Live(l, height)), Live(Drain(l), height));
  }

  // ----- which transaction an insertion drops

  /** The insertion changes nothing: the signature is queued already, or a full heap has no lower fee. */
  ghost predicate Rejected(l: seq<Tx>, tx: Tx, max: nat) {
    (exists t :: t in l && t.signature == tx.signature) || (|l| >= max && forall t :: t in l ==> t.fee >= tx.fee)
  }

  lemma {:induction false} RejectedKeeps(l: seq<Tx>, tx: Tx, max: nat)
    requires max > 0 && Rejected(l, tx, max)
    ensures Inserted(l, tx, max) == l
  {
    if tx.signature !in SignaturesOf(l) { FeesOfNonempty(l); }
  }

  lemma {:induction false} AppendQueue(l: seq<Tx>, tx: Tx, fee: nat)
    ensures OfFee(l + [tx], fee) == OfFee(l, fee) + if tx.fee == fee then [tx] else []
  {
    OfFeeConcat(l, [tx], fee);
    OfFeeSingle(tx, fee);
  }

  lemma {:induction false} FrontPopped(queue: seq<Tx>, front: Tx, rest: seq<Tx>)
    requires queue == [front] + rest
    ensures queue != [] && queue[1..] == rest
  {
  }

  /** In a full heap the queue of the lowest fee loses its front and every other one is as it would be otherwise. */
  lemma {:induction false} SurplusQueues(l: seq<Tx>, tx: Tx, least: nat, fee: nat)
    requires FeesOf(l) != {} && least == Min(FeesOf(l)) < tx.fee
    ensures FeesOf(l + [tx]) != {} && Min(FeesOf(l + [tx])) == least
    ensures var rest := RemoveAt(l + [tx], FirstOf(l + [tx], least));
      if fee == least then OfFee(l, fee) != [] && OfFee(rest, fee) == OfFee(l, fee)[1..]
      else OfFee(rest, fee) == OfFee(l + [tx], fee)
  {
    var grown := l + [tx];
    FeesOfNonempty(grown);
    LeastOfGrown(l, tx);
    RemoveFirst(grown, least, fee);
    if fee == least {
      AppendQueue(l, tx, fee);
      assert OfFee(l, least) + [] == OfFee(l, least);
      FrontPopped(OfFee(l, fee), grown[FirstOf(grown, fee)], OfFee(RemoveAt(grown, FirstOf(grown, least)), fee));
    }
  }

  lemma {:induction false} LowerFeeQueued(l: seq<Tx>, tx: Tx, max: nat)
    requires |l| >= max && !Rejected(l, tx, max) && l != []
    ensures FeesOf(l) != {} && Min(FeesOf(l)) < tx.fee
  {
    FeesOfNonempty(l);
    var t :| t in l && t.fee < tx.fee;
    assert t.fee in FeesOf(l);
  }

  /** Otherwise it joins the end of its queue, and a full heap pops the front of the queue of its lowest fee. */
  lemma {:induction false} InsertedQueues(l: seq<Tx>, tx: Tx, max: nat, fee: nat)
    requires max > 0 && |l| <= max && !Rejected(l, tx, max)
    ensures |l| < max ==> OfFee(Inserted(l, tx, max), fee) == OfFee(l, fee) + if tx.fee == fee then [tx] else []
    ensures |l| == max ==> FeesOf(l) != {} && tx.fee > Min(FeesOf(l))
    ensures |l| == max && fee == Min(FeesOf(l)) ==>
      OfFee(l, fee) != [] && OfFee(Inserted(l, tx, max), fee) == OfFee(l, fee)[1..]
    ensures |l| == max && fee != Min(FeesOf(l)) ==>
      OfFee(Inserted(l, tx, max), fee) == OfFee(l, fee) + if tx.fee == fee then [tx] else []
  {
    AppendQueue(l, tx, fee);
    assert tx.signature !in SignaturesOf(l);
    if |l| == max {
      LowerFeeQueued(l, tx, max);
      SurplusQueues(l, tx, Min(FeesOf(l)), fee);
    }
  }
}
