/**
 The bounded heap of transactions ordered by prioritization fee
 (core/src/structures/prioritization_fee_heap.rs): a map from fee to a FIFO queue together with the
 set of queued signatures. It is specified by the list of queued transactions in arrival order.
 */
module FeeHeap {
  import opened Common

  datatype SentTransactionInfo = SentTransactionInfo(signature: Signature, slot: Slot, transaction: seq<nat>,
        lastValidBlockHeight: nat, fee: nat)

  type Tx = SentTransactionInfo

  // ----- lists in arrival order

  /** The transactions of one fee, in arrival order. */
  function OfFee(l: seq<Tx>, fee: nat): seq<Tx> {
    if l == [] then []
    else OfFee(l[..|l| - 1], fee) + if l[|l| - 1].fee == fee then [l[|l| - 1]] else []
  }

  function FeesOf(l: seq<Tx>): set<nat> {
    set t | t in l :: t.fee
  }

  function SignaturesOf(l: seq<Tx>): set<Signature> {
    set t | t in l :: t.signature
  }

  ghost predicate Distinct(l: seq<Tx>) {
    forall i, j :: 0 <= i < j < |l| ==> l[i].signature != l[j].signature
  }

  /** Position of the earliest arrival with this fee. */
  function FirstOf(l: seq<Tx>, fee: nat): (i: nat)
    requires fee in FeesOf(l)
    ensures i < |l| && l[i].fee == fee && forall k :: 0 <= k < i ==> l[k].fee != fee
  {
    if l[0].fee == fee then 0
    else
      assert fee in FeesOf(l[1..]) by {
        var t :| t in l && t.fee == fee;
        assert t in l[1..];
      }
      1 + FirstOf(l[1..], fee)
  }

  function RemoveAt(l: seq<Tx>, i: nat): seq<Tx>
    requires i < |l|
  {
    l[..i] + l[i + 1..]
  }

  /** The transactions that are still valid at a block height. */
  function Live(l: seq<Tx>, height: nat): seq<Tx> {
    if l == [] then []
    else Live(l[..|l| - 1], height) + if l[|l| - 1].lastValidBlockHeight > height then [l[|l| - 1]] else []
  }

  lemma {:induction false} FeesOfNonempty(l: seq<Tx>)
    requires l != []
    ensures FeesOf(l) != {}
  {
    assert l[0].fee in FeesOf(l);
  }

  // ----- the operations on the list

  function Inserted(l: seq<Tx>, tx: Tx, max: nat): seq<Tx>
    requires max > 0
  {
    if tx.signature in SignaturesOf(l) then l
    else if |l| >= max && (FeesOfNonempty(l); tx.fee <= Min(FeesOf(l))) then l
    else WithoutSurplus(l + [tx], max)
  }

  /** The earliest transaction of the lowest fee goes if there is one too many. */
  function WithoutSurplus(l: seq<Tx>, max: nat): (r: seq<Tx>)
    ensures |l| <= max + 1 ==> |r| <= max
  {
    if |l| > max then (FeesOfNonempty(l); RemoveAt(l, FirstOf(l, Min(FeesOf(l))))) else l
  }

  /** Position of the transaction that is popped next: the earliest of the highest fee. */
  function Next(l: seq<Tx>): (i: nat)
    requires l != []
    ensures i < |l|
  {
    FeesOfNonempty(l);
    FirstOf(l, Max(FeesOf(l)))
  }

  // ----- lemmas about lists

  lemma {:induction false} OfFeeConcat(a: seq<Tx>, b: seq<Tx>, fee: nat)
    ensures OfFee(a + b, fee) == OfFee(a, fee) + OfFee(b, fee)
  {
    if b == [] {
      assert a + b == a;
    } else {
      OfFeeConcat(a, b[..|b| - 1], fee);
      assert (a + b)[..|a + b| - 1] == a + b[..|b| - 1];
    }
  }

  lemma {:induction false} OfFeeSingle(t: Tx, fee: nat)
    ensures OfFee([t], fee) == if t.fee == fee then [t] else []
  {
    assert [t][..0] == [];
  }

  lemma {:induction false} OfFeeMembers(l: seq<Tx>, fee: nat, t: Tx)
    ensures t in OfFee(l, fee) <==> t in l && t.fee == fee
  {
    if l != [] {
      OfFeeMembers(l[..|l| - 1], fee, t);
      assert l == l[..|l| - 1] + [l[|l| - 1]];
    }
  }

  lemma {:induction false} OfFeeEmpty(l: seq<Tx>, fee: nat)
    ensures OfFee(l, fee) == [] <==> fee !in FeesOf(l)
  {
    if OfFee(l, fee) != [] {
      OfFeeMembers(l, fee, OfFee(l, fee)[0]);
    }
    if fee in FeesOf(l) {
      var t :| t in l && t.fee == fee;
      OfFeeMembers(l, fee, t);
    }
  }

  lemma {:induction false} OfFeeAround(l: seq<Tx>, i: nat, fee: nat)
    requires i < |l|
    ensures OfFee(l, fee) == OfFee(l[..i], fee) + ((if l[i].fee == fee then [l[i]] else []) + OfFee(l[i + 1..], fee))
    ensures OfFee(RemoveAt(l, i), fee) == OfFee(l[..i], fee) + OfFee(l[i + 1..], fee)
  {
    var tail := [l[i]] + l[i + 1..];
    assert l == l[..i] + tail;
    OfFeeConcat(l[..i], tail, fee);
    OfFeeConcat([l[i]], l[i + 1..], fee);
    OfFeeSingle(l[i], fee);
    OfFeeConcat(l[..i], l[i + 1..], fee);
  }

  /** Taking the earliest of a fee out of the list pops the front of its queue and no other. */
  lemma {:induction false} RemoveFirst(l: seq<Tx>, fee: nat, other: nat)
    requires fee in FeesOf(l)
    ensures OfFee(l, fee) == [l[FirstOf(l, fee)]] + OfFee(RemoveAt(l, FirstOf(l, fee)), fee)
    ensures other != fee ==> OfFee(RemoveAt(l, FirstOf(l, fee)), other) == OfFee(l, other)
  {
    var i := FirstOf(l, fee);
    OfFeeEmpty(l[..i], fee);
    OfFeeAround(l, i, fee);
    OfFeeAround(l, i, other);
    assert [] + OfFee(l[i + 1..], other) == OfFee(l[i + 1..], other);
  }

  lemma {:induction false} DistinctSize(l: seq<Tx>)
    requires Distinct(l)
    ensures |SignaturesOf(l)| == |l|
  {
    if l != [] {
      var front, t := l[..|l| - 1], l[|l| - 1];
      DistinctSize(front);
      LastIsNew(l);
      assert l == front + [t];
      SignaturesAppend(front, t);
    }
  }

  lemma {:induction false} LastIsNew(l: seq<Tx>)
    requires Distinct(l) && l != []
    ensures l[|l| - 1].signature !in SignaturesOf(l[..|l| - 1])
  {
    forall x | x in l[..|l| - 1] ensures x.signature != l[|l| - 1].signature {
      var i :| 0 <= i < |l| - 1 && l[i] == x;
    }
  }

  lemma {:induction false} SignaturesAppend(l: seq<Tx>, t: Tx)
    ensures SignaturesOf(l + [t]) == SignaturesOf(l) + {t.signature}
  {
    assert forall x :: x in l + [t] <==> x in l || x == t;
    forall s | s in SignaturesOf(l) + {t.signature} ensures s in SignaturesOf(l + [t]) {
      if s == t.signature { assert t in l + [t]; } else {
        var x :| x in l && x.signature == s;
        assert x in l + [t];
      }
    }
  }

  lemma {:induction false} DistinctAppend(l: seq<Tx>, t: Tx)
    requires Distinct(l) && t.signature !in SignaturesOf(l)
    ensures Distinct(l + [t])
  {
    forall i | 0 <= i < |l| ensures l[i].signature != t.signature { assert l[i] in l; }
  }

  lemma {:induction false} SignaturesRemove(l: seq<Tx>, i: nat)
    requires i < |l| && Distinct(l)
    ensures SignaturesOf(RemoveAt(l, i)) == SignaturesOf(l) - {l[i].signature}
    ensures Distinct(RemoveAt(l, i))
  {
    var r := RemoveAt(l, i);
    forall s | s in SignaturesOf(l) - {l[i].signature} ensures s in SignaturesOf(r) {
      var k :| 0 <= k < |l| && l[k].signature == s;
      assert r[if k < i then k else k - 1] == l[k];
    }
    forall s | s in SignaturesOf(r) ensures s in SignaturesOf(l) - {l[i].signature} {
      var k :| 0 <= k < |r| && r[k].signature == s;
      var k' := if k < i then k else k + 1;
      assert r[k] == l[k'] && l[k'] in l;
    }
  }

  // ----- the heap

  /** The map holds, for each fee that occurs and no other, its transactions in arrival order. */
  ghost predicate Represents(queues: map<nat, seq<Tx>>, l: seq<Tx>) {
    && (forall fee :: fee in queues <==> fee in FeesOf(l))
    && (forall fee :: fee in queues ==> queues[fee] == OfFee(l, fee))
  }

  class PrioritizationFeesHeap {
    var queues: map<nat, seq<Tx>>
    var signatures: set<Signature>
    const maxNumberOfTransactions: nat

    /** The queued transactions in arrival order. */
    ghost var arrivals: seq<Tx>

    ghost predicate Valid()
      reads this
    {
      && Represents(queues, arrivals)
      && signatures == SignaturesOf(arrivals)
      && Distinct(arrivals)
      && |arrivals| <= maxNumberOfTransactions
    }

    constructor (max: nat)
      ensures Valid() && arrivals == [] && maxNumberOfTransactions == max
    {
      queues, signatures, maxNumberOfTransactions, arrivals := map[], {}, max, [];
    }

    method Size() returns (n: nat)
      requires Valid()
      ensures n == |arrivals|
    {
      n := |signatures|;
      DistinctSize(arrivals);
    }

    /** Takes the front of the queue of a fee out of the heap. */
    method PopFront(fee: nat) returns (tx: Tx)
      requires Represents(queues, arrivals) && signatures == SignaturesOf(arrivals) && Distinct(arrivals)
        && fee in queues
      modifies this`queues, this`signatures, this`arrivals
      ensures Represents(queues, arrivals) && signatures == SignaturesOf(arrivals) && Distinct(arrivals)
      ensures tx == old(arrivals)[FirstOf(old(arrivals), fee)]
      ensures arrivals == RemoveAt(old(arrivals), FirstOf(old(arrivals), fee))
    {
      PopRepresents(queues, arrivals, fee);
      SignaturesRemove(arrivals, FirstOf(arrivals, fee));
      var queue := queues[fee];
      tx := queue[0];
      queue := queue[1..];
      if queue == [] {
        queues := queues - {fee};
      } else {
        queues := queues[fee := queue];
      }
      signatures := signatures - {tx.signature};
      arrivals := RemoveAt(arrivals, FirstOf(arrivals, fee));
    }

    method Pop() returns (tx: Option<Tx>)
      requires Valid()
      modifies this`queues, this`signatures, this`arrivals
      ensures Valid()
      ensures old(arrivals) == [] ==> tx == None && arrivals == []
      ensures old(arrivals) != [] ==>
        tx == Some(old(arrivals)[Next(old(arrivals))]) && arrivals == RemoveAt(old(arrivals), Next(old(arrivals)))
    {
      KeysAreFees(queues, arrivals);
      if queues == map[] {
        return None;
      }
      var element := PopFront(Max(queues.Keys));
      tx := Some(element);
    }

    /** Appends to the queue of the transaction's fee. */
    method PushBack(tx: Tx)
      requires Represents(queues, arrivals) && signatures == SignaturesOf(arrivals) && Distinct(arrivals)
        && tx.signature !in signatures
      modifies this`queues, this`signatures, this`arrivals
      ensures Represents(queues, arrivals) && signatures == SignaturesOf(arrivals) && Distinct(arrivals)
      ensures arrivals == old(arrivals) + [tx]
    {
      ghost var l, before := arrivals, queues;
      signatures := signatures + {tx.signature};
      if tx.fee in queues {
        queues := queues[tx.fee := queues[tx.fee] + [tx]];
      } else {
        queues := queues[tx.fee := [tx]];
      }
      arrivals := arrivals + [tx];
      PushRepresents(before, l, tx, queues);
      SignaturesAppend(l, tx);
      DistinctAppend(l, tx);
    }

    /** The end of an insertion. */
    method DropSurplus()
      requires Represents(queues, arrivals) && signatures == SignaturesOf(arrivals) && Distinct(arrivals)
      modifies this`queues, this`signatures, this`arrivals
      ensures Represents(queues, arrivals) && signatures == SignaturesOf(arrivals) && Distinct(arrivals)
      ensures arrivals == WithoutSurplus(old(arrivals), maxNumberOfTransactions)
    {
      DistinctSize(arrivals);
      if |signatures| > maxNumberOfTransactions {
        KeysAreFees(queues, arrivals);
        FeesOfNonempty(arrivals);
        var _ := PopFront(Min(queues.Keys));
      }
    }

    method Insert(tx: Tx)
      requires Valid() && maxNumberOfTransactions > 0
      modifies this`queues, this`signatures, this`arrivals
      ensures Valid()
      ensures arrivals == Inserted(old(arrivals), tx, maxNumberOfTransactions)
    {
      if tx.signature in signatures {
        return;
      }
      DistinctSize(arrivals);
      KeysAreFees(queues, arrivals);
      if |signatures| >= maxNumberOfTransactions {
        FeesOfNonempty(arrivals);
        if tx.fee <= Min(queues.Keys) {
          return;
        }
      }
      PushBack(tx);
      DropSurplus();
    }

    method Clear() returns (size: nat)
      requires Valid()
      modifies this`queues, this`signatures, this`arrivals
      ensures Valid() && arrivals == [] && size == |old(arrivals)|
    {
      DistinctSize(arrivals);
      queues := map[];
      size := |signatures|;
      signatures := {};
      arrivals := [];
    }

    /** Filters one queue: what stays, and the signatures of what goes. */
    method Retain(queue: seq<Tx>, height: nat) returns (kept: seq<Tx>, gone: seq<Signature>)
      ensures kept == Live(queue, height)
      ensures gone == SignatureList(Expired(queue, height))
    {
      kept, gone := [], [];
      for i := 0 to |queue|
        invariant kept == Live(queue[..i], height)
        invariant gone == SignatureList(Expired(queue[..i], height))
      {
        assert queue[..i + 1][..i] == queue[..i];
        if queue[i].lastValidBlockHeight > height {
          kept := kept + [queue[i]];
        } else {
          gone := gone + [queue[i].signature];
        }
      }
      assert queue[..|queue|] == queue;
    }

    /** The loop over the queues, from the lowest fee on. */
    method FilterQueues(height: nat)
      returns (cellsToRemove: set<nat>, signaturesToRemove: seq<Signature>, ghost gone: seq<Tx>)
      requires Valid()
      modifies this`queues
      ensures Filtered(old(queues), queues, cellsToRemove, height, {})
      ensures signaturesToRemove == SignatureList(gone) && ExpiredOutside(gone, arrivals, height, {})
    {
      ghost var before := queues;
      cellsToRemove, signaturesToRemove, gone := {}, [], [];
      var todo := queues.Keys;
      while todo != {}
        invariant Filtered(before, queues, cellsToRemove, height, todo)
        invariant signaturesToRemove == SignatureList(gone) && ExpiredOutside(gone, arrivals, height, todo)
      {
        var fee := Min(todo);
        FilteredNext(before, queues, cellsToRemove, height, todo, fee);
        ExpiredNext(gone, arrivals, height, todo, fee);
        var kept, removedHere := Retain(queues[fee], height);
        SignatureListConcat(gone, Expired(before[fee], height));
        gone := gone + Expired(before[fee], height);
        signaturesToRemove := signaturesToRemove + removedHere;
        queues := queues[fee := kept];
        if kept == [] {
          cellsToRemove := cellsToRemove + {fee};
        }
        todo := todo - {fee};
      }
    }

    method RemoveExpiredTransactions(height: nat) returns (removed: nat)
      requires Valid()
      modifies this`queues, this`signatures, this`arrivals
      ensures Valid()
      ensures arrivals == Live(old(arrivals), height)
      ensures removed == |old(arrivals)| - |arrivals|
    {
      var cellsToRemove, signaturesToRemove, gone := FilterQueues(height);
      queues := queues - cellsToRemove;
      removed := |signaturesToRemove|;
      signatures := signatures - (set sig | sig in signaturesToRemove);
      LiveRepresents(old(queues), arrivals, height, queues);
      LiveSignatures(arrivals, gone, height);
      arrivals := Live(arrivals, height);
    }
  }

  lemma {:induction false} KeysAreFees(queues: map<nat, seq<Tx>>, l: seq<Tx>)
    requires Represents(queues, l)
    ensures queues.Keys == FeesOf(l)
    ensures queues == map[] <==> l == []
  {
    if l != [] { FeesOfNonempty(l); }
  }

  lemma {:induction false} PopRepresents(queues: map<nat, seq<Tx>>, l: seq<Tx>, fee: nat)
    requires Represents(queues, l) && fee in queues
    ensures var i := FirstOf(l, fee);
      && queues[fee] != [] && queues[fee][0] == l[i]
      && Represents(if queues[fee][1..] == [] then queues - {fee} else queues[fee := queues[fee][1..]], RemoveAt(l, i))
  {
    var i := FirstOf(l, fee);
    var r := RemoveAt(l, i);
    RemoveFirst(l, fee, fee);
    assert queues[fee][1..] == OfFee(r, fee);
    forall other
      ensures (other in FeesOf(r) <==> OfFee(r, other) != []) && (other in FeesOf(l) <==> OfFee(l, other) != [])
      ensures other != fee ==> OfFee(r, other) == OfFee(l, other)
    {
      OfFeeEmpty(r, other);
      OfFeeEmpty(l, other);
      RemoveFirst(l, fee, other);
    }
  }

  lemma {:induction false} OfFeeAppend(l: seq<Tx>, tx: Tx, fee: nat)
    ensures OfFee(l + [tx], fee) == if tx.fee == fee then OfFee(l, fee) + [tx] else OfFee(l, fee)
    ensures fee in FeesOf(l + [tx]) <==> fee in FeesOf(l) || fee == tx.fee
  {
    assert (l + [tx])[..|l|] == l;
    assert OfFee(l, fee) + [] == OfFee(l, fee);
    OfFeeEmpty(l, fee);
    OfFeeEmpty(l + [tx], fee);
  }

  lemma {:induction false} PushRepresents(queues: map<nat, seq<Tx>>, l: seq<Tx>, tx: Tx, pushed: map<nat, seq<Tx>>)
    requires Represents(queues, l)
    requires pushed == queues[tx.fee := (if tx.fee in queues then queues[tx.fee] + [tx] else [tx])]
    ensures Represents(pushed, l + [tx])
  {
    OfFeeEmpty(l, tx.fee);
    assert [] + [tx] == [tx];
    forall fee
      ensures (fee in pushed <==> fee in FeesOf(l + [tx])) && (fee in pushed ==> pushed[fee] == OfFee(l + [tx], fee))
    {
      OfFeeAppend(l, tx, fee);
    }
  }

  // ----- expiry

  function Expired(l: seq<Tx>, height: nat): seq<Tx> {
    if l == [] then []
    else Expired(l[..|l| - 1], height) + if l[|l| - 1].lastValidBlockHeight > height then [] else [l[|l| - 1]]
  }

  function SignatureList(l: seq<Tx>): (r: seq<Signature>)
    ensures |r| == |l| && forall i :: 0 <= i < |l| ==> r[i] == l[i].signature
  {
    seq(|l|, i requires 0 <= i < |l| => l[i].signature)
  }

  lemma {:induction false} SignatureListConcat(a: seq<Tx>, b: seq<Tx>)
    ensures SignatureList(a + b) == SignatureList(a) + SignatureList(b)
  {
  }

  lemma {:induction false} LiveOfFee(l: seq<Tx>, height: nat, fee: nat)
    ensures OfFee(Live(l, height), fee) == Live(OfFee(l, fee), height)
  {
    if l != [] {
      var front, t := l[..|l| - 1], l[|l| - 1];
      LiveOfFee(front, height, fee);
      OfFeeAppend(Live(front, height), t, fee);
      assert (OfFee(front, fee) + [t])[..|OfFee(front, fee)|] == OfFee(front, fee);
      assert OfFee(front, fee) + [] == OfFee(front, fee) && Live(front, height) + [] == Live(front, height);
      assert Live(OfFee(front, fee), height) + [] == Live(OfFee(front, fee), height);
    }
  }

  lemma {:induction false} LiveMembers(l: seq<Tx>, height: nat, t: Tx)
    ensures t in Live(l, height) <==> t in l && t.lastValidBlockHeight > height
    ensures t in Expired(l, height) <==> t in l && t.lastValidBlockHeight <= height
  {
    if l != [] {
      LiveMembers(l[..|l| - 1], height, t);
      assert l == l[..|l| - 1] + [l[|l| - 1]];
    }
  }

  lemma {:induction false} SublistsDistinct(l: seq<Tx>, height: nat, fee: nat)
    requires Distinct(l)
    ensures Distinct(Live(l, height)) && Distinct(Expired(l, height)) && Distinct(OfFee(l, fee))
  {
    if l != [] {
      var front, t := l[..|l| - 1], l[|l| - 1];
      SublistsDistinct(front, height, fee);
      assert t.signature !in SignaturesOf(front);
      forall x
        ensures x in Live(front, height) || x in Expired(front, height) || x in OfFee(front, fee) ==> x in front
      {
        LiveMembers(front, height, x);
        OfFeeMembers(front, fee, x);
      }
      DistinctAppendTo(Live(front, height), front, t);
      DistinctAppendTo(Expired(front, height), front, t);
      DistinctAppendTo(OfFee(front, fee), front, t);
    }
  }

  lemma {:induction false} DistinctAppendTo(part: seq<Tx>, l: seq<Tx>, t: Tx)
    requires Distinct(part) && t.signature !in SignaturesOf(l) && forall x :: x in part ==> x in l
    ensures Distinct(part + [t])
  {
    DistinctAppend(part, t);
  }

  /** The queues of the visited fees are filtered, and the empty ones among them are noted. */
  ghost predicate Filtered(
      before: map<nat, seq<Tx>>, queues: map<nat, seq<Tx>>, empty: set<nat>, height: nat, todo: set<nat>)
  {
    && todo <= before.Keys == queues.Keys
    && (forall fee :: fee in before ==> queues[fee] == if fee in todo then before[fee] else Live(before[fee], height))
    && (forall fee :: fee in empty <==> fee in before && fee !in todo && Live(before[fee], height) == [])
  }

  lemma {:induction false} FilteredNext(
      before: map<nat, seq<Tx>>, queues: map<nat, seq<Tx>>, empty: set<nat>, height: nat, todo: set<nat>, fee: nat)
    requires Filtered(before, queues, empty, height, todo) && fee in todo
    ensures queues[fee] == before[fee]
    ensures Filtered(before, queues[fee := Live(before[fee], height)],
                     if Live(before[fee], height) == [] then empty + {fee} else empty, height, todo - {fee})
  {
  }

  /** The expired transactions whose fee is not in the given set, each once. */
  ghost predicate ExpiredOutside(gone: seq<Tx>, l: seq<Tx>, height: nat, todo: set<nat>) {
    Distinct(gone) && forall t :: t in gone <==> t in l && t.lastValidBlockHeight <= height && t.fee !in todo
  }

  lemma {:induction false} ExpiredNext(gone: seq<Tx>, l: seq<Tx>, height: nat, todo: set<nat>, fee: nat)
    requires Distinct(l) && ExpiredOutside(gone, l, height, todo) && fee in todo
    ensures ExpiredOutside(gone + Expired(OfFee(l, fee), height), l, height, todo - {fee})
  {
    var more := Expired(OfFee(l, fee), height);
    SublistsDistinct(l, height, fee);
    SublistsDistinct(OfFee(l, fee), height, fee);
    forall t ensures t in more <==> t in l && t.lastValidBlockHeight <= height && t.fee == fee {
      LiveMembers(OfFee(l, fee), height, t);
      OfFeeMembers(l, fee, t);
    }
    assert forall t :: t in gone + more <==> t in gone || t in more;
    forall i, j | 0 <= i < |gone| && 0 <= j < |more| ensures gone[i].signature != more[j].signature {
      assert gone[i] in gone && more[j] in more;
      var a :| 0 <= a < |l| && l[a] == gone[i];
      var b :| 0 <= b < |l| && l[b] == more[j];
      assert a != b;
    }
  }

  lemma {:induction false} LiveRepresents(before: map<nat, seq<Tx>>, l: seq<Tx>, height: nat, queues: map<nat, seq<Tx>>)
    requires Represents(before, l)
    requires forall fee :: fee in queues <==> fee in before && Live(before[fee], height) != []
    requires forall fee :: fee in queues ==> queues[fee] == Live(before[fee], height)
    ensures Represents(queues, Live(l, height))
  {
    forall fee
      ensures (fee in queues <==> fee in FeesOf(Live(l, height)))
        && (fee in queues ==> queues[fee] == OfFee(Live(l, height), fee))
    {
      LiveOfFee(l, height, fee);
      OfFeeEmpty(Live(l, height), fee);
      OfFeeEmpty(l, fee);
    }
  }

  lemma {:induction false} LiveSignatures(l: seq<Tx>, gone: seq<Tx>, height: nat)
    requires Distinct(l) && ExpiredOutside(gone, l, height, {})
    ensures Distinct(Live(l, height)) && |Live(l, height)| <= |l|
    ensures SignaturesOf(Live(l, height)) == SignaturesOf(l) - (set sig | sig in SignatureList(gone))
    ensures |gone| == |l| - |Live(l, height)|
  {
    var live := Live(l, height);
    SublistsDistinct(l, height, 0);
    forall t ensures t in live <==> t in l && t.lastValidBlockHeight > height { LiveMembers(l, height, t); }
    SignatureSet(gone);
    forall sig ensures sig in SignaturesOf(live) <==> sig in SignaturesOf(l) && sig !in SignaturesOf(gone) {
      SignatureSplit(l, live, gone, height, sig);
    }
    assert SignaturesOf(gone) <= SignaturesOf(l);
    assert SignaturesOf(l) == SignaturesOf(live) + SignaturesOf(gone);
    DistinctSize(l);
    DistinctSize(live);
    DistinctSize(gone);
  }

  lemma {:induction false} SignatureSet(l: seq<Tx>)
    ensures (set sig | sig in SignatureList(l)) == SignaturesOf(l)
  {
    forall t | t in l ensures t.signature in SignatureList(l) {
      var i :| 0 <= i < |l| && l[i] == t;
      assert SignatureList(l)[i] == t.signature;
    }
    forall sig | sig in SignatureList(l) ensures sig in SignaturesOf(l) {
      var i :| 0 <= i < |l| && SignatureList(l)[i] == sig;
      assert l[i] in l;
    }
  }

  /** A signature belongs to one transaction, which is either live or expired. */
  lemma {:induction false} SignatureSplit(l: seq<Tx>, live: seq<Tx>, gone: seq<Tx>, height: nat, sig: Signature)
    requires Distinct(l)
    requires forall t :: t in live <==> t in l && t.lastValidBlockHeight > height
    requires forall t :: t in gone <==> t in l && t.lastValidBlockHeight <= height
    ensures sig in SignaturesOf(live) <==> sig in SignaturesOf(l) && sig !in SignaturesOf(gone)
  {
    forall x, y | x in live && y in gone ensures x.signature != y.signature {
      var a :| 0 <= a < |l| && l[a] == x;
      var b :| 0 <= b < |l| && l[b] == y;
      assert a != b;
    }
    if sig in SignaturesOf(l) {
      var t :| t in l && t.signature == sig;
      assert t in live || t in gone;
    }
  }
}
