/**
 The stakes that a leader schedule is drawn from (stake_vote/src/leader_schedule.rs): effective stake
 is summed by vote account, then by validator node, and the nodes are sorted. Hash maps are iterated
 in any order.
 */
module EpochStakes {
  import opened Common
  import opened TakableMap
  import opened StakeAccounts

  // ----- sums over sets of keys

  ghost function Sum(keys: set<Pubkey>, f: Pubkey -> nat): nat {
    if keys == {} then 0
    else
      var k := Min(keys);
      f(k) + Sum(keys - {k}, f)
  }

  /** Any key may be taken out of a sum. */
  lemma {:induction false} SumWithout(keys: set<Pubkey>, f: Pubkey -> nat, k: Pubkey)
    requires k in keys
    ensures Sum(keys, f) == f(k) + Sum(keys - {k}, f)
    decreases |keys|
  {
    var first := Min(keys);
    if k != first {
      SumWithout(keys - {first}, f, k);
      SumWithout(keys - {k}, f, first);
      assert keys - {first} - {k} == keys - {k} - {first};
    }
  }

  lemma {:induction false} SumDisjoint(a: set<Pubkey>, b: set<Pubkey>, f: Pubkey -> nat)
    requires a !! b
    ensures Sum(a + b, f) == Sum(a, f) + Sum(b, f)
    decreases |b|
  {
    if b == {} {
      assert a + b == a;
    } else {
      var k := Min(b);
      SumDisjoint(a, b - {k}, f);
      SumWithout(a + b, f, k);
      assert a + b - {k} == a + (b - {k});
    }
  }

  lemma {:induction false} SumSame(keys: set<Pubkey>, f: Pubkey -> nat, g: Pubkey -> nat)
    requires forall k :: k in keys ==> f(k) == g(k)
    ensures Sum(keys, f) == Sum(keys, g)
    decreases |keys|
  {
    if keys != {} { SumSame(keys - {Min(keys)}, f, g); }
  }

  lemma {:induction false} SumZero(keys: set<Pubkey>, f: Pubkey -> nat)
    ensures Sum(keys, f) == 0 <==> forall k :: k in keys ==> f(k) == 0
    decreases |keys|
  {
    if keys != {} { SumZero(keys - {Min(keys)}, f); }
  }

  function Fiber(keys: set<Pubkey>, h: Pubkey -> Pubkey, g: Pubkey): set<Pubkey> {
    set k | k in keys && h(k) == g
  }

  function Over(keys: set<Pubkey>, h: Pubkey -> Pubkey, groups: set<Pubkey>): set<Pubkey> {
    set k | k in keys && h(k) in groups
  }

  /** Summing group by group gives the sum over all keys that belong to the groups. */
  lemma {:induction false} SumByGroups(keys: set<Pubkey>, f: Pubkey -> nat, h: Pubkey -> Pubkey, groups: set<Pubkey>)
    ensures Sum(groups, (g: Pubkey) => Sum(Fiber(keys, h, g), f)) == Sum(Over(keys, h, groups), f)
    decreases |groups|
  {
    var inner := (g: Pubkey) => Sum(Fiber(keys, h, g), f);
    if groups == {} {
      assert Over(keys, h, groups) == {};
    } else {
      var g := Min(groups);
      SumByGroups(keys, f, h, groups - {g});
      SumDisjoint(Over(keys, h, groups - {g}), Fiber(keys, h, g), f);
      assert Over(keys, h, groups) == Over(keys, h, groups - {g}) + Fiber(keys, h, g);
    }
  }

  // ----- stake by vote account

  function VoterOf(stakes: StakeMap): Pubkey -> Pubkey {
    (pk: Pubkey) => if pk in stakes then stakes[pk].data.voterPubkey else 0
  }

  function EffectiveAt(stakes: StakeMap, effective: Delegation -> nat, pk: Pubkey): nat {
    if pk in stakes then effective(stakes[pk].data) else 0
  }

  function EffectiveOf(stakes: StakeMap, effective: Delegation -> nat): Pubkey -> nat {
    (pk: Pubkey) => EffectiveAt(stakes, effective, pk)
  }

  /** Effective stake of the stake accounts among the keys that delegate to a vote account. */
  ghost function Delegated(stakes: StakeMap, keys: set<Pubkey>, voter: Pubkey, effective: Delegation -> nat): nat {
    Sum(Fiber(keys, VoterOf(stakes), voter), EffectiveOf(stakes, effective))
  }

  type VoteStakes = map<Pubkey, (nat, Stored<VoteState>)>

  ghost predicate AreEpochStakes(r: VoteStakes, stakes: StakeMap, votes: VoteMap, effective: Delegation -> nat) {
    && r.Keys == votes.Keys
    && forall pk :: pk in votes ==> r[pk] == (Delegated(stakes, stakes.Keys, pk, effective), votes[pk])
  }

  ghost predicate Accumulates(
      delegated: map<Pubkey, nat>, stakes: StakeMap, done: set<Pubkey>, effective: Delegation -> nat)
  {
    forall voter: Pubkey :: Delegated(stakes, done, voter, effective) ==
      if voter in delegated then delegated[voter] else 0
  }

  function AddTo(delegated: map<Pubkey, nat>, voter: Pubkey, stake: nat): map<Pubkey, nat> {
    delegated[voter := (if voter in delegated then delegated[voter] else 0) + stake]
  }

  lemma {:induction false} AccumulateNext(
      delegated: map<Pubkey, nat>, stakes: StakeMap, done: set<Pubkey>, pk: Pubkey, effective: Delegation -> nat)
    requires Accumulates(delegated, stakes, done, effective) && pk in stakes && pk !in done
    ensures Accumulates(AddTo(delegated, stakes[pk].data.voterPubkey, effective(stakes[pk].data)),
                        stakes, done + {pk}, effective)
  {
    forall voter: Pubkey
      ensures Delegated(stakes, done + {pk}, voter, effective) == Delegated(stakes, done, voter, effective) +
        if voter == stakes[pk].data.voterPubkey then effective(stakes[pk].data) else 0
    {
      DelegatedNext(stakes, done, pk, voter, effective);
    }
  }

  lemma {:induction false} DelegatedNext(
      stakes: StakeMap, done: set<Pubkey>, pk: Pubkey, voter: Pubkey, effective: Delegation -> nat)
    requires pk in stakes && pk !in done
    ensures Delegated(stakes, done + {pk}, voter, effective) == Delegated(stakes, done, voter, effective) +
      if voter == stakes[pk].data.voterPubkey then effective(stakes[pk].data) else 0
  {
    var h, f := VoterOf(stakes), EffectiveOf(stakes, effective);
    if voter == h(pk) {
      SumWithout(Fiber(done + {pk}, h, voter), f, pk);
      assert Fiber(done + {pk}, h, voter) - {pk} == Fiber(done, h, voter);
    } else {
      assert Fiber(done + {pk}, h, voter) == Fiber(done, h, voter);
    }
  }

  lemma {:induction false} NothingAccumulated(stakes: StakeMap, effective: Delegation -> nat)
    ensures Accumulates(map[], stakes, {}, effective)
  {
    forall voter: Pubkey ensures Delegated(stakes, {}, voter, effective) == 0 {
      assert Fiber({}, VoterOf(stakes), voter) == {};
    }
  }

  /** The fold over the stake accounts. */
  method DelegatedStakes(stakes: StakeMap, effective: Delegation -> nat) returns (delegated: map<Pubkey, nat>)
    ensures Accumulates(delegated, stakes, stakes.Keys, effective)
  {
    delegated := map[];
    var todo := stakes.Keys;
    ghost var done: set<Pubkey> := {};
    NothingAccumulated(stakes, effective);
    while todo != {}
      invariant forall pk :: pk in stakes <==> pk in todo || pk in done
      invariant forall pk :: pk in todo ==> pk !in done
      invariant Accumulates(delegated, stakes, done, effective)
    {
      var pk :| pk in todo;
      AccumulateNext(delegated, stakes, done, pk, effective);
      delegated := AddTo(delegated, stakes[pk].data.voterPubkey, effective(stakes[pk].data));
      todo := todo - {pk};
      done := done + {pk};
    }
    assert done == stakes.Keys;
  }

  method CalculateEpochStakes(stakes: StakeMap, votes: VoteMap, effective: Delegation -> nat) returns (r: VoteStakes)
    requires Filed(votes)
    ensures AreEpochStakes(r, stakes, votes, effective)
  {
    var delegated := DelegatedStakes(stakes, effective);
    r := map pk | pk in votes :: (if pk in delegated then delegated[pk] else 0, votes[pk]);
  }

  // ----- stake by node

  function NodeOf(r: VoteStakes): Pubkey -> Pubkey {
    (pk: Pubkey) => if pk in r then r[pk].1.data.nodePubkey else 0
  }

  function StakeOf(r: VoteStakes): Pubkey -> nat {
    (pk: Pubkey) => if pk in r then r[pk].0 else 0
  }

  ghost function NodeStake(r: VoteStakes, keys: set<Pubkey>, node: Pubkey): nat {
    Sum(Fiber(keys, NodeOf(r), node), StakeOf(r))
  }

  /** The nodes with stake, each with the stake of all its vote accounts. */
  ghost predicate Groups(nodes: map<Pubkey, nat>, r: VoteStakes, done: set<Pubkey>) {
    forall node: Pubkey :: NodeStake(r, done, node) == (if node in nodes then nodes[node] else 0)
      && (node in nodes ==> nodes[node] > 0)
  }

  /** One vote account joins its node; accounts without stake are left out. */
  function Grouped(nodes: map<Pubkey, nat>, stake: nat, node: Pubkey): map<Pubkey, nat> {
    if stake != 0 then nodes[node := (if node in nodes then nodes[node] else 0) + stake] else nodes
  }

  lemma {:induction false} NodeStakeNext(r: VoteStakes, done: set<Pubkey>, pk: Pubkey, node: Pubkey)
    requires pk in r && pk !in done
    ensures NodeStake(r, done + {pk}, node) ==
      NodeStake(r, done, node) + if node == r[pk].1.data.nodePubkey then r[pk].0 else 0
  {
    var h, f := NodeOf(r), StakeOf(r);
    if node == h(pk) {
      SumWithout(Fiber(done + {pk}, h, node), f, pk);
      assert Fiber(done + {pk}, h, node) - {pk} == Fiber(done, h, node);
    } else {
      assert Fiber(done + {pk}, h, node) == Fiber(done, h, node);
    }
  }

  lemma {:induction false} GroupNextAt(
      nodes: map<Pubkey, nat>, r: VoteStakes, done: set<Pubkey>, pk: Pubkey, node: Pubkey)
    requires Groups(nodes, r, done) && pk in r && pk !in done
    ensures var next := Grouped(nodes, r[pk].0, r[pk].1.data.nodePubkey);
      NodeStake(r, done + {pk}, node) == (if node in next then next[node] else 0) && (node in next ==> next[node] > 0)
  {
    NodeStakeNext(r, done, pk, node);
    assert NodeStake(r, done, node) == if node in nodes then nodes[node] else 0;
  }

  lemma {:induction false} GroupNext(nodes: map<Pubkey, nat>, r: VoteStakes, done: set<Pubkey>, pk: Pubkey)
    requires Groups(nodes, r, done) && pk in r && pk !in done
    ensures Groups(Grouped(nodes, r[pk].0, r[pk].1.data.nodePubkey), r, done + {pk})
  {
    var next := Grouped(nodes, r[pk].0, r[pk].1.data.nodePubkey);
    forall node: Pubkey
      ensures NodeStake(r, done + {pk}, node) == (if node in next then next[node] else 0)
        && (node in next ==> next[node] > 0)
    {
      GroupNextAt(nodes, r, done, pk, node);
    }
  }

  lemma {:induction false} NothingGrouped(r: VoteStakes)
    ensures Groups(map[], r, {})
  {
    forall node: Pubkey ensures NodeStake(r, {}, node) == 0 { assert Fiber({}, NodeOf(r), node) == {}; }
  }

  method GroupByNode(r: VoteStakes) returns (nodes: map<Pubkey, nat>)
    ensures Groups(nodes, r, r.Keys)
  {
    nodes := map[];
    var todo := r.Keys;
    ghost var done: set<Pubkey> := {};
    NothingGrouped(r);
    while todo != {}
      invariant forall pk :: pk in r <==> pk in todo || pk in done
      invariant forall pk :: pk in todo ==> pk !in done
      invariant Groups(nodes, r, done)
    {
      var pk :| pk in todo;
      GroupNext(nodes, r, done, pk);
      nodes := Grouped(nodes, r[pk].0, r[pk].1.data.nodePubkey);
      todo := todo - {pk};
      done := done + {pk};
    }
    assert done == r.Keys;
  }

  // ----- sorting

  type NodeEntry = (Pubkey, nat)

  /** The schedule's order: more stake first, and among equals the greater key. */
  predicate Before(a: NodeEntry, b: NodeEntry) {
    a.1 > b.1 || (a.1 == b.1 && a.0 > b.0)
  }

  ghost predicate StrictlySorted(l: seq<NodeEntry>) {
    forall i, j :: 0 <= i < j < |l| ==> Before(l[i], l[j])
  }

  /** A strictly sorted list is determined by its elements. */
  lemma {:induction false} SortedIsUnique(a: seq<NodeEntry>, b: seq<NodeEntry>)
    requires StrictlySorted(a) && StrictlySorted(b) && (forall x :: x in a <==> x in b)
    ensures a == b
  {
    assert a != [] ==> a[0] in b;
    assert b != [] ==> b[0] in a;
    if a != [] && b != [] {
      HeadsAgree(a, b);
      forall x ensures x in a[1..] <==> x in b[1..] {
        TailElements(a, x);
        TailElements(b, x);
      }
      SortedIsUnique(a[1..], b[1..]);
      assert a == [a[0]] + a[1..] && b == [b[0]] + b[1..];
    }
  }

  lemma {:induction false} HeadsAgree(a: seq<NodeEntry>, b: seq<NodeEntry>)
    requires StrictlySorted(a) && StrictlySorted(b) && a != [] && b != [] && (forall x :: x in a <==> x in b)
    ensures a[0] == b[0]
  {
    assert a[0] in b && b[0] in a;
    var i :| 0 <= i < |b| && b[i] == a[0];
    var j :| 0 <= j < |a| && a[j] == b[0];
  }

  lemma {:induction false} TailElements(l: seq<NodeEntry>, x: NodeEntry)
    requires StrictlySorted(l) && l != []
    ensures x in l[1..] <==> x in l && x != l[0]
  {
    assert l == [l[0]] + l[1..];
    if x in l[1..] {
      var i :| 0 <= i < |l[1..]| && l[1..][i] == x;
      assert Before(l[0], l[i + 1]);
    }
  }

  /** Puts one entry in its place; an equal one is dropped. */
  method InsertEntry(l: seq<NodeEntry>, x: NodeEntry) returns (r: seq<NodeEntry>)
    requires StrictlySorted(l)
    ensures StrictlySorted(r) && forall y :: y in r <==> y in l || y == x
  {
    var i := 0;
    while i < |l| && Before(l[i], x)
      invariant 0 <= i <= |l| && forall k :: 0 <= k < i ==> Before(l[k], x)
    {
      i := i + 1;
    }
    if i < |l| && l[i] == x {
      r := l;
    } else {
      r := l[..i] + [x] + l[i..];
      PlacedEntry(l, i, x);
    }
  }

  lemma {:induction false} PlacedPair(l: seq<NodeEntry>, i: nat, x: NodeEntry, a: nat, b: nat)
    requires StrictlySorted(l) && i <= |l| && (i > 0 ==> Before(l[i - 1], x)) && (i < |l| ==> Before(x, l[i]))
      && a < b <= |l|
    ensures var r := l[..i] + [x] + l[i..]; Before(r[a], r[b])
  {
    if b < i || i < a || (a < i && i < b) {
    } else if b == i {
      assert a < i - 1 ==> Before(l[a], l[i - 1]);
    } else {
      assert b > i + 1 ==> Before(l[i], l[b - 1]);
    }
  }

  lemma {:induction false} PlacedEntry(l: seq<NodeEntry>, i: nat, x: NodeEntry)
    requires StrictlySorted(l) && i <= |l| && (i > 0 ==> Before(l[i - 1], x)) && (i < |l| ==> Before(x, l[i]))
    ensures var r := l[..i] + [x] + l[i..]; StrictlySorted(r) && forall y :: y in r <==> y in l || y == x
  {
    assert l == l[..i] + l[i..];
    forall a, b | 0 <= a < b <= |l| ensures Before((l[..i] + [x] + l[i..])[a], (l[..i] + [x] + l[i..])[b]) {
      PlacedPair(l, i, x, a, b);
    }
  }

  /** sort_unstable_by followed by dedup. */
  method SortStakes(stakes: seq<NodeEntry>) returns (r: seq<NodeEntry>)
    ensures StrictlySorted(r) && forall x :: x in r <==> x in stakes
  {
    r := [];
    for i := 0 to |stakes|
      invariant StrictlySorted(r) && forall x :: x in r <==> x in stakes[..i]
    {
      r := InsertEntry(r, stakes[i]);
      assert stakes[..i + 1] == stakes[..i] + [stakes[i]];
    }
    assert stakes[..|stakes|] == stakes;
  }

  /** The list handed to the schedule: every node with stake, once, with its stake, in the schedule's order. */
  ghost predicate IsNodeStakeList(l: seq<NodeEntry>, r: VoteStakes) {
    && StrictlySorted(l)
    && forall node: Pubkey, stake: nat :: (node, stake) in l <==> stake > 0 && NodeStake(r, r.Keys, node) == stake
  }

  /** Collects the entries of a hash map in some order. */
  method Entries(nodes: map<Pubkey, nat>) returns (entries: seq<NodeEntry>)
    ensures forall x: NodeEntry :: x in entries <==> x.0 in nodes && nodes[x.0] == x.1
  {
    entries := [];
    var todo := nodes.Keys;
    while todo != {}
      invariant todo <= nodes.Keys
      invariant forall x: NodeEntry :: x in entries <==> x.0 in nodes && x.0 !in todo && nodes[x.0] == x.1
    {
      var node :| node in todo;
      entries := entries + [(node, nodes[node])];
      todo := todo - {node};
    }
  }

  method NodeStakeList(r: VoteStakes) returns (l: seq<NodeEntry>)
    ensures IsNodeStakeList(l, r)
  {
    var nodes := GroupByNode(r);
    var entries := Entries(nodes);
    l := SortStakes(entries);
    forall node: Pubkey, stake: nat ensures (node, stake) in l <==> stake > 0 && NodeStake(r, r.Keys, node) == stake {
      assert (node, stake) in l <==> (node, stake) in entries;
    }
  }

  /** The list does not depend on the order in which the hash maps were iterated. */
  lemma {:induction false} NodeStakeListUnique(a: seq<NodeEntry>, b: seq<NodeEntry>, r: VoteStakes)
    requires IsNodeStakeList(a, r) && IsNodeStakeList(b, r)
    ensures a == b
  {
    forall x ensures x in a <==> x in b { assert x == (x.0, x.1); }
    SortedIsUnique(a, b);
  }

  // ----- conservation

  function Total(l: seq<NodeEntry>): nat {
    if l == [] then 0 else Total(l[..|l| - 1]) + l[|l| - 1].1
  }

  function Nodes(l: seq<NodeEntry>): set<Pubkey> {
    set x | x in l :: x.0
  }

  lemma {:induction false} TotalIsSum(l: seq<NodeEntry>, f: Pubkey -> nat)
    requires (forall i, j :: 0 <= i < j < |l| ==> l[i].0 != l[j].0)
      && (forall i :: 0 <= i < |l| ==> f(l[i].0) == l[i].1)
    ensures Total(l) == Sum(Nodes(l), f)
  {
    if l == [] {
      assert Nodes(l) == {};
    } else {
      var front, x := l[..|l| - 1], l[|l| - 1];
      TotalIsSum(front, f);
      assert l == front + [x];
      assert Nodes(l) == Nodes(front) + {x.0} by {
        assert x in l;
        forall n | n in Nodes(front) ensures n in Nodes(l) { var y :| y in front && y.0 == n; assert y in l; }
      }
      assert x.0 !in Nodes(front);
      SumWithout(Nodes(l), f, x.0);
      assert Nodes(l) - {x.0} == Nodes(front);
    }
  }

  lemma {:induction false} ListIsByNode(l: seq<NodeEntry>, r: VoteStakes)
    requires IsNodeStakeList(l, r)
    ensures forall i :: 0 <= i < |l| ==> NodeStake(r, r.Keys, l[i].0) == l[i].1
    ensures forall i, j :: 0 <= i < j < |l| ==> l[i].0 != l[j].0
  {
    forall i | 0 <= i < |l| ensures NodeStake(r, r.Keys, l[i].0) == l[i].1 { assert (l[i].0, l[i].1) in l; }
    forall i, j | 0 <= i < j < |l| ensures l[i].0 != l[j].0 { assert Before(l[i], l[j]); }
  }

  /** The stakes of the list add up to the stakes of the vote accounts. */
  lemma {:induction false} ListTotal(l: seq<NodeEntry>, r: VoteStakes)
    requires IsNodeStakeList(l, r)
    ensures Total(l) == Sum(r.Keys, StakeOf(r))
  {
    var h, f := NodeOf(r), StakeOf(r);
    var byNode := (node: Pubkey) => Sum(Fiber(r.Keys, h, node), f);
    ListIsByNode(l, r);
    TotalIsSum(l, byNode);
    SumByGroups(r.Keys, f, h, Nodes(l));
    var covered := Over(r.Keys, h, Nodes(l));
    SumDisjoint(covered, r.Keys - covered, f);
    assert covered + (r.Keys - covered) == r.Keys;
    forall pk | pk in r.Keys - covered ensures f(pk) == 0 {
      var stake := NodeStake(r, r.Keys, h(pk));
      assert stake > 0 ==> (h(pk), stake) in l;
      SumZero(Fiber(r.Keys, h, h(pk)), f);
      assert pk in Fiber(r.Keys, h, h(pk));
    }
    SumZero(r.Keys - covered, f);
  }

  /** The node stakes sum to the effective stake of all stake accounts delegated to known vote accounts. */
  lemma {:induction false} StakeIsConserved(
      l: seq<NodeEntry>, r: VoteStakes, stakes: StakeMap, votes: VoteMap, effective: Delegation -> nat)
    requires AreEpochStakes(r, stakes, votes, effective) && IsNodeStakeList(l, r)
    ensures Total(l) == Sum(Over(stakes.Keys, VoterOf(stakes), votes.Keys), EffectiveOf(stakes, effective))
  {
    ListTotal(l, r);
    var h, f := VoterOf(stakes), EffectiveOf(stakes, effective);
    SumByGroups(stakes.Keys, f, h, votes.Keys);
    SumSame(votes.Keys, StakeOf(r), (g: Pubkey) => Sum(Fiber(stakes.Keys, h, g), f));
  }

  /** The list is sorted by stake and, where stakes are equal, by key, both from the greatest down. */
  lemma {:induction false} ListDescends(l: seq<NodeEntry>, r: VoteStakes, i: nat, j: nat)
    requires IsNodeStakeList(l, r) && i < j < |l|
    ensures l[i].1 > l[j].1 || (l[i].1 == l[j].1 && l[i].0 > l[j].0)
  {
    assert Before(l[i], l[j]);
  }
}
