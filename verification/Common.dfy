/** Vocabulary shared by the models of the lite-rpc state machines. */
module Common {

  datatype Option<+T> = None | Some(value: T)

  /** The commitment levels, in the order in which the cluster reaches them. */
  datatype Commitment = Processed | Confirmed | Finalized

  // Opaque identifiers of the chain. Only equality (and, for slots and keys, order) matters.
  type Slot = nat
  type Hash = nat
  type Pubkey = nat
  type Signature = nat

  datatype ProducedBlock = ProducedBlock(slot: Slot, blockhash: Hash, transactions: seq<Signature>,
        commitment: Commitment)

  datatype BlockInfo = BlockInfo(slot: Slot, blockhash: Hash, blockHeight: nat, commitment: Commitment)

  /** Subtraction on unsigned integers that stops at zero. */
  function SaturatingSub(a: nat, b: nat): nat {
    if a < b then 0 else a - b
  }

  predicate IsLeast(m: nat, s: set<nat>) {
    m in s && forall x | x in s :: m <= x
  }

  predicate IsGreatest(m: nat, s: set<nat>) {
    m in s && forall x | x in s :: x <= m
  }

  lemma {:induction false} LeastExists(s: set<nat>)
    requires s != {}
    ensures exists m :: IsLeast(m, s)
  {
    var y :| y in s;
    var rest := s - {y};
    if rest == {} {
      assert IsLeast(y, s) by { assert forall x | x in s :: x == y || x in rest; }
    } else {
      LeastExists(rest);
      var m :| IsLeast(m, rest);
      var least := if m < y then m else y;
      assert IsLeast(least, s) by { assert forall x | x in s :: x == y || x in rest; }
    }
  }

  lemma {:induction false} GreatestExists(s: set<nat>)
    requires s != {}
    ensures exists m :: IsGreatest(m, s)
  {
    var y :| y in s;
    var rest := s - {y};
    if rest == {} {
      assert IsGreatest(y, s) by { assert forall x | x in s :: x == y || x in rest; }
    } else {
      GreatestExists(rest);
      var m :| IsGreatest(m, rest);
      var greatest := if m < y then y else m;
      assert IsGreatest(greatest, s) by { assert forall x | x in s :: x == y || x in rest; }
    }
  }

  /** The key a BTreeSet or BTreeMap reports as first. */
  function Min(s: set<nat>): (m: nat)
    requires s != {}
    ensures m in s && forall x | x in s :: m <= x
  {
    LeastExists(s);
    var m :| m in s && IsLeast(m, s);
    m
  }

  /** The key a BTreeSet or BTreeMap reports as last. */
  function Max(s: set<nat>): (m: nat)
    requires s != {}
    ensures m in s && forall x | x in s :: x <= m
  {
    GreatestExists(s);
    var m :| m in s && IsGreatest(m, s);
    m
  }

  /** A set is no larger than any set that contains it. */
  lemma {:induction false} SubsetSize<T>(a: set<T>, b: set<T>)
    requires a <= b
    ensures |a| <= |b|
    ensures |a| == |b| ==> a == b
  {
    assert b == a + (b - a);
    assert |b| == |a| + |b - a|;
  }

  /** Taking one element out of a sequence takes it out of its multiset. */
  lemma {:induction false} MultisetWithout<T>(s: seq<T>, i: nat)
    requires i < |s|
    ensures multiset(s) == multiset(s[..i] + s[i + 1..]) + multiset{s[i]}
  {
    assert s == s[..i] + ([s[i]] + s[i + 1..]);
    assert multiset(s) == multiset(s[..i]) + multiset([s[i]] + s[i + 1..]);
  }

  /** Sequences with the same elements still have the same elements without one common element. */
  lemma {:induction false} MultisetPeel<T>(a: seq<T>, b: seq<T>, i: nat)
    requires multiset(a) == multiset(b) && a != [] && i < |b| && b[i] == a[|a| - 1]
    ensures multiset(a[..|a| - 1]) == multiset(b[..i] + b[i + 1..])
  {
    MultisetWithout(a, |a| - 1);
    MultisetWithout(b, i);
    assert a[..|a| - 1] + a[|a|..] == a[..|a| - 1];
    var x := a[|a| - 1];
    assert multiset(a[..|a| - 1]) == multiset(a) - multiset{x};
    assert multiset(b[..i] + b[i + 1..]) == multiset(b) - multiset{x};
  }
}
