/**
 The owner index of the account store against a full scan: get_program_accounts looks only at the
 accounts filed under the program (accounts/src/inmemory_account_store.rs).
 */
module OwnerIndex {
  import opened Common
  import opened AccountViews
  import opened AccountStore
  import opened AccountRuns

  /** The data is one of the versions or views the account still holds. */
  ghost predicate Holds(v: View, d: AccountData) {
    (exists s :: s in v.processed && v.processed[s] == d) || v.confirmed == Some(d) || v.finalized == Some(d)
  }

  /** Every owner that an account has in any of its versions lists the account. */
  ghost predicate Complete(st: Store) {
    forall pk, d :: pk in st.accounts && Holds(st.accounts[pk], d) ==> pk in Indexed(st.byOwner, d.owner)
  }

  /** The account is listed under the owner of everything it holds. */
  ghost predicate Filed(v: View, pk: Pubkey, index: Index) {
    forall d :: Holds(v, d) ==> pk in Indexed(index, d.owner)
  }

  lemma {:induction false} ReadIsHeld(v: View, pk: Pubkey, level: Commitment)
    requires WellFormed(v, pk) && Read(v, level).Some?
    ensures Holds(v, Read(v, level).value)
  {
  }

  /** With a complete index the lookup finds exactly what a scan of all accounts finds. */
  lemma {:induction false} CompleteIndexScans(
      st: Store, program: Pubkey, allows: AccountData -> bool, level: Commitment)
    requires AllWellFormed(st.accounts) && Complete(st)
    ensures IndexScan(st, program, allows, level) == FullScan(st, program, allows, level)
    ensures program !in st.byOwner ==> FullScan(st, program, allows, level) == {}
  {
    forall pk | pk in st.accounts && Read(st.accounts[pk], level).Some?
      ensures pk in Indexed(st.byOwner, Read(st.accounts[pk], level).value.owner)
    {
      ReadIsHeld(st.accounts[pk], pk, level);
    }
  }

  // ----- one update

  lemma {:induction false} UpdatedHolds(v: View, data: AccountData, level: Commitment, d: AccountData)
    requires UpdateReported(v, data, level)
    ensures Holds(Updated(v, data, level), data)
    ensures Holds(Updated(v, data, level), d) ==> Holds(v, d) || d == data
  {
    var u := Updated(v, data, level);
    if data.slot !in v.processed { assert u.processed[data.slot] == data; }
  }

  lemma {:induction false} UnreportedUpdate(v: View, data: AccountData, level: Commitment)
    requires !UpdateReported(v, data, level)
    ensures Updated(v, data, level) == v
  {
  }

  lemma {:induction false} OwnerUpdateAt(
      index: Index, prev: AccountData, data: AccountData, level: Commitment, pk: Pubkey, owner: Pubkey)
    requires prev.pubkey == data.pubkey
    ensures pk in Indexed(UpdateOwner(index, prev, data, level), owner) <==>
      if prev.owner == data.owner || pk != data.pubkey then pk in Indexed(index, owner)
      else owner == data.owner || (pk in Indexed(index, owner) && !(level == Finalized && owner == prev.owner))
  {
  }

  /** No version or view that stays behind has this owner. */
  ghost predicate OwnerGone(v: View, owner: Pubkey) {
    forall d :: Holds(v, d) ==> d.owner != owner
  }

  /** When an update keeps the index complete; decided before the call. */
  ghost predicate UpdateSafe(st: Store, data: AccountData, given: Commitment) {
    data.pubkey in st.accounts ==>
      var v, level := st.accounts[data.pubkey], EffectiveLevel(st, data, given);
      var prev := Read(v, level);
      || !UpdateReported(v, data, level)
      || (prev.None? && data.pubkey in Indexed(st.byOwner, data.owner))
      || (prev.Some? && (prev.value.owner == data.owner || level != Finalized))
      || (prev.Some? && OwnerGone(Updated(v, data, level), prev.value.owner))
  }

  /** Other accounts are not touched by an update. */
  lemma {:induction false} UpdateKeepsOthers(st: Store, data: AccountData, given: Commitment, pk: Pubkey, owner: Pubkey)
    requires AllWellFormed(st.accounts) && pk != data.pubkey
    ensures pk in Indexed(UpdateAccount(st, data, given).byOwner, owner) <==> pk in Indexed(st.byOwner, owner)
  {
    if data.pubkey in st.accounts {
      var v, level := st.accounts[data.pubkey], EffectiveLevel(st, data, given);
      assert WellFormed(v, data.pubkey);
      if Read(v, level).Some? { OwnerUpdateAt(st.byOwner, Read(v, level).value, data, level, pk, owner); }
    }
  }

  /** After a safe update the updated account is filed under all its owners. */
  lemma {:induction false} UpdateFiles(st: Store, data: AccountData, given: Commitment)
    requires AllWellFormed(st.accounts) && data.pubkey in st.accounts && UpdateSafe(st, data, given)
    requires Filed(st.accounts[data.pubkey], data.pubkey, st.byOwner)
    ensures var after := UpdateAccount(st, data, given);
      Filed(after.accounts[data.pubkey], data.pubkey, after.byOwner)
  {
    var pk, v, level := data.pubkey, st.accounts[data.pubkey], EffectiveLevel(st, data, given);
    var after := UpdateAccount(st, data, given);
    var prev := Read(v, level);
    assert WellFormed(v, pk);
    if !UpdateReported(v, data, level) {
      UnreportedUpdate(v, data, level);
    } else {
      if prev.Some? { ReadIsHeld(v, pk, level); }
      forall d | Holds(Updated(v, data, level), d) ensures pk in Indexed(after.byOwner, d.owner) {
        UpdatedHolds(v, data, level, d);
        if prev.Some? { OwnerUpdateAt(st.byOwner, prev.value, data, level, pk, d.owner); }
      }
    }
  }

  lemma {:induction false} OthersStayFiled(st: Store, data: AccountData, given: Commitment, pk: Pubkey)
    requires AllWellFormed(st.accounts) && pk != data.pubkey
    requires pk in st.accounts && Filed(st.accounts[pk], pk, st.byOwner)
    ensures pk in UpdateAccount(st, data, given).accounts
    ensures Filed(UpdateAccount(st, data, given).accounts[pk], pk, UpdateAccount(st, data, given).byOwner)
  {
    forall d | Holds(st.accounts[pk], d) ensures pk in Indexed(UpdateAccount(st, data, given).byOwner, d.owner) {
      UpdateKeepsOthers(st, data, given, pk, d.owner);
    }
  }

  /** A safe update keeps the index complete. */
  lemma {:induction false} UpdateKeepsIndex(st: Store, data: AccountData, given: Commitment)
    requires AllWellFormed(st.accounts) && Complete(st) && UpdateSafe(st, data, given)
    ensures Complete(UpdateAccount(st, data, given))
  {
    var after := UpdateAccount(st, data, given);
    forall pk | pk in after.accounts ensures Filed(after.accounts[pk], pk, after.byOwner) {
      if pk != data.pubkey {
        OthersStayFiled(st, data, given, pk);
      } else if pk in st.accounts {
        UpdateFiles(st, data, given);
      }
    }
  }

  // ----- one promotion

  /** The promotion moves the account from one owner to another. */
  predicate ChangesOwner(v: View, slot: Slot, level: Commitment) {
    Promotes(v, slot, level) && Read(v, level).Some? && Read(v, level).value.owner != v.processed[slot].owner
  }

  /** Where an account is filed after the given accounts were promoted. */
  ghost predicate FiledAfter(
      accounts: map<Pubkey, View>, index: Index, slot: Slot, level: Commitment, pk: Pubkey, owner: Pubkey,
      promoted: bool)
    requires pk in accounts
  {
    if promoted && ChangesOwner(accounts[pk], slot, level)
    then owner == accounts[pk].processed[slot].owner
         || (pk in Indexed(index, owner) && !(level == Finalized && owner == Read(accounts[pk], level).value.owner))
    else pk in Indexed(index, owner)
  }

  /** One more promotion changes the place of its own account only. */
  lemma {:induction false} ReindexOne(
      accounts: map<Pubkey, View>, front: seq<Pubkey>, last: Pubkey, index: Index, slot: Slot, level: Commitment,
      pk: Pubkey, owner: Pubkey)
    requires last in accounts && WellFormed(accounts[last], last)
    ensures var before := Reindexed(index, Promotions(accounts, front, slot, level), level);
      pk in Indexed(Reindexed(index, Promotions(accounts, front + [last], slot, level), level), owner) <==>
        if pk == last then FiledAfter(accounts, before, slot, level, pk, owner, true) else pk in Indexed(before, owner)
  {
    var v, before := accounts[last], Promotions(accounts, front, slot, level);
    assert (front + [last])[..|front|] == front;
    if Promotes(v, slot, level) {
      var all := before + [(v.processed[slot], Read(v, level))];
      assert all[..|all| - 1] == before;
      if Read(v, level).Some? {
        OwnerUpdateAt(Reindexed(index, before, level), Read(v, level).value, v.processed[slot], level, pk, owner);
      }
    } else {
      assert before + [] == before;
    }
  }

  /** Each account's place in the index depends on its own promotion only, so the order does not matter. */
  lemma {:induction false} ReindexedAt(
      accounts: map<Pubkey, View>, order: seq<Pubkey>, index: Index, slot: Slot, level: Commitment, pk: Pubkey,
      owner: Pubkey)
    requires AllWellFormed(accounts) && pk in accounts && (forall x :: x in order ==> x in accounts)
    requires forall i, j :: 0 <= i < j < |order| ==> order[i] != order[j]
    ensures pk in Indexed(Reindexed(index, Promotions(accounts, order, slot, level), level), owner) <==>
      FiledAfter(accounts, index, slot, level, pk, owner, pk in order)
  {
    if order != [] {
      var front, last := order[..|order| - 1], order[|order| - 1];
      assert order == front + [last];
      ReindexedAt(accounts, front, index, slot, level, pk, owner);
      assert last !in front;
      ReindexOne(accounts, front, last, index, slot, level, pk, owner);
    }
  }

  lemma {:induction false} PromotedHolds(v: View, pk: Pubkey, slot: Slot, level: Commitment, d: AccountData)
    requires WellFormed(v, pk) && Holds(Promoted(v, slot, level), d)
    ensures Holds(v, d)
  {
  }

  /** When promoting a slot keeps the index complete; decided before the call. */
  ghost predicate SlotSafe(st: Store, slot: Slot, level: Commitment) {
    forall pk :: pk in st.accounts && level == Finalized && ChangesOwner(st.accounts[pk], slot, Finalized) ==>
      OwnerGone(Promoted(st.accounts[pk], slot, Finalized), Read(st.accounts[pk], Finalized).value.owner)
  }

  lemma {:induction false} SlotFiles(st: Store, slot: Slot, level: Commitment, order: seq<Pubkey>, pk: Pubkey)
    requires AllWellFormed(st.accounts) && Complete(st) && Enumerates(order, st.accounts.Keys)
    requires level != Processed && pk in st.accounts && SlotSafe(st, slot, level)
    ensures Filed(Promoted(st.accounts[pk], slot, level), pk, ProcessSlot(st, slot, level, order).byOwner)
  {
    var v := st.accounts[pk];
    assert WellFormed(v, pk);
    forall d | Holds(Promoted(v, slot, level), d)
      ensures pk in Indexed(ProcessSlot(st, slot, level, order).byOwner, d.owner)
    {
      PromotedHolds(v, pk, slot, level, d);
      ReindexedAt(st.accounts, order, st.byOwner, slot, level, pk, d.owner);
    }
  }

  /** Promoting a slot keeps the index complete if no account still holds data of the owner it leaves. */
  lemma {:induction false} SlotKeepsIndex(st: Store, slot: Slot, level: Commitment, order: seq<Pubkey>)
    requires AllWellFormed(st.accounts) && Complete(st) && Enumerates(order, st.accounts.Keys)
    requires SlotSafe(st, slot, level)
    ensures Complete(ProcessSlot(st, slot, level, order))
  {
    if level != Processed {
      var after := ProcessSlot(st, slot, level, order);
      forall pk | pk in after.accounts ensures Filed(after.accounts[pk], pk, after.byOwner) {
        SlotFiles(st, slot, level, order, pk);
      }
    }
  }

  // ----- whole runs

  /** Every promotion visits each account once. */
  ghost predicate Iterates(calls: seq<Call>) {
    forall n :: 0 <= n < |calls| && calls[n].SlotCall? ==> Enumerates(calls[n].order, Run(calls[..n]).accounts.Keys)
  }

  ghost predicate Safe(st: Store, call: Call) {
    match call
    case Update(data, level) => UpdateSafe(st, data, level)
    case Initialize(data) => UpdateSafe(st, data, Finalized)
    case SlotCall(slot, level, _) => SlotSafe(st, slot, level)
  }

  lemma {:induction false} CallKeepsIndex(st: Store, call: Call)
    requires AllWellFormed(st.accounts) && Complete(st) && Safe(st, call)
    requires call.SlotCall? ==> Enumerates(call.order, st.accounts.Keys)
    ensures Complete(Apply(st, call))
  {
    match call
    case Update(data, level) => UpdateKeepsIndex(st, data, level);
    case Initialize(data) => UpdateKeepsIndex(st, data, Finalized);
    case SlotCall(slot, level, order) => SlotKeepsIndex(st, slot, level, order);
  }

  lemma {:induction false} RunExtends(calls: seq<Call>, n: nat)
    requires n < |calls|
    ensures Run(calls[..n + 1]) == Apply(Run(calls[..n]), calls[n])
  {
    assert calls[..n + 1][..n] == calls[..n];
  }

  lemma {:induction false} SafeCallsKeepIndex(calls: seq<Call>, n: nat)
    requires Iterates(calls) && n <= |calls|
    requires forall m :: 0 <= m < n ==> Safe(Run(calls[..m]), calls[m])
    ensures Complete(Run(calls[..n]))
  {
    if n > 0 {
      SafeCallsKeepIndex(calls, n - 1);
      RunExtends(calls, n - 1);
      RunWellFormed(calls[..n - 1]);
      CallKeepsIndex(Run(calls[..n - 1]), calls[n - 1]);
    }
  }

  // ----- runs in which accounts keep their owner

  predicate KeepsOwner(call: Call, ownerOf: Pubkey -> Pubkey) {
    call.SlotCall? || call.data.owner == ownerOf(call.data.pubkey)
  }

  ghost predicate OwnedBy(v: View, owner: Pubkey) {
    forall d :: Holds(v, d) ==> d.owner == owner
  }

  ghost predicate OwnersFixed(st: Store, ownerOf: Pubkey -> Pubkey) {
    && AllWellFormed(st.accounts) && Complete(st)
    && forall pk :: pk in st.accounts ==> OwnedBy(st.accounts[pk], ownerOf(pk))
  }

  lemma {:induction false} FixedOwnerUpdate(st: Store, data: AccountData, given: Commitment, ownerOf: Pubkey -> Pubkey)
    requires OwnersFixed(st, ownerOf) && data.owner == ownerOf(data.pubkey)
    ensures OwnersFixed(UpdateAccount(st, data, given), ownerOf)
  {
    UpdateAccountViews(st, data, given);
    FixedOwnerViews(st, data, given, ownerOf);
    FixedOwnerIsSafe(st, data, given, ownerOf);
    UpdateKeepsIndex(st, data, given);
  }

  lemma {:induction false} FixedOwnerViews(st: Store, data: AccountData, given: Commitment, ownerOf: Pubkey -> Pubkey)
    requires forall pk :: pk in st.accounts ==> OwnedBy(st.accounts[pk], ownerOf(pk))
    requires data.owner == ownerOf(data.pubkey)
    ensures var after := UpdateAccount(st, data, given).accounts;
      forall pk :: pk in after ==> OwnedBy(after[pk], ownerOf(pk))
  {
    if data.pubkey in st.accounts {
      assert OwnedBy(st.accounts[data.pubkey], data.owner);
      FixedOwnerView(st.accounts[data.pubkey], data, EffectiveLevel(st, data, given));
    }
  }

  lemma {:induction false} FixedOwnerView(v: View, data: AccountData, level: Commitment)
    requires OwnedBy(v, data.owner)
    ensures OwnedBy(Updated(v, data, level), data.owner)
  {
    if UpdateReported(v, data, level) {
      forall d | Holds(Updated(v, data, level), d) ensures d.owner == data.owner { UpdatedHolds(v, data, level, d); }
    } else {
      UnreportedUpdate(v, data, level);
    }
  }

  lemma {:induction false} FixedOwnerIsSafe(st: Store, data: AccountData, given: Commitment, ownerOf: Pubkey -> Pubkey)
    requires OwnersFixed(st, ownerOf) && data.owner == ownerOf(data.pubkey)
    ensures UpdateSafe(st, data, given)
  {
    if data.pubkey in st.accounts {
      var v, level := st.accounts[data.pubkey], EffectiveLevel(st, data, given);
      assert WellFormed(v, data.pubkey) && OwnedBy(v, data.owner);
      ReadIsHeld(v, data.pubkey, Processed);
      if Read(v, level).Some? { ReadIsHeld(v, data.pubkey, level); }
    }
  }

  lemma {:induction false} FixedOwnerSlot(
      st: Store, slot: Slot, level: Commitment, order: seq<Pubkey>, ownerOf: Pubkey -> Pubkey)
    requires OwnersFixed(st, ownerOf) && Enumerates(order, st.accounts.Keys)
    ensures OwnersFixed(ProcessSlot(st, slot, level, order), ownerOf)
  {
    ProcessSlotViews(st, slot, level, order);
    forall pk | pk in st.accounts
      ensures !ChangesOwner(st.accounts[pk], slot, level)
        && OwnedBy(Promoted(st.accounts[pk], slot, level), ownerOf(pk))
    {
      var v := st.accounts[pk];
      assert WellFormed(v, pk) && OwnedBy(v, ownerOf(pk));
      if Read(v, level).Some? { ReadIsHeld(v, pk, level); }
      if slot in v.processed { assert Holds(v, v.processed[slot]); }
      forall d | Holds(Promoted(v, slot, level), d) ensures d.owner == ownerOf(pk) {
        PromotedHolds(v, pk, slot, level, d);
      }
    }
    SlotKeepsIndex(st, slot, level, order);
  }

  lemma {:induction false} FixedOwnersRun(calls: seq<Call>, ownerOf: Pubkey -> Pubkey)
    requires Iterates(calls) && forall n :: 0 <= n < |calls| ==> KeepsOwner(calls[n], ownerOf)
    ensures OwnersFixed(Run(calls), ownerOf)
  {
    if calls != [] {
      var before, last := calls[..|calls| - 1], calls[|calls| - 1];
      assert forall n :: 0 <= n < |before| ==> before[..n] == calls[..n];
      FixedOwnersRun(before, ownerOf);
      match last
      case Update(data, level) => FixedOwnerUpdate(Run(before), data, level, ownerOf);
      case Initialize(data) => FixedOwnerUpdate(Run(before), data, Finalized, ownerOf);
      case SlotCall(slot, level, order) => FixedOwnerSlot(Run(before), slot, level, order, ownerOf);
    }
  }

  /** In runs in which accounts keep their owner the lookup equals the full scan at every level. */
  lemma {:induction false} FixedOwnersScan(
      calls: seq<Call>, ownerOf: Pubkey -> Pubkey, program: Pubkey, allows: AccountData -> bool, level: Commitment)
    requires Iterates(calls) && forall n :: 0 <= n < |calls| ==> KeepsOwner(calls[n], ownerOf)
    ensures IndexScan(Run(calls), program, allows, level) == FullScan(Run(calls), program, allows, level)
    ensures program !in Run(calls).byOwner ==> FullScan(Run(calls), program, allows, level) == {}
  {
    FixedOwnersRun(calls, ownerOf);
    CompleteIndexScans(Run(calls), program, allows, level);
  }

  // ----- runs with owner changes

  /** First insertions, processed updates of unconfirmed slots, and promotions to confirmed. */
  predicate Gentle(st: Store, call: Call) {
    match call
    case Update(data, level) => data.pubkey !in st.accounts || (level == Processed && data.slot !in st.confirmedSlots)
    case Initialize(data) => data.pubkey !in st.accounts
    case SlotCall(_, level, _) => level == Confirmed
  }

  /** In such runs the lookup equals the full scan at every level although owners change. */
  lemma {:induction false} GentleRunScans(
      calls: seq<Call>, program: Pubkey, allows: AccountData -> bool, level: Commitment)
    requires Iterates(calls) && forall n :: 0 <= n < |calls| ==> Gentle(Run(calls[..n]), calls[n])
    ensures IndexScan(Run(calls), program, allows, level) == FullScan(Run(calls), program, allows, level)
    ensures program !in Run(calls).byOwner ==> FullScan(Run(calls), program, allows, level) == {}
  {
    forall n | 0 <= n < |calls| ensures Safe(Run(calls[..n]), calls[n]) {
      RunWellFormed(calls[..n]);
      if calls[n].Update? && calls[n].data.pubkey in Run(calls[..n]).accounts {
        assert WellFormed(Run(calls[..n]).accounts[calls[n].data.pubkey], calls[n].data.pubkey);
        ProcessedIsNewest(Run(calls[..n]).accounts[calls[n].data.pubkey], calls[n].data.pubkey);
      }
    }
    SafeCallsKeepIndex(calls, |calls|);
    assert calls[..|calls|] == calls;
    RunWellFormed(calls);
    CompleteIndexScans(Run(calls), program, allows, level);
  }

  // ----- runs in which the lookup misses an account

  /** The first confirmed view of an account is not filed under its owner if that owner is new. */
  lemma {:induction false} FirstConfirmedOwnerMissed(a: AccountData, b: AccountData, allows: AccountData -> bool)
    requires a.pubkey == b.pubkey && a.owner != b.owner && allows(b)
    ensures var st := UpdateAccount(UpdateAccount(Empty, a, Processed), b, Confirmed);
      b in FullScan(st, b.owner, allows, Confirmed) && b.owner !in st.byOwner
  {
    var one := UpdateAccount(Empty, a, Processed);
    assert one.accounts[a.pubkey] == NewView(a, Processed);
    var two := UpdateAccount(one, b, Confirmed);
    assert Read(two.accounts[b.pubkey], Confirmed) == Some(b);
  }

  function ThreeOwners(a: AccountData, b: AccountData, c: AccountData): Store {
    UpdateAccount(UpdateAccount(UpdateAccount(Empty, a, Finalized), b, Processed), c, Processed)
  }

  lemma {:induction false} ThreeOwnersViews(a: AccountData, b: AccountData, c: AccountData)
    requires a.pubkey == b.pubkey == c.pubkey && a.slot < b.slot < c.slot
    ensures ThreeOwners(a, b, c).accounts
      == map[c.pubkey := View(map[a.slot := a, b.slot := b, c.slot := c], Some(a), Some(a))]
    ensures AllWellFormed(ThreeOwners(a, b, c).accounts)
    ensures Read(ThreeOwners(a, b, c).accounts[c.pubkey], Processed) == Some(c)
  {
    var one := UpdateAccount(Empty, a, Finalized);
    UpdateAccountViews(Empty, a, Finalized);
    assert one.accounts[a.pubkey] == NewView(a, Finalized);
    var two := UpdateAccount(one, b, Processed);
    UpdateAccountViews(one, b, Processed);
    UpdateAccountViews(two, c, Processed);
    assert ThreeOwners(a, b, c).accounts[c.pubkey].processed.Keys == {a.slot, b.slot, c.slot};
  }

  /** An owner that finalization removes, while a newer version returned to it, is missed. */
  lemma {:induction false} ReturningOwnerMissed(
      a: AccountData, b: AccountData, c: AccountData, allows: AccountData -> bool)
    requires a.pubkey == b.pubkey == c.pubkey && a.owner == c.owner != b.owner && a.slot < b.slot < c.slot && allows(c)
    ensures var after := ProcessSlot(ThreeOwners(a, b, c), b.slot, Finalized, [c.pubkey]);
      c in FullScan(after, c.owner, allows, Processed) && c !in IndexScan(after, c.owner, allows, Processed)
  {
    var pk, st := c.pubkey, ThreeOwners(a, b, c);
    ThreeOwnersViews(a, b, c);
    var v := st.accounts[pk];
    ReindexedAt(st.accounts, [pk], st.byOwner, b.slot, Finalized, pk, c.owner);
    PromoteKeeps(v, pk, b.slot, Finalized);
    var after := ProcessSlot(st, b.slot, Finalized, [pk]);
    assert Read(after.accounts[pk], Processed) == Some(c);
  }
}
