/**
 One account at the three commitment levels (accounts/src/inmemory_account_store.rs,
 AccountDataByCommitment): the processed versions by slot, and the confirmed and finalized views.
 */
module AccountViews {
  import opened Common

  datatype AccountData = AccountData(pubkey: Pubkey, owner: Pubkey, body: seq<int>, slot: Slot)

  datatype View = View(processed: map<Slot, AccountData>, confirmed: Option<AccountData>,
        finalized: Option<AccountData>)

  function Read(v: View, level: Commitment): Option<AccountData> {
    match level
    case Processed => if v.processed == map[] then v.confirmed else Some(v.processed[Max(v.processed.Keys)])
    case Confirmed => v.confirmed
    case Finalized => v.finalized
  }

  function NewView(data: AccountData, level: Commitment): View {
    View(map[data.slot := data],
         if level == Processed then None else Some(data),
         if level == Finalized then Some(data) else None)
  }

  /** A view is replaced by data of a strictly later slot; a missing view by any data. */
  predicate Outdated(view: Option<AccountData>, data: AccountData) {
    view.None? || view.value.slot < data.slot
  }

  function Updated(v: View, data: AccountData, level: Commitment): View {
    View(if data.slot in v.processed then v.processed else v.processed[data.slot := data],
         if level != Processed && Outdated(v.confirmed, data) then Some(data) else v.confirmed,
         if level == Finalized && Outdated(v.finalized, data) then Some(data) else v.finalized)
  }

  predicate UpdateReported(v: View, data: AccountData, level: Commitment) {
    || data.slot !in v.processed
    || (level != Processed && Outdated(v.confirmed, data))
    || (level == Finalized && Outdated(v.finalized, data))
  }

  /** Slot of a view as promotion compares it: a missing view counts as slot 0. */
  function SlotOrZero(view: Option<AccountData>): Slot {
    if view.None? then 0 else view.value.slot
  }

  /** All versions above the slot, and otherwise only the newest one. */
  function Pruned(processed: map<Slot, AccountData>, slot: Slot): map<Slot, AccountData> {
    map s | s in processed && (s > slot || s == Max(processed.Keys)) :: processed[s]
  }

  predicate Promotes(v: View, slot: Slot, level: Commitment) {
    level != Processed && slot in v.processed && SlotOrZero(Read(v, level)) < slot
  }

  function Promoted(v: View, slot: Slot, level: Commitment): View {
    match level
    case Processed => v
    case Confirmed => if Promotes(v, slot, level) then v.(confirmed := Some(v.processed[slot])) else v
    case Finalized =>
      View(Pruned(v.processed, slot), v.confirmed,
           if Promotes(v, slot, level) then Some(v.processed[slot]) else v.finalized)
  }

  class AccountDataByCommitment {
    const pubkey: Pubkey
    var processedAccounts: map<Slot, AccountData>
    var confirmedAccount: Option<AccountData>
    var finalizedAccount: Option<AccountData>

    function Value(): View
      reads this
    {
      View(processedAccounts, confirmedAccount, finalizedAccount)
    }

    /** An account created by a geyser notification. */
    constructor (data: AccountData, level: Commitment)
      ensures Value() == NewView(data, level) && pubkey == data.pubkey
    {
      pubkey := data.pubkey;
      processedAccounts := map[data.slot := data];
      confirmedAccount := if level == Confirmed || level == Finalized then Some(data) else None;
      finalizedAccount := if level == Finalized then Some(data) else None;
    }

    /** An account loaded while the storage is warmed up. */
    constructor Initialize(data: AccountData)
      ensures Value() == NewView(data, Finalized) && pubkey == data.pubkey
    {
      pubkey := data.pubkey;
      processedAccounts := map[data.slot := data];
      confirmedAccount := Some(data);
      finalizedAccount := Some(data);
    }

    method Update(data: AccountData, level: Commitment) returns (updated: bool)
      modifies this
      ensures Value() == Updated(old(Value()), data, level)
      ensures updated == UpdateReported(old(Value()), data, level)
    {
      var updateConfirmed := confirmedAccount.None? || confirmedAccount.value.slot < data.slot;
      var updateFinalized := finalizedAccount.None? || finalizedAccount.value.slot < data.slot;
      updated := false;
      if data.slot !in processedAccounts {
        processedAccounts := processedAccounts[data.slot := data];
        updated := true;
      }
      match level
      case Confirmed =>
        if updateConfirmed {
          confirmedAccount := Some(data);
          updated := true;
        }
      case Finalized =>
        if updateConfirmed {
          confirmedAccount := Some(data);
          updated := true;
        }
        if updateFinalized {
          finalizedAccount := Some(data);
          updated := true;
        }
      case Processed =>
    }

    /** The loop that drops versions up to the finalized slot, oldest first, but never the last one. */
    method RemoveUpTo(slot: Slot)
      modifies this`processedAccounts
      ensures processedAccounts == Pruned(old(processedAccounts), slot)
    {
      while |processedAccounts| > 1 && Min(processedAccounts.Keys) <= slot
        invariant processedAccounts.Keys <= old(processedAccounts).Keys
        invariant forall s :: s in processedAccounts ==> processedAccounts[s] == old(processedAccounts)[s]
        invariant forall s :: s in old(processedAccounts) && s !in processedAccounts ==> s <= slot
        invariant old(processedAccounts) != map[] ==> Max(old(processedAccounts).Keys) in processedAccounts
        decreases |processedAccounts|
      {
        ghost var greatest := Max(old(processedAccounts).Keys);
        var first := Min(processedAccounts.Keys);
        FirstIsNotLast(processedAccounts, first, greatest);
        processedAccounts := processedAccounts - {first};
      }
      if old(processedAccounts) != map[] {
        ghost var greatest := Max(old(processedAccounts).Keys);
        if |processedAccounts| <= 1 { OnlyElement(processedAccounts.Keys, greatest); }
      }
    }

    /** Promotes the version of a slot; the result is the new view with the one it replaced. */
    method PromoteSlotCommitment(slot: Slot, level: Commitment)
      returns (promoted: Option<(AccountData, Option<AccountData>)>)
      modifies this
      ensures Value() == Promoted(old(Value()), slot, level)
      ensures promoted == if Promotes(old(Value()), slot, level)
                          then Some((old(processedAccounts)[slot], Read(old(Value()), level))) else None
    {
      promoted := None;
      if slot in processedAccounts {
        var data := processedAccounts[slot];
        match level
        case Processed =>
        case Confirmed =>
          if SlotOrZero(confirmedAccount) < slot {
            promoted := Some((data, confirmedAccount));
            confirmedAccount := Some(data);
          }
        case Finalized =>
          RemoveUpTo(slot);
          if SlotOrZero(finalizedAccount) < slot {
            promoted := Some((data, finalizedAccount));
            finalizedAccount := Some(data);
          }
      } else if level == Finalized {
        RemoveUpTo(slot);
      }
    }
  }

  lemma {:induction false} FirstIsNotLast(m: map<Slot, AccountData>, first: Slot, greatest: Slot)
    requires |m| > 1 && first in m && greatest in m && (forall s :: s in m ==> first <= s <= greatest)
    ensures first != greatest && |m - {first}| == |m| - 1
  {
    assert (m - {first}).Keys == m.Keys - {first};
    assert first == greatest ==> m.Keys == {first};
  }

  lemma {:induction false} OnlyElement(s: set<Slot>, x: Slot)
    requires |s| <= 1 && x in s
    ensures s == {x}
  {
    SubsetSize({x}, s);
  }

  // ----- what every operation keeps

  ghost predicate ViewOf(view: Option<AccountData>, v: View, pk: Pubkey)
    requires v.processed != map[]
  {
    view.Some? ==> view.value.pubkey == pk && view.value.slot <= Max(v.processed.Keys)
  }

  /** Versions are filed under their slot, and no view is ahead of the newest processed version. */
  ghost predicate WellFormed(v: View, pk: Pubkey) {
    && v.processed != map[]
    && (forall s :: s in v.processed ==> v.processed[s].slot == s && v.processed[s].pubkey == pk)
    && ViewOf(v.confirmed, v, pk)
    && ViewOf(v.finalized, v, pk)
  }

  /** A read either returns the same data or data of a strictly later slot. */
  predicate Advances(before: Option<AccountData>, after: Option<AccountData>) {
    before == after || (after.Some? && (before.None? || before.value.slot < after.value.slot))
  }

  /** The finalized view is never ahead of the confirmed one. */
  predicate Ordered(v: View) {
    v.finalized.Some? ==> v.confirmed.Some? && v.finalized.value.slot <= v.confirmed.value.slot
  }

  lemma {:induction false} ProcessedIsNewest(v: View, pk: Pubkey)
    requires WellFormed(v, pk)
    ensures Read(v, Processed).Some? && Read(v, Processed).value.pubkey == pk
    ensures forall level :: Read(v, level).Some? ==> Read(v, level).value.slot <= Read(v, Processed).value.slot
  {
  }

  lemma {:induction false} NewViewKeeps(data: AccountData, level: Commitment)
    ensures WellFormed(NewView(data, level), data.pubkey) && Ordered(NewView(data, level))
  {
    assert NewView(data, level).processed.Keys == {data.slot};
  }

  lemma {:induction false} UpdateKeeps(v: View, pk: Pubkey, data: AccountData, level: Commitment)
    requires WellFormed(v, pk) && data.pubkey == pk
    ensures WellFormed(Updated(v, data, level), pk)
    ensures forall l :: Advances(Read(v, l), Read(Updated(v, data, level), l))
    ensures Ordered(v) ==> Ordered(Updated(v, data, level))
  {
    var u := Updated(v, data, level);
    assert v.processed.Keys <= u.processed.Keys && data.slot in u.processed;
    assert Max(v.processed.Keys) in u.processed.Keys;
    if Max(u.processed.Keys) in v.processed { assert Max(u.processed.Keys) == Max(v.processed.Keys); }
  }

  /** The levels that a piece of data is good for: its own and those below. */
  predicate GoodFor(level: Commitment, l: Commitment) {
    match l case Processed => true case Confirmed => level != Processed case Finalized => level == Finalized
  }

  predicate Newer(data: AccountData, read: Option<AccountData>) {
    read.Some? ==> read.value.slot < data.slot
  }

  /** A new account is read at the levels its data is good for. */
  lemma {:induction false} NewReads(data: AccountData, level: Commitment, l: Commitment)
    ensures Read(NewView(data, level), l) == if GoodFor(level, l) then Some(data) else None
  {
    assert NewView(data, level).processed.Keys == {data.slot};
  }

  /** An update replaces exactly the older reads at the levels its data is good for. */
  lemma {:induction false} UpdateReads(v: View, pk: Pubkey, data: AccountData, level: Commitment, l: Commitment)
    requires WellFormed(v, pk) && data.pubkey == pk
    ensures Read(Updated(v, data, level), l) ==
      if GoodFor(level, l) && Newer(data, Read(v, l)) then Some(data) else Read(v, l)
  {
    var u := Updated(v, data, level);
    assert u.processed.Keys == v.processed.Keys + {data.slot};
    assert Max(v.processed.Keys) in u.processed.Keys;
    assert Max(u.processed.Keys) == if data.slot > Max(v.processed.Keys) then data.slot else Max(v.processed.Keys);
  }

  /** An update is reported exactly if it changes anything; it never replaces a version. */
  lemma {:induction false} UpdateReportedIff(v: View, data: AccountData, level: Commitment)
    ensures UpdateReported(v, data, level) <==> Updated(v, data, level) != v
    ensures forall s :: s in Updated(v, data, level).processed <==> s in v.processed || s == data.slot
    ensures forall s :: s in v.processed ==> Updated(v, data, level).processed[s] == v.processed[s]
    ensures data.slot !in v.processed ==> Updated(v, data, level).processed[data.slot] == data
  {
    if data.slot !in v.processed { assert data.slot in Updated(v, data, level).processed; }
  }

  /** A promotion replaces the read of its level exactly if the slot has a version and is later; slot 0 never is. */
  lemma {:induction false} PromoteReads(v: View, slot: Slot, level: Commitment)
    requires level != Processed
    ensures Read(Promoted(v, slot, level), level) ==
      if slot in v.processed && slot > 0 && (Read(v, level).None? || Read(v, level).value.slot < slot)
      then Some(v.processed[slot]) else Read(v, level)
  {
  }

  lemma {:induction false} PruneKeepsNewest(processed: map<Slot, AccountData>, slot: Slot)
    requires processed != map[]
    ensures Pruned(processed, slot) != map[] && Max(Pruned(processed, slot).Keys) == Max(processed.Keys)
  {
    assert Max(processed.Keys) in Pruned(processed, slot).Keys;
    assert Pruned(processed, slot).Keys <= processed.Keys;
  }

  /** Promotion changes the read at its own level only, and exactly when it reports a promotion. */
  lemma {:induction false} PromoteKeeps(v: View, pk: Pubkey, slot: Slot, level: Commitment)
    requires WellFormed(v, pk)
    ensures WellFormed(Promoted(v, slot, level), pk)
    ensures forall l :: Advances(Read(v, l), Read(Promoted(v, slot, level), l))
    ensures forall l :: l != level ==> Read(Promoted(v, slot, level), l) == Read(v, l)
    ensures Promotes(v, slot, level) <==> Read(Promoted(v, slot, level), level) != Read(v, level)
    ensures Promotes(v, slot, level) ==> Read(Promoted(v, slot, level), level) == Some(v.processed[slot])
  {
    PruneKeepsNewest(v.processed, slot);
  }

  /** Finalizing the slot lets no finalized view overtake; decided before the call. */
  predicate FinalizesInOrder(v: View, slot: Slot) {
    slot !in v.processed || slot == 0 || (v.confirmed.Some? && slot <= v.confirmed.value.slot)
  }

  /** Finalizing a slot keeps the views in order exactly if the slot has no version here or is confirmed already. */
  lemma {:induction false} FinalizeKeepsOrderIff(v: View, pk: Pubkey, slot: Slot)
    requires WellFormed(v, pk) && Ordered(v)
    ensures Ordered(Promoted(v, slot, Finalized)) <==> FinalizesInOrder(v, slot)
  {
  }

  /** After a slot is finalized exactly the later versions are left, or only the newest one. */
  lemma {:induction false} PrunedVersions(v: View, pk: Pubkey, slot: Slot)
    requires WellFormed(v, pk)
    ensures var kept := Promoted(v, slot, Finalized).processed;
      && (forall s :: s in kept ==> s in v.processed && kept[s] == v.processed[s])
      && (Max(v.processed.Keys) > slot ==> forall s :: s in v.processed ==> (s in kept <==> s > slot))
      && (Max(v.processed.Keys) <= slot ==> kept.Keys == {Max(v.processed.Keys)})
  {
  }
}
