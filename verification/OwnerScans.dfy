/**
 When get_program_accounts through the owner index equals a full scan of the account store, exactly
 (accounts/src/inmemory_account_store.rs): only what the three reads return has to be listed.
 */
module OwnerScans {
  import opened Common
  import opened AccountViews
  import opened AccountStore
  import opened AccountRuns
  import opened OwnerIndex

  /** The account is listed under the owner of each of its reads. */
  predicate ReadsListed(v: View, pk: Pubkey, index: Index) {
    forall l :: Read(v, l).Some? ==> pk in Indexed(index, Read(v, l).value.owner)
  }

  /** Every account is listed under the owner of each of its reads. */
  ghost predicate ScansAgree(st: Store) {
    forall pk :: pk in st.accounts ==> ReadsListed(st.accounts[pk], pk, st.byOwner)
  }

  predicate Everything(d: AccountData) {
    true
  }

  /** The filter of the caller plays no role: listed reads are found with every filter. */
  lemma {:induction false} ListedReadsAreFound(
      st: Store, program: Pubkey, allows: AccountData -> bool, level: Commitment)
    requires ScansAgree(st)
    ensures IndexScan(st, program, allows, level) == FullScan(st, program, allows, level)
    ensures program !in st.byOwner ==> FullScan(st, program, allows, level) == {}
  {
    forall pk | pk in st.accounts && Read(st.accounts[pk], level).Some?
      ensures pk in Indexed(st.byOwner, Read(st.accounts[pk], level).value.owner)
    {
      assert ReadsListed(st.accounts[pk], pk, st.byOwner);
    }
  }

  lemma {:induction false} FoundReadsAreListed(st: Store, pk: Pubkey, level: Commitment)
    requires AllWellFormed(st.accounts) && pk in st.accounts && Read(st.accounts[pk], level).Some?
    requires var program := Read(st.accounts[pk], level).value.owner;
      IndexScan(st, program, Everything, level) == FullScan(st, program, Everything, level)
    ensures pk in Indexed(st.byOwner, Read(st.accounts[pk], level).value.owner)
  {
    var d := Read(st.accounts[pk], level).value;
    assert d in FullScan(st, d.owner, Everything, level);
    assert d in IndexScan(st, d.owner, Everything, level);
    var other :| other in Indexed(st.byOwner, d.owner) && other in st.accounts
      && Read(st.accounts[other], level) == Some(d);
    assert WellFormed(st.accounts[pk], pk) && WellFormed(st.accounts[other], other);
  }

  /** The reads are listed exactly if lookup and scan agree for every program at every level. */
  lemma {:induction false} ScansAgreeIff(st: Store)
    requires AllWellFormed(st.accounts)
    ensures ScansAgree(st) <==>
      forall program, level :: IndexScan(st, program, Everything, level) == FullScan(st, program, Everything, level)
  {
    if ScansAgree(st) {
      forall program, level
        ensures IndexScan(st, program, Everything, level) == FullScan(st, program, Everything, level)
      {
        ListedReadsAreFound(st, program, Everything, level);
      }
    }
    if forall program, level :: IndexScan(st, program, Everything, level) == FullScan(st, program, Everything, level) {
      forall pk, level | pk in st.accounts && Read(st.accounts[pk], level).Some?
        ensures pk in Indexed(st.byOwner, Read(st.accounts[pk], level).value.owner)
      {
        FoundReadsAreListed(st, pk, level);
      }
    }
  }

  // ----- one update

  /** No read returns data of this owner. */
  predicate NoReadOf(v: View, owner: Pubkey) {
    forall l :: Read(v, l).Some? ==> Read(v, l).value.owner != owner
  }

  /** When an update keeps lookup and scan equal; decided before the call. */
  predicate UpdateKeepsScans(st: Store, data: AccountData, given: Commitment) {
    data.pubkey in st.accounts ==>
      var v, level := st.accounts[data.pubkey], EffectiveLevel(st, data, given);
      var prev := Read(v, level);
      || !UpdateReported(v, data, level)
      || (prev.None? && data.pubkey in Indexed(st.byOwner, data.owner))
      || (prev.Some? && (prev.value.owner == data.owner || level != Finalized))
      || (prev.Some? && NoReadOf(Updated(v, data, level), prev.value.owner))
  }

  /** After an update each read is what it was or the new data, and a missing read was replaced. */
  lemma {:induction false} UpdatedReads(v: View, pk: Pubkey, data: AccountData, level: Commitment, l: Commitment)
    requires WellFormed(v, pk) && data.pubkey == pk
    ensures Read(Updated(v, data, level), l) == Read(v, l) || Read(Updated(v, data, level), l) == Some(data)
    ensures Read(v, level).None? ==> Read(Updated(v, data, level), level) == Some(data)
  {
    var u := Updated(v, data, level);
    assert u.processed.Keys == v.processed.Keys + {data.slot};
    assert Max(u.processed.Keys) == Max(v.processed.Keys) || Max(u.processed.Keys) == data.slot;
  }

  lemma {:induction false} UpdateListsIff(st: Store, data: AccountData, given: Commitment)
    requires AllWellFormed(st.accounts) && data.pubkey in st.accounts
    requires ReadsListed(st.accounts[data.pubkey], data.pubkey, st.byOwner)
    ensures var after := UpdateAccount(st, data, given);
      ReadsListed(after.accounts[data.pubkey], data.pubkey, after.byOwner) <==> UpdateKeepsScans(st, data, given)
  {
    var pk, v, level := data.pubkey, st.accounts[data.pubkey], EffectiveLevel(st, data, given);
    var after, prev := UpdateAccount(st, data, given), Read(v, level);
    assert WellFormed(v, pk);
    if !UpdateReported(v, data, level) {
      UnreportedUpdate(v, data, level);
    } else {
      forall l
        ensures Read(Updated(v, data, level), l) == Read(v, l) || Read(Updated(v, data, level), l) == Some(data)
        ensures prev.None? ==> Read(Updated(v, data, level), level) == Some(data)
      {
        UpdatedReads(v, pk, data, level, l);
      }
      if prev.Some? {
        var index, left := st.byOwner, prev.value.owner;
        forall owner
          ensures pk in Indexed(after.byOwner, owner) <==>
            if prev.value.owner == data.owner then pk in Indexed(index, owner)
            else owner == data.owner || (pk in Indexed(index, owner) && !(level == Finalized && owner == left))
        {
          OwnerUpdateAt(index, prev.value, data, level, pk, owner);
        }
      }
    }
  }

  /** An update keeps lookup and scan equal exactly under that condition. */
  lemma {:induction false} UpdateKeepsScansIff(st: Store, data: AccountData, given: Commitment)
    requires AllWellFormed(st.accounts) && ScansAgree(st)
    ensures ScansAgree(UpdateAccount(st, data, given)) <==> UpdateKeepsScans(st, data, given)
  {
    var after := UpdateAccount(st, data, given);
    forall pk | pk in after.accounts && pk != data.pubkey ensures ReadsListed(after.accounts[pk], pk, after.byOwner) {
      assert ReadsListed(st.accounts[pk], pk, st.byOwner);
      forall owner ensures pk in Indexed(after.byOwner, owner) <==> pk in Indexed(st.byOwner, owner) {
        UpdateKeepsOthers(st, data, given, pk, owner);
      }
    }
    if data.pubkey in st.accounts {
      UpdateListsIff(st, data, given);
    }
    assert ScansAgree(after) <==> ReadsListed(after.accounts[data.pubkey], data.pubkey, after.byOwner);
  }

  // ----- one slot

  /** When promoting an account keeps its reads listed. */
  predicate PromotionKeepsScans(v: View, pk: Pubkey, index: Index, slot: Slot, level: Commitment) {
    Promotes(v, slot, level) ==>
      var prev, data := Read(v, level), v.processed[slot];
      if prev.None? then pk in Indexed(index, data.owner)
      else
        || prev.value.owner == data.owner
        || level != Finalized
        || forall l :: l != Finalized && Read(v, l).Some? ==> Read(v, l).value.owner != prev.value.owner
  }

  /** When a slot notification keeps lookup and scan equal; decided before the call. */
  ghost predicate SlotKeepsScans(st: Store, slot: Slot, level: Commitment) {
    forall pk :: pk in st.accounts ==> PromotionKeepsScans(st.accounts[pk], pk, st.byOwner, slot, level)
  }

  lemma {:induction false} SlotListsIff(st: Store, slot: Slot, level: Commitment, order: seq<Pubkey>, pk: Pubkey)
    requires AllWellFormed(st.accounts) && Enumerates(order, st.accounts.Keys) && level != Processed
      && pk in st.accounts
    requires ReadsListed(st.accounts[pk], pk, st.byOwner)
    ensures ReadsListed(Promoted(st.accounts[pk], slot, level), pk, ProcessSlot(st, slot, level, order).byOwner) <==>
      PromotionKeepsScans(st.accounts[pk], pk, st.byOwner, slot, level)
  {
    var v, after := st.accounts[pk], ProcessSlot(st, slot, level, order);
    assert WellFormed(v, pk);
    PromoteKeeps(v, pk, slot, level);
    forall owner
      ensures pk in Indexed(after.byOwner, owner) <==> FiledAfter(st.accounts, st.byOwner, slot, level, pk, owner, true)
    {
      ReindexedAt(st.accounts, order, st.byOwner, slot, level, pk, owner);
    }
    if !Promotes(v, slot, level) {
      assert forall l :: Read(Promoted(v, slot, level), l) == Read(v, l);
    }
  }

  /** A slot notification keeps lookup and scan equal exactly under that condition. */
  lemma {:induction false} SlotKeepsScansIff(st: Store, slot: Slot, level: Commitment, order: seq<Pubkey>)
    requires AllWellFormed(st.accounts) && ScansAgree(st) && Enumerates(order, st.accounts.Keys)
    ensures ScansAgree(ProcessSlot(st, slot, level, order)) <==> SlotKeepsScans(st, slot, level)
  {
    if level != Processed {
      var after := ProcessSlot(st, slot, level, order);
      forall pk | pk in st.accounts
        ensures ReadsListed(after.accounts[pk], pk, after.byOwner) <==>
          PromotionKeepsScans(st.accounts[pk], pk, st.byOwner, slot, level)
      {
        SlotListsIff(st, slot, level, order, pk);
      }
      assert after.accounts.Keys == st.accounts.Keys;
    }
  }

  // ----- whole runs

  ghost predicate KeepsScans(st: Store, call: Call) {
    match call
    case Update(data, level) => UpdateKeepsScans(st, data, level)
    case Initialize(data) => UpdateKeepsScans(st, data, Finalized)
    case SlotCall(slot, level, _) => SlotKeepsScans(st, slot, level)
  }

  lemma {:induction false} CallKeepsScansIff(calls: seq<Call>, n: nat)
    requires Iterates(calls) && n < |calls| && ScansAgree(Run(calls[..n]))
    ensures ScansAgree(Run(calls[..n + 1])) <==> KeepsScans(Run(calls[..n]), calls[n])
  {
    var st := Run(calls[..n]);
    RunExtends(calls, n);
    RunWellFormed(calls[..n]);
    match calls[n]
    case Update(data, level) => UpdateKeepsScansIff(st, data, level);
    case Initialize(data) => UpdateKeepsScansIff(st, data, Finalized);
    case SlotCall(slot, level, order) => SlotKeepsScansIff(st, slot, level, order);
  }

  lemma {:induction false} KeptSoFar(calls: seq<Call>, n: nat)
    requires Iterates(calls) && n <= |calls| && forall m :: 0 <= m < n ==> KeepsScans(Run(calls[..m]), calls[m])
    ensures ScansAgree(Run(calls[..n]))
  {
    if n > 0 {
      KeptSoFar(calls, n - 1);
      CallKeepsScansIff(calls, n - 1);
    }
  }

  /** Lookup and scan agree all along a run exactly if each call met its condition when it was made. */
  lemma {:induction false} ScansAgreeThroughoutIff(calls: seq<Call>)
    requires Iterates(calls)
    ensures (forall n :: 0 <= n <= |calls| ==> ScansAgree(Run(calls[..n]))) <==>
            (forall n :: 0 <= n < |calls| ==> KeepsScans(Run(calls[..n]), calls[n]))
  {
    if forall n :: 0 <= n <= |calls| ==> ScansAgree(Run(calls[..n])) {
      forall n | 0 <= n < |calls| ensures KeepsScans(Run(calls[..n]), calls[n]) {
        assert ScansAgree(Run(calls[..n])) && ScansAgree(Run(calls[..n + 1]));
        CallKeepsScansIff(calls, n);
      }
    }
    if forall n :: 0 <= n < |calls| ==> KeepsScans(Run(calls[..n]), calls[n]) {
      forall n | 0 <= n <= |calls| ensures ScansAgree(Run(calls[..n])) { KeptSoFar(calls, n); }
    }
  }
}
