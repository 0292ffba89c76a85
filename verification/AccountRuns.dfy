/** What every run of calls on the account store keeps. */
module AccountRuns {
  import opened Common
  import opened AccountViews
  import opened AccountStore

  /** A call that changes the store. The order is the one in which its iterator visits the accounts. */
  datatype Call =
    | Update(data: AccountData, level: Commitment)
    | Initialize(data: AccountData)
    | SlotCall(slot: Slot, level: Commitment, order: seq<Pubkey>)

  function Apply(st: Store, call: Call): Store {
    match call
    case Update(data, level) => UpdateAccount(st, data, level)
    case Initialize(data) => UpdateAccount(st, data, Finalized)
    case SlotCall(slot, level, order) => ProcessSlot(st, slot, level, order)
  }

  function Run(calls: seq<Call>): Store {
    if calls == [] then Empty else Apply(Run(calls[..|calls| - 1]), calls[|calls| - 1])
  }

  // ----- reads only move forward

  ghost predicate Forward(before: map<Pubkey, View>, after: map<Pubkey, View>) {
    forall pk, l :: pk in before ==> pk in after && Advances(Read(before[pk], l), Read(after[pk], l))
  }

  lemma {:induction false} UpdateAccountViews(st: Store, data: AccountData, level: Commitment)
    requires AllWellFormed(st.accounts)
    ensures AllWellFormed(UpdateAccount(st, data, level).accounts)
    ensures Forward(st.accounts, UpdateAccount(st, data, level).accounts)
  {
    NewViewKeeps(data, EffectiveLevel(st, data, level));
    if data.pubkey in st.accounts {
      UpdateKeeps(st.accounts[data.pubkey], data.pubkey, data, EffectiveLevel(st, data, level));
    }
  }

  lemma {:induction false} ProcessSlotViews(st: Store, slot: Slot, level: Commitment, order: seq<Pubkey>)
    requires AllWellFormed(st.accounts)
    ensures AllWellFormed(ProcessSlot(st, slot, level, order).accounts)
    ensures Forward(st.accounts, ProcessSlot(st, slot, level, order).accounts)
    ensures forall pk, l :: pk in st.accounts && l != level ==>
      Read(ProcessSlot(st, slot, level, order).accounts[pk], l) == Read(st.accounts[pk], l)
  {
    forall pk | pk in st.accounts
      ensures var v := Promoted(st.accounts[pk], slot, level);
        && WellFormed(v, pk)
        && (forall l :: Advances(Read(st.accounts[pk], l), Read(v, l)))
        && (forall l :: l != level ==> Read(v, l) == Read(st.accounts[pk], l))
    {
      PromoteKeeps(st.accounts[pk], pk, slot, level);
    }
  }

  lemma {:induction false} ApplyKeeps(st: Store, call: Call)
    requires AllWellFormed(st.accounts)
    ensures AllWellFormed(Apply(st, call).accounts)
    ensures Forward(st.accounts, Apply(st, call).accounts)
  {
    match call
    case Update(data, level) => UpdateAccountViews(st, data, level);
    case Initialize(data) => UpdateAccountViews(st, data, Finalized);
    case SlotCall(slot, level, order) => ProcessSlotViews(st, slot, level, order);
  }

  lemma {:induction false} RunWellFormed(calls: seq<Call>)
    ensures AllWellFormed(Run(calls).accounts)
  {
    if calls != [] {
      RunWellFormed(calls[..|calls| - 1]);
      ApplyKeeps(Run(calls[..|calls| - 1]), calls[|calls| - 1]);
    }
  }

  /** In every run each read stays the same data or moves to a strictly later slot, whatever comes later. */
  lemma {:induction false} ReadsOnlyAdvance(calls: seq<Call>, more: seq<Call>, pk: Pubkey, level: Commitment)
    requires pk in Run(calls).accounts
    ensures pk in Run(calls + more).accounts
    ensures Advances(Read(Run(calls).accounts[pk], level), Read(Run(calls + more).accounts[pk], level))
  {
    if more == [] {
      assert calls + more == calls;
    } else {
      var mid := calls + more[..|more| - 1];
      ReadsOnlyAdvance(calls, more[..|more| - 1], pk, level);
      assert (calls + more)[..|calls + more| - 1] == mid;
      RunWellFormed(mid);
      AdvancesFurther(Run(mid), more[|more| - 1], Read(Run(calls).accounts[pk], level), pk, level);
    }
  }

  lemma {:induction false} AdvancesFurther(
      st: Store, call: Call, before: Option<AccountData>, pk: Pubkey, level: Commitment)
    requires AllWellFormed(st.accounts) && pk in st.accounts && Advances(before, Read(st.accounts[pk], level))
    ensures pk in Apply(st, call).accounts && Advances(before, Read(Apply(st, call).accounts[pk], level))
  {
    ApplyKeeps(st, call);
  }

  /** In every run the processed read exists and is never at an earlier slot than the other two. */
  lemma {:induction false} ProcessedReadLeads(calls: seq<Call>, pk: Pubkey, level: Commitment)
    requires pk in Run(calls).accounts
    ensures Read(Run(calls).accounts[pk], Processed).Some?
    ensures Read(Run(calls).accounts[pk], level).Some? ==>
      Read(Run(calls).accounts[pk], level).value.slot <= Read(Run(calls).accounts[pk], Processed).value.slot
  {
    RunWellFormed(calls);
    ProcessedIsNewest(Run(calls).accounts[pk], pk);
  }

  // ----- what each call does to the reads

  function ReadIn(st: Store, pk: Pubkey, l: Commitment): Option<AccountData> {
    if pk in st.accounts then Read(st.accounts[pk], l) else None
  }

  lemma {:induction false} RunOneMore(calls: seq<Call>, call: Call)
    ensures Run(calls + [call]) == Apply(Run(calls), call)
  {
    assert (calls + [call])[..|calls|] == calls;
  }

  /** Data arrives at its level, or at confirmed if its slot is confirmed already. */
  function LevelOnArrival(level: Commitment, confirmed: bool): Commitment {
    if level == Processed && confirmed then Confirmed else level
  }

  /** An update replaces exactly the older reads of its account at the levels it is good for on arrival. */
  lemma {:induction false} UpdateSets(calls: seq<Call>, data: AccountData, level: Commitment, pk: Pubkey, l: Commitment)
    ensures var before := ReadIn(Run(calls), pk, l);
      var arrival := LevelOnArrival(level, data.slot in Run(calls).confirmedSlots);
      ReadIn(Run(calls + [Update(data, level)]), pk, l) ==
        if pk == data.pubkey && GoodFor(arrival, l) && Newer(data, before) then Some(data) else before
  {
    RunWellFormed(calls);
    RunOneMore(calls, Update(data, level));
    StoreUpdateReads(Run(calls), data, level, pk, l);
  }

  lemma {:induction false} StoreUpdateReads(st: Store, data: AccountData, level: Commitment, pk: Pubkey, l: Commitment)
    requires AllWellFormed(st.accounts)
    ensures var before, arrival := ReadIn(st, pk, l), LevelOnArrival(level, data.slot in st.confirmedSlots);
      ReadIn(UpdateAccount(st, data, level), pk, l) ==
        if pk == data.pubkey && GoodFor(arrival, l) && Newer(data, before) then Some(data) else before
  {
    NewReads(data, EffectiveLevel(st, data, level), l);
    if data.pubkey in st.accounts {
      UpdateReads(st.accounts[data.pubkey], data.pubkey, data, EffectiveLevel(st, data, level), l);
    }
  }

  /** Loading an account does the same at the finalized level. */
  lemma {:induction false} InitializeSets(calls: seq<Call>, data: AccountData, pk: Pubkey, l: Commitment)
    ensures var before := ReadIn(Run(calls), pk, l);
      ReadIn(Run(calls + [Initialize(data)]), pk, l) ==
        if pk == data.pubkey && Newer(data, before) then Some(data) else before
  {
    RunWellFormed(calls);
    RunOneMore(calls, Initialize(data));
    StoreUpdateReads(Run(calls), data, Finalized, pk, l);
  }

  /** A slot notification sets the read of its level in every account with an unread version of that slot. */
  lemma {:induction false} SlotSets(calls: seq<Call>, slot: Slot, level: Commitment, order: seq<Pubkey>, pk: Pubkey)
    requires level != Processed && pk in Run(calls).accounts
    ensures var v := Run(calls).accounts[pk];
      ReadIn(Run(calls + [SlotCall(slot, level, order)]), pk, level) ==
        if slot in v.processed && slot > 0 && (Read(v, level).None? || Read(v, level).value.slot < slot)
        then Some(v.processed[slot]) else Read(v, level)
  {
    RunOneMore(calls, SlotCall(slot, level, order));
    PromoteReads(Run(calls).accounts[pk], slot, level);
  }

  /** So after it every account with a version of that slot is read at that slot or a later one. */
  lemma {:induction false} SlotIsReached(
      calls: seq<Call>, slot: Slot, level: Commitment, order: seq<Pubkey>, pk: Pubkey)
    requires level != Processed && slot > 0 && pk in Run(calls).accounts && slot in Run(calls).accounts[pk].processed
    ensures var read := ReadIn(Run(calls + [SlotCall(slot, level, order)]), pk, level);
      read.Some? && read.value.slot >= slot
  {
    RunWellFormed(calls);
    assert WellFormed(Run(calls).accounts[pk], pk);
    SlotSets(calls, slot, level, order, pk);
  }

  predicate IsSlotCall(call: Call, slot: Slot, level: Commitment) {
    call.SlotCall? && call.slot == slot && call.level == level
  }

  /** The slot was confirmed and not finalized since. */
  ghost predicate ConfirmedNow(calls: seq<Call>, slot: Slot) {
    exists n :: 0 <= n < |calls| && IsSlotCall(calls[n], slot, Confirmed)
                && forall m :: n < m < |calls| ==> !IsSlotCall(calls[m], slot, Finalized)
  }

  lemma {:induction false} ConfirmedNowGrows(calls: seq<Call>, call: Call, slot: Slot)
    ensures ConfirmedNow(calls + [call], slot) <==>
      IsSlotCall(call, slot, Confirmed) || (ConfirmedNow(calls, slot) && !IsSlotCall(call, slot, Finalized))
  {
    var all := calls + [call];
    if IsSlotCall(call, slot, Confirmed) { assert IsSlotCall(all[|calls|], slot, Confirmed); }
    if ConfirmedNow(calls, slot) && !IsSlotCall(call, slot, Finalized) {
      var n :| 0 <= n < |calls| && IsSlotCall(calls[n], slot, Confirmed)
               && forall m :: n < m < |calls| ==> !IsSlotCall(calls[m], slot, Finalized);
      assert IsSlotCall(all[n], slot, Confirmed);
      assert forall m :: n < m < |calls| ==> all[m] == calls[m];
    }
    if ConfirmedNow(all, slot) && !IsSlotCall(call, slot, Confirmed) {
      var n :| 0 <= n < |all| && IsSlotCall(all[n], slot, Confirmed)
               && forall m :: n < m < |all| ==> !IsSlotCall(all[m], slot, Finalized);
      assert IsSlotCall(calls[n], slot, Confirmed) && !IsSlotCall(all[|calls|], slot, Finalized);
      assert forall m :: n < m < |calls| ==> all[m] == calls[m];
    }
  }

  /** The confirmed-slot set holds exactly the slots that were confirmed and not finalized since. */
  lemma {:induction false} ConfirmedSlotsAre(calls: seq<Call>, slot: Slot)
    ensures slot in Run(calls).confirmedSlots <==> ConfirmedNow(calls, slot)
  {
    if calls != [] {
      var before, call := calls[..|calls| - 1], calls[|calls| - 1];
      ConfirmedSlotsAre(before, slot);
      ConfirmedNowGrows(before, call, slot);
      assert calls == before + [call];
    }
  }

  // ----- the finalized view never overtakes the confirmed one

  /** Every slot is finalized only while it is in the confirmed-slot set. */
  ghost predicate Disciplined(calls: seq<Call>) {
    forall n :: 0 <= n < |calls| && calls[n].SlotCall? && calls[n].level == Finalized ==>
      calls[n].slot in Run(calls[..n]).confirmedSlots
  }

  /** A version of a confirmed slot is covered by the confirmed view; slot 0 is never promoted. */
  ghost predicate Covered(v: View, confirmedSlots: set<Slot>) {
    forall s :: s in confirmedSlots && s in v.processed && s > 0 ==> v.confirmed.Some? && s <= v.confirmed.value.slot
  }

  ghost predicate OrderInv(st: Store) {
    forall pk :: pk in st.accounts ==>
      WellFormed(st.accounts[pk], pk) && Ordered(st.accounts[pk]) && Covered(st.accounts[pk], st.confirmedSlots)
  }

  lemma {:induction false} UpdateKeepsOrder(st: Store, data: AccountData, level: Commitment)
    requires OrderInv(st)
    ensures OrderInv(UpdateAccount(st, data, level))
  {
    var effective := EffectiveLevel(st, data, level);
    NewViewKeeps(data, effective);
    if data.pubkey in st.accounts {
      var v := st.accounts[data.pubkey];
      UpdateKeeps(v, data.pubkey, data, effective);
      UpdateKeepsCovered(v, data, effective, st.confirmedSlots);
    }
  }

  lemma {:induction false} UpdateKeepsCovered(v: View, data: AccountData, level: Commitment, confirmedSlots: set<Slot>)
    requires Covered(v, confirmedSlots) && (level == Processed ==> data.slot !in confirmedSlots)
    ensures Covered(Updated(v, data, level), confirmedSlots)
  {
  }

  lemma {:induction false} SlotKeepsOrder(st: Store, slot: Slot, level: Commitment, order: seq<Pubkey>)
    requires OrderInv(st) && (level == Finalized ==> slot in st.confirmedSlots)
    ensures OrderInv(ProcessSlot(st, slot, level, order))
  {
    forall pk | pk in st.accounts
      ensures var v := Promoted(st.accounts[pk], slot, level);
        WellFormed(v, pk) && Ordered(v) && Covered(v, ProcessSlot(st, slot, level, order).confirmedSlots)
    {
      var v := st.accounts[pk];
      PromoteKeeps(v, pk, slot, level);
      if level == Finalized { FinalizeKeepsOrderIff(v, pk, slot); }
    }
  }

  lemma {:induction false} RunKeepsOrder(calls: seq<Call>)
    requires Disciplined(calls)
    ensures OrderInv(Run(calls))
  {
    if calls != [] {
      var before, last := calls[..|calls| - 1], calls[|calls| - 1];
      assert forall n :: 0 <= n < |before| ==> before[..n] == calls[..n];
      RunKeepsOrder(before);
      match last
      case Update(data, level) => UpdateKeepsOrder(Run(before), data, level);
      case Initialize(data) => UpdateKeepsOrder(Run(before), data, Finalized);
      case SlotCall(slot, level, order) => SlotKeepsOrder(Run(before), slot, level, order);
    }
  }

  /** In every disciplined run the finalized view is never at a later slot than the confirmed view. */
  lemma {:induction false} FinalizedNeverOvertakes(calls: seq<Call>, pk: Pubkey)
    requires Disciplined(calls) && pk in Run(calls).accounts
    ensures var v := Run(calls).accounts[pk];
      v.finalized.Some? ==> v.confirmed.Some? && v.finalized.value.slot <= v.confirmed.value.slot
  {
    RunKeepsOrder(calls);
  }

  ghost predicate AllOrdered(accounts: map<Pubkey, View>) {
    forall pk :: pk in accounts ==> Ordered(accounts[pk])
  }

  ghost predicate CallInOrder(st: Store, call: Call) {
    call.SlotCall? && call.level == Finalized ==>
      forall pk :: pk in st.accounts ==> FinalizesInOrder(st.accounts[pk], call.slot)
  }

  lemma {:induction false} SlotKeepsOrderIff(st: Store, slot: Slot, level: Commitment, order: seq<Pubkey>)
    requires AllWellFormed(st.accounts) && AllOrdered(st.accounts)
    ensures AllOrdered(ProcessSlot(st, slot, level, order).accounts) <==> CallInOrder(st, SlotCall(slot, level, order))
  {
    forall pk | pk in st.accounts
      ensures Ordered(Promoted(st.accounts[pk], slot, level)) <==>
        level != Finalized || FinalizesInOrder(st.accounts[pk], slot)
    {
      PromoteKeeps(st.accounts[pk], pk, slot, level);
      if level == Finalized { FinalizeKeepsOrderIff(st.accounts[pk], pk, slot); }
    }
    if level != Processed {
      assert ProcessSlot(st, slot, level, order).accounts.Keys == st.accounts.Keys;
    }
  }

  lemma {:induction false} CallKeepsOrderIff(calls: seq<Call>, n: nat)
    requires n < |calls| && AllOrdered(Run(calls[..n]).accounts)
    ensures AllOrdered(Run(calls[..n + 1]).accounts) <==> CallInOrder(Run(calls[..n]), calls[n])
  {
    var st := Run(calls[..n]);
    assert calls[..n + 1][..n] == calls[..n];
    RunWellFormed(calls[..n]);
    match calls[n] {
      case SlotCall(slot, level, order) => SlotKeepsOrderIff(st, slot, level, order);
      case Update(data, level) => UpdateKeepsAllOrdered(st, data, level);
      case Initialize(data) => UpdateKeepsAllOrdered(st, data, Finalized);
    }
  }

  lemma {:induction false} UpdateKeepsAllOrdered(st: Store, data: AccountData, level: Commitment)
    requires AllWellFormed(st.accounts) && AllOrdered(st.accounts)
    ensures AllOrdered(UpdateAccount(st, data, level).accounts)
  {
    NewViewKeeps(data, EffectiveLevel(st, data, level));
    if data.pubkey in st.accounts {
      UpdateKeeps(st.accounts[data.pubkey], data.pubkey, data, EffectiveLevel(st, data, level));
    }
  }

  lemma {:induction false} OrderedSoFar(calls: seq<Call>, n: nat)
    requires n <= |calls| && forall m :: 0 <= m < n ==> CallInOrder(Run(calls[..m]), calls[m])
    ensures AllOrdered(Run(calls[..n]).accounts)
  {
    if n > 0 {
      OrderedSoFar(calls, n - 1);
      CallKeepsOrderIff(calls, n - 1);
    }
  }

  /** All views are in order all along a run exactly if each finalization was in order for every account. */
  lemma {:induction false} OrderedThroughoutIff(calls: seq<Call>)
    ensures (forall n :: 0 <= n <= |calls| ==> AllOrdered(Run(calls[..n]).accounts)) <==>
            (forall n :: 0 <= n < |calls| ==> CallInOrder(Run(calls[..n]), calls[n]))
  {
    if forall n :: 0 <= n <= |calls| ==> AllOrdered(Run(calls[..n]).accounts) {
      forall n | 0 <= n < |calls| ensures CallInOrder(Run(calls[..n]), calls[n]) {
        assert AllOrdered(Run(calls[..n]).accounts) && AllOrdered(Run(calls[..n + 1]).accounts);
        CallKeepsOrderIff(calls, n);
      }
    }
    if forall n :: 0 <= n < |calls| ==> CallInOrder(Run(calls[..n]), calls[n]) {
      forall n | 0 <= n <= |calls| ensures AllOrdered(Run(calls[..n]).accounts) { OrderedSoFar(calls, n); }
    }
  }

  /** Finalizing a slot that was never confirmed lets the finalized view overtake. */
  lemma {:induction false} UndisciplinedRunOvertakes(data: AccountData)
    requires data.slot > 0
    ensures var calls := [Update(data, Processed), SlotCall(data.slot, Finalized, [data.pubkey])];
      data.pubkey in Run(calls).accounts && !Ordered(Run(calls).accounts[data.pubkey])
  {
    var first := [Update(data, Processed)];
    var calls := first + [SlotCall(data.slot, Finalized, [data.pubkey])];
    assert first[..0] == [] && calls[..1] == first;
    assert Run(first).accounts == map[data.pubkey := NewView(data, Processed)];
    assert calls == [Update(data, Processed), SlotCall(data.slot, Finalized, [data.pubkey])];
  }

  // ----- what process_slot_data returns

  lemma {:induction false} PromotionsOf(
      accounts: map<Pubkey, View>, order: seq<Pubkey>, slot: Slot, level: Commitment, d: AccountData)
    requires AllWellFormed(accounts) && (forall pk :: pk in order ==> pk in accounts)
    ensures d in Reported(Promotions(accounts, order, slot, level)) <==>
      d.pubkey in order && Promotes(accounts[d.pubkey], slot, level) && accounts[d.pubkey].processed[slot] == d
  {
    if order != [] {
      var front, pk := order[..|order| - 1], order[|order| - 1];
      assert order == front + [pk];
      PromotionsOf(accounts, front, slot, level, d);
      ReportedAppend(accounts, front, pk, slot, level);
      assert WellFormed(accounts[pk], pk);
    }
  }

  /** Reported is what was promoted and differs from what it replaced. */
  lemma {:induction false} ReportedIff(promotions: seq<Promotion>, d: AccountData)
    ensures d in Reported(promotions) <==> exists p :: p in promotions && p.0 == d && p.1 != Some(d)
  {
    if promotions != [] {
      var front, last := promotions[..|promotions| - 1], promotions[|promotions| - 1];
      ReportedIff(front, d);
      assert promotions == front + [last];
      assert forall p :: p in promotions <==> p in front || p == last;
    }
  }

  /** A promotion is always to a later slot, so none is filtered from the report. */
  lemma {:induction false} ReportedAppend(
      accounts: map<Pubkey, View>, front: seq<Pubkey>, pk: Pubkey, slot: Slot, level: Commitment)
    requires pk in accounts && WellFormed(accounts[pk], pk)
    ensures Reported(Promotions(accounts, front + [pk], slot, level))
      == Reported(Promotions(accounts, front, slot, level)) +
        if Promotes(accounts[pk], slot, level) then [accounts[pk].processed[slot]] else []
  {
    var v, before := accounts[pk], Promotions(accounts, front, slot, level);
    assert (front + [pk])[..|front|] == front;
    var all := before + PromotionOf(v, slot, level);
    assert Promotions(accounts, front + [pk], slot, level) == all;
    if Promotes(v, slot, level) {
      assert all[..|all| - 1] == before;
    } else {
      assert all == before;
    }
  }

  lemma {:induction false} ReportedOnce(accounts: map<Pubkey, View>, order: seq<Pubkey>, slot: Slot, level: Commitment)
    requires AllWellFormed(accounts) && (forall pk :: pk in order ==> pk in accounts)
    requires forall i, j :: 0 <= i < j < |order| ==> order[i] != order[j]
    ensures var r := Reported(Promotions(accounts, order, slot, level));
      forall i, j :: 0 <= i < j < |r| ==> r[i].pubkey != r[j].pubkey
  {
    if order != [] {
      var front, pk := order[..|order| - 1], order[|order| - 1];
      assert order == front + [pk];
      ReportedOnce(accounts, front, slot, level);
      ReportedAppend(accounts, front, pk, slot, level);
      var r := Reported(Promotions(accounts, front, slot, level));
      forall i | 0 <= i < |r| ensures r[i].pubkey != pk {
        PromotionsOf(accounts, front, slot, level, r[i]);
        var k :| 0 <= k < |front| && front[k] == r[i].pubkey;
        assert order[k] != order[|order| - 1];
      }
      if Promotes(accounts[pk], slot, level) { assert WellFormed(accounts[pk], pk); }
    }
  }

  /**
   The call returns exactly the accounts whose read at its level changed, each once with its new
   read, and leaves the reads at the other levels as they were.
   */
  lemma {:induction false} SlotCallReportsChanges(calls: seq<Call>, slot: Slot, level: Commitment, order: seq<Pubkey>)
    requires level != Processed && Enumerates(order, Run(calls).accounts.Keys)
    ensures var before, after := Run(calls).accounts, ProcessSlot(Run(calls), slot, level, order).accounts;
      var r := Reported(Promotions(before, order, slot, level));
      && before.Keys == after.Keys
      && (forall d :: d in r <==>
        d.pubkey in before && Read(after[d.pubkey], level) == Some(d) && Read(before[d.pubkey], level) != Some(d))
      && (forall i, j :: 0 <= i < j < |r| ==> r[i] != r[j])
      && (forall pk, l :: pk in before && l != level ==> Read(after[pk], l) == Read(before[pk], l))
  {
    RunWellFormed(calls);
    ProcessSlotViews(Run(calls), slot, level, order);
    ReportedOnce(Run(calls).accounts, order, slot, level);
    ReportsExactlyChanges(Run(calls).accounts, order, slot, level);
  }

  lemma {:induction false} ReportsExactlyChanges(
      before: map<Pubkey, View>, order: seq<Pubkey>, slot: Slot, level: Commitment)
    requires AllWellFormed(before) && Enumerates(order, before.Keys)
    ensures var after := PromotedViews(before, before.Keys, slot, level);
      forall d :: d in Reported(Promotions(before, order, slot, level)) <==>
        d.pubkey in before && Read(after[d.pubkey], level) == Some(d) && Read(before[d.pubkey], level) != Some(d)
  {
    var after := PromotedViews(before, before.Keys, slot, level);
    forall d
      ensures d in Reported(Promotions(before, order, slot, level)) <==>
        d.pubkey in before && Read(after[d.pubkey], level) == Some(d) && Read(before[d.pubkey], level) != Some(d)
    {
      ReportedIffChanged(before, order, slot, level, d);
    }
  }

  lemma {:induction false} ReportedIffChanged(
      accounts: map<Pubkey, View>, order: seq<Pubkey>, slot: Slot, level: Commitment, d: AccountData)
    requires AllWellFormed(accounts) && Enumerates(order, accounts.Keys)
    ensures d in Reported(Promotions(accounts, order, slot, level)) <==>
      && d.pubkey in accounts
      && Read(Promoted(accounts[d.pubkey], slot, level), level) == Some(d) && Read(accounts[d.pubkey], level) != Some(d)
  {
    PromotionsOf(accounts, order, slot, level, d);
    if d.pubkey in accounts { PromoteKeeps(accounts[d.pubkey], d.pubkey, slot, level); }
  }

  /** After a slot is finalized every account keeps its later versions, or else only its newest one. */
  lemma {:induction false} FinalizedSlotPrunes(calls: seq<Call>, slot: Slot, order: seq<Pubkey>, pk: Pubkey)
    requires pk in Run(calls).accounts
    ensures var old', new' := Run(calls).accounts[pk].processed,
      ProcessSlot(Run(calls), slot, Finalized, order).accounts[pk].processed;
      && (forall s :: s in new' ==> s in old' && new'[s] == old'[s])
      && (forall s :: s in old' && s > slot ==> s in new')
      && (forall s :: s in new' && s <= slot ==> new'.Keys == {s} && forall t :: t in old' ==> t <= s)
      && new' != map[]
  {
    RunWellFormed(calls);
    PrunedVersions(Run(calls).accounts[pk], pk, slot);
    PruneKeepsNewest(Run(calls).accounts[pk].processed, slot);
  }
}
