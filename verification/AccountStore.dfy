/**
 The commitment-aware account store (accounts/src/inmemory_account_store.rs, InmemoryAccountStore).
 Each store call is one atomic step.
 */
module AccountStore {
  import opened Common
  import opened AccountViews

  type Index = map<Pubkey, set<Pubkey>>

  datatype Store = Store(accounts: map<Pubkey, View>, confirmedSlots: set<Slot>, byOwner: Index)

  const Empty := Store(map[], {}, map[])

  function Indexed(index: Index, owner: Pubkey): set<Pubkey> {
    if owner in index then index[owner] else {}
  }

  function AddOwner(index: Index, account: Pubkey, owner: Pubkey): Index {
    index[owner := Indexed(index, owner) + {account}]
  }

  function DropOwner(index: Index, account: Pubkey, owner: Pubkey): Index {
    if owner in index then index[owner := index[owner] - {account}] else index
  }

  /** The index keeps both owners of an account until the change is finalized. */
  function UpdateOwner(index: Index, prev: AccountData, data: AccountData, level: Commitment): Index {
    if prev.owner == data.owner then index
    else
      var kept := if level == Finalized then DropOwner(index, prev.pubkey, prev.owner) else index;
      AddOwner(kept, data.pubkey, data.owner)
  }

  /** A processed update of a slot that is confirmed already counts as confirmed. */
  function EffectiveLevel(st: Store, data: AccountData, level: Commitment): Commitment {
    if level == Processed && data.slot in st.confirmedSlots then Confirmed else level
  }

  function UpdateAccount(st: Store, data: AccountData, level: Commitment): Store {
    var level := EffectiveLevel(st, data, level);
    if data.pubkey in st.accounts then
      var v := st.accounts[data.pubkey];
      Store(st.accounts[data.pubkey := Updated(v, data, level)],
            st.confirmedSlots,
            if UpdateReported(v, data, level) && Read(v, level).Some?
            then UpdateOwner(st.byOwner, Read(v, level).value, data, level) else st.byOwner)
    else
      Store(st.accounts[data.pubkey := NewView(data, level)], st.confirmedSlots,
        AddOwner(st.byOwner, data.pubkey, data.owner))
  }

  /** What promoting an account reports: the new view and the one it replaced. */
  type Promotion = (AccountData, Option<AccountData>)

  function PromotionOf(v: View, slot: Slot, level: Commitment): seq<Promotion> {
    if Promotes(v, slot, level) then [(v.processed[slot], Read(v, level))] else []
  }

  /** The promotions of the given accounts, in that order. */
  function Promotions(accounts: map<Pubkey, View>, order: seq<Pubkey>, slot: Slot, level: Commitment): seq<Promotion> {
    if order == [] then []
    else
      var pk := order[|order| - 1];
      Promotions(accounts, order[..|order| - 1], slot, level) +
        if pk in accounts then PromotionOf(accounts[pk], slot, level) else []
  }

  /** The owner changes of promoted accounts, one after the other. */
  function Reindexed(index: Index, promotions: seq<Promotion>, level: Commitment): Index {
    if promotions == [] then index
    else
      var (data, prev) := promotions[|promotions| - 1];
      var before := Reindexed(index, promotions[..|promotions| - 1], level);
      if prev.Some? then UpdateOwner(before, prev.value, data, level) else before
  }

  /** The accounts that are reported to the caller. */
  function Reported(promotions: seq<Promotion>): seq<AccountData> {
    if promotions == [] then []
    else
      var (data, prev) := promotions[|promotions| - 1];
      Reported(promotions[..|promotions| - 1]) + if prev == Some(data) then [] else [data]
  }

  function PromotedViews(accounts: map<Pubkey, View>, done: set<Pubkey>, slot: Slot, level: Commitment)
    : map<Pubkey, View>
  {
    map pk | pk in accounts :: if pk in done then Promoted(accounts[pk], slot, level) else accounts[pk]
  }

  /** The order visits every key once. */
  ghost predicate Enumerates(order: seq<Pubkey>, keys: set<Pubkey>) {
    (forall pk :: pk in order <==> pk in keys) && (forall i, j :: 0 <= i < j < |order| ==> order[i] != order[j])
  }

  /** Promoting a slot in all accounts; the order is that of the concurrent map's iterator. */
  function ProcessSlot(st: Store, slot: Slot, level: Commitment, order: seq<Pubkey>): Store {
    if level == Processed then st
    else
      Store(PromotedViews(st.accounts, st.accounts.Keys, slot, level),
            if level == Confirmed then st.confirmedSlots + {slot} else st.confirmedSlots - {slot},
            Reindexed(st.byOwner, Promotions(st.accounts, order, slot, level), level))
  }

  ghost predicate AllWellFormed(accounts: map<Pubkey, View>) {
    forall pk :: pk in accounts ==> WellFormed(accounts[pk], pk)
  }

  class InmemoryAccountStore {
    var accountStore: map<Pubkey, AccountDataByCommitment>
    var confirmedSlotsMap: set<Slot>
    var accountsByOwner: Index

    /** The values of the account objects. */
    ghost var views: map<Pubkey, View>

    /** Each account is filed under its own key, so no two keys share an object. */
    ghost predicate Valid()
      reads this`accountStore, this`views, accountStore.Values
    {
      && views.Keys == accountStore.Keys
      && forall pk :: pk in accountStore ==> accountStore[pk].pubkey == pk && accountStore[pk].Value() == views[pk]
    }

    ghost function Value(): Store
      reads this
    {
      Store(views, confirmedSlotsMap, accountsByOwner)
    }

    constructor ()
      ensures Valid() && Value() == Empty
    {
      accountStore, confirmedSlotsMap, accountsByOwner, views := map[], {}, map[], map[];
    }

    method AddAccountOwner(account: Pubkey, owner: Pubkey)
      modifies this`accountsByOwner
      ensures accountsByOwner == AddOwner(old(accountsByOwner), account, owner)
    {
      if owner in accountsByOwner {
        accountsByOwner := accountsByOwner[owner := accountsByOwner[owner] + {account}];
      } else {
        accountsByOwner := accountsByOwner[owner := {account}];
        assert {} + {account} == {account};
      }
    }

    method UpdateOwnerIndex(prev: AccountData, data: AccountData, level: Commitment)
      modifies this`accountsByOwner
      ensures accountsByOwner == UpdateOwner(old(accountsByOwner), prev, data, level)
    {
      if prev.owner != data.owner {
        if level == Finalized && prev.owner in accountsByOwner {
          accountsByOwner := accountsByOwner[prev.owner := accountsByOwner[prev.owner] - {prev.pubkey}];
        }
        AddAccountOwner(data.pubkey, data.owner);
      }
    }

    /** Files a new account object under its key. */
    method InsertAccount(data: AccountData, level: Commitment, account: AccountDataByCommitment)
      requires Valid() && data.pubkey !in accountStore && account.pubkey == data.pubkey
        && account.Value() == NewView(data, level)
      modifies this`accountStore, this`accountsByOwner, this`views
      ensures Valid() && accountStore.Values == old(accountStore.Values) + {account}
      ensures views == old(views)[data.pubkey := NewView(data, level)]
      ensures accountsByOwner == AddOwner(old(accountsByOwner), data.pubkey, data.owner)
    {
      AddAccountOwner(data.pubkey, data.owner);
      accountStore := accountStore[data.pubkey := account];
      views := views[data.pubkey := NewView(data, level)];
      assert accountStore[data.pubkey] == account;
      assert forall a :: a in old(accountStore) ==> accountStore[a] == old(accountStore)[a];
    }

    /** Updates one account object in place; every other account keeps its value. */
    method UpdateObject(data: AccountData, level: Commitment) returns (updated: bool)
      requires Valid() && data.pubkey in accountStore
      modifies accountStore[data.pubkey], this`views
      ensures Valid()
      ensures views == old(views)[data.pubkey := Updated(old(views)[data.pubkey], data, level)]
      ensures updated == UpdateReported(old(views)[data.pubkey], data, level)
    {
      updated := accountStore[data.pubkey].Update(data, level);
      views := views[data.pubkey := Updated(views[data.pubkey], data, level)];
    }

    method UpdateStoredAccount(data: AccountData, level: Commitment) returns (updated: bool)
      requires Valid()
      modifies this, accountStore.Values
      ensures Valid() && fresh(accountStore.Values - old(accountStore.Values))
      ensures Value() == UpdateAccount(old(Value()), data, level)
      ensures updated == (data.pubkey !in old(views)
                          || UpdateReported(old(views)[data.pubkey], data, EffectiveLevel(old(Value()), data, level)))
    {
      var level := if level == Processed && data.slot in confirmedSlotsMap then Confirmed else level;
      if data.pubkey in accountStore {
        var prev := Read(accountStore[data.pubkey].Value(), level);
        updated := UpdateObject(data, level);
        if updated && prev.Some? {
          UpdateOwnerIndex(prev.value, data, level);
        }
      } else {
        var account := new AccountDataByCommitment(data, level);
        InsertAccount(data, level, account);
        updated := true;
      }
    }

    method InitializeOrUpdateAccount(data: AccountData)
      requires Valid()
      modifies this, accountStore.Values
      ensures Valid() && fresh(accountStore.Values - old(accountStore.Values))
      ensures Value() == UpdateAccount(old(Value()), data, Finalized)
    {
      if data.pubkey in accountStore {
        var _ := UpdateStoredAccount(data, Finalized);
      } else {
        var account := new AccountDataByCommitment.Initialize(data);
        InsertAccount(data, Finalized, account);
      }
    }

    method GetAccount(pk: Pubkey, level: Commitment) returns (data: Option<AccountData>)
      requires Valid()
      ensures data == if pk in views then Read(views[pk], level) else None
    {
      data := None;
      if pk in accountStore {
        data := Read(accountStore[pk].Value(), level);
      }
    }

    /** Promotes one account object in place; every other account keeps its value. */
    method PromoteObject(pk: Pubkey, slot: Slot, level: Commitment) returns (promoted: Option<Promotion>)
      requires Valid() && pk in accountStore
      modifies accountStore[pk], this`views
      ensures Valid()
      ensures views == old(views)[pk := Promoted(old(views)[pk], slot, level)]
      ensures PromotionOf(old(views)[pk], slot, level) == if promoted.Some? then [promoted.value] else []
    {
      promoted := accountStore[pk].PromoteSlotCommitment(slot, level);
      views := views[pk := Promoted(views[pk], slot, level)];
    }

    /** One iteration of the promotion loop. */
    method PromoteNext(
        pk: Pubkey, slot: Slot, level: Commitment, updated: seq<Promotion>, ghost before: map<Pubkey, View>,
        ghost done: set<Pubkey>, ghost order: seq<Pubkey>)
      returns (more: seq<Promotion>)
      requires Valid() && pk in accountStore && pk in before && pk !in done
      requires Progress(before, views, done, order, updated, slot, level)
      modifies accountStore[pk], this`views
      ensures Valid() && Progress(before, views, done + {pk}, order + [pk], more, slot, level)
    {
      ProgressNext(before, views, done, order, updated, pk, slot, level);
      var promoted := PromoteObject(pk, slot, level);
      more := if promoted.Some? then updated + [promoted.value] else updated;
    }

    /** Promotes every account object in some order and collects what was promoted. */
    method PromoteAll(slot: Slot, level: Commitment) returns (updated: seq<Promotion>, ghost order: seq<Pubkey>)
      requires Valid()
      modifies accountStore.Values, this`views
      ensures Valid() && Progress(old(views), views, old(views).Keys, order, updated, slot, level)
    {
      updated, order := [], [];
      ghost var before := views;
      ghost var done: set<Pubkey> := {};
      var todo := accountStore.Keys;
      while todo != {}
        invariant Valid() && Progress(before, views, done, order, updated, slot, level)
        invariant forall pk :: pk in before <==> pk in todo || pk in done
        invariant forall pk :: pk in todo ==> pk !in done
      {
        var pk :| pk in todo;
        updated := PromoteNext(pk, slot, level, updated, before, done, order);
        order := order + [pk];
        done := done + {pk};
        todo := todo - {pk};
      }
      assert done == before.Keys;
    }

    method UpdateOwners(updated: seq<Promotion>, level: Commitment)
      modifies this`accountsByOwner
      ensures accountsByOwner == Reindexed(old(accountsByOwner), updated, level)
    {
      for i := 0 to |updated|
        invariant accountsByOwner == Reindexed(old(accountsByOwner), updated[..i], level)
      {
        var (data, prev) := updated[i];
        assert updated[..i + 1][..i] == updated[..i];
        if prev.Some? && prev.value.owner != data.owner {
          UpdateOwnerIndex(prev.value, data, level);
        }
      }
      assert updated[..|updated|] == updated;
    }

    method Report(updated: seq<Promotion>) returns (r: seq<AccountData>)
      ensures r == Reported(updated)
    {
      r := [];
      for i := 0 to |updated|
        invariant r == Reported(updated[..i])
      {
        var (data, prev) := updated[i];
        assert updated[..i + 1][..i] == updated[..i];
        if prev.None? || prev.value != data {
          r := r + [data];
        }
      }
      assert updated[..|updated|] == updated;
    }

    method ProcessSlotData(slot: Slot, level: Commitment) returns (r: seq<AccountData>, ghost order: seq<Pubkey>)
      requires Valid()
      modifies this`confirmedSlotsMap, this`accountsByOwner, this`views, accountStore.Values
      ensures Valid() && Enumerates(order, views.Keys)
      ensures Value() == ProcessSlot(old(Value()), slot, level, order)
      ensures r == if level == Processed then [] else Reported(Promotions(old(views), order, slot, level))
    {
      match level {
        case Processed =>
          r, order := [], EnumerateKeys(accountStore.Keys);
          return;
        case Confirmed =>
          confirmedSlotsMap := confirmedSlotsMap + {slot};
        case Finalized =>
          confirmedSlotsMap := confirmedSlotsMap - {slot};
      }
      var updated;
      updated, order := PromoteAll(slot, level);
      UpdateOwners(updated, level);
      r := Report(updated);
    }

    /** Looks the owner up in the index and rechecks each account it lists. */
    method GetProgramAccounts(program: Pubkey, allows: AccountData -> bool, level: Commitment)
      returns (r: Option<seq<AccountData>>)
      requires Valid()
      ensures r.None? <==> program !in accountsByOwner
      ensures r.Some? ==> Collects(r.value, views, accountsByOwner[program], program, allows, level)
    {
      if program !in accountsByOwner {
        return None;
      }
      var listed := accountsByOwner[program];
      var todo := listed;
      var found: seq<AccountData> := [];
      while todo != {}
        invariant todo <= listed
        invariant Collects(found, views, listed - todo, program, allows, level)
      {
        var pk :| pk in todo;
        var data := GetAccount(pk, level);
        CollectNext(found, views, listed - todo, pk, program, allows, level);
        assert listed - todo + {pk} == listed - (todo - {pk});
        if data.Some? && data.value.owner == program && allows(data.value) {
          found := found + [data.value];
        }
        todo := todo - {pk};
      }
      assert listed - todo == listed;
      r := Some(found);
    }
  }

  /** The state of the promotion loop after it visited some of the accounts. */
  ghost predicate Progress(
      before: map<Pubkey, View>, now: map<Pubkey, View>, done: set<Pubkey>, order: seq<Pubkey>,
      updated: seq<Promotion>, slot: Slot, level: Commitment)
  {
    && Enumerates(order, done)
    && now == PromotedViews(before, done, slot, level)
    && updated == Promotions(before, order, slot, level)
  }

  lemma {:induction false} ProgressNext(
      before: map<Pubkey, View>, now: map<Pubkey, View>, done: set<Pubkey>, order: seq<Pubkey>,
      updated: seq<Promotion>, pk: Pubkey, slot: Slot, level: Commitment)
    requires Progress(before, now, done, order, updated, slot, level) && pk in before && pk !in done
    ensures now[pk] == before[pk]
    ensures Progress(before, now[pk := Promoted(before[pk], slot, level)], done + {pk}, order + [pk],
                     updated + PromotionOf(before[pk], slot, level), slot, level)
    ensures !Promotes(before[pk], slot, level) ==> updated + PromotionOf(before[pk], slot, level) == updated
  {
    EnumerateNext(order, done, pk);
    assert (order + [pk])[..|order|] == order;
  }

  ghost function EnumerateKeys(keys: set<Pubkey>): (order: seq<Pubkey>)
    ensures Enumerates(order, keys)
  {
    if keys == {} then []
    else
      var pk :| pk in keys;
      var rest := EnumerateKeys(keys - {pk});
      EnumerateNext(rest, keys - {pk}, pk);
      assert keys - {pk} + {pk} == keys;
      rest + [pk]
  }

  lemma {:induction false} EnumerateNext(order: seq<Pubkey>, done: set<Pubkey>, pk: Pubkey)
    requires Enumerates(order, done) && pk !in done
    ensures Enumerates(order + [pk], done + {pk})
  {
    assert forall x :: x in order + [pk] <==> x in order || x == pk;
    assert forall i :: 0 <= i < |order| ==> order[i] in done;
  }

  // ----- program accounts

  /** The reads at a level of the given accounts that the program owns and the filters allow. */
  ghost function Matching(
      accounts: map<Pubkey, View>, keys: set<Pubkey>, program: Pubkey, allows: AccountData -> bool, level: Commitment)
    : set<AccountData>
  {
    set pk |
      pk in keys && pk in accounts && Read(accounts[pk], level).Some?
      && Read(accounts[pk], level).value.owner == program && allows(Read(accounts[pk], level).value)
      :: Read(accounts[pk], level).value
  }

  /** The list holds exactly the matching reads, each once if accounts are filed under their own key. */
  ghost predicate Collects(
      found: seq<AccountData>, accounts: map<Pubkey, View>, keys: set<Pubkey>, program: Pubkey,
      allows: AccountData -> bool, level: Commitment)
  {
    && (set d | d in found) == Matching(accounts, keys, program, allows, level)
    && (AllWellFormed(accounts) ==> multiset(found) == multiset(Matching(accounts, keys, program, allows, level)))
  }

  lemma {:induction false} CollectNext(
      found: seq<AccountData>, accounts: map<Pubkey, View>, done: set<Pubkey>, pk: Pubkey, program: Pubkey,
      allows: AccountData -> bool, level: Commitment)
    requires pk !in done && Collects(found, accounts, done, program, allows, level)
    ensures var next := if pk in accounts then Read(accounts[pk], level) else None;
      if next.Some? && next.value.owner == program && allows(next.value)
      then Collects(found + [next.value], accounts, done + {pk}, program, allows, level)
      else Collects(found, accounts, done + {pk}, program, allows, level)
  {
    MatchingNext(accounts, done, pk, program, allows, level);
    var next := if pk in accounts then Read(accounts[pk], level) else None;
    if next.Some? && next.value.owner == program && allows(next.value) {
      assert forall d :: d in found + [next.value] <==> d in found || d == next.value;
      assert (set d | d in found + [next.value]) == (set d | d in found) + {next.value};
    }
  }

  ghost function IndexScan(
      st: Store, program: Pubkey, allows: AccountData -> bool, level: Commitment): set<AccountData>
  {
    Matching(st.accounts, Indexed(st.byOwner, program), program, allows, level)
  }

  ghost function FullScan(
      st: Store, program: Pubkey, allows: AccountData -> bool, level: Commitment): set<AccountData>
  {
    Matching(st.accounts, st.accounts.Keys, program, allows, level)
  }

  lemma {:induction false} MatchingNext(
      accounts: map<Pubkey, View>, done: set<Pubkey>, pk: Pubkey, program: Pubkey, allows: AccountData -> bool,
      level: Commitment)
    requires pk !in done
    ensures var next := if pk in accounts then Read(accounts[pk], level) else None;
      var hit := next.Some? && next.value.owner == program && allows(next.value);
      && Matching(accounts, done + {pk}, program, allows, level)
        == Matching(accounts, done, program, allows, level) + (if hit then {next.value} else {})
      && (AllWellFormed(accounts) && hit ==> next.value !in Matching(accounts, done, program, allows, level))
  {
    if AllWellFormed(accounts) && pk in accounts && Read(accounts[pk], level).Some? {
      assert Read(accounts[pk], level).value.pubkey == pk;
      forall other | other in done && other in accounts && Read(accounts[other], level).Some?
        ensures Read(accounts[other], level).value != Read(accounts[pk], level).value
      {
        assert WellFormed(accounts[other], other);
      }
    }
  }
}
