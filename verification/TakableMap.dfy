/**
 Maps whose content can be taken away for a while (stake_vote/src/utils.rs), with the rules by which
 stake and vote accounts enter and leave them (stake_vote/src/stake.rs and vote.rs). While the
 content is away, updates wait; a merge brings it back and applies them.
 */
module TakableMap {
  import opened Common

  datatype Stored<T> = Stored(pubkey: Pubkey, slot: Slot, data: T)

  datatype UpdateAction<T> = Notify(account: Stored<T>) | Remove(pubkey: Pubkey, slot: Slot)

  type Accounts<T> = map<Pubkey, Stored<T>>

  /** Newer or equally new accounts replace what is stored. */
  function Notified<T>(m: Accounts<T>, a: Stored<T>): Accounts<T> {
    if a.pubkey in m && m[a.pubkey].slot > a.slot then m else m[a.pubkey := a]
  }

  /** A removal takes away what is not newer than it. */
  function Removed<T>(m: Accounts<T>, pk: Pubkey, slot: Slot): Accounts<T> {
    if pk in m && m[pk].slot <= slot then m - {pk} else m
  }

  function Applied<T>(m: Accounts<T>, action: UpdateAction<T>): Accounts<T> {
    match action
    case Notify(account) => Notified(m, account)
    case Remove(pk, slot) => Removed(m, pk, slot)
  }

  function AppliedAll<T>(m: Accounts<T>, actions: seq<UpdateAction<T>>): Accounts<T> {
    if actions == [] then m else Applied(AppliedAll(m, actions[..|actions| - 1]), actions[|actions| - 1])
  }

  /** Either the notifiers to wait for, or the content. */
  datatype TakeResult<+C> = Taken(notifiers: seq<nat>) | Content(content: C)

  /** Combines the results of taking two maps; the source has no case for a mix of both. */
  function AndThen<A, B>(a: TakeResult<A>, b: TakeResult<B>): TakeResult<(A, B)>
    requires a.Taken? <==> b.Taken?
  {
    match a
    case Taken(n) => Taken(n + b.notifiers)
    case Content(c) => Content((c, b.content))
  }

  datatype Takable<T> = Takable(content: Option<Accounts<T>>, updates: seq<UpdateAction<T>>)

  function AddValue<T>(t: Takable<T>, action: UpdateAction<T>, force: bool): Takable<T> {
    if t.content.None? || force then t.(updates := t.updates + [action])
    else t.(content := Some(Applied(t.content.value, action)))
  }

  function Merged<T>(t: Takable<T>, content: Accounts<T>): Takable<T> {
    if t.content.None? then Takable(Some(AppliedAll(content, t.updates)), []) else t
  }

  class TakableStore<T> {
    var content: Option<Accounts<T>>
    var updates: seq<UpdateAction<T>>
    const notifier: nat

    function Value(): Takable<T>
      reads this
    {
      Takable(content, updates)
    }

    constructor (content: Accounts<T>, notifier: nat)
      ensures Value() == Takable(Some(content), []) && this.notifier == notifier
    {
      this.content, this.updates, this.notifier := Some(content), [], notifier;
    }

    method Take() returns (r: TakeResult<Accounts<T>>)
      modifies this
      ensures old(content).Some? ==> r == Content(old(content).value)
      ensures old(content).None? ==> r == Taken([notifier])
      ensures Value() == old(Value()).(content := None)
    {
      if content.Some? {
        r := Content(content.value);
        content := None;
      } else {
        r := Taken([notifier]);
      }
    }

    /** Brings the content back with the waiting updates applied, or fails if there is content already. */
    method Merge(given: Accounts<T>) returns (ok: bool)
      modifies this
      ensures ok <==> old(content).None?
      ensures Value() == Merged(old(Value()), given)
    {
      if content.None? {
        var merged := given;
        for i := 0 to |updates|
          invariant merged == AppliedAll(given, updates[..i])
          invariant updates == old(updates) && content == old(content)
        {
          assert updates[..i + 1][..i] == updates[..i];
          merged := Applied(merged, updates[i]);
        }
        assert updates[..|updates|] == updates;
        content, updates := Some(merged), [];
        ok := true;
      } else {
        ok := false;
      }
    }

    method Add(action: UpdateAction<T>, forceInUpdate: bool)
      modifies this
      ensures Value() == AddValue(old(Value()), action, forceInUpdate)
    {
      if content.None? || forceInUpdate {
        updates := updates + [action];
      } else {
        content := Some(Applied(content.value, action));
      }
    }
  }

  /** Takes both maps or neither. */
  method TakePair<S, V>(first: TakableStore<S>, second: TakableStore<V>)
    returns (r: TakeResult<(Accounts<S>, Accounts<V>)>)
    requires (first as object) != (second as object)
    modifies first, second
    ensures if old(first.content).Some? && old(second.content).Some?
            then r == Content((old(first.content).value, old(second.content).value)) && first.content == None
              && second.content == None
            else r.Taken? && first.content == old(first.content) && second.content == old(second.content)
    ensures r.Taken? ==> r.notifiers == (if old(first.content).None? then [first.notifier] else [])
                                        + (if old(second.content).None? then [second.notifier] else [])
    ensures first.updates == old(first.updates) && second.updates == old(second.updates)
  {
    if first.content.None? == second.content.None? {
      var a := first.Take();
      var b := second.Take();
      r := AndThen(a, b);
    } else if first.content.None? {
      var a := first.Take();
      r := Taken(a.notifiers);
    } else {
      var b := second.Take();
      r := Taken(b.notifiers);
    }
  }

  lemma {:induction false} AppliedOne<T>(m: Accounts<T>, x: UpdateAction<T>)
    ensures AppliedAll(m, [x]) == Applied(m, x)
  {
    assert [x][..0] == [];
  }

  lemma {:induction false} AppliedTwo<T>(m: Accounts<T>, x: UpdateAction<T>, y: UpdateAction<T>)
    ensures AppliedAll(m, [x, y]) == Applied(Applied(m, x), y)
  {
    assert [x, y][..1] == [x];
    AppliedOne(m, x);
  }

  // ----- one update against waiting updates

  function KeyOf<T>(a: UpdateAction<T>): Pubkey {
    match a case Notify(account) => account.pubkey case Remove(pk, _) => pk
  }

  function SlotOf<T>(a: UpdateAction<T>): Slot {
    match a case Notify(account) => account.slot case Remove(_, slot) => slot
  }

  /** What an update leaves behind where nothing newer is stored. */
  function ResultOf<T>(a: UpdateAction<T>): Option<Stored<T>> {
    if a.Notify? then Some(a.account) else None
  }

  function ValueAt<T>(m: Accounts<T>, pk: Pubkey): Option<Stored<T>> {
    if pk in m then Some(m[pk]) else None
  }

  /** What the updates alone leave behind for a key. */
  function Left<T>(updates: seq<UpdateAction<T>>, pk: Pubkey): Option<Stored<T>> {
    ValueAt(AppliedAll(map[], updates), pk)
  }

  predicate NewerThanAll<T(==)>(x: Option<Stored<T>>, updates: seq<UpdateAction<T>>, pk: Pubkey) {
    x.Some? && forall u :: u in updates && KeyOf(u) == pk ==> x.value.slot > SlotOf(u)
  }

  lemma {:induction false} AppliedAt<T>(m: Accounts<T>, a: UpdateAction<T>, pk: Pubkey)
    ensures ValueAt(Applied(m, a), pk) ==
      if KeyOf(a) != pk || (pk in m && m[pk].slot > SlotOf(a)) then ValueAt(m, pk) else ResultOf(a)
  {
  }

  /**
   Any queue of updates leaves a stored account that is newer than all of them, and else the same
   whatever was stored.
   */
  lemma {:induction false} QueueAt<T(!new)>(m: Accounts<T>, updates: seq<UpdateAction<T>>, pk: Pubkey)
    ensures ValueAt(AppliedAll(m, updates), pk) ==
      if NewerThanAll(ValueAt(m, pk), updates, pk) then ValueAt(m, pk) else Left(updates, pk)
    ensures Left(updates, pk).Some? ==>
      Notify(Left(updates, pk).value) in updates && Left(updates, pk).value.pubkey == pk
  {
    if updates != [] {
      var front, last := updates[..|updates| - 1], updates[|updates| - 1];
      QueueAt(m, front, pk);
      assert updates == front + [last];
      AppliedAt(AppliedAll(m, front), last, pk);
      AppliedAt(AppliedAll(map[], front), last, pk);
    }
  }

  /**
   When a direct update comes out the same although earlier updates still wait; decided before the call.
   Either something newer survives, or the update is newer than all that wait for its account, or what
   waits leaves just what the update leaves.
   */
  predicate InOrder<T(==)>(m: Accounts<T>, waiting: seq<UpdateAction<T>>, a: UpdateAction<T>) {
    var pk, left := KeyOf(a), Left(waiting, KeyOf(a));
    || (pk in m && m[pk].slot > SlotOf(a) && NewerThanAll(Some(m[pk]), waiting, pk))
    || (left.Some? && left.value.slot > SlotOf(a))
    || (a.Notify? && NewerThanAll(Some(a.account), waiting, pk))
    || left == ResultOf(a)
  }

  lemma {:induction false} SameAtKeyIff<T(!new)>(m: Accounts<T>, waiting: seq<UpdateAction<T>>, a: UpdateAction<T>)
    ensures var pk := KeyOf(a);
      ValueAt(AppliedAll(Applied(m, a), waiting), pk) == ValueAt(Applied(AppliedAll(m, waiting), a), pk) <==>
        InOrder(m, waiting, a)
  {
    var pk := KeyOf(a);
    QueueAt(m, waiting, pk);
    QueueAt(Applied(m, a), waiting, pk);
    AppliedAt(m, a, pk);
    AppliedAt(AppliedAll(m, waiting), a, pk);
  }

  lemma {:induction false} SameElsewhere<T(!new)>(m: Accounts<T>, waiting: seq<UpdateAction<T>>, a: UpdateAction<T>,
        pk: Pubkey)
    requires pk != KeyOf(a)
    ensures ValueAt(AppliedAll(Applied(m, a), waiting), pk) == ValueAt(Applied(AppliedAll(m, waiting), a), pk)
  {
    QueueAt(m, waiting, pk);
    QueueAt(Applied(m, a), waiting, pk);
    AppliedAt(m, a, pk);
    AppliedAt(AppliedAll(m, waiting), a, pk);
  }

  /** An update that overtakes waiting ones amounts to the order in which they came exactly if it is in order. */
  lemma {:induction false} OvertakesIff<T(!new)>(m: Accounts<T>, waiting: seq<UpdateAction<T>>, a: UpdateAction<T>)
    ensures AppliedAll(Applied(m, a), waiting) == Applied(AppliedAll(m, waiting), a) <==> InOrder(m, waiting, a)
  {
    var x, y := AppliedAll(Applied(m, a), waiting), Applied(AppliedAll(m, waiting), a);
    SameAtKeyIff(m, waiting, a);
    if InOrder(m, waiting, a) {
      forall pk ensures ValueAt(x, pk) == ValueAt(y, pk) {
        if pk != KeyOf(a) { SameElsewhere(m, waiting, a, pk); }
      }
      SameMaps(x, y);
    }
  }

  lemma {:induction false} SameMaps<T>(x: Accounts<T>, y: Accounts<T>)
    requires forall pk :: ValueAt(x, pk) == ValueAt(y, pk)
    ensures x == y
  {
    forall pk ensures pk in x <==> pk in y { assert ValueAt(x, pk) == ValueAt(y, pk); }
    forall pk | pk in x ensures x[pk] == y[pk] { assert ValueAt(x, pk) == ValueAt(y, pk); }
  }

  /** What waiting notifications leave behind is one of the newest of them. */
  lemma {:induction false} NotificationsLeaveNewest<T(!new)>(waiting: seq<UpdateAction<T>>, pk: Pubkey)
    requires forall u :: u in waiting ==> u.Notify?
    ensures forall u :: u in waiting && KeyOf(u) == pk ==>
      Left(waiting, pk).Some? && Left(waiting, pk).value.slot >= SlotOf(u)
  {
    if waiting != [] {
      var front, last := waiting[..|waiting| - 1], waiting[|waiting| - 1];
      assert waiting == front + [last];
      NotificationsLeaveNewest(front, pk);
      AppliedAt(AppliedAll(map[], front), last, pk);
    }
  }

  /** A removal against waiting notifications: none is for its account, or the stored one or a waiting one is newer. */
  lemma {:induction false} RemovalInOrderIff<T(!new)>(m: Accounts<T>, waiting: seq<UpdateAction<T>>, pk: Pubkey,
        slot: Slot)
    requires forall u :: u in waiting ==> u.Notify?
    ensures InOrder(m, waiting, Remove(pk, slot)) <==>
      || (forall u :: u in waiting ==> KeyOf(u) != pk)
      || (pk in m && m[pk].slot > slot)
      || (exists u :: u in waiting && KeyOf(u) == pk && SlotOf(u) > slot)
  {
    NotificationsLeaveNewest(waiting, pk);
    QueueAt(map[], waiting, pk);
  }

  // ----- whole runs of takes, merges and updates

  /**
   Uses of one map: an update, which may be forced to wait, taking the content, an update that the
   holder of the content makes in it, and merging it back.
   */
  datatype Use<T> = Update(action: UpdateAction<T>, force: bool) | Take | Enter(action: UpdateAction<T>) | MergeBack

  datatype Lent<T> = Lent(store: Takable<T>, held: Option<Accounts<T>>)

  function StepUse<T>(s: Lent<T>, use: Use<T>): Lent<T> {
    match use
    case Update(action, force) => s.(store := AddValue(s.store, action, force))
    case Take => if s.store.content.Some? then Lent(s.store.(content := None), s.store.content) else s
    case Enter(action) => if s.held.Some? then s.(held := Some(Applied(s.held.value, action))) else s
    case MergeBack => if s.held.Some? then Lent(Merged(s.store, s.held.value), None) else s
  }

  function RunUses<T>(start: Accounts<T>, uses: seq<Use<T>>): Lent<T> {
    if uses == [] then Lent(Takable(Some(start), []), None)
    else StepUse(RunUses(start, uses[..|uses| - 1]), uses[|uses| - 1])
  }

  /** The map as if every update had been made in it at once. */
  function Direct<T>(start: Accounts<T>, uses: seq<Use<T>>): Accounts<T> {
    if uses == [] then start
    else
      var before, use := uses[..|uses| - 1], uses[|uses| - 1];
      if use.Update? || (use.Enter? && RunUses(start, before).held.Some?)
      then Applied(Direct(start, before), use.action) else Direct(start, before)
  }

  /** The content is in the store or lent, and with the waiting updates it amounts to the directly updated map. */
  predicate AmountsTo<T(==)>(s: Lent<T>, direct: Accounts<T>) {
    && (s.store.content.Some? <==> s.held.None?)
    && AppliedAll(if s.held.Some? then s.held.value else s.store.content.value, s.store.updates) == direct
  }

  /** The use makes no update that overtakes waiting ones out of order. */
  predicate UseInOrder<T(==)>(s: Lent<T>, use: Use<T>) {
    match use
    case Update(action, force) =>
      s.store.content.Some? && !force ==> InOrder(s.store.content.value, s.store.updates, action)
    case Enter(action) => s.held.Some? ==> InOrder(s.held.value, s.store.updates, action)
    case _ => true
  }

  lemma {:induction false} StepRunsOn<T>(start: Accounts<T>, uses: seq<Use<T>>, use: Use<T>)
    ensures RunUses(start, uses + [use]) == StepUse(RunUses(start, uses), use)
    ensures Direct(start, uses + [use]) ==
      if use.Update? || (use.Enter? && RunUses(start, uses).held.Some?)
      then Applied(Direct(start, uses), use.action) else Direct(start, uses)
  {
    assert (uses + [use])[..|uses|] == uses;
  }

  lemma {:induction false} AppliedMore<T>(m: Accounts<T>, updates: seq<UpdateAction<T>>, a: UpdateAction<T>)
    ensures AppliedAll(m, updates + [a]) == Applied(AppliedAll(m, updates), a)
  {
    assert (updates + [a])[..|updates|] == updates;
  }

  lemma {:induction false} UpdateAmountIff<T(!new)>(s: Lent<T>, direct: Accounts<T>, a: UpdateAction<T>, force: bool)
    requires AmountsTo(s, direct)
    ensures AmountsTo(StepUse(s, Update(a, force)), Applied(direct, a)) <==> UseInOrder(s, Update(a, force))
  {
    if s.held.Some? {
      AppliedMore(s.held.value, s.store.updates, a);
    } else if force {
      AppliedMore(s.store.content.value, s.store.updates, a);
    } else {
      OvertakesIff(s.store.content.value, s.store.updates, a);
    }
  }

  lemma {:induction false} EnterAmountIff<T(!new)>(s: Lent<T>, direct: Accounts<T>, a: UpdateAction<T>)
    requires AmountsTo(s, direct) && s.held.Some?
    ensures AmountsTo(StepUse(s, Enter(a)), Applied(direct, a)) <==> UseInOrder(s, Enter(a))
  {
    OvertakesIff(s.held.value, s.store.updates, a);
  }

  lemma {:induction false} LendingAmounts<T>(s: Lent<T>, direct: Accounts<T>)
    requires AmountsTo(s, direct)
    ensures AmountsTo(StepUse(s, Take), direct) && AmountsTo(StepUse(s, MergeBack), direct)
  {
  }

  lemma {:induction false} UseKeepsAmountIff<T(!new)>(start: Accounts<T>, uses: seq<Use<T>>, use: Use<T>)
    requires AmountsTo(RunUses(start, uses), Direct(start, uses))
    ensures AmountsTo(RunUses(start, uses + [use]), Direct(start, uses + [use])) <==>
      UseInOrder(RunUses(start, uses), use)
  {
    var s, direct := RunUses(start, uses), Direct(start, uses);
    StepRunsOn(start, uses, use);
    match use
    case Update(a, force) => UpdateAmountIff(s, direct, a, force);
    case Enter(a) => if s.held.Some? { EnterAmountIff(s, direct, a); }
    case Take => LendingAmounts(s, direct);
    case MergeBack => LendingAmounts(s, direct);
  }

  lemma {:induction false} InOrderSoFar<T(!new)>(start: Accounts<T>, uses: seq<Use<T>>, n: nat)
    requires n <= |uses| && forall m :: 0 <= m < n ==> UseInOrder(RunUses(start, uses[..m]), uses[m])
    ensures AmountsTo(RunUses(start, uses[..n]), Direct(start, uses[..n]))
  {
    if n > 0 {
      InOrderSoFar(start, uses, n - 1);
      UseKeepsAmountIff(start, uses[..n - 1], uses[n - 1]);
      assert uses[..n] == uses[..n - 1] + [uses[n - 1]];
    }
  }

  /** A lent map amounts to the directly updated one all along a run exactly if each use was in order. */
  lemma {:induction false} AmountsThroughoutIff<T(!new)>(start: Accounts<T>, uses: seq<Use<T>>)
    ensures (forall n :: 0 <= n <= |uses| ==> AmountsTo(RunUses(start, uses[..n]), Direct(start, uses[..n]))) <==>
            (forall n :: 0 <= n < |uses| ==> UseInOrder(RunUses(start, uses[..n]), uses[n]))
  {
    if forall n :: 0 <= n <= |uses| ==> AmountsTo(RunUses(start, uses[..n]), Direct(start, uses[..n])) {
      forall n | 0 <= n < |uses| ensures UseInOrder(RunUses(start, uses[..n]), uses[n]) {
        assert uses[..n + 1] == uses[..n] + [uses[n]];
        assert AmountsTo(RunUses(start, uses[..n + 1]), Direct(start, uses[..n + 1]));
        UseKeepsAmountIff(start, uses[..n], uses[n]);
      }
    }
    if forall n :: 0 <= n < |uses| ==> UseInOrder(RunUses(start, uses[..n]), uses[n]) {
      forall n | 0 <= n <= |uses| ensures AmountsTo(RunUses(start, uses[..n]), Direct(start, uses[..n])) {
        InOrderSoFar(start, uses, n);
      }
    }
  }

  /** Without deferral every run of takes, merges and updates holds, once merged, the directly updated map. */
  lemma {:induction false} TakeAndMergeTransparent<T(!new)>(start: Accounts<T>, uses: seq<Use<T>>)
    requires forall n :: 0 <= n < |uses| ==> !uses[n].Enter? && (uses[n].Update? ==> !uses[n].force)
    ensures AmountsTo(RunUses(start, uses), Direct(start, uses))
    ensures RunUses(start, uses).held.None? ==> RunUses(start, uses).store == Takable(Some(Direct(start, uses)), [])
  {
    if uses != [] {
      var before, use := uses[..|uses| - 1], uses[|uses| - 1];
      TakeAndMergeTransparent(start, before);
      assert uses == before + [use];
      if use.Update? { NothingWaits(RunUses(start, before).store.content, use.action); }
      UseKeepsAmountIff(start, before, use);
    }
  }

  lemma {:induction false} NothingWaits<T>(content: Option<Accounts<T>>, a: UpdateAction<T>)
    ensures content.Some? ==> InOrder(content.value, [], a)
  {
  }

  /** Every account is filed under its own key. */
  ghost predicate Filed<T>(m: Accounts<T>) {
    forall pk :: pk in m ==> m[pk].pubkey == pk
  }

  lemma {:induction false} UpdatesKeepFiled<T>(m: Accounts<T>, actions: seq<UpdateAction<T>>)
    requires Filed(m)
    ensures Filed(AppliedAll(m, actions))
  {
    if actions != [] { UpdatesKeepFiled(m, actions[..|actions| - 1]); }
  }

  // ----- the newest notification wins

  /** Every notification seen so far waits as an update, or is covered by what the map holds for its key. */
  ghost predicate Fresh<T(!new)>(m: Accounts<T>, updates: seq<UpdateAction<T>>, seen: set<Stored<T>>) {
    && (forall pk :: pk in m ==> m[pk].pubkey == pk && m[pk] in seen)
    && (forall u :: u in updates ==> u.Notify? && u.account in seen)
    && (forall a :: a in seen ==> Notify(a) in updates || (a.pubkey in m && m[a.pubkey].slot >= a.slot))
  }

  /** Each key holds a notification of the greatest slot seen for it. */
  ghost predicate HoldsNewest<T(!new)>(m: Accounts<T>, seen: set<Stored<T>>) {
    && (forall pk :: pk in m ==> m[pk].pubkey == pk && m[pk] in seen)
    && (forall a :: a in seen ==> a.pubkey in m && m[a.pubkey].slot >= a.slot)
  }

  lemma {:induction false} ApplyNextWaiting<T(!new)>(m: Accounts<T>, u: UpdateAction<T>, rest: seq<UpdateAction<T>>,
        seen: set<Stored<T>>)
    requires Fresh(m, [u] + rest, seen)
    ensures Fresh(Applied(m, u), rest, seen)
  {
    assert u in [u] + rest;
    assert forall x :: x in [u] + rest <==> x == u || x in rest;
  }

  lemma {:induction false} SplitAt<T>(m: Accounts<T>, updates: seq<UpdateAction<T>>, n: nat)
    requires n < |updates|
    ensures updates[n..] == [updates[n]] + updates[n + 1..]
    ensures AppliedAll(m, updates[..n + 1]) == Applied(AppliedAll(m, updates[..n]), updates[n])
  {
    assert updates[..n + 1] == updates[..n] + [updates[n]];
    AppliedMore(m, updates[..n], updates[n]);
  }

  lemma {:induction false} MergeMakesNewest<T(!new)>(
      m: Accounts<T>, updates: seq<UpdateAction<T>>, seen: set<Stored<T>>, n: nat)
    requires Fresh(m, updates, seen) && n <= |updates|
    ensures Fresh(AppliedAll(m, updates[..n]), updates[n..], seen)
  {
    if n == 0 {
      assert updates[..0] == [] && updates[0..] == updates;
    } else {
      MergeMakesNewest(m, updates, seen, n - 1);
      SplitAt(m, updates, n - 1);
      ApplyNextWaiting(AppliedAll(m, updates[..n - 1]), updates[n - 1], updates[n..], seen);
    }
  }

  /** After a merge each key holds a notification of the greatest slot seen for it. */
  lemma {:induction false} MergedHoldsNewest<T(!new)>(m: Accounts<T>, updates: seq<UpdateAction<T>>,
        seen: set<Stored<T>>)
    requires Fresh(m, updates, seen)
    ensures HoldsNewest(AppliedAll(m, updates), seen) && Fresh(AppliedAll(m, updates), [], seen)
  {
    MergeMakesNewest(m, updates, seen, |updates|);
    assert updates[..|updates|] == updates && updates[|updates|..] == [];
  }

  lemma {:induction false} NotifyKeepsFresh<T(!new)>(m: Accounts<T>, updates: seq<UpdateAction<T>>,
        seen: set<Stored<T>>, a: Stored<T>)
    requires Fresh(m, updates, seen)
    ensures Fresh(Notified(m, a), updates, seen + {a})
    ensures Fresh(m, updates + [Notify(a)], seen + {a})
  {
    assert forall u :: u in updates + [Notify(a)] <==> u in updates || u == Notify(a);
  }
}
