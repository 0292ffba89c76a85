/**
 The stake and vote stores of the loop as lent maps: every run of the loop uses each of them by
 updates, takes, entries of fetched accounts and merges only (stake_vote/src/lib.rs).
 */
module StakeVoteUses {
  import opened Common
  import opened TakableMap
  import opened StakeAccounts
  import opened StakeVoteLoop
  import opened StakeVoteFreshness

  function ContinueUses<T>(s: Lent<T>, uses: seq<Use<T>>): Lent<T> {
    if uses == [] then s else StepUse(ContinueUses(s, uses[..|uses| - 1]), uses[|uses| - 1])
  }

  lemma {:induction false} RunUsesConcat<T>(start: Accounts<T>, a: seq<Use<T>>, b: seq<Use<T>>)
    ensures RunUses(start, a + b) == ContinueUses(RunUses(start, a), b)
  {
    if b == [] { assert a + b == a; } else {
      RunUsesConcat(start, a, b[..|b| - 1]);
      assert (a + b)[..|a + b| - 1] == a + b[..|b| - 1];
    }
  }

  lemma {:induction false} OneUse<T>(s: Lent<T>, use: Use<T>)
    ensures ContinueUses(s, [use]) == StepUse(s, use)
  {
    assert [use][..0] == [];
  }

  /** A task that takes the map enters what it fetched. */
  function TakeAndEnter<T>(actions: seq<UpdateAction<T>>): (r: seq<Use<T>>)
    ensures |r| == |actions| + 1 && r[0] == Take && forall i :: 0 <= i < |actions| ==> r[i + 1] == Enter(actions[i])
  {
    [Take] + seq(|actions|, i requires 0 <= i < |actions| => Enter(actions[i]))
  }

  lemma {:induction false} EnteredAll<T>(s: Lent<T>, actions: seq<UpdateAction<T>>)
    requires s.store.content.Some?
    ensures ContinueUses(s, TakeAndEnter(actions))
         == Lent(s.store.(content := None), Some(AppliedAll(s.store.content.value, actions)))
  {
    var uses := TakeAndEnter(actions);
    if actions == [] {
      assert uses == [Take];
      OneUse(s, Take);
    } else {
      EnteredAll(s, actions[..|actions| - 1]);
      assert uses[..|uses| - 1] == TakeAndEnter(actions[..|actions| - 1]);
    }
  }

  // ----- the uses that a step of the loop makes

  function ChangeUses<T>(c: AccountChange<T>, last: Slot): seq<Use<T>> {
    if ActionOf(c).Some? then [Update(ActionOf(c).value, c.slot > last)] else []
  }

  function TaskUses<T>(accounts: seq<(Pubkey, T)>, readable: bool): seq<Use<T>> {
    TakeAndEnter(if readable then AtSlotZero(accounts) else [])
  }

  predicate Fetches(l: Loop, i: nat) {
    BothPresent(l) && i < |l.boot| && l.boot[i].Fetching?
  }

  predicate Wakes(l: Loop, i: nat) {
    BothPresent(l) && i < |l.boot| && l.boot[i].Waiting?
  }

  function StakeUses(l: Loop, e: Event): seq<Use<Delegation>> {
    match e
    case StakeChange(c, last) => ChangeUses(c, last)
    case BootFetched(i, stakes, _, readable) => if Fetches(l, i) then TaskUses(stakes, readable) else []
    case BootWoken(i) => if Wakes(l, i) then TaskUses(l.boot[i].stakes, l.boot[i].historyReadable) else []
    case BootMerged(i) => if i < |l.boot| && l.boot[i].Merging? then [MergeBack] else []
    case ScheduleInit => if l.bootstrapDone && BothPresent(l) then [Take] else []
    case ScheduleWoken(i) => if BothPresent(l) && i < |l.schedule| && l.schedule[i].WaitingInit? then [Take] else []
    case ScheduleDone(i) => if i < |l.schedule| && l.schedule[i].Calculating? then [MergeBack] else []
    case _ => []
  }

  function VoteUses(l: Loop, e: Event): seq<Use<VoteState>> {
    match e
    case VoteChange(c, last) => ChangeUses(c, last)
    case BootFetched(i, _, votes, readable) => if Fetches(l, i) then TaskUses(votes, readable) else []
    case BootWoken(i) => if Wakes(l, i) then TaskUses(l.boot[i].votes, l.boot[i].historyReadable) else []
    case BootMerged(i) => if i < |l.boot| && l.boot[i].Merging? then [MergeBack] else []
    case ScheduleInit => if l.bootstrapDone && BothPresent(l) then [Take] else []
    case ScheduleWoken(i) => if BothPresent(l) && i < |l.schedule| && l.schedule[i].WaitingInit? then [Take] else []
    case ScheduleDone(i) => if i < |l.schedule| && l.schedule[i].Calculating? then [MergeBack] else []
    case RpcRequest => if l.votes.content.Some? then [Take] else []
    case RpcWoken => if l.rpcWaiting > 0 && l.votes.content.Some? then [Take] else []
    case RpcDone(i) => if i < |l.rpcRunning| then [MergeBack] else []
    case _ => []
  }

  function StakeUsesOf(events: seq<Event>): seq<Use<Delegation>> {
    if events == [] then []
    else StakeUsesOf(events[..|events| - 1]) + StakeUses(Run(events[..|events| - 1]), events[|events| - 1])
  }

  function VoteUsesOf(events: seq<Event>): seq<Use<VoteState>> {
    if events == [] then []
    else VoteUsesOf(events[..|events| - 1]) + VoteUses(Run(events[..|events| - 1]), events[|events| - 1])
  }

  // ----- the two stores are lent maps

  /** The store is the lent one, and its content is there exactly if it is not lent. */
  predicate StoreMatches<T(==)>(t: Takable<T>, s: Lent<T>) {
    t == s.store && (t.content.Some? <==> s.held.None?)
  }

  /** Whatever stake map a task holds is the one that was lent. */
  ghost predicate StakesLent(boot: seq<BootTask>, schedule: seq<ScheduleTask>, held: Option<StakeMap>) {
    && (forall t :: t in boot && t.Merging? ==> held == Some(t.stakeMap))
    && (forall t :: t in schedule && t.Calculating? ==> held == Some(t.stakeMap))
  }

  /** So is whatever vote map a task holds. */
  ghost predicate VotesLent(
      boot: seq<BootTask>, schedule: seq<ScheduleTask>, rpc: seq<VoteMap>, held: Option<VoteMap>)
  {
    && (forall t :: t in boot && t.Merging? ==> held == Some(t.voteMap))
    && (forall t :: t in schedule && t.Calculating? ==> held == Some(t.voteMap))
    && (forall m :: m in rpc ==> held == Some(m))
  }

  ghost predicate StakesMatch(l: Loop, s: Lent<Delegation>) {
    StoreMatches(l.stakes, s) && StakesLent(l.boot, l.schedule, s.held)
  }

  ghost predicate VotesMatch(l: Loop, v: Lent<VoteState>) {
    StoreMatches(l.votes, v) && VotesLent(l.boot, l.schedule, l.rpcRunning, v.held)
  }

  lemma {:induction false} WithoutMembers<T>(s: seq<T>, i: nat)
    requires i < |s|
    ensures forall t :: t in Without(s, i) ==> t in s
  {
  }

  lemma {:induction false} AppendedMembers<T>(s: seq<T>, x: T)
    ensures forall t :: t in s + [x] <==> t in s || t == x
  {
  }

  /** No task holds a map. */
  lemma {:induction false} NoneLent(l: Loop)
    requires CountMerging(l.boot) == 0 && CountCalculating(l.schedule) == 0
    ensures forall held :: StakesLent(l.boot, l.schedule, held)
    ensures l.rpcRunning == [] ==> forall held :: VotesLent(l.boot, l.schedule, l.rpcRunning, held)
  {
    IdleIfNone(l);
  }

  lemma {:induction false} ChangeIsUse<T>(s: Lent<T>, c: AccountChange<T>, last: Slot)
    requires s.store.content.Some? <==> s.held.None?
    ensures StoreMatches(Changed(s.store, c, last), ContinueUses(s, ChangeUses(c, last)))
    ensures ContinueUses(s, ChangeUses(c, last)).held == s.held
  {
    if ActionOf(c).Some? { OneUse(s, Update(ActionOf(c).value, c.slot > last)); }
  }

  // ----- taking both maps

  lemma {:induction false} BootTaskAdded(
      boot: seq<BootTask>, schedule: seq<ScheduleTask>, rpc: seq<VoteMap>, t: BootTask,
      s: Option<StakeMap>, v: Option<VoteMap>)
    requires t.Merging? ==> s == Some(t.stakeMap) && v == Some(t.voteMap)
    ensures StakesLent(boot, schedule, s) ==> StakesLent(boot + [t], schedule, s)
    ensures VotesLent(boot, schedule, rpc, v) ==> VotesLent(boot + [t], schedule, rpc, v)
  {
    AppendedMembers(boot, t);
  }

  /** Both maps are away: the task waits. */
  lemma {:induction false} FetchedWaits(l: Loop, t: BootTask, s: Lent<Delegation>, v: Lent<VoteState>)
    requires StakesMatch(l, s) && VotesMatch(l, v) && !BothPresent(l) && t.Waiting?
    ensures var after := OnAccountsFetched(l, t.stakes, t.votes, t.historyReadable);
      StakesMatch(after, s) && VotesMatch(after, v)
  {
    BootTaskAdded(l.boot, l.schedule, l.rpcRunning, t, s.held, v.held);
  }

  /** Both maps are taken, with the fetched accounts entered if the stake history is readable. */
  lemma {:induction false} FetchedTakes(l: Loop, t: BootTask, s: Lent<Delegation>, v: Lent<VoteState>)
    requires Owned(l) && StakesMatch(l, s) && VotesMatch(l, v) && BothPresent(l) && t.Waiting?
    ensures var after := OnAccountsFetched(l, t.stakes, t.votes, t.historyReadable);
      && StakesMatch(after, ContinueUses(s, TaskUses(t.stakes, t.historyReadable)))
      && VotesMatch(after, ContinueUses(v, TaskUses(t.votes, t.historyReadable)))
  {
    NoneLent(l);
    var stakes := if t.historyReadable then AtSlotZero(t.stakes) else [];
    var votes := if t.historyReadable then AtSlotZero(t.votes) else [];
    EnteredAll(s, stakes);
    EnteredAll(v, votes);
    var stakeMap, voteMap := AppliedAll(l.stakes.content.value, stakes), AppliedAll(l.votes.content.value, votes);
    BootTaskAdded(l.boot, l.schedule, l.rpcRunning, Merging(stakeMap, voteMap), Some(stakeMap), Some(voteMap));
  }

  lemma {:induction false} TaskMatches(l: Loop, t: BootTask, s: Lent<Delegation>, v: Lent<VoteState>)
    requires Owned(l) && StakesMatch(l, s) && VotesMatch(l, v) && t.Waiting?
    ensures var after := OnAccountsFetched(l, t.stakes, t.votes, t.historyReadable);
      if BothPresent(l)
      then StakesMatch(after, ContinueUses(s, TaskUses(t.stakes, t.historyReadable)))
        && VotesMatch(after, ContinueUses(v, TaskUses(t.votes, t.historyReadable)))
      else StakesMatch(after, s) && VotesMatch(after, v)
  {
    if BothPresent(l) { FetchedTakes(l, t, s, v); } else { FetchedWaits(l, t, s, v); }
  }

  lemma {:induction false} InitMatches(l: Loop, s: Lent<Delegation>, v: Lent<VoteState>)
    requires Owned(l) && StakesMatch(l, s) && VotesMatch(l, v)
    ensures StakesMatch(OnScheduleInit(l), ContinueUses(s, if BothPresent(l) then [Take] else []))
    ensures VotesMatch(OnScheduleInit(l), ContinueUses(v, if BothPresent(l) then [Take] else []))
  {
    if BothPresent(l) {
      NoneLent(l);
      OneUse(s, Take);
      OneUse(v, Take);
    }
    AppendedMembers(l.schedule, OnScheduleInit(l).schedule[|l.schedule|]);
  }

  // ----- merging both maps

  lemma {:induction false} MergeMatches<T>(s: Lent<T>, m: Accounts<T>)
    requires s.held == Some(m) && s.store.content.None?
    ensures StoreMatches(Merged(s.store, m), ContinueUses(s, [MergeBack]))
  {
    OneUse(s, MergeBack);
  }

  /** The loop with the finished task taken off its list. */
  lemma {:induction false} BothMergedMatches(
      l: Loop, stakeMap: StakeMap, voteMap: VoteMap, s: Lent<Delegation>, v: Lent<VoteState>)
    requires MergeWorks(l) && CountMerging(l.boot) == 0 && CountCalculating(l.schedule) == 0 && l.rpcRunning == []
    requires l.stakes == s.store && s.held == Some(stakeMap) && l.votes == v.store && v.held == Some(voteMap)
    ensures StakesMatch(BothMerged(l, stakeMap, voteMap), ContinueUses(s, [MergeBack]))
    ensures VotesMatch(BothMerged(l, stakeMap, voteMap), ContinueUses(v, [MergeBack]))
  {
    MergeMatches(s, stakeMap);
    MergeMatches(v, voteMap);
    NoneLent(l);
  }

  // ----- each step of the loop is these uses

  ghost predicate StepMatched(l: Loop, e: Event, s: Lent<Delegation>, v: Lent<VoteState>) {
    && StakesMatch(Step(l, e), ContinueUses(s, StakeUses(l, e)))
    && VotesMatch(Step(l, e), ContinueUses(v, VoteUses(l, e)))
  }

  lemma {:induction false} StakeChangeMatches(
      l: Loop, c: AccountChange<Delegation>, last: Slot, s: Lent<Delegation>, v: Lent<VoteState>)
    requires StakesMatch(l, s) && VotesMatch(l, v)
    ensures StepMatched(l, StakeChange(c, last), s, v)
  {
    ChangeIsUse(s, c, last);
  }

  lemma {:induction false} VoteChangeMatches(
      l: Loop, c: AccountChange<VoteState>, last: Slot, s: Lent<Delegation>, v: Lent<VoteState>)
    requires StakesMatch(l, s) && VotesMatch(l, v)
    ensures StepMatched(l, VoteChange(c, last), s, v)
  {
    ChangeIsUse(v, c, last);
  }

  lemma {:induction false} BootTakenOutMatches(l: Loop, i: nat, s: Lent<Delegation>, v: Lent<VoteState>)
    requires Owned(l) && StakesMatch(l, s) && VotesMatch(l, v) && i < |l.boot| && !l.boot[i].Merging?
    ensures var rest := l.(boot := Without(l.boot, i)); Owned(rest) && StakesMatch(rest, s) && VotesMatch(rest, v)
  {
    MergingOne(l.boot, i);
    WithoutMembers(l.boot, i);
  }

  lemma {:induction false} FetchedMatches(
      l: Loop, i: nat, stakes: seq<(Pubkey, Delegation)>, votes: seq<(Pubkey, VoteState)>, readable: bool,
      s: Lent<Delegation>, v: Lent<VoteState>)
    requires Owned(l) && StakesMatch(l, s) && VotesMatch(l, v)
    ensures StepMatched(l, BootFetched(i, stakes, votes, readable), s, v)
  {
    if i < |l.boot| && l.boot[i].Fetching? {
      BootTakenOutMatches(l, i, s, v);
      TaskMatches(l.(boot := Without(l.boot, i)), Waiting(stakes, votes, readable), s, v);
    }
  }

  lemma {:induction false} WokenMatches(l: Loop, i: nat, s: Lent<Delegation>, v: Lent<VoteState>)
    requires Owned(l) && StakesMatch(l, s) && VotesMatch(l, v)
    ensures StepMatched(l, BootWoken(i), s, v)
  {
    if i < |l.boot| && l.boot[i].Waiting? {
      BootTakenOutMatches(l, i, s, v);
      TaskMatches(l.(boot := Without(l.boot, i)), l.boot[i], s, v);
    }
  }

  lemma {:induction false} BootMergedMatches(l: Loop, i: nat, s: Lent<Delegation>, v: Lent<VoteState>)
    requires Owned(l) && StakesMatch(l, s) && VotesMatch(l, v)
    ensures StepMatched(l, BootMerged(i), s, v)
  {
    if i < |l.boot| && l.boot[i].Merging? {
      MergingOne(l.boot, i);
      assert l.boot[i] in l.boot;
      BothMergedMatches(l.(boot := Without(l.boot, i)), l.boot[i].stakeMap, l.boot[i].voteMap, s, v);
    }
  }

  lemma {:induction false} ScheduleTakenOutMatches(l: Loop, i: nat, s: Lent<Delegation>, v: Lent<VoteState>)
    requires Owned(l) && StakesMatch(l, s) && VotesMatch(l, v) && i < |l.schedule| && !l.schedule[i].Calculating?
    ensures var rest := l.(schedule := Without(l.schedule, i));
      Owned(rest) && StakesMatch(rest, s) && VotesMatch(rest, v)
  {
    CalculatingOne(l.schedule, i);
    WithoutMembers(l.schedule, i);
  }

  lemma {:induction false} ScheduleInitMatches(l: Loop, s: Lent<Delegation>, v: Lent<VoteState>)
    requires Owned(l) && StakesMatch(l, s) && VotesMatch(l, v)
    ensures StepMatched(l, ScheduleInit, s, v)
  {
    InitMatches(l, s, v);
  }

  lemma {:induction false} ScheduleWokenMatches(l: Loop, i: nat, s: Lent<Delegation>, v: Lent<VoteState>)
    requires Owned(l) && StakesMatch(l, s) && VotesMatch(l, v)
    ensures StepMatched(l, ScheduleWoken(i), s, v)
  {
    if i < |l.schedule| && l.schedule[i].WaitingInit? {
      ScheduleTakenOutMatches(l, i, s, v);
      InitMatches(l.(schedule := Without(l.schedule, i)), s, v);
    }
  }

  lemma {:induction false} ScheduleDoneMatches(l: Loop, i: nat, s: Lent<Delegation>, v: Lent<VoteState>)
    requires Owned(l) && StakesMatch(l, s) && VotesMatch(l, v)
    ensures StepMatched(l, ScheduleDone(i), s, v)
  {
    if i < |l.schedule| && l.schedule[i].Calculating? {
      CalculatingOne(l.schedule, i);
      assert l.schedule[i] in l.schedule;
      BothMergedMatches(l.(schedule := Without(l.schedule, i)), l.schedule[i].stakeMap, l.schedule[i].voteMap, s, v);
    }
  }

  lemma {:induction false} RpcTakeMatches(l: Loop, v: Lent<VoteState>)
    requires Owned(l) && VotesMatch(l, v)
    ensures VotesMatch(OnRpcTake(l), ContinueUses(v, if l.votes.content.Some? then [Take] else []))
  {
    if l.votes.content.Some? {
      NoneLent(l);
      OneUse(v, Take);
    }
  }

  lemma {:induction false} RpcRequestMatches(l: Loop, s: Lent<Delegation>, v: Lent<VoteState>)
    requires Owned(l) && StakesMatch(l, s) && VotesMatch(l, v)
    ensures StepMatched(l, RpcRequest, s, v)
  {
    RpcTakeMatches(l.(pendingRequests := l.pendingRequests + 1), v);
  }

  lemma {:induction false} RpcWokenMatches(l: Loop, s: Lent<Delegation>, v: Lent<VoteState>)
    requires Owned(l) && StakesMatch(l, s) && VotesMatch(l, v)
    ensures StepMatched(l, RpcWoken, s, v)
  {
    if l.rpcWaiting > 0 { RpcTakeMatches(l.(rpcWaiting := l.rpcWaiting - 1), v); }
  }

  lemma {:induction false} RpcDoneMatches(l: Loop, i: nat, s: Lent<Delegation>, v: Lent<VoteState>)
    requires Owned(l) && StakesMatch(l, s) && VotesMatch(l, v)
    ensures StepMatched(l, RpcDone(i), s, v)
  {
    if i < |l.rpcRunning| {
      assert l.rpcRunning[i] in l.rpcRunning;
      MergeMatches(v, l.rpcRunning[i]);
      assert |Without(l.rpcRunning, i)| == |l.rpcRunning| - 1;
      NoneLent(l.(rpcRunning := Without(l.rpcRunning, i)));
    }
  }

  lemma {:induction false} PanicMatches(l: Loop, e: Event, s: Lent<Delegation>, v: Lent<VoteState>)
    requires StakesMatch(l, s) && VotesMatch(l, v) && (e.BootPanicked? || e.SchedulePanicked? || e.RpcPanicked?)
    ensures StepMatched(l, e, s, v)
  {
    match e
    case BootPanicked(i) => if i < |l.boot| { WithoutMembers(l.boot, i); }
    case SchedulePanicked(i) => if i < |l.schedule| { WithoutMembers(l.schedule, i); }
    case RpcPanicked(i) => if i < |l.rpcRunning| { WithoutMembers(l.rpcRunning, i); }
  }

  lemma {:induction false} StepMatches(l: Loop, e: Event, s: Lent<Delegation>, v: Lent<VoteState>)
    requires Owned(l) && StakesMatch(l, s) && VotesMatch(l, v)
    ensures StepMatched(l, e, s, v)
  {
    match e
    case StakeChange(c, last) => StakeChangeMatches(l, c, last, s, v);
    case VoteChange(c, last) => VoteChangeMatches(l, c, last, s, v);
    case BootFetched(i, stakes, votes, readable) => FetchedMatches(l, i, stakes, votes, readable, s, v);
    case BootWoken(i) => WokenMatches(l, i, s, v);
    case BootMerged(i) => BootMergedMatches(l, i, s, v);
    case ScheduleInit => ScheduleInitMatches(l, s, v);
    case ScheduleWoken(i) => ScheduleWokenMatches(l, i, s, v);
    case ScheduleDone(i) => ScheduleDoneMatches(l, i, s, v);
    case RpcRequest => RpcRequestMatches(l, s, v);
    case RpcWoken => RpcWokenMatches(l, s, v);
    case RpcDone(i) => RpcDoneMatches(l, i, s, v);
    case BootPanicked(_) => PanicMatches(l, e, s, v);
    case SchedulePanicked(_) => PanicMatches(l, e, s, v);
    case RpcPanicked(_) => PanicMatches(l, e, s, v);
  }

  /** Every run of the loop is a run of uses of each store; lost contents count as lent for good. */
  lemma {:induction false} LoopIsUses(events: seq<Event>)
    ensures StakesMatch(Run(events), RunUses(map[], StakeUsesOf(events)))
    ensures VotesMatch(Run(events), RunUses(map[], VoteUsesOf(events)))
  {
    if events != [] {
      var before, e := events[..|events| - 1], events[|events| - 1];
      LoopIsUses(before);
      AtMostOneHolder(before);
      StepMatches(Run(before), e, RunUses(map[], StakeUsesOf(before)), RunUses(map[], VoteUsesOf(before)));
      RunUsesConcat(map[], StakeUsesOf(before), StakeUses(Run(before), e));
      RunUsesConcat(map[], VoteUsesOf(before), VoteUses(Run(before), e));
    }
  }

  // ----- so every run holds the directly updated maps if nothing overtakes out of order

  ghost predicate AllInOrder<T(!new)>(uses: seq<Use<T>>) {
    forall n :: 0 <= n < |uses| ==> UseInOrder(RunUses(map[], uses[..n]), uses[n])
  }

  /** With all uses in order each store that has its content amounts to the directly updated map. */
  lemma {:induction false} StoresAmountToDirect(events: seq<Event>)
    ensures var t, uses := Run(events).stakes, StakeUsesOf(events);
      AllInOrder(uses) && t.content.Some? ==> AppliedAll(t.content.value, t.updates) == Direct(map[], uses)
    ensures var t, uses := Run(events).votes, VoteUsesOf(events);
      AllInOrder(uses) && t.content.Some? ==> AppliedAll(t.content.value, t.updates) == Direct(map[], uses)
  {
    LoopIsUses(events);
    var s, v := StakeUsesOf(events), VoteUsesOf(events);
    assert s[..|s|] == s && v[..|v|] == v;
    if AllInOrder(s) { InOrderSoFar(map[], s, |s|); }
    if AllInOrder(v) { InOrderSoFar(map[], v, |v|); }
  }
}
