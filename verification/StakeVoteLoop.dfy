/** Stake and vote accounts as the stores keep them. */
module StakeAccounts {
  import opened Common
  import opened TakableMap

  datatype Delegation = Delegation(voterPubkey: Pubkey, stake: nat, activationEpoch: nat, deactivationEpoch: nat)

  datatype VoteState = VoteState(nodePubkey: Pubkey, lastVote: Slot)

  type StakeMap = Accounts<Delegation>
  type VoteMap = Accounts<VoteState>
}

/**
 The loop that owns the stake and vote stores (stake_vote/src/lib.rs) with the three machines that
 take their content: bootstrap (bootstrap.rs), leader schedule (leader_schedule.rs) and RPC requests
 (rpcrequest.rs). A step is one arm of the select! loop.
 */
module StakeVoteLoop {
  import opened Common
  import opened TakableMap
  import opened StakeAccounts

  /** A spawned bootstrap task, by what it will hand back to the loop. */
  datatype BootTask =
    | Fetching
    | Waiting(stakes: seq<(Pubkey, Delegation)>, votes: seq<(Pubkey, VoteState)>, historyReadable: bool)
    | Merging(stakeMap: StakeMap, voteMap: VoteMap)

  datatype ScheduleTask = WaitingInit | Calculating(stakeMap: StakeMap, voteMap: VoteMap)

  datatype Loop = Loop(
    stakes: Takable<Delegation>,
    votes: Takable<VoteState>,
    boot: seq<BootTask>,
    schedule: seq<ScheduleTask>,
    rpcWaiting: nat,
    rpcRunning: seq<VoteMap>,
    pendingRequests: nat,
    bootstrapDone: bool,
    mergeFailed: bool,
    seenStakes: set<Stored<Delegation>>,   // every stake account that was ever notified or bootstrapped
    seenVotes: set<Stored<VoteState>>)

  const Start :=
    Loop(Takable(Some(map[]), []), Takable(Some(map[]), []), [Fetching], [], 0, [], 0, false, false, {}, {})

  /** An account notification; an account without lamports was removed, one that does not parse is ignored. */
  datatype AccountChange<T> = AccountChange(pubkey: Pubkey, slot: Slot, lamports: nat, parsed: Option<T>)

  function ActionOf<T>(c: AccountChange<T>): Option<UpdateAction<T>> {
    if c.lamports == 0 then Some(Remove(c.pubkey, c.slot))
    else if c.parsed.Some? then Some(Notify(Stored(c.pubkey, c.slot, c.parsed.value)))
    else None
  }

  /** Changes of the next epoch wait as updates. */
  function Changed<T>(t: Takable<T>, c: AccountChange<T>, lastSlotInEpoch: Slot): Takable<T> {
    if ActionOf(c).Some? then AddValue(t, ActionOf(c).value, c.slot > lastSlotInEpoch) else t
  }

  function Seen<T(==)>(c: AccountChange<T>): set<Stored<T>> {
    if c.lamports != 0 && c.parsed.Some? then {Stored(c.pubkey, c.slot, c.parsed.value)} else {}
  }

  /** Accounts fetched over RPC are entered with slot 0. */
  function AtSlotZero<T>(accounts: seq<(Pubkey, T)>): (r: seq<UpdateAction<T>>)
    ensures |r| == |accounts| && forall i :: 0 <= i < |accounts| ==>
      r[i] == Notify(Stored(accounts[i].0, 0, accounts[i].1))
  {
    seq(|accounts|, i requires 0 <= i < |accounts| => Notify(Stored(accounts[i].0, 0, accounts[i].1)))
  }

  function SeenAtSlotZero<T(==)>(accounts: seq<(Pubkey, T)>): set<Stored<T>> {
    set a | a in accounts :: Stored(a.0, 0, a.1)
  }

  function Without<T>(s: seq<T>, i: nat): seq<T>
    requires i < |s|
  {
    s[..i] + s[i + 1..]
  }

  predicate BothPresent(l: Loop) {
    l.stakes.content.Some? && l.votes.content.Some?
  }

  function BothTaken(l: Loop): Loop {
    l.(stakes := l.stakes.(content := None), votes := l.votes.(content := None))
  }

  /** BootstrapAccountsFetched: take both maps and merge the accounts in a task, or wait. */
  function OnAccountsFetched(
      l: Loop, stakes: seq<(Pubkey, Delegation)>, votes: seq<(Pubkey, VoteState)>, historyReadable: bool): Loop
  {
    if !BothPresent(l) then l.(boot := l.boot + [Waiting(stakes, votes, historyReadable)])
    else if !historyReadable then BothTaken(l)
    else
      BothTaken(l).(
        boot := l.boot + [Merging(AppliedAll(l.stakes.content.value, AtSlotZero(stakes)),
          AppliedAll(l.votes.content.value, AtSlotZero(votes)))],
        seenStakes := l.seenStakes + SeenAtSlotZero(stakes),
        seenVotes := l.seenVotes + SeenAtSlotZero(votes))
  }

  /** Both merges are tried; whether either fails decides what happens next. */
  function BothMerged(l: Loop, stakeMap: StakeMap, voteMap: VoteMap): Loop {
    l.(stakes := Merged(l.stakes, stakeMap), votes := Merged(l.votes, voteMap))
  }

  predicate MergeWorks(l: Loop) {
    l.stakes.content.None? && l.votes.content.None?
  }

  function OnAccountsMerged(l: Loop, stakeMap: StakeMap, voteMap: VoteMap): Loop {
    if MergeWorks(l) then BothMerged(l, stakeMap, voteMap).(bootstrapDone := true)
    else BothMerged(l, stakeMap, voteMap).(mergeFailed := true, boot := l.boot + [Fetching])
  }

  /** LeaderScheduleEvent::Init: take both maps and calculate in a task, or wait. */
  function OnScheduleInit(l: Loop): Loop {
    if BothPresent(l)
    then BothTaken(l).(schedule := l.schedule + [Calculating(l.stakes.content.value, l.votes.content.value)])
    else l.(schedule := l.schedule + [WaitingInit])
  }

  function OnScheduleDone(l: Loop, stakeMap: StakeMap, voteMap: VoteMap): Loop {
    if MergeWorks(l) then BothMerged(l, stakeMap, voteMap)
    else OnScheduleInit(BothMerged(l, stakeMap, voteMap).(mergeFailed := true))
  }

  function OnRpcTake(l: Loop): Loop {
    if l.votes.content.Some?
    then l.(votes := l.votes.(content := None), rpcRunning := l.rpcRunning + [l.votes.content.value])
    else l.(rpcWaiting := l.rpcWaiting + 1)
  }

  function OnRpcDone(l: Loop, voteMap: VoteMap): Loop {
    l.(votes := Merged(l.votes, voteMap), mergeFailed := l.mergeFailed || l.votes.content.Some?, pendingRequests := 0)
  }

  datatype Event =
    | StakeChange(stake: AccountChange<Delegation>, lastSlotInEpoch: Slot)
    | VoteChange(vote: AccountChange<VoteState>, lastSlotInEpoch: Slot)
    | BootFetched(task: nat, stakes: seq<(Pubkey, Delegation)>, votes: seq<(Pubkey, VoteState)>, historyReadable: bool)
    | BootWoken(task: nat)
    | BootMerged(task: nat)
    | ScheduleInit
    | ScheduleWoken(task: nat)
    | ScheduleDone(task: nat)
    | RpcRequest
    | RpcWoken
    | RpcDone(task: nat)
    | BootPanicked(task: nat)
    | SchedulePanicked(task: nat)
    | RpcPanicked(task: nat)

  function Step(l: Loop, e: Event): Loop {
    match e
    case StakeChange(c, last) => l.(stakes := Changed(l.stakes, c, last), seenStakes := l.seenStakes + Seen(c))
    case VoteChange(c, last) => l.(votes := Changed(l.votes, c, last), seenVotes := l.seenVotes + Seen(c))
    case BootFetched(i, stakes, votes, readable) =>
      if i < |l.boot| && l.boot[i].Fetching?
      then OnAccountsFetched(l.(boot := Without(l.boot, i)), stakes, votes, readable) else l
    case BootWoken(i) =>
      if i < |l.boot| && l.boot[i].Waiting?
      then OnAccountsFetched(l.(boot := Without(l.boot, i)), l.boot[i].stakes, l.boot[i].votes,
        l.boot[i].historyReadable) else l
    case BootMerged(i) =>
      if i < |l.boot| && l.boot[i].Merging?
      then OnAccountsMerged(l.(boot := Without(l.boot, i)), l.boot[i].stakeMap, l.boot[i].voteMap) else l
    case ScheduleInit => if l.bootstrapDone then OnScheduleInit(l) else l
    case ScheduleWoken(i) =>
      if i < |l.schedule| && l.schedule[i].WaitingInit?
      then OnScheduleInit(l.(schedule := Without(l.schedule, i))) else l
    case ScheduleDone(i) =>
      if i < |l.schedule| && l.schedule[i].Calculating?
      then OnScheduleDone(l.(schedule := Without(l.schedule, i)), l.schedule[i].stakeMap, l.schedule[i].voteMap) else l
    case RpcRequest => OnRpcTake(l.(pendingRequests := l.pendingRequests + 1))
    case RpcWoken => if l.rpcWaiting > 0 then OnRpcTake(l.(rpcWaiting := l.rpcWaiting - 1)) else l
    case RpcDone(i) =>
      if i < |l.rpcRunning| then OnRpcDone(l.(rpcRunning := Without(l.rpcRunning, i)), l.rpcRunning[i]) else l
    case BootPanicked(i) => if i < |l.boot| then l.(boot := Without(l.boot, i)) else l
    case SchedulePanicked(i) => if i < |l.schedule| then l.(schedule := Without(l.schedule, i)) else l
    case RpcPanicked(i) => if i < |l.rpcRunning| then l.(rpcRunning := Without(l.rpcRunning, i)) else l
  }

  function Run(events: seq<Event>): Loop {
    if events == [] then Start else Step(Run(events[..|events| - 1]), events[|events| - 1])
  }

  /** Enters accounts fetched over RPC, as merge_program_account_in_strake_map and its vote counterpart do. */
  method MergeProgramAccounts<T>(m: Accounts<T>, accounts: seq<(Pubkey, T)>) returns (r: Accounts<T>)
    ensures r == AppliedAll(m, AtSlotZero(accounts))
  {
    r := m;
    for i := 0 to |accounts|
      invariant r == AppliedAll(m, AtSlotZero(accounts)[..i])
    {
      assert AtSlotZero(accounts)[..i + 1][..i] == AtSlotZero(accounts)[..i];
      r := Notified(r, Stored(accounts[i].0, 0, accounts[i].1));
    }
    assert AtSlotZero(accounts)[..|accounts|] == AtSlotZero(accounts);
  }

  /** The stores and task lists of the loop. Each method is given the task as already taken off its list. */
  class StakeVoteTasks {
    const stakeStore: TakableStore<Delegation>
    const voteStore: TakableStore<VoteState>
    var bootTasks: seq<BootTask>
    var scheduleTasks: seq<ScheduleTask>
    var rpcNotifyTasks: nat
    var rpcExecTasks: seq<VoteMap>
    var pendingRpcRequests: nat
    var bootstrapDone: bool
    var mergeFailed: bool
    ghost var seenStakes: set<Stored<Delegation>>
    ghost var seenVotes: set<Stored<VoteState>>

    ghost predicate Valid() {
      (stakeStore as object) != (voteStore as object) && (stakeStore as object) != (this as object)
        && (voteStore as object) != (this as object)
    }

    ghost function Value(): Loop
      reads this, stakeStore, voteStore
    {
      Loop(stakeStore.Value(), voteStore.Value(), bootTasks, scheduleTasks, rpcNotifyTasks, rpcExecTasks,
           pendingRpcRequests, bootstrapDone, mergeFailed, seenStakes, seenVotes)
    }

    constructor (stakes: TakableStore<Delegation>, votes: TakableStore<VoteState>)
      requires (stakes as object) != (votes as object)
      requires stakes.Value() == Takable(Some(map[]), []) && votes.Value() == Takable(Some(map[]), [])
      ensures Valid() && Value() == Start && stakeStore == stakes && voteStore == votes
    {
      stakeStore, voteStore := stakes, votes;
      bootTasks, scheduleTasks, rpcNotifyTasks, rpcExecTasks, pendingRpcRequests := [Fetching], [], 0, [], 0;
      bootstrapDone, mergeFailed, seenStakes, seenVotes := false, false, {}, {};
    }

    method NotifyStakeChange(c: AccountChange<Delegation>, lastSlotInEpoch: Slot)
      requires Valid()
      modifies this`seenStakes, stakeStore
      ensures Value() == Step(old(Value()), StakeChange(c, lastSlotInEpoch))
    {
      seenStakes := seenStakes + Seen(c);
      if c.lamports == 0 {
        stakeStore.Add(Remove(c.pubkey, c.slot), c.slot > lastSlotInEpoch);
      } else if c.parsed.Some? {
        stakeStore.Add(Notify(Stored(c.pubkey, c.slot, c.parsed.value)), c.slot > lastSlotInEpoch);
      }
    }

    method NotifyVoteChange(c: AccountChange<VoteState>, lastSlotInEpoch: Slot)
      requires Valid()
      modifies this`seenVotes, voteStore
      ensures Value() == Step(old(Value()), VoteChange(c, lastSlotInEpoch))
    {
      seenVotes := seenVotes + Seen(c);
      if c.lamports == 0 {
        voteStore.Add(Remove(c.pubkey, c.slot), c.slot > lastSlotInEpoch);
      } else if c.parsed.Some? {
        voteStore.Add(Notify(Stored(c.pubkey, c.slot, c.parsed.value)), c.slot > lastSlotInEpoch);
      }
    }

    /** BootstrapAccountsFetched and, if the maps could be taken, StoreExtracted. */
    method ProcessAccountsFetched(
        stakes: seq<(Pubkey, Delegation)>, votes: seq<(Pubkey, VoteState)>, historyReadable: bool)
      requires Valid()
      modifies this, stakeStore, voteStore
      ensures Value() == OnAccountsFetched(old(Value()), stakes, votes, historyReadable)
    {
      var taken := TakePair(stakeStore, voteStore);
      if taken.Taken? {
        bootTasks := bootTasks + [Waiting(stakes, votes, historyReadable)];
      } else if historyReadable {
        var stakeMap := MergeProgramAccounts(taken.content.0, stakes);
        var voteMap := MergeProgramAccounts(taken.content.1, votes);
        bootTasks := bootTasks + [Merging(stakeMap, voteMap)];
        seenStakes := seenStakes + SeenAtSlotZero(stakes);
        seenVotes := seenVotes + SeenAtSlotZero(votes);
      }
    }

    method ProcessAccountsMerged(stakeMap: StakeMap, voteMap: VoteMap)
      requires Valid()
      modifies this, stakeStore, voteStore
      ensures Value() == OnAccountsMerged(old(Value()), stakeMap, voteMap)
    {
      var stakesOk := stakeStore.Merge(stakeMap);
      var votesOk := voteStore.Merge(voteMap);
      if stakesOk && votesOk {
        bootstrapDone := true;
      } else {
        mergeFailed := true;
        bootTasks := bootTasks + [Fetching];
      }
    }

    method ProcessScheduleInit()
      requires Valid()
      modifies this`scheduleTasks, stakeStore, voteStore
      ensures Value() == OnScheduleInit(old(Value()))
    {
      var taken := TakePair(stakeStore, voteStore);
      if taken.Taken? {
        scheduleTasks := scheduleTasks + [WaitingInit];
      } else {
        scheduleTasks := scheduleTasks + [Calculating(taken.content.0, taken.content.1)];
      }
    }

    method ProcessScheduleMerge(stakeMap: StakeMap, voteMap: VoteMap)
      requires Valid()
      modifies this`scheduleTasks, this`mergeFailed, stakeStore, voteStore
      ensures Value() == OnScheduleDone(old(Value()), stakeMap, voteMap)
    {
      var stakesOk := stakeStore.Merge(stakeMap);
      var votesOk := voteStore.Merge(voteMap);
      if !(stakesOk && votesOk) {
        mergeFailed := true;
        ProcessScheduleInit();
      }
    }

    method TakeVoteAccountsAndProcess()
      requires Valid()
      modifies this`rpcExecTasks, this`rpcNotifyTasks, voteStore
      ensures Value() == OnRpcTake(old(Value()))
    {
      var taken := voteStore.Take();
      if taken.Taken? {
        rpcNotifyTasks := rpcNotifyTasks + 1;
      } else {
        rpcExecTasks := rpcExecTasks + [taken.content];
      }
    }

    method NotifyEndRpcGetVoteAccounts(voteMap: VoteMap)
      requires Valid()
      modifies this`mergeFailed, this`pendingRpcRequests, voteStore
      ensures Value() == OnRpcDone(old(Value()), voteMap)
    {
      var ok := voteStore.Merge(voteMap);
      if !ok {
        mergeFailed := true;
      }
      pendingRpcRequests := 0;
    }
  }

  // ----- at most one party holds each content

  function CountMerging(boot: seq<BootTask>): nat {
    if boot == [] then 0 else CountMerging(boot[..|boot| - 1]) + if boot[|boot| - 1].Merging? then 1 else 0
  }

  function CountCalculating(schedule: seq<ScheduleTask>): nat {
    if schedule == [] then 0
    else CountCalculating(schedule[..|schedule| - 1]) + if schedule[|schedule| - 1].Calculating? then 1 else 0
  }

  function Present<T>(t: Takable<T>): nat {
    if t.content.Some? then 1 else 0
  }

  function StakeHolders(l: Loop): nat {
    Present(l.stakes) + CountMerging(l.boot) + CountCalculating(l.schedule)
  }

  function VoteHolders(l: Loop): nat {
    Present(l.votes) + CountMerging(l.boot) + CountCalculating(l.schedule) + |l.rpcRunning|
  }

  lemma {:induction false} MergingConcat(a: seq<BootTask>, b: seq<BootTask>)
    ensures CountMerging(a + b) == CountMerging(a) + CountMerging(b)
  {
    if b == [] { assert a + b == a; } else {
      MergingConcat(a, b[..|b| - 1]);
      assert (a + b)[..|a + b| - 1] == a + b[..|b| - 1];
    }
  }

  lemma {:induction false} CalculatingConcat(a: seq<ScheduleTask>, b: seq<ScheduleTask>)
    ensures CountCalculating(a + b) == CountCalculating(a) + CountCalculating(b)
  {
    if b == [] { assert a + b == a; } else {
      CalculatingConcat(a, b[..|b| - 1]);
      assert (a + b)[..|a + b| - 1] == a + b[..|b| - 1];
    }
  }

  lemma {:induction false} MergingOne(boot: seq<BootTask>, i: nat)
    requires i < |boot|
    ensures CountMerging(boot) == CountMerging(Without(boot, i)) + if boot[i].Merging? then 1 else 0
  {
    assert boot == boot[..i + 1] + boot[i + 1..] && boot[..i + 1][..i] == boot[..i];
    MergingConcat(boot[..i + 1], boot[i + 1..]);
    MergingConcat(boot[..i], boot[i + 1..]);
  }

  lemma {:induction false} MergingAppend(boot: seq<BootTask>, t: BootTask)
    ensures CountMerging(boot + [t]) == CountMerging(boot) + if t.Merging? then 1 else 0
  {
    assert (boot + [t])[..|boot|] == boot;
  }

  lemma {:induction false} CalculatingOne(schedule: seq<ScheduleTask>, i: nat)
    requires i < |schedule|
    ensures CountCalculating(schedule) ==
      CountCalculating(Without(schedule, i)) + if schedule[i].Calculating? then 1 else 0
  {
    assert schedule == schedule[..i + 1] + schedule[i + 1..] && schedule[..i + 1][..i] == schedule[..i];
    CalculatingConcat(schedule[..i + 1], schedule[i + 1..]);
    CalculatingConcat(schedule[..i], schedule[i + 1..]);
  }

  lemma {:induction false} CalculatingAppend(schedule: seq<ScheduleTask>, t: ScheduleTask)
    ensures CountCalculating(schedule + [t]) == CountCalculating(schedule) + if t.Calculating? then 1 else 0
  {
    assert (schedule + [t])[..|schedule|] == schedule;
  }

  /** At most one holder of each content, and no merge has failed. */
  ghost predicate Owned(l: Loop) {
    StakeHolders(l) <= 1 && VoteHolders(l) <= 1 && !l.mergeFailed
  }

  datatype Content = StakeContent | VoteContent

  function Holders(k: Content, l: Loop): nat {
    if k == StakeContent then StakeHolders(l) else VoteHolders(l)
  }

  /**
   The event drops a taken content: the stake history cannot be read after both maps were taken, or a
   task panics while it holds the map. The loop takes no notice of a task that ended without a result.
   */
  predicate Loses(k: Content, l: Loop, e: Event) {
    match e
    case BootFetched(i, _, _, readable) => i < |l.boot| && l.boot[i].Fetching? && BothPresent(l) && !readable
    case BootWoken(i) => i < |l.boot| && l.boot[i].Waiting? && BothPresent(l) && !l.boot[i].historyReadable
    case BootPanicked(i) => i < |l.boot| && l.boot[i].Merging?
    case SchedulePanicked(i) => i < |l.schedule| && l.schedule[i].Calculating?
    case RpcPanicked(i) => k == VoteContent && i < |l.rpcRunning|
    case _ => false
  }

  function Lost(k: Content, l: Loop, e: Event): nat {
    if Loses(k, l, e) then 1 else 0
  }

  lemma {:induction false} FetchedHolders(
      l: Loop, stakes: seq<(Pubkey, Delegation)>, votes: seq<(Pubkey, VoteState)>, readable: bool)
    ensures var lost, after := (if BothPresent(l) && !readable then 1 else 0),
      OnAccountsFetched(l, stakes, votes, readable);
      StakeHolders(after) == StakeHolders(l) - lost && VoteHolders(after) == VoteHolders(l) - lost
        && after.mergeFailed == l.mergeFailed
  {
    if !BothPresent(l) {
      MergingAppend(l.boot, Waiting(stakes, votes, readable));
    } else if readable {
      MergingAppend(l.boot, Merging(AppliedAll(l.stakes.content.value, AtSlotZero(stakes)),
        AppliedAll(l.votes.content.value, AtSlotZero(votes))));
    }
  }

  lemma {:induction false} ScheduleInitCount(l: Loop)
    ensures CountCalculating(OnScheduleInit(l).schedule) ==
      CountCalculating(l.schedule) + if BothPresent(l) then 1 else 0
  {
    if BothPresent(l) {
      CalculatingAppend(l.schedule, Calculating(l.stakes.content.value, l.votes.content.value));
    } else {
      CalculatingAppend(l.schedule, WaitingInit);
    }
  }

  lemma {:induction false} ScheduleInitStakes(l: Loop)
    ensures StakeHolders(OnScheduleInit(l)) == StakeHolders(l)
  {
    ScheduleInitCount(l);
  }

  lemma {:induction false} ScheduleInitHolders(l: Loop)
    ensures StakeHolders(OnScheduleInit(l)) == StakeHolders(l) && VoteHolders(OnScheduleInit(l)) == VoteHolders(l)
    ensures OnScheduleInit(l).mergeFailed == l.mergeFailed
  {
    ScheduleInitStakes(l);
    ScheduleInitCount(l);
  }

  /** A bootstrap task that has fetched its accounts is taken off its list and handled. */
  lemma {:induction false} TaskHolders(l: Loop, i: nat, t: BootTask)
    requires i < |l.boot| && !l.boot[i].Merging? && t.Waiting?
    ensures var after := OnAccountsFetched(l.(boot := Without(l.boot, i)), t.stakes, t.votes, t.historyReadable);
      var lost := if BothPresent(l) && !t.historyReadable then 1 else 0;
      && StakeHolders(after) == StakeHolders(l) - lost && VoteHolders(after) == VoteHolders(l) - lost
      && after.mergeFailed == l.mergeFailed
  {
    MergingOne(l.boot, i);
    FetchedHolders(l.(boot := Without(l.boot, i)), t.stakes, t.votes, t.historyReadable);
  }

  lemma {:induction false} FetchKeepsOwned(l: Loop, e: Event)
    requires Owned(l) && (e.BootFetched? || e.BootWoken?)
    ensures StakeHolders(Step(l, e)) == StakeHolders(l) - Lost(StakeContent, l, e)
    ensures VoteHolders(Step(l, e)) == VoteHolders(l) - Lost(VoteContent, l, e)
    ensures !Step(l, e).mergeFailed
  {
    if e.task < |l.boot| {
      if e.BootFetched? && l.boot[e.task].Fetching? {
        TaskHolders(l, e.task, Waiting(e.stakes, e.votes, e.historyReadable));
      } else if e.BootWoken? && l.boot[e.task].Waiting? {
        TaskHolders(l, e.task, l.boot[e.task]);
      }
    }
  }

  lemma {:induction false} BootMergedKeepsOwned(l: Loop, e: Event)
    requires Owned(l) && e.BootMerged?
    ensures StakeHolders(Step(l, e)) == StakeHolders(l) && VoteHolders(Step(l, e)) == VoteHolders(l)
    ensures !Step(l, e).mergeFailed
  {
    if e.task < |l.boot| { MergingOne(l.boot, e.task); }
  }

  lemma {:induction false} ScheduleKeepsOwned(l: Loop, e: Event)
    requires Owned(l) && (e.ScheduleInit? || e.ScheduleWoken? || e.ScheduleDone?)
    ensures StakeHolders(Step(l, e)) == StakeHolders(l) && VoteHolders(Step(l, e)) == VoteHolders(l)
    ensures !Step(l, e).mergeFailed
  {
    if e.ScheduleInit? {
      ScheduleInitHolders(l);
    } else if e.task < |l.schedule| {
      CalculatingOne(l.schedule, e.task);
      ScheduleInitHolders(l.(schedule := Without(l.schedule, e.task)));
    }
  }

  lemma {:induction false} BootPanicHolders(l: Loop, i: nat)
    ensures StakeHolders(Step(l, BootPanicked(i))) == StakeHolders(l) - Lost(StakeContent, l, BootPanicked(i))
    ensures VoteHolders(Step(l, BootPanicked(i))) == VoteHolders(l) - Lost(VoteContent, l, BootPanicked(i))
  {
    if i < |l.boot| { MergingOne(l.boot, i); }
  }

  lemma {:induction false} SchedulePanicHolders(l: Loop, i: nat)
    ensures StakeHolders(Step(l, SchedulePanicked(i))) == StakeHolders(l) - Lost(StakeContent, l, SchedulePanicked(i))
    ensures VoteHolders(Step(l, SchedulePanicked(i))) == VoteHolders(l) - Lost(VoteContent, l, SchedulePanicked(i))
  {
    if i < |l.schedule| { CalculatingOne(l.schedule, i); }
  }

  lemma {:induction false} RpcHolders(l: Loop, e: Event)
    requires Owned(l) && (e.RpcRequest? || e.RpcWoken? || e.RpcDone? || e.RpcPanicked?)
    ensures StakeHolders(Step(l, e)) == StakeHolders(l)
    ensures VoteHolders(Step(l, e)) == VoteHolders(l) - Lost(VoteContent, l, e)
    ensures !Step(l, e).mergeFailed
  {
    assert e.RpcDone? || e.RpcPanicked? ==>
      e.task < |l.rpcRunning| ==> |Without(l.rpcRunning, e.task)| == |l.rpcRunning| - 1;
  }

  lemma {:induction false} ChangeHolders(l: Loop, e: Event)
    requires e.StakeChange? || e.VoteChange?
    ensures StakeHolders(Step(l, e)) == StakeHolders(l) && VoteHolders(Step(l, e)) == VoteHolders(l)
  {
  }

  lemma {:induction false} StepKeepsOwned(l: Loop, e: Event)
    requires Owned(l)
    ensures Owned(Step(l, e))
    ensures forall k :: Holders(k, Step(l, e)) == Holders(k, l) - Lost(k, l, e)
  {
    if e.BootFetched? || e.BootWoken? {
      FetchKeepsOwned(l, e);
    } else if e.BootMerged? {
      BootMergedKeepsOwned(l, e);
    } else if e.ScheduleInit? || e.ScheduleWoken? || e.ScheduleDone? {
      ScheduleKeepsOwned(l, e);
    } else if e.BootPanicked? {
      BootPanicHolders(l, e.task);
    } else if e.SchedulePanicked? {
      SchedulePanicHolders(l, e.task);
    } else if e.StakeChange? || e.VoteChange? {
      ChangeHolders(l, e);
    } else {
      RpcHolders(l, e);
    }
  }

  /** In every run each content has at most one holder, so no merge ever fails. */
  lemma {:induction false} AtMostOneHolder(events: seq<Event>)
    ensures Owned(Run(events))
  {
    if events == [] {
      StartHolders();
    } else {
      AtMostOneHolder(events[..|events| - 1]);
      StepKeepsOwned(Run(events[..|events| - 1]), events[|events| - 1]);
    }
  }

  ghost predicate NothingLost(k: Content, events: seq<Event>) {
    forall n :: 0 <= n < |events| ==> !Loses(k, Run(events[..n]), events[n])
  }

  lemma {:induction false} NothingLostGrows(k: Content, before: seq<Event>, e: Event)
    ensures NothingLost(k, before + [e]) <==> NothingLost(k, before) && !Loses(k, Run(before), e)
  {
    var events := before + [e];
    assert forall n :: 0 <= n < |before| ==> before[..n] == events[..n] && before[n] == events[n];
    assert events[..|before|] == before && events[|before|] == e;
    if NothingLost(k, events) {
      forall n | 0 <= n < |before| ensures !Loses(k, Run(before[..n]), before[n]) {
        assert !Loses(k, Run(events[..n]), events[n]);
      }
      assert !Loses(k, Run(events[..|before|]), events[|before|]);
    }
  }

  lemma {:induction false} StartHolders()
    ensures StakeHolders(Start) == VoteHolders(Start) == 1
  {
    assert [Fetching][..0] == [];
  }

  /** Each content has exactly one holder as long as no step of the run dropped it, and none afterwards. */
  lemma {:induction false} NeverLostIff(k: Content, events: seq<Event>)
    ensures Holders(k, Run(events)) == if NothingLost(k, events) then 1 else 0
  {
    if events == [] {
      StartHolders();
    } else {
      var before, e := events[..|events| - 1], events[|events| - 1];
      NeverLostIff(k, before);
      AtMostOneHolder(before);
      assert events == before + [e];
      NothingLostGrows(k, before, e);
      HoldersAfter(k, Run(before), e, NothingLost(k, before), NothingLost(k, events));
    }
  }

  lemma {:induction false} HoldersAfter(k: Content, l: Loop, e: Event, before: bool, after: bool)
    requires Owned(l) && Holders(k, l) == (if before then 1 else 0) && (after <==> before && !Loses(k, l, e))
    ensures Holders(k, Step(l, e)) == if after then 1 else 0
  {
    StepKeepsOwned(l, e);
  }

  /** With an unreadable stake history the very first step drops both contents. */
  lemma {:induction false} UnreadableHistoryLosesContents(
      stakes: seq<(Pubkey, Delegation)>, votes: seq<(Pubkey, VoteState)>, k: Content)
    ensures var e := BootFetched(0, stakes, votes, false);
      Loses(k, Start, e) && Holders(k, Step(Start, e)) == 0
  {
    StartHolders();
    StepKeepsOwned(Start, BootFetched(0, stakes, votes, false));
  }

  /** The loop after a bootstrap and the start of a schedule calculation. */
  function Scheduling(stakes: seq<(Pubkey, Delegation)>, votes: seq<(Pubkey, VoteState)>): Loop {
    Step(Step(Step(Start, BootFetched(0, stakes, votes, true)), BootMerged(0)), ScheduleInit)
  }

  lemma {:induction false} SchedulingCalculates(stakes: seq<(Pubkey, Delegation)>, votes: seq<(Pubkey, VoteState)>)
    ensures |Scheduling(stakes, votes).schedule| == 1 && Scheduling(stakes, votes).schedule[0].Calculating?
    ensures Owned(Scheduling(stakes, votes)) && forall k :: Holders(k, Scheduling(stakes, votes)) == 1
  {
    StartHolders();
    var one := Step(Start, BootFetched(0, stakes, votes, true));
    assert Without(Start.boot, 0) == [];
    assert |one.boot| == 1 && one.boot[0].Merging?;
    StepKeepsOwned(Start, BootFetched(0, stakes, votes, true));
    StepKeepsOwned(one, BootMerged(0));
    StepKeepsOwned(Step(one, BootMerged(0)), ScheduleInit);
  }

  /** A schedule calculation that panics drops both contents too. */
  lemma {:induction false} PanickedTaskLosesContents(
      stakes: seq<(Pubkey, Delegation)>, votes: seq<(Pubkey, VoteState)>, k: Content)
    ensures var l := Scheduling(stakes, votes);
      Loses(k, l, SchedulePanicked(0)) && Holders(k, Step(l, SchedulePanicked(0))) == 0
  {
    SchedulingCalculates(stakes, votes);
    StepKeepsOwned(Scheduling(stakes, votes), SchedulePanicked(0));
  }

  // ----- changes of the next epoch that are overtaken

  /** Two stake changes with the last slots of the epochs they met, and then a bootstrap that takes and merges. */
  function TwoChanges(
      first: AccountChange<Delegation>, firstLast: Slot, second: AccountChange<Delegation>, secondLast: Slot)
    : seq<Event>
  {
    [StakeChange(first, firstLast), StakeChange(second, secondLast), BootFetched(0, [], [], true), BootMerged(0)]
  }

  lemma {:induction false} BootstrapAppliesWaiting(l: Loop)
    requires BothPresent(l) && l.boot == [Fetching]
    ensures var merged := Step(Step(l, BootFetched(0, [], [], true)), BootMerged(0));
      merged.stakes == Takable(Some(AppliedAll(l.stakes.content.value, l.stakes.updates)), [])
  {
    assert Without(l.boot, 0) == [];
    var fetched := Step(l, BootFetched(0, [], [], true));
    assert fetched.boot == [Merging(l.stakes.content.value, l.votes.content.value)];
    assert Without(fetched.boot, 0) == [];
  }

  /** If only the first change belongs to the next epoch, the second one overtakes it. */
  lemma {:induction false} SecondOvertakes(
      first: AccountChange<Delegation>, firstLast: Slot, second: AccountChange<Delegation>, secondLast: Slot)
    requires ActionOf(first).Some? && ActionOf(second).Some? && first.slot > firstLast && second.slot <= secondLast
    ensures Run(TwoChanges(first, firstLast, second, secondLast)).stakes
         == Takable(Some(Applied(Applied(map[], ActionOf(second).value), ActionOf(first).value)), [])
  {
    var one := Step(Start, StakeChange(first, firstLast));
    assert one.stakes.updates == [ActionOf(first).value];
    var two := Step(one, StakeChange(second, secondLast));
    assert two.stakes == Takable(Some(Applied(map[], ActionOf(second).value)), [ActionOf(first).value]);
    BootstrapAppliesWaiting(two);
    AppliedOne(two.stakes.content.value, ActionOf(first).value);
    RunOfFour(StakeChange(first, firstLast), StakeChange(second, secondLast), BootFetched(0, [], [], true),
      BootMerged(0));
  }

  lemma {:induction false} RunOfFour(a: Event, b: Event, c: Event, d: Event)
    ensures Run([a, b, c, d]) == Step(Step(Step(Step(Start, a), b), c), d)
  {
    assert [a, b, c, d][..3] == [a, b, c] && [a, b, c][..2] == [a, b] && [a, b][..1] == [a] && [a][..0] == [];
    assert Run([a]) == Step(Start, a);
    assert Run([a, b]) == Step(Run([a]), b);
    assert Run([a, b, c]) == Step(Run([a, b]), c);
  }

  /** A notification of the next epoch that a removal in that epoch overtakes brings the account back. */
  lemma {:induction false} OvertakenNotificationRevives(
      pk: Pubkey, stake: Delegation, slot: Slot, removal: Slot, firstLast: Slot, secondLast: Slot)
    requires firstLast < slot <= removal <= secondLast
    ensures var account, removed := AccountChange(pk, slot, 1, Some(stake)), AccountChange(pk, removal, 0, None);
      && Run(TwoChanges(account, firstLast, removed, secondLast)).stakes.content
        == Some(map[pk := Stored(pk, slot, stake)])
      && AppliedAll(map[], [Notify(Stored(pk, slot, stake)), Remove(pk, removal)]) == map[]
  {
    var account, removed := AccountChange(pk, slot, 1, Some(stake)), AccountChange(pk, removal, 0, None);
    SecondOvertakes(account, firstLast, removed, secondLast);
    AppliedTwo(map[], Notify(Stored(pk, slot, stake)), Remove(pk, removal));
  }

  /** A removal of the next epoch also takes away an account that was notified after it with an older slot. */
  lemma {:induction false} OvertakenRemovalRemoves(pk: Pubkey, stake: Delegation, slot: Slot, removal: Slot, last: Slot)
    requires slot <= last < removal
    ensures var removed, account := AccountChange(pk, removal, 0, None), AccountChange(pk, slot, 1, Some(stake));
      && Run(TwoChanges(removed, last, account, last)).stakes.content == Some(map[])
      && AppliedAll(map[], [Remove(pk, removal), Notify(Stored(pk, slot, stake))]) == map[pk := Stored(pk, slot, stake)]
  {
    var removed, account := AccountChange(pk, removal, 0, None), AccountChange(pk, slot, 1, Some(stake));
    SecondOvertakes(removed, last, account, last);
    AppliedTwo(map[], Remove(pk, removal), Notify(Stored(pk, slot, stake)));
  }

  /** Of two notifications of the same slot the one that waited wins, although the other came later. */
  lemma {:induction false} OvertakenNotificationWins(
      pk: Pubkey, a: Delegation, b: Delegation, slot: Slot, firstLast: Slot, secondLast: Slot)
    requires firstLast < slot <= secondLast
    ensures var first, second := AccountChange(pk, slot, 1, Some(a)), AccountChange(pk, slot, 1, Some(b));
      && Run(TwoChanges(first, firstLast, second, secondLast)).stakes.content == Some(map[pk := Stored(pk, slot, a)])
      && AppliedAll(map[], [Notify(Stored(pk, slot, a)), Notify(Stored(pk, slot, b))]) == map[pk := Stored(pk, slot, b)]
  {
    var first, second := AccountChange(pk, slot, 1, Some(a)), AccountChange(pk, slot, 1, Some(b));
    SecondOvertakes(first, firstLast, second, secondLast);
    AppliedTwo(map[], Notify(Stored(pk, slot, a)), Notify(Stored(pk, slot, b)));
    var x, y := Stored(pk, slot, a), Stored(pk, slot, b);
    assert map[pk := x][pk := y] == map[pk := y] && map[pk := y][pk := x] == map[pk := x];
  }
}
