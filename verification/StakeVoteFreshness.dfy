/** In every run without removals, a merge leaves the newest notification of each account in the map. */
module StakeVoteFreshness {
  import opened Common
  import opened TakableMap
  import opened StakeAccounts
  import opened StakeVoteLoop

  ghost predicate StakeFresh(l: Loop, m: StakeMap) {
    Fresh(m, l.stakes.updates, l.seenStakes)
  }

  ghost predicate VoteFresh(l: Loop, m: VoteMap) {
    Fresh(m, l.votes.updates, l.seenVotes)
  }

  /** Wherever a map is held, it and the waiting updates cover every notification seen. */
  ghost predicate AllFresh(l: Loop) {
    && (l.stakes.content.Some? ==> StakeFresh(l, l.stakes.content.value))
    && (l.votes.content.Some? ==> VoteFresh(l, l.votes.content.value))
    && (forall i :: 0 <= i < |l.boot| && l.boot[i].Merging? ==>
      StakeFresh(l, l.boot[i].stakeMap) && VoteFresh(l, l.boot[i].voteMap))
    && (forall i :: 0 <= i < |l.schedule| && l.schedule[i].Calculating? ==>
      StakeFresh(l, l.schedule[i].stakeMap) && VoteFresh(l, l.schedule[i].voteMap))
    && (forall i :: 0 <= i < |l.rpcRunning| ==> VoteFresh(l, l.rpcRunning[i]))
  }

  /** No account change of this event is a removal. */
  predicate NoRemoval(e: Event) {
    (e.StakeChange? ==> e.stake.lamports != 0) && (e.VoteChange? ==> e.vote.lamports != 0)
  }

  // ----- no task holds a map while a store does, and at most one task does

  lemma {:induction false} NoMerging(boot: seq<BootTask>)
    requires CountMerging(boot) == 0
    ensures forall i :: 0 <= i < |boot| ==> !boot[i].Merging?
  {
    if boot != [] {
      NoMerging(boot[..|boot| - 1]);
      assert forall i :: 0 <= i < |boot| - 1 ==> boot[..|boot| - 1][i] == boot[i];
    }
  }

  lemma {:induction false} NoCalculating(schedule: seq<ScheduleTask>)
    requires CountCalculating(schedule) == 0
    ensures forall i :: 0 <= i < |schedule| ==> !schedule[i].Calculating?
  {
    if schedule != [] {
      NoCalculating(schedule[..|schedule| - 1]);
      assert forall i :: 0 <= i < |schedule| - 1 ==> schedule[..|schedule| - 1][i] == schedule[i];
    }
  }

  /** No task holds both maps. */
  ghost predicate Idle(l: Loop) {
    && (forall i :: 0 <= i < |l.boot| ==> !l.boot[i].Merging?)
    && (forall i :: 0 <= i < |l.schedule| ==> !l.schedule[i].Calculating?)
  }

  lemma {:induction false} IdleIfNone(l: Loop)
    requires CountMerging(l.boot) == 0 && CountCalculating(l.schedule) == 0
    ensures Idle(l)
  {
    NoMerging(l.boot);
    NoCalculating(l.schedule);
  }

  lemma {:induction false} WithoutElements<T>(s: seq<T>, i: nat)
    requires i < |s|
    ensures |Without(s, i)| == |s| - 1
    ensures forall k :: 0 <= k < |s| - 1 ==> Without(s, i)[k] == s[if k < i then k else k + 1]
  {
  }

  // ----- one store: a change is covered in the content or among the updates

  lemma {:induction false} ChangeKeepsFresh<T(!new)>(t: Takable<T>, m: Accounts<T>, c: AccountChange<T>, last: Slot,
        seen: set<Stored<T>>)
    requires Fresh(m, t.updates, seen) && c.lamports != 0
    requires t.content.Some? ==> t.content.value == m
    ensures var after := Changed(t, c, last);
      Fresh(if t.content.Some? then after.content.value else m, after.updates, seen + Seen(c))
  {
    if c.parsed.Some? {
      NotifyKeepsFresh(m, t.updates, seen, Stored(c.pubkey, c.slot, c.parsed.value));
    } else {
      assert seen + Seen(c) == seen;
    }
  }

  lemma {:induction false} SlotZeroKeepsFresh<T(!new)>(m: Accounts<T>, updates: seq<UpdateAction<T>>,
        seen: set<Stored<T>>, accounts: seq<(Pubkey, T)>)
    requires Fresh(m, updates, seen)
    ensures Fresh(AppliedAll(m, AtSlotZero(accounts)), updates, seen + SeenAtSlotZero(accounts))
  {
    if accounts == [] {
      assert AtSlotZero(accounts) == [] && seen + SeenAtSlotZero(accounts) == seen;
    } else {
      var front, a := accounts[..|accounts| - 1], accounts[|accounts| - 1];
      SlotZeroKeepsFresh(m, updates, seen, front);
      assert AtSlotZero(accounts)[..|front|] == AtSlotZero(front);
      NotifyKeepsFresh(AppliedAll(m, AtSlotZero(front)), updates, seen + SeenAtSlotZero(front), Stored(a.0, 0, a.1));
      SeenAppend(front, a);
      assert accounts == front + [a];
      assert seen + SeenAtSlotZero(front) + {Stored(a.0, 0, a.1)} == seen + SeenAtSlotZero(accounts);
    }
  }

  lemma {:induction false} SeenAppend<T>(front: seq<(Pubkey, T)>, a: (Pubkey, T))
    ensures SeenAtSlotZero(front + [a]) == SeenAtSlotZero(front) + {Stored(a.0, 0, a.1)}
  {
    assert forall x :: x in front + [a] <==> x in front || x == a;
    forall s | s in SeenAtSlotZero(front) + {Stored(a.0, 0, a.1)} ensures s in SeenAtSlotZero(front + [a]) {
      if s == Stored(a.0, 0, a.1) { assert a in front + [a]; } else {
        var x :| x in front && s == Stored(x.0, 0, x.1);
        assert x in front + [a];
      }
    }
  }

  // ----- the steps of the loop

  lemma {:induction false} StakeChangeFresh(l: Loop, c: AccountChange<Delegation>, last: Slot)
    requires Owned(l) && AllFresh(l) && c.lamports != 0
    ensures AllFresh(Step(l, StakeChange(c, last)))
  {
    var after := Step(l, StakeChange(c, last));
    if l.stakes.content.Some? {
      IdleIfNone(l);
      ChangeKeepsFresh(l.stakes, l.stakes.content.value, c, last, l.seenStakes);
    } else {
      forall m | StakeFresh(l, m) ensures StakeFresh(after, m) { ChangeKeepsFresh(l.stakes, m, c, last, l.seenStakes); }
    }
  }

  lemma {:induction false} VoteChangeFresh(l: Loop, c: AccountChange<VoteState>, last: Slot)
    requires Owned(l) && AllFresh(l) && c.lamports != 0
    ensures AllFresh(Step(l, VoteChange(c, last)))
  {
    var after := Step(l, VoteChange(c, last));
    if l.votes.content.Some? {
      IdleIfNone(l);
      ChangeKeepsFresh(l.votes, l.votes.content.value, c, last, l.seenVotes);
    } else {
      forall m | VoteFresh(l, m) ensures VoteFresh(after, m) { ChangeKeepsFresh(l.votes, m, c, last, l.seenVotes); }
    }
  }

  lemma {:induction false} FetchedFresh(
      l: Loop, stakes: seq<(Pubkey, Delegation)>, votes: seq<(Pubkey, VoteState)>, readable: bool)
    requires Owned(l) && AllFresh(l)
    ensures AllFresh(OnAccountsFetched(l, stakes, votes, readable))
  {
    if BothPresent(l) {
      IdleIfNone(l);
      SlotZeroKeepsFresh(l.stakes.content.value, l.stakes.updates, l.seenStakes, stakes);
      SlotZeroKeepsFresh(l.votes.content.value, l.votes.updates, l.seenVotes, votes);
    }
  }

  /** The loop once a task has handed its maps back and no other task holds any. */
  lemma {:induction false} BothMergedFresh(l: Loop, stakeMap: StakeMap, voteMap: VoteMap)
    requires MergeWorks(l) && Idle(l) && l.rpcRunning == [] && StakeFresh(l, stakeMap) && VoteFresh(l, voteMap)
    ensures AllFresh(BothMerged(l, stakeMap, voteMap))
  {
    MergedHoldsNewest(stakeMap, l.stakes.updates, l.seenStakes);
    MergedHoldsNewest(voteMap, l.votes.updates, l.seenVotes);
  }

  lemma {:induction false} ScheduleInitFresh(l: Loop)
    requires AllFresh(l)
    ensures AllFresh(OnScheduleInit(l))
  {
  }

  lemma {:induction false} BootTakenOut(l: Loop, i: nat)
    requires AllFresh(l) && i < |l.boot|
    ensures AllFresh(l.(boot := Without(l.boot, i)))
  {
    WithoutElements(l.boot, i);
  }

  lemma {:induction false} ScheduleTakenOut(l: Loop, i: nat)
    requires AllFresh(l) && i < |l.schedule|
    ensures AllFresh(l.(schedule := Without(l.schedule, i)))
  {
    WithoutElements(l.schedule, i);
  }

  lemma {:induction false} BootFresh(l: Loop, e: Event)
    requires Owned(l) && AllFresh(l) && (e.BootFetched? || e.BootWoken? || e.BootMerged?)
    ensures AllFresh(Step(l, e))
  {
    var i := e.task;
    if i < |l.boot| {
      MergingOne(l.boot, i);
      BootTakenOut(l, i);
      var rest := l.(boot := Without(l.boot, i));
      match e
      case BootFetched(_, stakes, votes, readable) => FetchedFresh(rest, stakes, votes, readable);
      case BootWoken(_) =>
        if l.boot[i].Waiting? { FetchedFresh(rest, l.boot[i].stakes, l.boot[i].votes, l.boot[i].historyReadable); }
      case BootMerged(_) =>
        if l.boot[i].Merging? {
          IdleIfNone(rest);
          assert StakeFresh(rest, l.boot[i].stakeMap) && VoteFresh(rest, l.boot[i].voteMap);
          BothMergedFresh(rest, l.boot[i].stakeMap, l.boot[i].voteMap);
        }
    }
  }

  lemma {:induction false} ScheduleFresh(l: Loop, e: Event)
    requires Owned(l) && AllFresh(l) && (e.ScheduleInit? || e.ScheduleWoken? || e.ScheduleDone?)
    ensures AllFresh(Step(l, e))
  {
    if e.ScheduleInit? {
      ScheduleInitFresh(l);
    } else if e.task < |l.schedule| {
      CalculatingOne(l.schedule, e.task);
      ScheduleTakenOut(l, e.task);
      var rest := l.(schedule := Without(l.schedule, e.task));
      if e.ScheduleWoken? {
        ScheduleInitFresh(rest);
      } else if l.schedule[e.task].Calculating? {
        IdleIfNone(rest);
        assert StakeFresh(rest, l.schedule[e.task].stakeMap) && VoteFresh(rest, l.schedule[e.task].voteMap);
        BothMergedFresh(rest, l.schedule[e.task].stakeMap, l.schedule[e.task].voteMap);
      }
    }
  }

  lemma {:induction false} RpcFresh(l: Loop, e: Event)
    requires Owned(l) && AllFresh(l) && (e.RpcRequest? || e.RpcWoken? || e.RpcDone?)
    ensures AllFresh(Step(l, e))
  {
    if e.RpcDone? && e.task < |l.rpcRunning| {
      WithoutElements(l.rpcRunning, e.task);
      IdleIfNone(l);
      assert VoteFresh(l, l.rpcRunning[e.task]);
      MergedHoldsNewest(l.rpcRunning[e.task], l.votes.updates, l.seenVotes);
    }
  }

  lemma {:induction false} StepKeepsFresh(l: Loop, e: Event)
    requires Owned(l) && AllFresh(l) && NoRemoval(e)
    ensures AllFresh(Step(l, e))
  {
    match e
    case StakeChange(c, last) => StakeChangeFresh(l, c, last);
    case VoteChange(c, last) => VoteChangeFresh(l, c, last);
    case BootFetched(_, _, _, _) => BootFresh(l, e);
    case BootWoken(_) => BootFresh(l, e);
    case BootMerged(_) => BootFresh(l, e);
    case ScheduleInit => ScheduleFresh(l, e);
    case ScheduleWoken(_) => ScheduleFresh(l, e);
    case ScheduleDone(_) => ScheduleFresh(l, e);
    case RpcRequest => RpcFresh(l, e);
    case RpcWoken => RpcFresh(l, e);
    case RpcDone(_) => RpcFresh(l, e);
    case BootPanicked(i) => if i < |l.boot| { BootTakenOut(l, i); }
    case SchedulePanicked(i) => if i < |l.schedule| { ScheduleTakenOut(l, i); }
    case RpcPanicked(i) => if i < |l.rpcRunning| { WithoutElements(l.rpcRunning, i); }
  }

  lemma {:induction false} RunKeepsFresh(events: seq<Event>)
    requires forall n :: 0 <= n < |events| ==> NoRemoval(events[n])
    ensures AllFresh(Run(events))
  {
    if events != [] {
      RunKeepsFresh(events[..|events| - 1]);
      AtMostOneHolder(events[..|events| - 1]);
      StepKeepsFresh(Run(events[..|events| - 1]), events[|events| - 1]);
    }
  }

  /**
   In every run without removals, whatever was taken, deferred or bootstrapped: a store whose content
   is back and whose updates are applied holds a notification of the greatest slot seen for each key.
   */
  lemma {:induction false} NewestAfterMerge(events: seq<Event>)
    requires forall n :: 0 <= n < |events| ==> NoRemoval(events[n])
    ensures var l := Run(events);
      && (l.stakes.content.Some? && l.stakes.updates == [] ==> HoldsNewest(l.stakes.content.value, l.seenStakes))
      && (l.votes.content.Some? && l.votes.updates == [] ==> HoldsNewest(l.votes.content.value, l.seenVotes))
  {
    RunKeepsFresh(events);
  }

  /** A finished schedule calculation has merged both maps and applied all their updates. */
  lemma {:induction false} ScheduleDoneMerges(events: seq<Event>, task: nat)
    requires task < |Run(events).schedule| && Run(events).schedule[task].Calculating?
    ensures var after := Step(Run(events), ScheduleDone(task));
      after.stakes.content.Some? && after.votes.content.Some? && after.stakes.updates == [] && after.votes.updates == []
  {
    AtMostOneHolder(events);
    CalculatingOne(Run(events).schedule, task);
  }

  /** So has a finished bootstrap. */
  lemma {:induction false} BootMergedMerges(events: seq<Event>, task: nat)
    requires task < |Run(events).boot| && Run(events).boot[task].Merging?
    ensures var after := Step(Run(events), BootMerged(task));
      && after.stakes.content.Some? && after.votes.content.Some? && after.stakes.updates == []
        && after.votes.updates == []
      && after.bootstrapDone
  {
    AtMostOneHolder(events);
    MergingOne(Run(events).boot, task);
  }

  /** A finished RPC task has merged the vote map and applied its updates; the stake store is as before. */
  lemma {:induction false} RpcDoneMerges(events: seq<Event>, task: nat)
    requires task < |Run(events).rpcRunning|
    ensures var after := Step(Run(events), RpcDone(task));
      after.votes.content.Some? && after.votes.updates == [] && after.stakes == Run(events).stakes
  {
    AtMostOneHolder(events);
  }

  // ----- every map is filed by key, with or without removals

  ghost predicate AllFiled(l: Loop) {
    && (l.stakes.content.Some? ==> Filed(l.stakes.content.value))
    && (l.votes.content.Some? ==> Filed(l.votes.content.value))
    && (forall i :: 0 <= i < |l.boot| && l.boot[i].Merging? ==> Filed(l.boot[i].stakeMap) && Filed(l.boot[i].voteMap))
    && (forall i :: 0 <= i < |l.schedule| && l.schedule[i].Calculating? ==>
      Filed(l.schedule[i].stakeMap) && Filed(l.schedule[i].voteMap))
    && (forall i :: 0 <= i < |l.rpcRunning| ==> Filed(l.rpcRunning[i]))
  }

  lemma {:induction false} FetchedFiled(
      l: Loop, stakes: seq<(Pubkey, Delegation)>, votes: seq<(Pubkey, VoteState)>, readable: bool)
    requires AllFiled(l)
    ensures AllFiled(OnAccountsFetched(l, stakes, votes, readable))
  {
    if BothPresent(l) {
      UpdatesKeepFiled(l.stakes.content.value, AtSlotZero(stakes));
      UpdatesKeepFiled(l.votes.content.value, AtSlotZero(votes));
    }
  }

  lemma {:induction false} MergedFiled(l: Loop, stakeMap: StakeMap, voteMap: VoteMap)
    requires AllFiled(l) && Filed(stakeMap) && Filed(voteMap)
    ensures AllFiled(BothMerged(l, stakeMap, voteMap))
  {
    UpdatesKeepFiled(stakeMap, l.stakes.updates);
    UpdatesKeepFiled(voteMap, l.votes.updates);
  }

  lemma {:induction false} BootTakenOutFiled(l: Loop, i: nat)
    requires AllFiled(l) && i < |l.boot|
    ensures AllFiled(l.(boot := Without(l.boot, i)))
  {
    WithoutElements(l.boot, i);
  }

  lemma {:induction false} BootFiled(l: Loop, e: Event)
    requires AllFiled(l) && (e.BootFetched? || e.BootWoken? || e.BootMerged?)
    ensures AllFiled(Step(l, e))
  {
    var i := e.task;
    if i < |l.boot| {
      BootTakenOutFiled(l, i);
      var rest, t := l.(boot := Without(l.boot, i)), l.boot[i];
      match e
      case BootFetched(_, stakes, votes, readable) => FetchedFiled(rest, stakes, votes, readable);
      case BootWoken(_) => if t.Waiting? { FetchedFiled(rest, t.stakes, t.votes, t.historyReadable); }
      case BootMerged(_) => if t.Merging? { BootMergedFiled(rest, t.stakeMap, t.voteMap); }
    }
  }

  lemma {:induction false} BootMergedFiled(l: Loop, stakeMap: StakeMap, voteMap: VoteMap)
    requires AllFiled(l) && Filed(stakeMap) && Filed(voteMap)
    ensures AllFiled(OnAccountsMerged(l, stakeMap, voteMap))
  {
    MergedFiled(l, stakeMap, voteMap);
  }

  lemma {:induction false} ScheduleInitFiled(l: Loop)
    requires AllFiled(l)
    ensures AllFiled(OnScheduleInit(l))
  {
  }

  lemma {:induction false} ScheduleFiled(l: Loop, e: Event)
    requires AllFiled(l) && (e.ScheduleInit? || e.ScheduleWoken? || e.ScheduleDone?)
    ensures AllFiled(Step(l, e))
  {
    if e.ScheduleInit? {
      ScheduleInitFiled(l);
    } else if e.task < |l.schedule| {
      WithoutElements(l.schedule, e.task);
      var rest, task := l.(schedule := Without(l.schedule, e.task)), l.schedule[e.task];
      if e.ScheduleWoken? {
        ScheduleInitFiled(rest);
      } else if task.Calculating? {
        MergedFiled(rest, task.stakeMap, task.voteMap);
        ScheduleInitFiled(BothMerged(rest, task.stakeMap, task.voteMap).(mergeFailed := true));
      }
    }
  }

  lemma {:induction false} ChangedFiled<T>(t: Takable<T>, c: AccountChange<T>, last: Slot)
    requires t.content.Some? ==> Filed(t.content.value)
    ensures Changed(t, c, last).content.Some? ==> Filed(Changed(t, c, last).content.value)
  {
  }

  lemma {:induction false} RpcFiled(l: Loop, e: Event)
    requires AllFiled(l) && (e.RpcRequest? || e.RpcWoken? || e.RpcDone?)
    ensures AllFiled(Step(l, e))
  {
    if e.RpcDone? && e.task < |l.rpcRunning| {
      WithoutElements(l.rpcRunning, e.task);
      UpdatesKeepFiled(l.rpcRunning[e.task], l.votes.updates);
    }
  }

  lemma {:induction false} PanicFiled(l: Loop, e: Event)
    requires AllFiled(l) && (e.BootPanicked? || e.SchedulePanicked? || e.RpcPanicked?)
    ensures AllFiled(Step(l, e))
  {
    match e
    case BootPanicked(i) => if i < |l.boot| { WithoutElements(l.boot, i); }
    case SchedulePanicked(i) => if i < |l.schedule| { WithoutElements(l.schedule, i); }
    case RpcPanicked(i) => if i < |l.rpcRunning| { WithoutElements(l.rpcRunning, i); }
  }

  lemma {:induction false} ChangeFiled(l: Loop, e: Event)
    requires AllFiled(l) && (e.StakeChange? || e.VoteChange?)
    ensures AllFiled(Step(l, e))
  {
    match e
    case StakeChange(c, last) => ChangedFiled(l.stakes, c, last);
    case VoteChange(c, last) => ChangedFiled(l.votes, c, last);
  }

  lemma {:induction false} StepKeepsFiled(l: Loop, e: Event)
    requires AllFiled(l)
    ensures AllFiled(Step(l, e))
  {
    if e.StakeChange? || e.VoteChange? {
      ChangeFiled(l, e);
    } else if e.BootFetched? || e.BootWoken? || e.BootMerged? {
      BootFiled(l, e);
    } else if e.ScheduleInit? || e.ScheduleWoken? || e.ScheduleDone? {
      ScheduleFiled(l, e);
    } else if e.RpcRequest? || e.RpcWoken? || e.RpcDone? {
      RpcFiled(l, e);
    } else {
      PanicFiled(l, e);
    }
  }

  /** In every run the maps that a schedule is calculated from are filed by key. */
  lemma {:induction false} RunKeepsFiled(events: seq<Event>)
    ensures AllFiled(Run(events))
  {
    if events != [] {
      RunKeepsFiled(events[..|events| - 1]);
      StepKeepsFiled(Run(events[..|events| - 1]), events[|events| - 1]);
    }
  }
}
