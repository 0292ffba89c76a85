/**
 What becomes of fetched accounts, notifications, requests and schedule tasks over every run of the
 stake and vote loop (stake_vote/src/lib.rs): none is forgotten on the way.
 */
module StakeVoteTaskRuns {
  import opened Common
  import opened TakableMap
  import opened StakeAccounts
  import opened StakeVoteLoop
  import opened StakeVoteFreshness

  /** Accounts that were fetched while a map is away wait, all of them, for the maps to come back. */
  lemma {:induction false} FetchedAccountsWait(
      l: Loop, i: nat, stakes: seq<(Pubkey, Delegation)>, votes: seq<(Pubkey, VoteState)>, readable: bool)
    requires i < |l.boot| && l.boot[i].Fetching? && (l.stakes.content.None? || l.votes.content.None?)
    ensures Step(l, BootFetched(i, stakes, votes, readable)) ==
      l.(boot := l.boot[..i] + l.boot[i + 1..] + [Waiting(stakes, votes, readable)])
  {
  }

  /** A task that is woken too early goes on waiting with what it has. */
  lemma {:induction false} WokenTooEarly(l: Loop, i: nat)
    requires i < |l.boot| && l.boot[i].Waiting? && (l.stakes.content.None? || l.votes.content.None?)
    ensures Step(l, BootWoken(i)) == l.(boot := l.boot[..i] + l.boot[i + 1..] + [l.boot[i]])
  {
  }

  // ----- the one bootstrap of a run

  datatype Fetched = Fetched(stakes: seq<(Pubkey, Delegation)>, votes: seq<(Pubkey, VoteState)>)

  /** The event at which the bootstrap task handed its accounts over. */
  predicate HandsOver(l: Loop, e: Event) {
    e.BootFetched? && e.task < |l.boot| && l.boot[e.task].Fetching?
  }

  function FetchedIn(events: seq<Event>): Option<Fetched> {
    if events == [] then None
    else
      var before, e := events[..|events| - 1], events[|events| - 1];
      if HandsOver(Run(before), e) then Some(Fetched(e.stakes, e.votes)) else FetchedIn(before)
  }

  ghost predicate Entered(l: Loop, f: Fetched) {
    SeenAtSlotZero(f.stakes) <= l.seenStakes && SeenAtSlotZero(f.votes) <= l.seenVotes
  }

  /** There is at most one bootstrap task; it waits with what it fetched, and once it merges all is entered. */
  ghost predicate Phase(l: Loop, f: Option<Fetched>) {
    && |l.boot| <= 1
    && (|l.boot| == 1 && l.boot[0].Fetching? ==> f.None?)
    && (|l.boot| == 1 && l.boot[0].Waiting? ==> f == Some(Fetched(l.boot[0].stakes, l.boot[0].votes)))
    && (|l.boot| == 1 && l.boot[0].Merging? ==> f.Some? && Entered(l, f.value))
    && (l.bootstrapDone ==> f.Some? && Entered(l, f.value) && l.boot == [])
  }

  predicate BootEvent(e: Event) {
    e.BootFetched? || e.BootWoken? || e.BootMerged? || e.BootPanicked?
  }

  lemma {:induction false} OthersKeepBoot(l: Loop, e: Event)
    requires !BootEvent(e)
    ensures Step(l, e).boot == l.boot && Step(l, e).bootstrapDone == l.bootstrapDone
    ensures l.seenStakes <= Step(l, e).seenStakes && l.seenVotes <= Step(l, e).seenVotes
  {
  }

  lemma {:induction false} TaskPhase(l: Loop, t: BootTask)
    requires l.boot == [] && !l.bootstrapDone && t.Waiting?
    ensures Phase(OnAccountsFetched(l, t.stakes, t.votes, t.historyReadable), Some(Fetched(t.stakes, t.votes)))
  {
  }

  lemma {:induction false} BootPhase(l: Loop, e: Event, f: Option<Fetched>)
    requires Owned(l) && Phase(l, f) && BootEvent(e)
    ensures Phase(Step(l, e), if HandsOver(l, e) then Some(Fetched(e.stakes, e.votes)) else f)
  {
    if |l.boot| == 1 && e.task == 0 {
      assert Without(l.boot, 0) == [];
      var rest := l.(boot := []);
      match e
      case BootFetched(_, stakes, votes, readable) => TaskPhase(rest, Waiting(stakes, votes, readable));
      case BootWoken(_) => if l.boot[0].Waiting? { TaskPhase(rest, l.boot[0]); }
      case BootMerged(_) => MergingOne(l.boot, 0);
      case BootPanicked(_) =>
    }
  }

  lemma {:induction false} RunPhase(events: seq<Event>)
    ensures Phase(Run(events), FetchedIn(events))
  {
    if events != [] {
      var before, e := events[..|events| - 1], events[|events| - 1];
      RunPhase(before);
      AtMostOneHolder(before);
      if BootEvent(e) { BootPhase(Run(before), e, FetchedIn(before)); } else { OthersKeepBoot(Run(before), e); }
    }
  }

  // ----- nothing that was fetched or notified is forgotten

  /** Wherever the content is in its store, it covers with its waiting updates all that was seen. */
  lemma {:induction false} StoresCoverSeen(events: seq<Event>)
    requires forall n :: 0 <= n < |events| ==> NoRemoval(events[n])
    ensures var t := Run(events).stakes;
      t.content.Some? ==> HoldsNewest(AppliedAll(t.content.value, t.updates), Run(events).seenStakes)
    ensures var t := Run(events).votes;
      t.content.Some? ==> HoldsNewest(AppliedAll(t.content.value, t.updates), Run(events).seenVotes)
  {
    RunKeepsFresh(events);
    var l := Run(events);
    if l.stakes.content.Some? { MergedHoldsNewest(l.stakes.content.value, l.stakes.updates, l.seenStakes); }
    if l.votes.content.Some? { MergedHoldsNewest(l.votes.content.value, l.votes.updates, l.seenVotes); }
  }

  lemma {:induction false} SeenFetched<T>(accounts: seq<(Pubkey, T)>, i: nat)
    requires i < |accounts|
    ensures Stored(accounts[i].0, 0, accounts[i].1) in SeenAtSlotZero(accounts)
  {
    assert accounts[i] in accounts;
  }

  /** Once the bootstrap has merged, every fetched key is in its map, also with the updates that wait. */
  lemma {:induction false} FetchedAreKept(events: seq<Event>)
    requires Run(events).bootstrapDone && forall n :: 0 <= n < |events| ==> NoRemoval(events[n])
    ensures FetchedIn(events).Some?
    ensures var t, f := Run(events).stakes, FetchedIn(events).value.stakes;
      t.content.Some? ==> forall i :: 0 <= i < |f| ==> f[i].0 in AppliedAll(t.content.value, t.updates)
    ensures var t, f := Run(events).votes, FetchedIn(events).value.votes;
      t.content.Some? ==> forall i :: 0 <= i < |f| ==> f[i].0 in AppliedAll(t.content.value, t.updates)
  {
    RunPhase(events);
    StoresCoverSeen(events);
    var f := FetchedIn(events).value;
    forall i | 0 <= i < |f.stakes| ensures Stored(f.stakes[i].0, 0, f.stakes[i].1) in Run(events).seenStakes {
      SeenFetched(f.stakes, i);
    }
    forall i | 0 <= i < |f.votes| ensures Stored(f.votes[i].0, 0, f.votes[i].1) in Run(events).seenVotes {
      SeenFetched(f.votes, i);
    }
  }

  /** The step that merges the bootstrap leaves every fetched key in the maps themselves. */
  lemma {:induction false} MergeHasFetched(events: seq<Event>)
    requires |Run(events).boot| == 1 && Run(events).boot[0].Merging?
    requires forall n :: 0 <= n < |events| ==> NoRemoval(events[n])
    ensures FetchedIn(events).Some?
    ensures var after, f := Step(Run(events), BootMerged(0)), FetchedIn(events).value;
      && after.stakes.content.Some? && (forall i :: 0 <= i < |f.stakes| ==> f.stakes[i].0 in after.stakes.content.value)
      && after.votes.content.Some? && (forall i :: 0 <= i < |f.votes| ==> f.votes[i].0 in after.votes.content.value)
  {
    RunPhase(events);
    BootMergedMerges(events, 0);
    var all := events + [BootMerged(0)];
    assert all[..|events|] == events;
    FetchedAreKept(all);
  }

  lemma {:induction false} SeenGrows(l: Loop, e: Event)
    ensures l.seenStakes <= Step(l, e).seenStakes && l.seenVotes <= Step(l, e).seenVotes
  {
    if BootEvent(e) { BootSeenGrows(l, e); } else { OthersKeepBoot(l, e); }
  }

  lemma {:induction false} BootSeenGrows(l: Loop, e: Event)
    requires BootEvent(e)
    ensures l.seenStakes <= Step(l, e).seenStakes && l.seenVotes <= Step(l, e).seenVotes
  {
  }

  lemma {:induction false} SeenThroughout(events: seq<Event>, n: nat)
    requires n < |events|
    ensures Step(Run(events[..n]), events[n]).seenStakes <= Run(events).seenStakes
    ensures Step(Run(events[..n]), events[n]).seenVotes <= Run(events).seenVotes
    decreases |events|
  {
    var before := events[..|events| - 1];
    if n == |events| - 1 {
      assert events[..n] == before;
    } else {
      SeenThroughout(before, n);
      assert before[..n] == events[..n] && before[n] == events[n];
      SeenGrows(Run(before), events[|events| - 1]);
    }
  }

  /** In every run without removals each notified stake account is kept, or a notification at least as new. */
  lemma {:induction false} StakeNoticesKept(events: seq<Event>, n: nat)
    requires n < |events| && events[n].StakeChange? && events[n].stake.parsed.Some?
    requires forall m :: 0 <= m < |events| ==> NoRemoval(events[m])
    ensures var t, c := Run(events).stakes, events[n].stake;
      t.content.Some? ==>
        var m := AppliedAll(t.content.value, t.updates); c.pubkey in m && m[c.pubkey].slot >= c.slot
  {
    StoresCoverSeen(events);
    SeenThroughout(events, n);
    var c := events[n].stake;
    assert Stored(c.pubkey, c.slot, c.parsed.value) in Run(events).seenStakes;
  }

  lemma {:induction false} VoteNoticesKept(events: seq<Event>, n: nat)
    requires n < |events| && events[n].VoteChange? && events[n].vote.parsed.Some?
    requires forall m :: 0 <= m < |events| ==> NoRemoval(events[m])
    ensures var t, c := Run(events).votes, events[n].vote;
      t.content.Some? ==>
        var m := AppliedAll(t.content.value, t.updates); c.pubkey in m && m[c.pubkey].slot >= c.slot
  {
    StoresCoverSeen(events);
    SeenThroughout(events, n);
    var c := events[n].vote;
    assert Stored(c.pubkey, c.slot, c.parsed.value) in Run(events).seenVotes;
  }

  // ----- requests and schedule tasks

  predicate EndsRpc(l: Loop, e: Event) {
    (e.RpcDone? || e.RpcPanicked?) && e.task < |l.rpcRunning|
  }

  function Open(l: Loop): nat {
    l.rpcWaiting + |l.rpcRunning|
  }

  predicate RpcEvent(e: Event) {
    e.RpcRequest? || e.RpcWoken? || e.RpcDone? || e.RpcPanicked?
  }

  lemma {:induction false} OthersKeepRequests(l: Loop, e: Event)
    requires !RpcEvent(e)
    ensures Open(Step(l, e)) == Open(l) && Step(l, e).pendingRequests == l.pendingRequests
  {
  }

  lemma {:induction false} RpcTakeOpens(l: Loop)
    ensures Open(OnRpcTake(l)) == Open(l) + 1 && OnRpcTake(l).pendingRequests == l.pendingRequests
  {
  }

  lemma {:induction false} RpcEventRequests(l: Loop, e: Event)
    requires RpcEvent(e)
    ensures Open(Step(l, e)) == Open(l) + (if e.RpcRequest? then 1 else 0) - (if EndsRpc(l, e) then 1 else 0)
    ensures Step(l, e).pendingRequests ==
      if e.RpcDone? && e.task < |l.rpcRunning| then 0 else l.pendingRequests + if e.RpcRequest? then 1 else 0
  {
    match e
    case RpcRequest => RpcTakeOpens(l.(pendingRequests := l.pendingRequests + 1));
    case RpcWoken => if l.rpcWaiting > 0 { RpcTakeOpens(l.(rpcWaiting := l.rpcWaiting - 1)); }
    case RpcDone(i) =>
    case RpcPanicked(i) =>
  }

  /** Every request waits or runs until its task ends. */
  lemma {:induction false} RequestsConserved(l: Loop, e: Event)
    ensures Step(l, e).rpcWaiting + |Step(l, e).rpcRunning| ==
      l.rpcWaiting + |l.rpcRunning| + (if e.RpcRequest? then 1 else 0) - (if EndsRpc(l, e) then 1 else 0)
  {
    if RpcEvent(e) { RpcEventRequests(l, e); } else { OthersKeepRequests(l, e); }
  }

  /** The requests that came since the last answer. */
  function Unanswered(events: seq<Event>): nat {
    if events == [] then 0
    else
      var before, e := events[..|events| - 1], events[|events| - 1];
      if e.RpcDone? && e.task < |Run(before).rpcRunning| then 0
      else Unanswered(before) + if e.RpcRequest? then 1 else 0
  }

  lemma {:induction false} PendingStep(l: Loop, e: Event)
    ensures Step(l, e).pendingRequests ==
      if e.RpcDone? && e.task < |l.rpcRunning| then 0 else l.pendingRequests + if e.RpcRequest? then 1 else 0
  {
    if RpcEvent(e) { RpcEventRequests(l, e); } else { OthersKeepRequests(l, e); }
  }

  /** An answer goes to every request that came before it. */
  lemma {:induction false} PendingAreUnanswered(events: seq<Event>)
    ensures Run(events).pendingRequests == Unanswered(events)
  {
    if events != [] {
      PendingAreUnanswered(events[..|events| - 1]);
      PendingStep(Run(events[..|events| - 1]), events[|events| - 1]);
    }
  }

  predicate EndsSchedule(l: Loop, e: Event) {
    || (e.ScheduleDone? && e.task < |l.schedule| && l.schedule[e.task].Calculating?)
    || (e.SchedulePanicked? && e.task < |l.schedule|)
  }

  predicate ScheduleEvent(e: Event) {
    e.ScheduleInit? || e.ScheduleWoken? || e.ScheduleDone? || e.SchedulePanicked?
  }

  lemma {:induction false} OthersKeepSchedules(l: Loop, e: Event)
    requires !ScheduleEvent(e)
    ensures Step(l, e).schedule == l.schedule
  {
  }

  lemma {:induction false} InitAddsSchedule(l: Loop)
    ensures |OnScheduleInit(l).schedule| == |l.schedule| + 1
  {
  }

  lemma {:induction false} DoneMerges(l: Loop, i: nat)
    requires Owned(l) && i < |l.schedule| && l.schedule[i].Calculating?
    ensures Step(l, ScheduleDone(i)).schedule == Without(l.schedule, i)
  {
    CalculatingOne(l.schedule, i);
  }

  /** Every schedule that was asked for is calculated or waits until its task ends. */
  lemma {:induction false} SchedulesConserved(l: Loop, e: Event)
    requires Owned(l)
    ensures |Step(l, e).schedule| ==
      |l.schedule| + (if e.ScheduleInit? && l.bootstrapDone then 1 else 0) - (if EndsSchedule(l, e) then 1 else 0)
  {
    match e {
      case ScheduleInit => InitAddsSchedule(l);
      case ScheduleWoken(i) => if i < |l.schedule| { InitAddsSchedule(l.(schedule := Without(l.schedule, i))); }
      case ScheduleDone(i) => if i < |l.schedule| && l.schedule[i].Calculating? { DoneMerges(l, i); }
      case SchedulePanicked(_) =>
      case _ => OthersKeepSchedules(l, e);
    }
  }
}
