# Verified models of the lite-rpc state machines

lite-rpc keeps a local picture of a Solana cluster: it merges block streams, tracks accounts and
blockhashes at three commitment levels, follows stake and vote accounts to compute the leader
schedule, queues transactions by fee, and polls a node when no stream is available. This project
models the parts where several tasks or calls share state and proves what every run of them keeps.

Where the source updates an object in place the model is a class whose methods are proved against a
function on values. Runs are sequences of such steps in any order, and the lemmas quantify over all of
them. `dafny verify dfyconfig.toml` checks everything.

| part | files |
|---|---|
| gRPC multiplexer: merger, block-info filters, block emitter, all tasks together | `ProcessedBlockMerger`, `BlockEmitter`, `EmitterOrder`, `MultiplexPipeline` |
| account store with three commitment views and the owner index | `AccountViews`, `AccountStore`, `AccountRuns`, `OwnerIndex`, `OwnerScans` |
| stake and vote stores lent to bootstrap, schedule and RPC tasks | `TakableMap`, `StakeVoteLoop`, `StakeVoteFreshness`, `StakeVoteUses`, `StakeVoteTaskRuns` |
| epoch stakes and leader schedule | `EpochStakes`, `LeaderSchedule` |
| transaction queue by priority fee | `FeeHeap`, `FeeHeapOrder` |
| fee percentiles and block aggregates | `FeePercentiles`, `BlockFees` |
| blockhash and transaction caches | `DataCache`, `DataCacheRuns` |
| polling and the leader cache | `BlockPolling`, `SlotEstimator`, `LeaderCache` |
| shared vocabulary | `Common` |

## Claims that do not hold as stated

Each has a counterexample lemma and the exact condition under which the claim does hold.

- The multiplexer documents that full blocks come out as processed, confirmed, finalized, in that order
  (`cluster-endpoints/src/grpc_multiplex.rs:231-233`). The code can send the confirmed block last: a
  finalized notice that comes before its block leaves the block cached, and a later confirmed notice
  still finds it. `EmitterOrder.DocumentedOrderCanFail` gives such a history; the order is broken exactly
  if a confirmed notice found its block cached after the finalized notice had come first
  (`LateConfirmed`, part of `EmitterOrder.EmitterInvariant`). The history reaches the emitter through the
  merger and the filters (`MultiplexPipeline.DocumentedOrderCanFailInRun`). The model follows the code.
- Finalizing a slot that is not confirmed lets the finalized view of an account overtake its confirmed
  view (`AccountRuns.UndisciplinedRunOvertakes`). All views stay in order along a run exactly if each
  finalization met, for every account, a condition on its views before the call
  (`AccountRuns.OrderedThroughoutIff`).
- `get_program_accounts` can miss accounts that a full scan finds (`OwnerIndex.FirstConfirmedOwnerMissed`,
  `OwnerIndex.ReturningOwnerMissed`). Lookup and scan agree along a run exactly if each call met a
  condition on the store before it (`OwnerScans.ScansAgreeThroughoutIff`).
- Cleaning is invisible at submission and to replay, but `is_blockhash_valid` can notice it
  (`DataCache.ValidityCanFlip`). A run and the run without its cleans give different answers exactly for
  blocks that are valid in the latter and were cleaned away since they were last added
  (`DataCache.RunCleaningSeenIff`).
- A leader request as long as the cache is accepted but can lack its last slot
  (`LeaderCache.FullRangeLacksLastSlot`; exact condition `LeaderCache.AnswerCompleteIff`).
- Changes of the next epoch wait, and direct changes overtake them. A waiting notification can bring back
  a removed account (`StakeVoteLoop.OvertakenNotificationRevives`), a waiting removal can take away an
  account notified after it (`StakeVoteLoop.OvertakenRemovalRemoves`), and of two notifications of one slot
  the earlier one can win (`StakeVoteLoop.OvertakenNotificationWins`). A map amounts to the directly updated
  one along a run of takes, merges, waiting and direct updates exactly if each overtaking update met a
  condition on what is stored and what waits (`TakableMap.AmountsThroughoutIff`), and every run of the loop
  is such a run for each store (`StakeVoteUses.LoopIsUses`).
- Stake and vote contents are dropped when the stake history cannot be read after both were taken, and
  when a task panics while it holds them, because the loop takes no notice of a task that ended without a
  result (`StakeVoteLoop.UnreadableHistoryLosesContents`, `StakeVoteLoop.PanickedTaskLosesContents`; exact
  condition over all runs, for each content, `StakeVoteLoop.NeverLostIff`).

## Model

| member | source | states |
|---|---|---|
| `ProcessedBlockMerger.BlockMerger.Receive` | cluster-endpoints/src/grpc_multiplex.rs:71-113 | one loop iteration: a block is sent exactly if its slot is accepted and it maps to a block, and only then is the slot remembered |
| `ProcessedBlockMerger.SameDecision` | cluster-endpoints/src/grpc_multiplex.rs:78-85 | on a window that is the newest part of all seen slots, the half-full age test accepts a slot exactly if it was never seen and is not stale with respect to all seen slots |
| `ProcessedBlockMerger.RememberKeepsNewest` | cluster-endpoints/src/grpc_multiplex.rs:107-110 | inserting and popping the oldest keeps the window the newest part of the seen-set |
| `ProcessedBlockMerger.StepKeepsSound` | cluster-endpoints/src/grpc_multiplex.rs:71-113 | each step keeps the window sound and sends what a merger with an unbounded seen-set would send |
| `ProcessedBlockMerger.WindowRefinesSeenSet` | cluster-endpoints/src/grpc_multiplex.rs:50-111 | for every input the merger with at most 1024 remembered slots emits the same blocks in the same order as one with an unbounded seen-set |
| `ProcessedBlockMerger.NoSlotTwice` | cluster-endpoints/src/grpc_multiplex.rs:50-111 | no slot is emitted twice in the whole lifetime of the merger |
| `BlockEmitter.BlockEmitterTask.constructor` | cluster-endpoints/src/grpc_multiplex.rs:317-332 | the state before the receive loop |
| `BlockEmitter.BlockEmitterTask.ReceiveBlock` | cluster-endpoints/src/grpc_multiplex.rs:341-367 | the new state after a processed block: sent at once, followed by the levels whose notice came earlier, and cached |
| `BlockEmitter.BlockEmitterTask.ReceiveInfo` | cluster-endpoints/src/grpc_multiplex.rs:368-425 | the new state after a processed, confirmed or finalized notice, including eviction, the startup rule for finalized notices and the waiting sets |
| `BlockEmitter.BlockEmitterTask.Tick` | cluster-endpoints/src/grpc_multiplex.rs:426-448 | the new state after a cleanup tick: restart when some stream was silent, otherwise counting and dropping blocks far behind the finalized slot, as the `EmitterOrder` rows on ticks spell out |
| `EmitterOrder.CacheStep` | cluster-endpoints/src/grpc_multiplex.rs:341-448 | after each event the cache holds exactly the blocks that arrived and were not evicted since, as read off the history of events |
| `EmitterOrder.TickKeeps` | cluster-endpoints/src/grpc_multiplex.rs:441-443 | a cleanup tick keeps exactly the cached blocks whose slot is above 0 and less than 100 behind the last finalized one, or all of them before anything was finalized |
| `EmitterOrder.WaitingStep` | cluster-endpoints/src/grpc_multiplex.rs:341-425 | the two not-yet-processed sets hold exactly the notices whose block has not arrived |
| `EmitterOrder.SentStep` | cluster-endpoints/src/grpc_multiplex.rs:341-425 | a block has been sent at a level exactly once if the history makes it due there, and never otherwise |
| `EmitterOrder.OrderStep` | cluster-endpoints/src/grpc_multiplex.rs:368-425 | a confirmed block is sent after the finalized one exactly if its confirmed notice was late in the history |
| `EmitterOrder.ProcessedFirstStep` | cluster-endpoints/src/grpc_multiplex.rs:341-425 | no confirmed or finalized block is sent before the processed block it copies |
| `EmitterOrder.EmitterInvariant` | cluster-endpoints/src/grpc_multiplex.rs:341-448 | all of the above for every legal history of one connection |
| `EmitterOrder.AtMostOnce` | cluster-endpoints/src/grpc_multiplex.rs:341-448 | each blockhash is emitted at most once per level, and at no level without its processed block |
| `EmitterOrder.ExactlyOneConfirmed` | cluster-endpoints/src/grpc_multiplex.rs:341-406 | with block and confirmed notice both arrived, one confirmed block is emitted if the notice came first or found the block cached, and none otherwise |
| `EmitterOrder.RecentBlockConfirmed` | cluster-endpoints/src/grpc_multiplex.rs:389-448 | over every legal history a block of a slot above 0, at most 99 behind every finalized notice seen and not finalized itself, gets exactly one confirmed copy when its confirmed notice comes second, whatever the ticks |
| `EmitterOrder.NoticesPassedOn` | cluster-endpoints/src/grpc_multiplex.rs:368-425 | every notice of every level is passed on as it came |
| `EmitterOrder.CountersAreSilence` | cluster-endpoints/src/grpc_multiplex.rs:341-448 | the three counters are the ticks since a block, a confirmed and a finalized notice were last heard |
| `EmitterOrder.StopsIff` | cluster-endpoints/src/grpc_multiplex.rs:426-448 | the loop stops exactly at a tick that finds one of the three silent for thirteen ticks |
| `EmitterOrder.DocumentedOrderCanFail` | cluster-endpoints/src/grpc_multiplex.rs:231-233 | a legal history whose confirmed block is sent after the finalized one |
| `MultiplexPipeline.BlockInfoFilter.Receive` | cluster-endpoints/src/grpc_multiplex.rs:153-204 | a block info passes exactly if its slot is above the tip, which it then becomes |
| `MultiplexPipeline.InvStep` | cluster-endpoints/src/grpc_multiplex.rs:261-448 | one step of any task keeps the invariant that ties the merger, three filters, channels and emitter together |
| `MultiplexPipeline.EveryRunKeepsPromises` | cluster-endpoints/src/grpc_multiplex.rs:261-448 | for every interleaving of sources, block infos and ticks the emitter sees a legal history and keeps its promises, with at most one block per blockhash and level |
| `MultiplexPipeline.DocumentedOrderCanFailInRun` | cluster-endpoints/src/grpc_multiplex.rs:261-448 | a run with consistent sources in which every item passes the merger or a filter and the confirmed block is sent after the finalized one |
| `AccountViews.AccountDataByCommitment.constructor` | accounts/src/inmemory_account_store.rs:45-64 | the views of an account first seen at a level |
| `AccountViews.AccountDataByCommitment.Initialize` | accounts/src/inmemory_account_store.rs:68-77 | the views of an account loaded at startup |
| `AccountViews.AccountDataByCommitment.Update` | accounts/src/inmemory_account_store.rs:79-126 | the new views after an update and whether it is reported |
| `AccountViews.AccountDataByCommitment.RemoveUpTo` | accounts/src/inmemory_account_store.rs:185-194 | the pruning loop leaves exactly the later versions, or the newest one if there is none |
| `AccountViews.AccountDataByCommitment.PromoteSlotCommitment` | accounts/src/inmemory_account_store.rs:129-200 | the new views after a promotion, and the promoted data with what it replaced |
| `AccountViews.ProcessedIsNewest` | accounts/src/inmemory_account_store.rs:32-42 | the processed read exists and no other read is at a later slot |
| `AccountViews.UpdateKeeps` | accounts/src/inmemory_account_store.rs:79-126 | an update keeps the views well formed and ordered, and each read stays or moves to a later slot |
| `AccountViews.NewReads` | accounts/src/inmemory_account_store.rs:45-64 | a new account is read at exactly the levels its data is good for |
| `AccountViews.UpdateReads` | accounts/src/inmemory_account_store.rs:79-126 | an update replaces exactly the older reads at the levels its data is good for |
| `AccountViews.UpdateReportedIff` | accounts/src/inmemory_account_store.rs:79-126 | an update is reported exactly if it changes anything, and it never replaces a version |
| `AccountViews.PromoteReads` | accounts/src/inmemory_account_store.rs:129-181 | a promotion replaces the read of its level exactly if the slot is above 0, has a version and is later than what is read |
| `AccountViews.PromoteKeeps` | accounts/src/inmemory_account_store.rs:129-200 | a promotion changes the read of its own level only, and exactly when it reports one |
| `AccountViews.FinalizeKeepsOrderIff` | accounts/src/inmemory_account_store.rs:155-181 | finalizing keeps finalized behind confirmed exactly if the slot has no version here, is slot 0, or is not later than the confirmed view |
| `AccountViews.PrunedVersions` | accounts/src/inmemory_account_store.rs:155-194 | after finalizing, exactly the later versions are left unchanged, or only the newest one |
| `AccountStore.InmemoryAccountStore.AddAccountOwner` | accounts/src/inmemory_account_store.rs:218-229 | the new owner index |
| `AccountStore.InmemoryAccountStore.UpdateOwnerIndex` | accounts/src/inmemory_account_store.rs:233-256 | the new owner index after an account changed its owner |
| `AccountStore.InmemoryAccountStore.UpdateStoredAccount` | accounts/src/inmemory_account_store.rs:261-298 | the whole new store and the report, with a processed update of a confirmed slot raised to confirmed |
| `AccountStore.InmemoryAccountStore.InitializeOrUpdateAccount` | accounts/src/inmemory_account_store.rs:300-316 | the whole new store after loading an account |
| `AccountStore.InmemoryAccountStore.GetAccount` | accounts/src/inmemory_account_store.rs:318-328 | the read of that account at that level, or none |
| `AccountStore.InmemoryAccountStore.GetProgramAccounts` | accounts/src/inmemory_account_store.rs:330-360 | none exactly if the owner is not in the index; otherwise each indexed account that still has the owner and passes the filters, once each |
| `AccountStore.InmemoryAccountStore.PromoteAll` | accounts/src/inmemory_account_store.rs:387-391 | every account object is promoted in place, in any order, and the promotions are collected in that order |
| `AccountStore.InmemoryAccountStore.UpdateOwners` | accounts/src/inmemory_account_store.rs:393-402 | the index after all promotions |
| `AccountStore.InmemoryAccountStore.Report` | accounts/src/inmemory_account_store.rs:412-426 | the promoted data that differs from what it replaced |
| `AccountStore.InmemoryAccountStore.ProcessSlotData` | accounts/src/inmemory_account_store.rs:362-427 | the whole new store and the reported accounts for one slot notification |
| `AccountRuns.ReadsOnlyAdvance` | accounts/src/inmemory_account_store.rs:79-200 | in every run each read keeps its data or moves to a strictly later slot |
| `AccountRuns.ProcessedReadLeads` | accounts/src/inmemory_account_store.rs:32-42 | in every run the processed read exists and is never behind the other two |
| `AccountRuns.UpdateSets` | accounts/src/inmemory_account_store.rs:261-298 | after any run an update sets exactly the older reads of its account at the levels it is good for, a processed one of a confirmed slot counting as confirmed |
| `AccountRuns.InitializeSets` | accounts/src/inmemory_account_store.rs:300-316 | loading an account sets its older reads at every level |
| `AccountRuns.SlotSets` | accounts/src/inmemory_account_store.rs:362-391 | after any run a slot notification sets the read of its level in exactly the accounts with a version of that slot that is later than what is read |
| `AccountRuns.SlotIsReached` | accounts/src/inmemory_account_store.rs:362-391 | after it every account with a version of that slot above 0 is read at that slot or a later one |
| `AccountRuns.ConfirmedSlotsAre` | accounts/src/inmemory_account_store.rs:362-386 | the confirmed-slot set holds exactly the slots that were confirmed and not finalized since |
| `AccountRuns.FinalizedNeverOvertakes` | accounts/src/inmemory_account_store.rs:261-391 | in every run that finalizes only slots in the confirmed-slot set, the finalized view is never later than the confirmed one |
| `AccountRuns.OrderedThroughoutIff` | accounts/src/inmemory_account_store.rs:79-200 | all views are in order all along a run exactly if each finalization met the condition of `FinalizeKeepsOrderIff` for every account |
| `AccountRuns.UndisciplinedRunOvertakes` | accounts/src/inmemory_account_store.rs:362-391 | finalizing a slot that was never confirmed breaks that order |
| `AccountRuns.SlotCallReportsChanges` | accounts/src/inmemory_account_store.rs:362-427 | in every reachable store a slot notification reports exactly the accounts whose read at that level changed, each once with its new read, and changes no other level |
| `AccountRuns.ReportedIff` | accounts/src/inmemory_account_store.rs:412-426 | reported is exactly what was promoted and differs from what it replaced |
| `AccountRuns.FinalizedSlotPrunes` | accounts/src/inmemory_account_store.rs:129-200 | in every reachable store finalizing keeps all later versions of every account and otherwise only the newest |
| `OwnerIndex.CompleteIndexScans` | accounts/src/inmemory_account_store.rs:330-360 | with a complete index the lookup equals a full scan at every level |
| `OwnerIndex.ReindexedAt` | accounts/src/inmemory_account_store.rs:393-402 | where an account is filed after a slot depends on its own promotion only, whatever the iteration order |
| `OwnerScans.ScansAgreeIff` | accounts/src/inmemory_account_store.rs:330-360 | lookup and full scan agree for every program and level exactly if every account is listed under the owner of each of its three reads |
| `OwnerScans.ListedReadsAreFound` | accounts/src/inmemory_account_store.rs:330-360 | they then agree with every filter too |
| `OwnerScans.UpdateKeepsScansIff` | accounts/src/inmemory_account_store.rs:261-298 | an update keeps them equal exactly if it is not reported, or the replaced read is missing and the account is listed under the new owner already, or the owner or level takes nothing off the index, or no read has the owner taken off |
| `OwnerScans.SlotKeepsScansIff` | accounts/src/inmemory_account_store.rs:362-402 | a slot notification keeps them equal exactly if for each promoted account a missing read's new owner lists it already, or the owner or level takes nothing off the index, or no other read has the owner taken off |
| `OwnerScans.ScansAgreeThroughoutIff` | accounts/src/inmemory_account_store.rs:218-402 | they agree all along a run exactly if each call met that condition when it was made |
| `OwnerIndex.FixedOwnersScan` | accounts/src/inmemory_account_store.rs:330-360 | in all runs in which accounts keep their owner, lookup and full scan agree at every level |
| `OwnerIndex.GentleRunScans` | accounts/src/inmemory_account_store.rs:218-360 | they also agree with owner changes for runs of first insertions, processed updates of unconfirmed slots and confirmed promotions |
| `OwnerIndex.FirstConfirmedOwnerMissed` | accounts/src/inmemory_account_store.rs:279-283 | a first confirmed view under a new owner is not filed |
| `OwnerIndex.ReturningOwnerMissed` | accounts/src/inmemory_account_store.rs:233-256 | an account that went back to an owner is dropped from it by finalizing the change in between |
| `TakableMap.TakableStore.Take` | stake_vote/src/utils.rs:111-116 | the content or the notifier to wait for; updates stay |
| `TakableMap.TakableStore.Merge` | stake_vote/src/utils.rs:118-130 | succeeds exactly if the content is away, and then applies all waiting updates |
| `TakableMap.TakableStore.Add` | stake_vote/src/utils.rs:217-229 | an update waits exactly if the content is away or it is forced to |
| `TakableMap.TakePair` | stake_vote/src/utils.rs:140-159 | both maps are taken or neither, with the notifiers of those that are away; the mixed case of the combination is unreachable |
| `TakableMap.TakeAndMergeTransparent` | stake_vote/src/utils.rs:110-135 | for every run of takes, merges, notifications and removals without deferral, content and waiting updates amount to the directly updated map, and a merged store holds just that map |
| `TakableMap.QueueAt` | stake_vote/src/utils.rs:118-130 | any queue of updates leaves a stored account that is newer than all of them, and else the same whatever was stored |
| `TakableMap.OvertakesIff` | stake_vote/src/utils.rs:217-229 | an update applied before any queue of waiting ones amounts to the order in which they came exactly if something newer survives, or it is newer than all that wait for its account, or what waits leaves just what it leaves |
| `TakableMap.RemovalInOrderIff` | stake_vote/src/utils.rs:217-229 | for a removal against waiting notifications that means: none waits for its account, or the stored or a waiting one is newer |
| `TakableMap.AmountsThroughoutIff` | stake_vote/src/utils.rs:110-135 | over every run of takes, merges, forced and direct updates and updates by the holder, content and waiting updates amount to the directly updated map all along exactly if each overtaking update is in order |
| `TakableMap.NotifyKeepsFresh` | stake_vote/src/stake.rs:78-101 | a notification, applied or waiting, keeps content and updates together as new as everything seen |
| `TakableMap.MergedHoldsNewest` | stake_vote/src/utils.rs:118-130 | once the updates are applied each key holds a notification of the greatest slot seen for it |
| `TakableMap.UpdatesKeepFiled` | stake_vote/src/stake.rs:78-119 | updates keep every account under its own key |
| `StakeVoteLoop.MergeProgramAccounts` | stake_vote/src/stake.rs:122-149 | entering fetched accounts equals notifying each of them at slot 0 |
| `StakeVoteLoop.StakeVoteTasks.NotifyStakeChange` | stake_vote/src/stake.rs:42-76 | the whole new loop state after a stake account changed |
| `StakeVoteLoop.StakeVoteTasks.NotifyVoteChange` | stake_vote/src/vote.rs:100-146 | the whole new loop state after a vote account changed |
| `StakeVoteLoop.StakeVoteTasks.ProcessAccountsFetched` | stake_vote/src/bootstrap.rs:252-343 | both maps go to a merge task, or are dropped if the history is unreadable, or the task waits |
| `StakeVoteLoop.StakeVoteTasks.ProcessAccountsMerged` | stake_vote/src/bootstrap.rs:345-366 | both maps are merged back, or the merge fails and accounts are fetched again |
| `StakeVoteLoop.StakeVoteTasks.ProcessScheduleInit` | stake_vote/src/leader_schedule.rs:114-217 | both maps go to a calculation, or the task waits |
| `StakeVoteLoop.StakeVoteTasks.ProcessScheduleMerge` | stake_vote/src/leader_schedule.rs:218-243 | both maps are merged back, or the merge fails and the schedule starts again |
| `StakeVoteLoop.StakeVoteTasks.TakeVoteAccountsAndProcess` | stake_vote/src/rpcrequest.rs:76-119 | the vote map goes to an RPC task, or the request waits |
| `StakeVoteLoop.StakeVoteTasks.NotifyEndRpcGetVoteAccounts` | stake_vote/src/rpcrequest.rs:46-74 | the vote map is merged back and all pending requests are answered |
| `StakeVoteLoop.StepKeepsOwned` | stake_vote/src/bootstrap.rs:252-366 | each step keeps at most one holder of each content and no failed merge, and loses a holder exactly when the stake history is unreadable or the holding task panics |
| `StakeVoteLoop.AtMostOneHolder` | stake_vote/src/leader_schedule.rs:107-245 | in every run of bootstrap, schedule, RPC and notification steps each content has at most one holder, so no merge ever fails |
| `StakeVoteLoop.NeverLostIff` | stake_vote/src/lib.rs:168-320 | each content has exactly one holder if no step of the run dropped it, by an unreadable stake history with both maps taken or by a panic of the task that holds it, and none otherwise |
| `StakeVoteLoop.UnreadableHistoryLosesContents` | stake_vote/src/bootstrap.rs:292-297 | a first bootstrap with an unreadable stake history leaves no holder of either content |
| `StakeVoteLoop.PanickedTaskLosesContents` | stake_vote/src/lib.rs:314-320 | a schedule calculation that panics leaves no holder of either content |
| `StakeVoteLoop.OvertakenNotificationRevives` | stake_vote/src/stake.rs:42-76 | a run in which a notification of the next epoch waits, its account is removed in that epoch, and the next merge brings it back |
| `StakeVoteLoop.OvertakenRemovalRemoves` | stake_vote/src/stake.rs:42-76 | a run in which a removal of the next epoch takes away an account that was notified after it with an older slot |
| `StakeVoteLoop.OvertakenNotificationWins` | stake_vote/src/stake.rs:42-76 | a run in which the earlier of two notifications of the same slot wins because it waited |
| `StakeVoteFreshness.RunKeepsFresh` | stake_vote/src/utils.rs:110-135 | in every run without removals whoever holds a map holds, with the waiting updates, the newest of everything seen |
| `StakeVoteFreshness.NewestAfterMerge` | stake_vote/src/vote.rs:148-234 | with takes, merges, next-epoch deferrals and slot-0 accounts, after a merge each key holds a notification of the greatest slot seen for it |
| `StakeVoteFreshness.ScheduleDoneMerges` | stake_vote/src/leader_schedule.rs:218-243 | a finished calculation leaves both maps back with no update waiting |
| `StakeVoteFreshness.BootMergedMerges` | stake_vote/src/bootstrap.rs:345-366 | a finished bootstrap leaves both maps back with no update waiting, and bootstrap done |
| `StakeVoteFreshness.RpcDoneMerges` | stake_vote/src/rpcrequest.rs:46-74 | a finished RPC task leaves the vote map back with no update waiting and does not touch the stake store |
| `StakeVoteFreshness.RunKeepsFiled` | stake_vote/src/stake.rs:78-149 | in every run, removals included, every map is filed by key |
| `StakeVoteUses.LoopIsUses` | stake_vote/src/bootstrap.rs:252-366 | every run of the loop, lossy ones included, is for each of the two stores a run of updates, takes, entries of fetched accounts and merges, and every task holds what was lent |
| `StakeVoteUses.StoresAmountToDirect` | stake_vote/src/utils.rs:110-135 | in every run of the loop whose uses of a store are in order, that store's content and waiting updates amount to the directly updated map |
| `StakeVoteTaskRuns.FetchedAccountsWait` | stake_vote/src/bootstrap.rs:266-279 | accounts fetched while a map is away wait, all of them and nothing else changed |
| `StakeVoteTaskRuns.WokenTooEarly` | stake_vote/src/bootstrap.rs:266-279 | a task woken while a map is away goes on waiting with what it has |
| `StakeVoteTaskRuns.RunPhase` | stake_vote/src/bootstrap.rs:252-366 | in every run there is at most one bootstrap task, it waits with exactly what was fetched, and once it merges all of that is entered |
| `StakeVoteTaskRuns.FetchedAreKept` | stake_vote/src/bootstrap.rs:252-366 | in every run without removals, once the bootstrap is done every key that was handed over is in its map with the waiting updates applied |
| `StakeVoteTaskRuns.MergeHasFetched` | stake_vote/src/bootstrap.rs:345-366 | the step that merges the bootstrap leaves every fetched key in the maps themselves |
| `StakeVoteTaskRuns.StakeNoticesKept` | stake_vote/src/stake.rs:42-76 | in every run without removals each notified stake account is kept, or a notification at least as new |
| `StakeVoteTaskRuns.VoteNoticesKept` | stake_vote/src/vote.rs:100-146 | the same for vote accounts |
| `StakeVoteTaskRuns.RequestsConserved` | stake_vote/src/rpcrequest.rs:46-119 | every request waits or runs until its task ends |
| `StakeVoteTaskRuns.PendingAreUnanswered` | stake_vote/src/rpcrequest.rs:46-74 | in every run an answer goes to every request that came since the last one |
| `StakeVoteTaskRuns.SchedulesConserved` | stake_vote/src/leader_schedule.rs:114-243 | every schedule asked for after the bootstrap is calculated or waits until its task ends |
| `EpochStakes.DelegatedStakes` | stake_vote/src/leader_schedule.rs:256-265 | the fold gives each voter the sum of the effective stake delegated to it, in any iteration order |
| `EpochStakes.CalculateEpochStakes` | stake_vote/src/leader_schedule.rs:247-284 | each vote account with its total effective stake, zero if nothing is delegated |
| `EpochStakes.GroupByNode` | stake_vote/src/leader_schedule.rs:293-299 | each node with the total stake of its vote accounts, and no node without stake |
| `EpochStakes.SortStakes` | stake_vote/src/leader_schedule.rs:324-338 | strictly sorted by stake and then key, both descending, with the same elements |
| `EpochStakes.NodeStakeList` | stake_vote/src/leader_schedule.rs:288-304 | the sorted list of exactly the nodes with stake |
| `EpochStakes.SortedIsUnique` | stake_vote/src/leader_schedule.rs:324-338 | a strictly sorted list is determined by its elements |
| `EpochStakes.NodeStakeListUnique` | stake_vote/src/leader_schedule.rs:288-304 | the list does not depend on any hash-map iteration order |
| `EpochStakes.ListDescends` | stake_vote/src/leader_schedule.rs:324-338 | the list goes from the greatest stake down and among equal stakes from the greatest key down |
| `EpochStakes.ListTotal` | stake_vote/src/leader_schedule.rs:288-304 | the list adds up to the stake of all vote accounts |
| `EpochStakes.StakeIsConserved` | stake_vote/src/leader_schedule.rs:247-307 | the list adds up to the effective stake of all stake accounts delegated to known vote accounts |
| `LeaderSchedule.GetScheduleByNodes` | stake_vote/src/leader_schedule.rs:30-39 | each node text with exactly its slots in order, and no other node |
| `LeaderSchedule.SlotsAscend` | stake_vote/src/leader_schedule.rs:30-39 | the slots of a node are listed in ascending order |
| `LeaderSchedule.CalculateSlotLeadersFromSchedule` | stake_vote/src/leader_schedule.rs:309-321 | an error exactly if a node with slots cannot be read; otherwise the leaders in slot order, in any iteration order |
| `LeaderSchedule.GroupAndRebuild` | stake_vote/src/leader_schedule.rs:309-321 | grouping by node and rebuilding gives back every slot-leader list |
| `FeeHeap.PrioritizationFeesHeap.constructor` | core/src/structures/prioritization_fee_heap.rs:24-29 | an empty valid heap |
| `FeeHeap.PrioritizationFeesHeap.Pop` | core/src/structures/prioritization_fee_heap.rs:31-42 | the earliest of the highest fee, taken out of the arrival list; validity ties queues and signature set to that list |
| `FeeHeap.PrioritizationFeesHeap.Insert` | core/src/structures/prioritization_fee_heap.rs:44-86 | a known signature or a fee too low for a full heap changes nothing; otherwise appended, with the earliest of the lowest fee dropped if over the maximum |
| `FeeHeap.PrioritizationFeesHeap.FilterQueues` | core/src/structures/prioritization_fee_heap.rs:92-103 | every queue keeps its live transactions, and the emptied queues and expired signatures are listed |
| `FeeHeap.PrioritizationFeesHeap.RemoveExpiredTransactions` | core/src/structures/prioritization_fee_heap.rs:88-112 | exactly the live arrivals stay in order, no empty queue is left, and the result is the drop in size |
| `FeeHeap.PrioritizationFeesHeap.Size` | core/src/structures/prioritization_fee_heap.rs:114-116 | the size of the signature set is the number of queued transactions |
| `FeeHeap.PrioritizationFeesHeap.Clear` | core/src/structures/prioritization_fee_heap.rs:118-124 | an empty heap and the earlier number of transactions |
| `FeeHeapOrder.HighestFeesKept` | core/src/structures/prioritization_fee_heap.rs:44-86 | inserting any transactions of distinct signatures into an empty heap leaves the N highest fees as a multiset |
| `FeeHeapOrder.TopIsUnique` | core/src/structures/prioritization_fee_heap.rs:44-86 | the N highest fees are determined, so the previous row fixes the kept fees |
| `FeeHeapOrder.RejectedKeeps` | core/src/structures/prioritization_fee_heap.rs:44-58 | an insertion changes nothing if the signature is queued or a full heap has no lower fee |
| `FeeHeapOrder.InsertedQueues` | core/src/structures/prioritization_fee_heap.rs:59-86 | otherwise the transaction joins the end of the queue of its fee, and a full heap pops the front of the queue of its lowest fee and touches no other |
| `FeeHeapOrder.DrainIsStable` | core/src/structures/prioritization_fee_heap.rs:31-42 | draining gives non-increasing fees and arrival order within a fee |
| `FeeHeapOrder.StableOrderUnique` | core/src/structures/prioritization_fee_heap.rs:31-42 | only one list does that |
| `FeeHeapOrder.ExpiryCommutesWithDrain` | core/src/structures/prioritization_fee_heap.rs:88-112 | draining after expiry equals filtering the earlier drain |
| `FeePercentiles.SortByPriority` | prioritization_fees/src/stats_calculation.rs:15-20 | sorted by fee and a permutation |
| `FeePercentiles.FeesByIndex` | prioritization_fees/src/stats_calculation.rs:23-37 | the value of each of the 21 percentiles is the fee of its rank, stated by counts of cheaper transactions |
| `FeePercentiles.Advance` | prioritization_fees/src/stats_calculation.rs:48-51 | the cursor stops inside the array at the first position whose running sum reaches the target |
| `FeePercentiles.FeesByCu` | prioritization_fees/src/stats_calculation.rs:39-58 | each value is the least fee present such that the compute units of all paying at most it reach the target |
| `FeePercentiles.CursorHasNext` | prioritization_fees/src/stats_calculation.rs:48-51 | the cursor is never at the end while the target is not reached |
| `FeePercentiles.CursorReaches` | prioritization_fees/src/stats_calculation.rs:39-58 | where the running sum first reaches the target stands the quantile of the whole input |
| `FeePercentiles.CalculateSuppPercentiles` | prioritization_fees/src/stats_calculation.rs:7-58 | both lists of percentiles of the unsorted input, all zero for an empty one |
| `FeePercentiles.QuantilesOfPermutation` | prioritization_fees/src/stats_calculation.rs:7-58 | quantiles depend on the multiset of the input only |
| `FeePercentiles.QuantilesMonotone` | prioritization_fees/src/stats_calculation.rs:23-58 | a higher percentile has no lower quantile |
| `FeePercentiles.PercentilesDetermined` | prioritization_fees/src/stats_calculation.rs:7-58 | the results are determined by the multiset of the input and non-decreasing |
| `FeePercentiles.CuQuantileMeans` | prioritization_fees/src/stats_calculation.rs:39-58 | the percentile by compute units in plain arithmetic, without division |
| `FeePercentiles.TxQuantileMeans` | prioritization_fees/src/stats_calculation.rs:23-37 | the percentile by count in plain arithmetic, without division |
| `FeePercentiles.EmptyPercentiles` | prioritization_fees/src/stats_calculation.rs:7-14 | without transactions every percentile is zero |
| `BlockFees.CalculateStats` | prioritization_fees/src/prioritization_fee_data.rs:31-48 | the totals and the percentiles of the block's transactions |
| `BlockFees.AggregateConsistent` | prioritization_fees/src/prioritization_fee_data.rs:50-59 | whatever blocks are added, the totals are those of the added transactions |
| `BlockFees.BlockConsistent` | prioritization_fees/src/block_priofees.rs:75-110 | the stored totals agree with the stored non-vote transactions |
| `BlockFees.BlockTotals` | prioritization_fees/src/block_priofees.rs:85-110 | the counts are those of all and of the non-vote transactions, and the compute units are the sum over all transactions |
| `BlockFees.StoredFees` | prioritization_fees/src/block_priofees.rs:75-83 | each non-vote transaction is stored in its place with its own fee and compute units, zero where it has none |
| `BlockFees.AggregateIs` | prioritization_fees/src/prioritization_fee_data.rs:50-59 | an aggregate is the data of all its blocks one after the other with the sums of all four totals |
| `BlockFees.StatsIgnoreBlockOrder` | prioritization_fees/src/block_priofees.rs:43-50 | aggregated statistics are the same in whatever order the blocks are folded |
| `BlockFees.PrioFeeStore.OnBlock` | prioritization_fees/src/block_priofees.rs:114-121 | the block is stored and exactly the blocks too far behind it are dropped |
| `BlockFees.PrioFeeStore.FoldNewest` | prioritization_fees/src/block_priofees.rs:43-49 | the fold over the newest N blocks, newest first |
| `BlockFees.PrioFeeStore.GetLastNAggregate` | prioritization_fees/src/block_priofees.rs:34-51 | none exactly if no block is stored; otherwise the newest slot with the statistics of the newest N blocks together |
| `DataCache.BlockInformationStore.constructor` | core/src/stores/block_information_store.rs:64-78 | the store after startup |
| `DataCache.BlockInformationStore.Add` | core/src/stores/block_information_store.rs:114-160 | the whole new store, and whether the block was new or at a higher level |
| `DataCache.BlockInformationStore.Clean` | core/src/stores/block_information_store.rs:162-174 | blocks expired at the finalized height are dropped |
| `DataCache.BlockInformationStore.IsValid` | core/src/stores/block_information_store.rs:180-193 | valid exactly if known and not expired at the height of the level, with the latest slot |
| `DataCache.TxStore.Update` | core/src/stores/tx_store.rs:21-41 | the new store, and whether the transaction was sent from here |
| `DataCache.TxStore.Insert` | core/src/stores/tx_store.rs:43-45 | the new store and the replaced entry |
| `DataCache.TxStore.Clean` | core/src/stores/tx_store.rs:63-71 | entries expired at the height are dropped |
| `DataCache.DataCacheStores.Clean` | core/src/stores/data_cache.rs:45-54 | both stores are cleaned at the finalized height before the cleaning |
| `DataCache.DataCacheStores.CheckIfConfirmedOrExpiredBlockheight` | core/src/stores/data_cache.rs:56-65 | confirmed in the store, or past its last valid height |
| `DataCache.DataCacheStores.CheckBlockhash` | services/src/transaction_service.rs:145-158 | unknown, expired or accepted with slot and last valid height |
| `DataCache.CleaningInvisibleAtSubmission` | services/src/transaction_service.rs:145-158 | runs with and without cleaning accept exactly the same submissions with the same slot and expiry |
| `DataCacheRuns.AcceptedIff` | services/src/transaction_service.rs:145-158 | over a whole run a submission is accepted, with the slot and height plus 300 of its blockhash, exactly if the blockhash was put in and no block more than 300 above it; it is not found exactly if it was never put in or was cleaned away |
| `DataCacheRuns.LastHeightAbove` | core/src/stores/block_information_store.rs:114-160 | the last block height is the greatest height ever put in |
| `DataCacheRuns.LatestBlocksAre` | core/src/stores/block_information_store.rs:114-160 | the latest finalized block is the newest finalized one put in, and the latest confirmed block the newest of the others |
| `DataCacheRuns.ReplacesIff` | core/src/stores/block_information_store.rs:138-152 | a known block is replaced exactly by one of a higher commitment |
| `DataCacheRuns.HighestCommitment` | core/src/stores/block_information_store.rs:114-160 | without cleaning a block is stored at the highest commitment it was ever put in with |
| `DataCache.CleaningSeenByValidityIff` | core/src/stores/block_information_store.rs:162-193 | one cleaning changes the validity answer exactly if the block is not expired at the asked level but is at the finalized one |
| `DataCache.MissingIffCleanedAway` | core/src/stores/block_information_store.rs:114-174 | over a whole run a block is missing from the cleaned store exactly if a clean met it after it had expired for the latest finalized block and it was not added again |
| `DataCache.RunCleaningSeenIff` | core/src/stores/block_information_store.rs:162-193 | over a whole run the validity answer differs from the run without cleans exactly for blocks that are valid there and were cleaned away |
| `DataCacheRuns.ValidIff` | core/src/stores/block_information_store.rs:180-193 | over a whole run a blockhash is valid at a level exactly if it was put in and not cleaned away and the latest block of that level is at most 300 above it |
| `DataCache.ValidityCanFlip` | core/src/stores/block_information_store.rs:114-193 | a store in which that happens |
| `DataCache.ConfirmedOrExpiredIsFinal` | core/src/stores/data_cache.rs:45-65 | once a forwarded transaction counts as confirmed or expired it stays so through all later adds, status updates and cleans until it is submitted again |
| `DataCacheRuns.ReplayEndsIff` | core/src/stores/data_cache.rs:56-65 | after a transaction was forwarded, and until it is submitted again, it counts as confirmed or expired exactly if a status was reported for it or a block above its last valid height was there or came |
| `DataCacheRuns.EntryIs` | core/src/stores/tx_store.rs:21-71 | until it expires a forwarded transaction keeps its entry, with the last status that was reported |
| `DataCacheRuns.OthersNotSentHere` | core/src/stores/tx_store.rs:21-41 | a transaction that was never forwarded from here is not taken for one that was |
| `DataCache.CleaningInvisibleToReplay` | core/src/stores/data_cache.rs:45-65 | the answer is the same in the run without the cleans |
| `BlockPolling.BlockPollingTasks.ReceiveNotification` | cluster-endpoints/src/rpc_polling/poll_blocks.rs:149-179 | the new state after a slot notification; earlier slots are ignored |
| `BlockPolling.BlockPollingTasks.SendNextSlot` | cluster-endpoints/src/rpc_polling/poll_blocks.rs:149-179 | one slot is scheduled at the confirmed level |
| `BlockPolling.BlockPollingTasks.TakeJob` | cluster-endpoints/src/rpc_polling/poll_blocks.rs:76-111 | the front job moves to a worker |
| `BlockPolling.BlockPollingTasks.FinishJob` | cluster-endpoints/src/rpc_polling/poll_blocks.rs:76-111 | a found block is published and a confirmed one goes on to finalized; otherwise the job is retried |
| `BlockPolling.BlockPollingTasks.RetryJob` | cluster-endpoints/src/rpc_polling/poll_blocks.rs:120-144 | a job comes back to the queue unless its slot is too old |
| `BlockPolling.StepKeepsInv` | cluster-endpoints/src/rpc_polling/poll_blocks.rs:69-178 | each step of each task keeps the slots in order and the two stages of every slot |
| `BlockPolling.EverySlotScheduledOnce` | cluster-endpoints/src/rpc_polling/poll_blocks.rs:149-179 | in every run the slots after the start are scheduled once each, in order and without gaps, up to the newest when the poller is idle |
| `BlockPolling.OneJobPerSlot` | cluster-endpoints/src/rpc_polling/poll_blocks.rs:69-178 | in every run a slot has at most one live job across queues and workers, and its confirmed and then finalized block are published at most once |
| `BlockPolling.NotFoundKeepsJobs` | cluster-endpoints/src/rpc_polling/poll_blocks.rs:103-110 | a block that was not found keeps its job alive |
| `BlockPolling.NoSlotForgotten` | cluster-endpoints/src/rpc_polling/poll_blocks.rs:69-178 | in every run each scheduled slot has one job alive or its finalized block published, unless a retry found it more than 128 slots behind |
| `BlockPolling.RecentIsNewest` | cluster-endpoints/src/rpc_polling/poll_blocks.rs:149-179 | in every run the recent slot is the start or the newest estimate the poller heard |
| `SlotEstimator.Estimator.OnSlot` | cluster-endpoints/src/rpc_polling/poll_slots.rs:64-78 | the new state after a polled slot |
| `SlotEstimator.Estimator.OnTimeout` | cluster-endpoints/src/rpc_polling/poll_slots.rs:80-95 | the new state after a timeout, limited to 32 slots ahead |
| `SlotEstimator.EstimateStaysClose` | cluster-endpoints/src/rpc_polling/poll_slots.rs:59-97 | in every run each notified estimate is between the processed slot and 32 past it, and notifications never go back or repeat |
| `SlotEstimator.TimeoutsAdvance` | cluster-endpoints/src/rpc_polling/poll_slots.rs:80-95 | while no slot comes the estimate advances one by one up to 32 ahead, and each advance is sent |
| `SlotEstimator.SlotArrives` | cluster-endpoints/src/rpc_polling/poll_slots.rs:64-78 | a later slot becomes the current one, lifts the estimate to at least itself and is sent; others are ignored |
| `LeaderCache.JsonRpcLeaderGetter.RemoveOld` | cluster-endpoints/src/json_rpc_leaders_getter.rs:35-42 | slots before the limit are popped and the queue stays one contiguous run of the chain's leaders |
| `LeaderCache.JsonRpcLeaderGetter.UpdateLeaderSchedule` | cluster-endpoints/src/json_rpc_leaders_getter.rs:34-67 | the new contiguous run after fetching from its end, or the trimmed one with an error |
| `LeaderCache.JsonRpcLeaderGetter.GetSlotLeaders` | cluster-endpoints/src/json_rpc_leaders_getter.rs:72-98 | when a request is refused, when it fetches, and which part of the run it answers |
| `LeaderCache.TrimmedSlots` | cluster-endpoints/src/json_rpc_leaders_getter.rs:35-42 | trimming drops exactly the slots before the bound |
| `LeaderCache.UpdatedSlots` | cluster-endpoints/src/json_rpc_leaders_getter.rs:34-67 | an update keeps the slots that are not too old and, if it works, appends those missing up to the cache count |
| `LeaderCache.SucceedsIff` | cluster-endpoints/src/json_rpc_leaders_getter.rs:72-98 | a request succeeds exactly if its range is valid and it is cached as a whole, or the cluster answers, or the cache reaches beyond everything that would be fetched |
| `LeaderCache.CacheUntouched` | cluster-endpoints/src/json_rpc_leaders_getter.rs:72-98 | a request that is refused or covered changes nothing |
| `LeaderCache.AnswerCompleteIff` | cluster-endpoints/src/json_rpc_leaders_getter.rs:72-98 | a successful answer has every slot of the range exactly if the cache does not start after it and the range is shorter than the cache count or already covered |
| `LeaderCache.CacheStartsEarly` | cluster-endpoints/src/json_rpc_leaders_getter.rs:34-67 | with non-decreasing requests the cache never starts after the range |
| `LeaderCache.AnswersAreComplete` | cluster-endpoints/src/json_rpc_leaders_getter.rs:34-98 | for every such run with ranges below the cache count, each successful answer is what the chain would answer directly |
| `LeaderCache.FullRangeLacksLastSlot` | cluster-endpoints/src/json_rpc_leaders_getter.rs:72-98 | a range as long as the cache is accepted from an empty cache and lacks its last slot |

## Left out

- Network, gRPC, QUIC, TLS, Postgres, metrics, command line, benches and the TypeScript client are not modelled.
- Real time, timeouts, wake-ups and liveness are not modelled: a tick, a wake-up or a timeout is a step that may happen at any time.
- Each store call and each loop iteration is one atomic step; interleavings inside a call are not modelled.
- Channel capacities, lagging receivers and closed channels are not modelled; a channel delivers everything in order, each receiver at its own pace.
- Slots, heights, stakes and sums are unbounded; overflow of 64-bit sums and slots is not modelled.
- `Delegation::stake`, `LeaderSchedule::new`, `EpochSchedule` and the text form of keys are function parameters; reading a key's text back is assumed to give the key.
- The vote-stake cache that travels with the vote map, RPC replies, vote-account formatting and the panic on bootstrap exit are not modelled.
- A blockhash is assumed to determine its slot and height, both in the multiplexer runs and in the cache runs.
- Library sorts are modelled by insertion sorts with the same contract, because only order and elements matter to the results.
- `AccountPrioStore`, `CalculatedSchedule::get_slot_leaders`, the cleanup-slot field and the block-time field are not modelled.
- `AutoReconnect`, `Sharder`, `Debouncer`, `RotatingQueue`, `SubscriptionStore` and the float statistics would only add easy members.
- FeePercentiles.CalculateSuppPercentiles: requires that a hundred times the sum of compute units fits 64 bits, because the source multiplies in 64 bits; the wrap-around is not modelled.
- FeePercentiles.FeesByCu: has the same bound as the method that calls it.
- BlockFees.CalculateStats: has the same bound on the compute units of the block.
- BlockFees.PrioFeeStore.GetLastNAggregate: has the same bound on the compute units of the folded blocks.
- FeeHeap.PrioritizationFeesHeap.Insert: requires a maximum above 0, because the source unwraps the first entry of an empty map otherwise.
- FeeHeapOrder.HighestFeesKept: requires a maximum above 0 for the same reason.
- EpochStakes.CalculateEpochStakes: requires the vote map to be filed by key, which every run keeps.
- LeaderCache.JsonRpcLeaderGetter.UpdateLeaderSchedule: the node is assumed to answer with as many leaders as asked for, each the chain's leader of its slot, or with an error.
