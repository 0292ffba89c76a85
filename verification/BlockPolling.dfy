/**
 Polling of blocks over RPC (cluster-endpoints/src/rpc_polling/poll_blocks.rs): a slot poller
 schedules one job per slot, parallel workers fetch blocks, and a retry task brings jobs back.
 A step is one iteration of one of these tasks; any interleaving of steps is a run.
 */
module BlockPolling {
  import opened Common

  const RETRY_SLOTS := 128

  /** A block to fetch at a commitment level; also what is published once it was fetched. */
  datatype Job = Job(slot: Slot, level: Commitment)

  datatype Poller = Poller(
    start: Slot,            // the cluster's slot when polling began
    recentSlot: Slot,
    nextSlot: Slot,         // the slot the poller's inner loop sends next
    scheduled: seq<Slot>,   // every slot that loop ever sent
    queue: seq<Job>,
    busy: multiset<Job>,    // jobs in the hands of workers
    retry: seq<Job>,
    published: seq<Job>)

  function Begin(slot: Slot): Poller {
    Poller(slot, slot, slot + 1, [], [], multiset{}, [], [])
  }

  datatype Action =
    | Notify(estimated: Slot)
    | ScheduleNext
    | Take
    | Fetched(job: Job)
    | NotFound(job: Job)
    | Retry

  function Step(p: Poller, a: Action): Poller {
    match a
    case Notify(estimated) =>
      if p.nextSlot > p.recentSlot && p.recentSlot < estimated then p.(recentSlot := estimated) else p
    case ScheduleNext =>
      if p.nextSlot <= p.recentSlot
      then p.(queue := p.queue + [Job(p.nextSlot, Confirmed)], scheduled := p.scheduled + [p.nextSlot],
        nextSlot := p.nextSlot + 1)
      else p
    case Take =>
      if p.queue != [] then p.(queue := p.queue[1..], busy := p.busy + multiset{p.queue[0]}) else p
    case Fetched(job) =>
      if job !in p.busy then p
      else p.(busy := p.busy - multiset{job}, published := p.published + [job],
              retry := if job.level == Finalized then p.retry else p.retry + [Job(job.slot, Finalized)])
    case NotFound(job) =>
      if job !in p.busy then p else p.(busy := p.busy - multiset{job}, retry := p.retry + [job])
    case Retry =>
      if p.retry == [] then p
      else
        var job := p.retry[0];
        p.(retry := p.retry[1..],
           queue := if SaturatingSub(p.recentSlot, job.slot) > RETRY_SLOTS then p.queue else p.queue + [job])
  }

  function Run(start: Slot, actions: seq<Action>): Poller {
    if actions == [] then Begin(start) else Step(Run(start, actions[..|actions| - 1]), actions[|actions| - 1])
  }

  class BlockPollingTasks {
    const start: Slot
    var recentSlot: Slot
    var nextSlot: Slot
    var scheduled: seq<Slot>
    var scheduleQueue: seq<Job>
    var busy: multiset<Job>
    var retryQueue: seq<Job>
    var published: seq<Job>

    function State(): Poller
      reads this
    {
      Poller(start, recentSlot, nextSlot, scheduled, scheduleQueue, busy, retryQueue, published)
    }

    constructor (slot: Slot)
      ensures State() == Begin(slot)
    {
      start, recentSlot, nextSlot := slot, slot, slot + 1;
      scheduled, scheduleQueue, busy, retryQueue, published := [], [], multiset{}, [], [];
    }

    /** The slot poller receives a notification; its inner loop must have finished before. */
    method ReceiveNotification(estimated: Slot)
      requires nextSlot > recentSlot
      modifies this
      ensures State() == Step(old(State()), Notify(estimated))
    {
      var lastSlot := recentSlot;
      if lastSlot < estimated {
        recentSlot := estimated;
      }
    }

    /** One iteration of the inner loop of the slot poller. */
    method SendNextSlot()
      requires nextSlot <= recentSlot
      modifies this
      ensures State() == Step(old(State()), ScheduleNext)
    {
      scheduleQueue := scheduleQueue + [Job(nextSlot, Confirmed)];
      scheduled := scheduled + [nextSlot];
      nextSlot := nextSlot + 1;
    }

    method TakeJob() returns (job: Job)
      requires scheduleQueue != []
      modifies this
      ensures State() == Step(old(State()), Take)
      ensures job == old(scheduleQueue)[0]
    {
      job := scheduleQueue[0];
      scheduleQueue := scheduleQueue[1..];
      busy := busy + multiset{job};
    }

    /** A worker comes back from the RPC call. */
    method FinishJob(job: Job, found: bool)
      requires job in busy
      modifies this
      ensures State() == Step(old(State()), if found then Fetched(job) else NotFound(job))
    {
      busy := busy - multiset{job};
      if found {
        published := published + [job];
        if job.level != Finalized {
          retryQueue := retryQueue + [Job(job.slot, Finalized)];
        }
      } else {
        retryQueue := retryQueue + [job];
      }
    }

    method RetryJob()
      requires retryQueue != []
      modifies this
      ensures State() == Step(old(State()), Retry)
    {
      var job := retryQueue[0];
      retryQueue := retryQueue[1..];
      if SaturatingSub(recentSlot, job.slot) > RETRY_SLOTS {
        return;
      }
      scheduleQueue := scheduleQueue + [job];
    }
  }

  // ----- what every run keeps

  /** All jobs that are queued, being worked on, or waiting for a retry. */
  ghost function Live(p: Poller): multiset<Job> {
    multiset(p.queue) + p.busy + multiset(p.retry)
  }

  /** The slots from start + 1 on, in order, without gaps and each once. */
  ghost predicate InOrder(p: Poller) {
    && p.start + 1 <= p.nextSlot
    && |p.scheduled| == p.nextSlot - p.start - 1
    && forall i :: 0 <= i < |p.scheduled| ==> p.scheduled[i] == p.start + 1 + i
  }

  /** A slot is either waiting for its confirmed block, or has it and waits for the finalized one, or is done. */
  ghost predicate Staged(p: Poller, slot: Slot) {
    var live, done := Live(p), multiset(p.published);
    var c, f := Job(slot, Confirmed), Job(slot, Finalized);
    && live[c] + done[c] <= (if p.start < slot < p.nextSlot then 1 else 0)
    && live[f] + done[f] <= done[c]
    && live[Job(slot, Processed)] == 0
  }

  ghost predicate ConfirmedFirst(published: seq<Job>) {
    forall j :: 0 <= j < |published| && published[j].level == Finalized ==>
      Job(published[j].slot, Confirmed) in published[..j]
  }

  ghost predicate Inv(p: Poller) {
    InOrder(p) && p.nextSlot <= p.recentSlot + 1 && (forall slot :: Staged(p, slot)) && ConfirmedFirst(p.published)
  }

  lemma {:induction false} TakeMoves(p: Poller)
    ensures Live(Step(p, Take)) == Live(p)
  {
    if p.queue != [] { assert p.queue == [p.queue[0]] + p.queue[1..]; }
  }

  lemma {:induction false} RetryMoves(p: Poller)
    ensures Live(Step(p, Retry)) <= Live(p)
  {
    if p.retry != [] { assert p.retry == [p.retry[0]] + p.retry[1..]; }
  }

  /** Steps other than scheduling and publishing create no job. */
  lemma {:induction false} OthersMove(p: Poller, a: Action)
    requires !a.ScheduleNext? && !a.Fetched?
    ensures Live(Step(p, a)) <= Live(p)
    ensures Step(p, a).published == p.published && Step(p, a).nextSlot == p.nextSlot && Step(p, a).start == p.start
    ensures Step(p, a).scheduled == p.scheduled && Step(p, a).recentSlot >= p.recentSlot
  {
    match a
    case Notify(_) =>
    case Take => TakeMoves(p);
    case NotFound(job) =>
    case Retry => RetryMoves(p);
  }

  lemma {:induction false} FewerJobsKeepInv(p: Poller, q: Poller)
    requires Inv(p) && Live(q) <= Live(p) && q.published == p.published && q.scheduled == p.scheduled
    requires q.start == p.start && q.nextSlot == p.nextSlot && q.recentSlot >= p.recentSlot
    ensures Inv(q)
  {
    forall slot ensures Staged(q, slot) { assert Staged(p, slot); }
  }

  lemma {:induction false} FetchedMoves(p: Poller, job: Job)
    requires job in p.busy
    ensures Live(Step(p, Fetched(job)))
      == Live(p) - multiset{job} + (if job.level == Finalized then multiset{} else multiset{Job(job.slot, Finalized)})
    ensures multiset(Step(p, Fetched(job)).published) == multiset(p.published) + multiset{job}
  {
  }

  lemma {:induction false} ConfirmedFirstAppend(published: seq<Job>, job: Job)
    requires ConfirmedFirst(published) && (job.level == Finalized ==> Job(job.slot, Confirmed) in published)
    ensures ConfirmedFirst(published + [job])
  {
    var all := published + [job];
    forall j | 0 <= j < |all| && all[j].level == Finalized ensures Job(all[j].slot, Confirmed) in all[..j] {
      if j < |published| { assert all[..j] == published[..j]; } else { assert all[..j] == published; }
    }
  }

  lemma {:induction false} ScheduleKeepsInv(p: Poller)
    requires Inv(p)
    ensures Inv(Step(p, ScheduleNext))
  {
    var q := Step(p, ScheduleNext);
    if p.nextSlot <= p.recentSlot {
      assert Live(q) == Live(p) + multiset{Job(p.nextSlot, Confirmed)};
      forall slot ensures Staged(q, slot) { assert Staged(p, slot); }
    }
  }

  lemma {:induction false} FetchedCounts(p: Poller, job: Job, j: Job)
    requires job in p.busy
    ensures var q := Step(p, Fetched(job));
      && Live(q)[j] == Live(p)[j] - (if j == job then 1 else 0)
                       + (if job.level != Finalized && j == Job(job.slot, Finalized) then 1 else 0)
      && multiset(q.published)[j] == multiset(p.published)[j] + if j == job then 1 else 0
  {
    FetchedMoves(p, job);
    assert job in Live(p);
  }

  lemma {:induction false} FetchedStaged(p: Poller, job: Job, slot: Slot)
    requires job in p.busy && Staged(p, slot) && Staged(p, job.slot)
    ensures Staged(Step(p, Fetched(job)), slot)
  {
    FetchedCounts(p, job, Job(slot, Processed));
    FetchedCounts(p, job, Job(slot, Confirmed));
    FetchedCounts(p, job, Job(slot, Finalized));
    assert Live(p)[job] > 0;
  }

  lemma {:induction false} FetchedKeepsInv(p: Poller, job: Job)
    requires Inv(p)
    ensures Inv(Step(p, Fetched(job)))
  {
    var q := Step(p, Fetched(job));
    if job in p.busy {
      forall slot ensures Staged(q, slot) { FetchedStaged(p, job, slot); }
      assert Staged(p, job.slot);
      assert job in Live(p);
      ConfirmedFirstAppend(p.published, job);
    }
  }

  lemma {:induction false} StepKeepsInv(p: Poller, a: Action)
    requires Inv(p)
    ensures Inv(Step(p, a))
  {
    match a
    case ScheduleNext => ScheduleKeepsInv(p);
    case Fetched(job) => FetchedKeepsInv(p, job);
    case _ =>
      OthersMove(p, a);
      FewerJobsKeepInv(p, Step(p, a));
  }

  lemma {:induction false} RunKeepsInv(start: Slot, actions: seq<Action>)
    ensures Inv(Run(start, actions)) && Run(start, actions).start == start
  {
    if actions != [] {
      RunKeepsInv(start, actions[..|actions| - 1]);
      StepKeepsInv(Run(start, actions[..|actions| - 1]), actions[|actions| - 1]);
    }
  }

  /** Every slot after the start is scheduled exactly once, in order and without gaps. */
  lemma {:induction false} EverySlotScheduledOnce(start: Slot, actions: seq<Action>)
    ensures var p := Run(start, actions);
      && (forall i :: 0 <= i < |p.scheduled| ==> p.scheduled[i] == start + 1 + i)
      && start + |p.scheduled| <= p.recentSlot
      && (p.nextSlot > p.recentSlot ==> start + |p.scheduled| == p.recentSlot)
  {
    RunKeepsInv(start, actions);
  }

  /** At most one job of a slot is alive, and each of its two blocks is published at most once, confirmed first. */
  lemma {:induction false} OneJobPerSlot(start: Slot, actions: seq<Action>, slot: Slot)
    ensures var p := Run(start, actions);
      var live, done := Live(p), multiset(p.published);
      && live[Job(slot, Processed)] + live[Job(slot, Confirmed)] + live[Job(slot, Finalized)] <= 1
      && done[Job(slot, Finalized)] <= done[Job(slot, Confirmed)] <= 1
      && ConfirmedFirst(p.published)
      && (live[Job(slot, Finalized)] == 1 ==> done[Job(slot, Confirmed)] == 1 && done[Job(slot, Finalized)] == 0)
      && (slot <= start ==> live[Job(slot, Confirmed)] == done[Job(slot, Confirmed)] == 0)
  {
    RunKeepsInv(start, actions);
    assert Staged(Run(start, actions), slot);
  }

  // ----- no job is lost

  /** A block that was not found keeps its job. */
  lemma {:induction false} NotFoundKeepsJobs(p: Poller, job: Job)
    ensures Live(Step(p, NotFound(job))) == Live(p)
  {
  }

  /** The retry task gives a slot up: its job is more than 128 slots behind. */
  predicate GivesUp(p: Poller, a: Action, slot: Slot) {
    a.Retry? && p.retry != [] && p.retry[0].slot == slot && p.recentSlot > slot + 128
  }

  /** The jobs of a slot together with its published finalized blocks. */
  ghost function Accounted(p: Poller, slot: Slot): nat {
    Live(p)[Job(slot, Confirmed)] + Live(p)[Job(slot, Finalized)] + multiset(p.published)[Job(slot, Finalized)]
  }

  lemma {:induction false} RetryCounts(p: Poller, j: Job)
    requires p.retry != []
    ensures Live(Step(p, Retry))[j] == Live(p)[j] - if j == p.retry[0] && p.recentSlot > j.slot + 128 then 1 else 0
  {
    assert p.retry == [p.retry[0]] + p.retry[1..];
  }

  lemma {:induction false} RetryAccounts(p: Poller, slot: Slot)
    requires Inv(p)
    ensures Accounted(Step(p, Retry), slot) == Accounted(p, slot) - if GivesUp(p, Retry, slot) then 1 else 0
  {
    if p.retry != [] {
      RetryCounts(p, Job(slot, Confirmed));
      RetryCounts(p, Job(slot, Finalized));
      assert Staged(p, p.retry[0].slot);
      assert p.retry[0] in Live(p);
    }
  }

  lemma {:induction false} FetchedAccounts(p: Poller, job: Job, slot: Slot)
    requires Inv(p)
    ensures Accounted(Step(p, Fetched(job)), slot) == Accounted(p, slot)
  {
    if job in p.busy {
      FetchedCounts(p, job, Job(slot, Confirmed));
      FetchedCounts(p, job, Job(slot, Finalized));
      assert Staged(p, job.slot);
      assert job in Live(p);
    }
  }

  lemma {:induction false} ScheduleAccounts(p: Poller, slot: Slot)
    ensures Accounted(Step(p, ScheduleNext), slot) ==
      Accounted(p, slot) + if p.nextSlot <= p.recentSlot && slot == p.nextSlot then 1 else 0
  {
    if p.nextSlot <= p.recentSlot {
      assert Live(Step(p, ScheduleNext)) == Live(p) + multiset{Job(p.nextSlot, Confirmed)};
    }
  }

  lemma {:induction false} AccountedStep(p: Poller, a: Action, slot: Slot)
    requires Inv(p)
    ensures Accounted(Step(p, a), slot) == Accounted(p, slot)
      + (if a.ScheduleNext? && p.nextSlot <= p.recentSlot && slot == p.nextSlot then 1 else 0)
      - (if GivesUp(p, a, slot) then 1 else 0)
  {
    match a
    case Notify(_) =>
    case ScheduleNext => ScheduleAccounts(p, slot);
    case Take => TakeMoves(p);
    case Fetched(job) => FetchedAccounts(p, job, slot);
    case NotFound(job) => NotFoundKeepsJobs(p, job);
    case Retry => RetryAccounts(p, slot);
  }

  ghost predicate GivenUp(start: Slot, actions: seq<Action>, slot: Slot) {
    exists n :: 0 <= n < |actions| && GivesUp(Run(start, actions[..n]), actions[n], slot)
  }

  lemma {:induction false} GivenUpGrows(start: Slot, before: seq<Action>, a: Action, slot: Slot)
    ensures GivenUp(start, before + [a], slot) <==> GivenUp(start, before, slot) || GivesUp(Run(start, before), a, slot)
  {
    var all := before + [a];
    assert all[..|before|] == before && all[|before|] == a;
    assert forall n :: 0 <= n < |before| ==> all[..n] == before[..n] && all[n] == before[n];
    if GivenUp(start, before, slot) {
      var n :| 0 <= n < |before| && GivesUp(Run(start, before[..n]), before[n], slot);
      assert GivesUp(Run(start, all[..n]), all[n], slot);
    }
    if GivesUp(Run(start, before), a, slot) { assert GivesUp(Run(start, all[..|before|]), all[|before|], slot); }
  }

  /** Every scheduled slot has one job alive or its finalized block published, unless it was given up. */
  lemma {:induction false} NoSlotForgotten(start: Slot, actions: seq<Action>, slot: Slot)
    ensures var p, scheduled := Run(start, actions), start < slot < Run(start, actions).nextSlot;
      Accounted(p, slot) + (if GivenUp(start, actions, slot) then 1 else 0) == if scheduled then 1 else 0
  {
    if actions != [] {
      var before, a := actions[..|actions| - 1], actions[|actions| - 1];
      NoSlotForgotten(start, before, slot);
      RunKeepsInv(start, before);
      AccountedStep(Run(start, before), a, slot);
      assert actions == before + [a];
      GivenUpGrows(start, before, a, slot);
      NextSlotMoves(Run(start, before), a);
    }
  }

  lemma {:induction false} NextSlotMoves(p: Poller, a: Action)
    ensures Step(p, a).nextSlot == p.nextSlot + if a.ScheduleNext? && p.nextSlot <= p.recentSlot then 1 else 0
    ensures Step(p, a).start == p.start
  {
  }

  /** The poller is idle and receives a slot estimate. */
  predicate Hears(p: Poller, a: Action, slot: Slot) {
    a == Notify(slot) && p.nextSlot > p.recentSlot
  }

  ghost predicate Heard(start: Slot, actions: seq<Action>, slot: Slot) {
    exists n :: 0 <= n < |actions| && Hears(Run(start, actions[..n]), actions[n], slot)
  }

  lemma {:induction false} HeardGrows(start: Slot, before: seq<Action>, a: Action, slot: Slot)
    ensures Heard(start, before + [a], slot) <==> Heard(start, before, slot) || Hears(Run(start, before), a, slot)
  {
    var all := before + [a];
    assert all[..|before|] == before && all[|before|] == a;
    assert forall n :: 0 <= n < |before| ==> all[..n] == before[..n] && all[n] == before[n];
    if Heard(start, before, slot) {
      var n :| 0 <= n < |before| && Hears(Run(start, before[..n]), before[n], slot);
      assert Hears(Run(start, all[..n]), all[n], slot);
    }
    if Hears(Run(start, before), a, slot) { assert Hears(Run(start, all[..|before|]), all[|before|], slot); }
  }

  lemma {:induction false} RecentMoves(p: Poller, a: Action)
    ensures Step(p, a).recentSlot >= p.recentSlot
    ensures forall slot: Slot :: Hears(p, a, slot) ==> slot <= Step(p, a).recentSlot
    ensures Step(p, a).recentSlot != p.recentSlot ==> Hears(p, a, Step(p, a).recentSlot)
  {
  }

  /** The recent slot is the start or an estimate the poller heard, and it heard no later one. */
  lemma {:induction false} RecentIsNewest(start: Slot, actions: seq<Action>, slot: Slot)
    ensures var recent := Run(start, actions).recentSlot;
      && recent >= start && (Heard(start, actions, slot) ==> slot <= recent)
      && (recent == start || Heard(start, actions, recent))
  {
    if actions != [] {
      var before, a := actions[..|actions| - 1], actions[|actions| - 1];
      assert actions == before + [a];
      RecentIsNewest(start, before, slot);
      RecentMoves(Run(start, before), a);
      HeardGrows(start, before, a, slot);
      HeardGrows(start, before, a, Run(start, actions).recentSlot);
    }
  }
}
