/**
 What the block emitter promises its subscribers, stated on the history of events it received and
 not on its state: which full blocks it has sent, how often, and in which order.
 */
module EmitterOrder {
  import opened Common
  import opened BlockEmitter

  predicate IsBlock(e: Event, h: Hash) {
    e.Block? && e.block.blockhash == h
  }

  predicate IsNotice(e: Event, level: Commitment, h: Hash) {
    e.Info? && e.level == level && e.info.blockhash == h
  }

  /** Two events that the tasks feeding the emitter never both deliver. */
  predicate Clash(e: Event, f: Event) {
    || (e.Block? && f.Block? && e.block.blockhash == f.block.blockhash)
    || (e.Info? && f.Info? && e.level == f.level && e.level != Processed && e.info.blockhash == f.info.blockhash)
  }

  /** At most one processed block and one confirmed and finalized notice per blockhash. */
  ghost predicate Legal(hist: seq<Event>) {
    && (forall i, j :: 0 <= i < j < |hist| ==> !Clash(hist[i], hist[j]))
    && (forall i :: 0 <= i < |hist| && hist[i].Block? ==> hist[i].block.commitment == Processed)
  }

  ghost predicate Arrived(hist: seq<Event>, h: Hash) {
    exists i :: 0 <= i < |hist| && IsBlock(hist[i], h)
  }

  /** The greatest slot of a finalized notice, 0 if there was none. */
  function LastFinalized(hist: seq<Event>): Slot {
    if hist == [] then 0
    else
      var before := LastFinalized(hist[..|hist| - 1]);
      var e := hist[|hist| - 1];
      if e.Info? && e.level == Finalized && e.info.slot > before then e.info.slot else before
  }

  /** A hundred slots or more behind the last finalized one, once there is one; slot 0 always is. */
  predicate FarBehind(slot: Slot, lastFinalized: Slot) {
    lastFinalized > 0 && (slot == 0 || slot + 100 <= lastFinalized)
  }

  /** Event n takes block b out of the cache. */
  predicate Evicts(hist: seq<Event>, n: nat, b: ProducedBlock)
    requires n < |hist|
  {
    || IsNotice(hist[n], Finalized, b.blockhash)
    || (hist[n].CleanupTick? && FarBehind(b.slot, LastFinalized(hist[..n])))
  }

  ghost predicate StillCached(hist: seq<Event>, i: nat)
    requires i < |hist| && hist[i].Block?
  {
    forall n :: i < n < |hist| ==> !Evicts(hist, n, hist[i].block)
  }

  /** Block b arrived, and since then neither its finalized notice nor a cleanup took it away. */
  ghost predicate Cached(hist: seq<Event>, b: ProducedBlock) {
    exists i :: 0 <= i < |hist| && hist[i] == Block(b) && StillCached(hist, i)
  }

  ghost predicate CachedHash(hist: seq<Event>, h: Hash) {
    exists b: ProducedBlock :: b.blockhash == h && Cached(hist, b)
  }

  /** Some finalized notice found its block in the cache. */
  ghost predicate Started(hist: seq<Event>) {
    exists k :: 0 <= k < |hist| && hist[k].Info? && hist[k].level == Finalized
      && CachedHash(hist[..k], hist[k].info.blockhash)
  }

  /** The notice came after the block and found it cached. */
  ghost predicate CaughtUp(hist: seq<Event>, level: Commitment, h: Hash) {
    exists j :: 0 <= j < |hist| && IsNotice(hist[j], level, h) && CachedHash(hist[..j], h)
  }

  /** The notice came before the block. For finalized notices only those after startup are kept. */
  ghost predicate Early(hist: seq<Event>, level: Commitment, h: Hash) {
    exists j, i :: 0 <= j < i < |hist| && IsNotice(hist[j], level, h) && IsBlock(hist[i], h)
                   && (level == Finalized ==> Started(hist[..j]))
  }

  /** Whether a full block of this hash is owed to the subscribers at this level. */
  ghost predicate Due(hist: seq<Event>, level: Commitment, h: Hash) {
    if level == Processed then Arrived(hist, h) else CaughtUp(hist, level, h) || Early(hist, level, h)
  }

  function Count(sent: seq<ProducedBlock>, level: Commitment, h: Hash): nat {
    if sent == [] then 0
    else
      var last := sent[|sent| - 1];
      Count(sent[..|sent| - 1], level, h) + if last.commitment == level && last.blockhash == h then 1 else 0
  }

  /** No confirmed or finalized block is sent before the same block was sent as processed. */
  ghost predicate ProcessedFirst(sent: seq<ProducedBlock>) {
    forall q :: 0 <= q < |sent| ==> sent[q].commitment == Processed || At(sent[q], Processed) in sent[..q]
  }

  /** The confirmed block follows the finalized one, against the documented order. */
  ghost predicate ConfirmedAfterFinalized(sent: seq<ProducedBlock>, h: Hash) {
    exists p, q :: 0 <= p < q < |sent| && sent[p].blockhash == sent[q].blockhash == h
                   && sent[p].commitment == Finalized && sent[q].commitment == Confirmed
  }

  // ----- how the history predicates grow with one event

  lemma {:induction false} CachedGrows(hist: seq<Event>, e: Event, b: ProducedBlock)
    requires Legal(hist + [e])
    ensures Cached(hist + [e], b) <==> e == Block(b) || (Cached(hist, b) && !Evicts(hist + [e], |hist|, b))
  {
    var all := hist + [e];
    assert forall n :: 0 <= n < |hist| ==> all[..n] == hist[..n];
    if Cached(all, b) && e != Block(b) {
      var i :| 0 <= i < |all| && all[i] == Block(b) && StillCached(all, i);
      assert i < |hist| && hist[i] == Block(b);
      assert !Evicts(all, |hist|, b);
      forall n | i < n < |hist| ensures !Evicts(hist, n, b) {
        assert !Evicts(all, n, b);
      }
      assert StillCached(hist, i);
    }
    if e == Block(b) {
      assert StillCached(all, |hist|);
    } else if Cached(hist, b) && !Evicts(all, |hist|, b) {
      var i :| 0 <= i < |hist| && hist[i] == Block(b) && StillCached(hist, i);
      forall n | i < n < |all| ensures !Evicts(all, n, b) {
        if n < |hist| { assert !Evicts(hist, n, b); }
      }
      assert StillCached(all, i);
    }
  }

  lemma {:induction false} ArrivedGrows(hist: seq<Event>, e: Event, h: Hash)
    ensures Arrived(hist + [e], h) <==> Arrived(hist, h) || IsBlock(e, h)
  {
    var all := hist + [e];
    if Arrived(hist, h) {
      var i :| 0 <= i < |hist| && IsBlock(hist[i], h);
      assert IsBlock(all[i], h);
    }
    if IsBlock(e, h) { assert IsBlock(all[|hist|], h); }
  }

  lemma {:induction false} StartedGrows(hist: seq<Event>, e: Event)
    ensures Started(hist + [e]) <==>
      Started(hist) || (e.Info? && e.level == Finalized && CachedHash(hist, e.info.blockhash))
  {
    var all := hist + [e];
    assert forall n :: 0 <= n <= |hist| ==> all[..n] == hist[..n];
    assert hist[..|hist|] == hist;
    if Started(hist) {
      var k :| 0 <= k < |hist| && hist[k].Info? && hist[k].level == Finalized
        && CachedHash(hist[..k], hist[k].info.blockhash);
      assert all[k].Info? && CachedHash(all[..k], all[k].info.blockhash);
    }
    if e.Info? && e.level == Finalized && CachedHash(hist, e.info.blockhash) {
      assert all[|hist|] == e && CachedHash(all[..|hist|], all[|hist|].info.blockhash);
    }
  }

  lemma {:induction false} CaughtUpGrows(hist: seq<Event>, e: Event, level: Commitment, h: Hash)
    ensures CaughtUp(hist + [e], level, h) <==>
      CaughtUp(hist, level, h) || (IsNotice(e, level, h) && CachedHash(hist, h))
  {
    var all := hist + [e];
    assert forall n :: 0 <= n <= |hist| ==> all[..n] == hist[..n];
    assert hist[..|hist|] == hist;
    if CaughtUp(hist, level, h) {
      var j :| 0 <= j < |hist| && IsNotice(hist[j], level, h) && CachedHash(hist[..j], h);
      assert IsNotice(all[j], level, h) && CachedHash(all[..j], h);
    }
    if IsNotice(e, level, h) && CachedHash(hist, h) {
      assert IsNotice(all[|hist|], level, h) && CachedHash(all[..|hist|], h);
    }
  }

  /** A notice that the emitter keeps: any confirmed one, or a finalized one after startup. */
  ghost predicate Kept(hist: seq<Event>, level: Commitment, h: Hash) {
    exists j :: 0 <= j < |hist| && IsNotice(hist[j], level, h) && (level == Finalized ==> Started(hist[..j]))
  }

  lemma {:induction false} KeptGrows(hist: seq<Event>, e: Event, level: Commitment, h: Hash)
    ensures Kept(hist + [e], level, h) <==>
      Kept(hist, level, h) || (IsNotice(e, level, h) && (level == Finalized ==> Started(hist)))
  {
    var all := hist + [e];
    assert forall n :: 0 <= n <= |hist| ==> all[..n] == hist[..n];
    assert hist[..|hist|] == hist;
    if Kept(hist, level, h) {
      var j :| 0 <= j < |hist| && IsNotice(hist[j], level, h) && (level == Finalized ==> Started(hist[..j]));
      assert IsNotice(all[j], level, h) && all[..j] == hist[..j];
    }
    if IsNotice(e, level, h) && (level == Finalized ==> Started(hist)) {
      assert IsNotice(all[|hist|], level, h) && all[..|hist|] == hist;
    }
  }

  lemma {:induction false} EarlyGrows(hist: seq<Event>, e: Event, level: Commitment, h: Hash)
    ensures Early(hist + [e], level, h) <==> Early(hist, level, h) || (IsBlock(e, h) && Kept(hist, level, h))
  {
    var all := hist + [e];
    assert forall n :: 0 <= n <= |hist| ==> all[..n] == hist[..n];
    if Early(all, level, h) {
      var j, i :| 0 <= j < i < |all| && IsNotice(all[j], level, h) && IsBlock(all[i], h)
        && (level == Finalized ==> Started(all[..j]));
      assert IsNotice(hist[j], level, h) && all[..j] == hist[..j];
      if i < |hist| { assert IsBlock(hist[i], h); }
    }
    if Early(hist, level, h) {
      var j, i :| 0 <= j < i < |hist| && IsNotice(hist[j], level, h) && IsBlock(hist[i], h)
        && (level == Finalized ==> Started(hist[..j]));
      assert IsNotice(all[j], level, h) && IsBlock(all[i], h) && all[..j] == hist[..j];
    }
    if IsBlock(e, h) && Kept(hist, level, h) {
      var j :| 0 <= j < |hist| && IsNotice(hist[j], level, h) && (level == Finalized ==> Started(hist[..j]));
      assert IsNotice(all[j], level, h) && IsBlock(all[|hist|], h) && all[..j] == hist[..j];
    }
  }

  lemma {:induction false} LegalPrefix(hist: seq<Event>, e: Event)
    requires Legal(hist + [e])
    ensures Legal(hist)
  {
    assert forall n :: 0 <= n < |hist| ==> (hist + [e])[n] == hist[n];
  }

  // ----- a legal history never repeats a block or a notice

  lemma {:induction false} FirstBlock(hist: seq<Event>, e: Event, h: Hash)
    requires Legal(hist + [e]) && IsBlock(e, h)
    ensures !Arrived(hist, h) && !CachedHash(hist, h)
    ensures forall level :: !Due(hist, level, h)
  {
    var all := hist + [e];
    forall i | 0 <= i < |hist| ensures !IsBlock(hist[i], h) {
      assert !Clash(all[i], all[|hist|]);
    }
    forall j | 0 <= j <= |hist| ensures !CachedHash(hist[..j], h) {
      CachedMeansArrived(hist, j, h);
    }
    assert hist[..|hist|] == hist;
  }

  lemma {:induction false} CachedMeansArrived(hist: seq<Event>, j: nat, h: Hash)
    requires j <= |hist|
    ensures CachedHash(hist[..j], h) ==> Arrived(hist, h)
  {
    if CachedHash(hist[..j], h) {
      var b: ProducedBlock :| b.blockhash == h && Cached(hist[..j], b);
      var i :| 0 <= i < j && hist[..j][i] == Block(b);
      assert IsBlock(hist[i], h);
    }
  }

  lemma {:induction false} FirstNotice(hist: seq<Event>, e: Event, level: Commitment, h: Hash)
    requires Legal(hist + [e]) && IsNotice(e, level, h) && level != Processed
    ensures !Kept(hist, level, h) && !Due(hist, level, h)
  {
    var all := hist + [e];
    forall j | 0 <= j < |hist| ensures !IsNotice(hist[j], level, h) {
      assert !Clash(all[j], all[|hist|]);
    }
  }

  // ----- the state of the emitter is determined by the history

  ghost predicate CacheMatches(hist: seq<Event>, s: Emitter) {
    && s.lastFinalizedSlot == LastFinalized(hist)
    && (s.startupCompleted <==> Started(hist))
    && (forall h :: h in s.cache ==> s.cache[h].blockhash == h && s.cache[h].commitment == Processed)
    && (forall b :: Cached(hist, b) <==> b.blockhash in s.cache && s.cache[b.blockhash] == b)
  }

  ghost predicate WaitingMatches(hist: seq<Event>, s: Emitter) {
    && (forall h :: h in s.confirmedWaiting <==> Kept(hist, Confirmed, h) && !Due(hist, Confirmed, h))
    && (forall h :: h in s.finalizedWaiting <==> Kept(hist, Finalized, h) && !Due(hist, Finalized, h))
  }

  /** Every full block that is due was sent exactly once, and nothing else was sent. */
  ghost predicate SentExactlyDue(hist: seq<Event>, s: Emitter) {
    forall level, h :: Count(s.sent, level, h) == if Due(hist, level, h) then 1 else 0
  }

  lemma {:induction false} CachedHashIsCached(hist: seq<Event>, s: Emitter, h: Hash)
    requires CacheMatches(hist, s)
    ensures CachedHash(hist, h) <==> h in s.cache
  {
    if h in s.cache { assert Cached(hist, s.cache[h]); }
  }

  /** A cleanup tick keeps exactly the blocks that are not far behind. */
  lemma {:induction false} TickKeeps(s: Emitter, h: Hash)
    requires h in s.cache && !Stalled(s)
    ensures h in OnCleanupTick(s).cache <==>
      s.lastFinalizedSlot == 0 || (s.cache[h].slot > 0 && s.cache[h].slot + 100 > s.lastFinalizedSlot)
    ensures h in OnCleanupTick(s).cache ==> OnCleanupTick(s).cache[h] == s.cache[h]
  {
  }

  lemma {:induction false} CachedStep(hist: seq<Event>, s: Emitter, e: Event, b: ProducedBlock)
    requires Legal(hist + [e]) && CacheMatches(hist, s) && s.running && Step(s, e).running
    ensures Cached(hist + [e], b) <==> b.blockhash in Step(s, e).cache && Step(s, e).cache[b.blockhash] == b
  {
    assert (hist + [e])[..|hist|] == hist;
    CachedGrows(hist, e, b);
    if e.Block? {
      FirstBlock(hist, e, e.block.blockhash);
      CachedHashIsCached(hist, s, e.block.blockhash);
    }
  }

  lemma {:induction false} StartedStep(hist: seq<Event>, s: Emitter, e: Event)
    requires CacheMatches(hist, s) && s.running && (e.Block? ==> e.block.commitment == Processed)
    ensures Step(s, e).lastFinalizedSlot == LastFinalized(hist + [e])
    ensures Step(s, e).startupCompleted <==> Started(hist + [e])
  {
    assert (hist + [e])[..|hist|] == hist;
    StartedGrows(hist, e);
    if e.Info? { CachedHashIsCached(hist, s, e.info.blockhash); }
  }

  lemma {:induction false} CachedBlocksKeep(s: Emitter, e: Event)
    requires forall h :: h in s.cache ==> s.cache[h].blockhash == h && s.cache[h].commitment == Processed
    requires e.Block? ==> e.block.commitment == Processed
    ensures forall h :: h in Step(s, e).cache ==>
      Step(s, e).cache[h].blockhash == h && Step(s, e).cache[h].commitment == Processed
  {
  }

  lemma {:induction false} CacheStep(hist: seq<Event>, s: Emitter, e: Event)
    requires Legal(hist + [e]) && CacheMatches(hist, s) && s.running && Step(s, e).running
    ensures CacheMatches(hist + [e], Step(s, e))
  {
    assert e.Block? ==> (hist + [e])[|hist|].block.commitment == Processed;
    StartedStep(hist, s, e);
    CachedBlocksKeep(s, e);
    forall b
      ensures Cached(hist + [e], b) <==> b.blockhash in Step(s, e).cache && Step(s, e).cache[b.blockhash] == b
    {
      CachedStep(hist, s, e, b);
    }
  }

  lemma {:induction false} DueGrows(hist: seq<Event>, e: Event, level: Commitment, h: Hash)
    ensures Due(hist + [e], level, h) <==>
      || Due(hist, level, h)
      || (if level == Processed then IsBlock(e, h)
          else (IsNotice(e, level, h) && CachedHash(hist, h)) || (IsBlock(e, h) && Kept(hist, level, h)))
  {
    ArrivedGrows(hist, e, h);
    CaughtUpGrows(hist, e, level, h);
    EarlyGrows(hist, e, level, h);
  }

  function Waiting(s: Emitter, level: Commitment): set<Hash> {
    if level == Confirmed then s.confirmedWaiting else s.finalizedWaiting
  }

  /** How one event changes the waiting sets. */
  lemma {:induction false} WaitingMoves(s: Emitter, e: Event, level: Commitment, h: Hash)
    requires level != Processed && s.running
    ensures h in Waiting(Step(s, e), level) <==>
      || (h in Waiting(s, level) && !IsBlock(e, h))
      || (IsNotice(e, level, h) && h !in s.cache && (level == Finalized ==> s.startupCompleted))
  {
  }

  lemma {:induction false} WaitingIs(hist: seq<Event>, s: Emitter, level: Commitment, h: Hash)
    requires WaitingMatches(hist, s) && level != Processed
    ensures h in Waiting(s, level) <==> Kept(hist, level, h) && !Due(hist, level, h)
  {
  }

  lemma {:induction false} WaitingStepAt(hist: seq<Event>, s: Emitter, e: Event, level: Commitment, h: Hash)
    requires Legal(hist + [e]) && CacheMatches(hist, s) && WaitingMatches(hist, s) && s.running && level != Processed
    ensures h in Waiting(Step(s, e), level) <==> Kept(hist + [e], level, h) && !Due(hist + [e], level, h)
  {
    WaitingMoves(s, e, level, h);
    WaitingIs(hist, s, level, h);
    KeptGrows(hist, e, level, h);
    DueGrows(hist, e, level, h);
    CachedHashIsCached(hist, s, h);
    if IsBlock(e, h) {
      FirstBlock(hist, e, h);
    } else if IsNotice(e, level, h) {
      FirstNotice(hist, e, level, h);
    }
  }

  lemma {:induction false} WaitingStep(hist: seq<Event>, s: Emitter, e: Event)
    requires Legal(hist + [e]) && CacheMatches(hist, s) && WaitingMatches(hist, s) && s.running && Step(s, e).running
    ensures WaitingMatches(hist + [e], Step(s, e))
  {
    forall level, h | level != Processed
      ensures h in Waiting(Step(s, e), level) <==> Kept(hist + [e], level, h) && !Due(hist + [e], level, h)
    {
      WaitingStepAt(hist, s, e, level, h);
    }
    assert forall h :: h in Step(s, e).confirmedWaiting <==> h in Waiting(Step(s, e), Confirmed);
    assert forall h :: h in Step(s, e).finalizedWaiting <==> h in Waiting(Step(s, e), Finalized);
  }

  /** The blocks that one event makes the emitter send. */
  function Emission(s: Emitter, e: Event): seq<ProducedBlock> {
    match e
    case Block(b) => [b] + (if b.blockhash in s.confirmedWaiting then [At(b, Confirmed)] else [])
                         + (if b.blockhash in s.finalizedWaiting then [At(b, Finalized)] else [])
    case Info(level, i) =>
      if level != Processed && i.blockhash in s.cache then [At(s.cache[i.blockhash], level)] else []
    case CleanupTick => []
  }

  lemma {:induction false} StepSends(s: Emitter, e: Event)
    requires s.running
    ensures Step(s, e).sent == s.sent + Emission(s, e)
  {
  }

  lemma {:induction false} CountConcat(sent: seq<ProducedBlock>, more: seq<ProducedBlock>, level: Commitment, h: Hash)
    ensures Count(sent + more, level, h) == Count(sent, level, h) + Count(more, level, h)
  {
    if more == [] {
      assert sent + more == sent;
    } else {
      CountConcat(sent, more[..|more| - 1], level, h);
      assert (sent + more)[..|sent + more| - 1] == sent + more[..|more| - 1];
    }
  }

  lemma {:induction false} CountBlockEmission(
      b: ProducedBlock, confirmed: bool, finalized: bool, level: Commitment, h: Hash)
    requires b.commitment == Processed
    ensures var c := if confirmed then [At(b, Confirmed)] else [];
      var f := if finalized then [At(b, Finalized)] else [];
      var due := level == Processed || (level == Confirmed && confirmed) || (level == Finalized && finalized);
      Count([b] + c + f, level, h) == if b.blockhash == h && due then 1 else 0
  {
    var c := if confirmed then [At(b, Confirmed)] else [];
    var f := if finalized then [At(b, Finalized)] else [];
    CountConcat([b] + c, f, level, h);
    CountConcat([b], c, level, h);
  }

  /** The event makes the emitter send this block at this level. */
  predicate Sends(s: Emitter, e: Event, level: Commitment, h: Hash) {
    || (IsBlock(e, h) && (level == Processed || h in Waiting(s, level)))
    || (IsNotice(e, level, h) && level != Processed && h in s.cache)
  }

  lemma {:induction false} NoticeEmission(s: Emitter, l: Commitment, i: BlockInfo, level: Commitment, h: Hash)
    requires i.blockhash in s.cache ==> s.cache[i.blockhash].blockhash == i.blockhash
    ensures Count(Emission(s, Info(l, i)), level, h) == if Sends(s, Info(l, i), level, h) then 1 else 0
  {
    if l != Processed && i.blockhash in s.cache {
      assert [At(s.cache[i.blockhash], l)][..0] == [];
    }
  }

  lemma {:induction false} EmissionIsSent(s: Emitter, e: Event, level: Commitment, h: Hash)
    requires forall x :: x in s.cache ==> s.cache[x].blockhash == x
    requires e.Block? ==> e.block.commitment == Processed
    ensures Count(Emission(s, e), level, h) == if Sends(s, e, level, h) then 1 else 0
  {
    match e
    case Block(b) =>
      CountBlockEmission(b, b.blockhash in s.confirmedWaiting, b.blockhash in s.finalizedWaiting, level, h);
    case Info(l, i) => NoticeEmission(s, l, i, level, h);
    case CleanupTick =>
  }

  lemma {:induction false} SendsNewlyDue(hist: seq<Event>, s: Emitter, e: Event, level: Commitment, h: Hash)
    requires Legal(hist + [e]) && CacheMatches(hist, s) && WaitingMatches(hist, s)
    ensures Sends(s, e, level, h) <==> Due(hist + [e], level, h) && !Due(hist, level, h)
  {
    DueGrows(hist, e, level, h);
    CachedHashIsCached(hist, s, h);
    if IsBlock(e, h) {
      FirstBlock(hist, e, h);
    } else if IsNotice(e, level, h) && level != Processed {
      FirstNotice(hist, e, level, h);
    }
    if level != Processed { WaitingIs(hist, s, level, h); }
  }

  lemma {:induction false} EmissionIsNewlyDue(hist: seq<Event>, s: Emitter, e: Event, level: Commitment, h: Hash)
    requires Legal(hist + [e]) && CacheMatches(hist, s) && WaitingMatches(hist, s)
    ensures Count(Emission(s, e), level, h) == if Due(hist + [e], level, h) && !Due(hist, level, h) then 1 else 0
  {
    assert (hist + [e])[|hist|] == e;
    EmissionIsSent(s, e, level, h);
    SendsNewlyDue(hist, s, e, level, h);
  }

  lemma {:induction false} SentStep(hist: seq<Event>, s: Emitter, e: Event)
    requires Legal(hist + [e]) && CacheMatches(hist, s) && WaitingMatches(hist, s) && SentExactlyDue(hist, s)
    requires s.running
    ensures SentExactlyDue(hist + [e], Step(s, e))
  {
    StepSends(s, e);
    forall level, h ensures Count(Step(s, e).sent, level, h) == if Due(hist + [e], level, h) then 1 else 0 {
      CountConcat(s.sent, Emission(s, e), level, h);
      EmissionIsNewlyDue(hist, s, e, level, h);
      DueGrows(hist, e, level, h);
    }
  }

  // ----- the order of the sent blocks

  /** The finalized notice came first, then the block, then the confirmed notice while the block was cached. */
  ghost predicate LateConfirmed(hist: seq<Event>, h: Hash) {
    exists j :: 0 <= j < |hist| && IsNotice(hist[j], Confirmed, h) && CachedHash(hist[..j], h)
      && Early(hist[..j], Finalized, h)
  }

  lemma {:induction false} LateConfirmedGrows(hist: seq<Event>, e: Event, h: Hash)
    ensures LateConfirmed(hist + [e], h) <==>
      LateConfirmed(hist, h) || (IsNotice(e, Confirmed, h) && CachedHash(hist, h) && Early(hist, Finalized, h))
  {
    var all := hist + [e];
    assert forall n :: 0 <= n <= |hist| ==> all[..n] == hist[..n];
    assert hist[..|hist|] == hist;
    if LateConfirmed(hist, h) {
      var j :| 0 <= j < |hist| && IsNotice(hist[j], Confirmed, h) && CachedHash(hist[..j], h)
        && Early(hist[..j], Finalized, h);
      assert IsNotice(all[j], Confirmed, h) && all[..j] == hist[..j];
    }
    if IsNotice(e, Confirmed, h) && CachedHash(hist, h) && Early(hist, Finalized, h) {
      assert IsNotice(all[|hist|], Confirmed, h) && all[..|hist|] == hist;
    }
  }

  /** A finalized notice that found its block cached took it out for good. */
  lemma {:induction false} CaughtUpEvicts(hist: seq<Event>, h: Hash)
    requires Legal(hist) && CaughtUp(hist, Finalized, h)
    ensures !CachedHash(hist, h)
  {
    var k :| 0 <= k < |hist| && IsNotice(hist[k], Finalized, h) && CachedHash(hist[..k], h);
    var b: ProducedBlock :| b.blockhash == h && Cached(hist[..k], b);
    var i :| 0 <= i < k && hist[..k][i] == Block(b);
    forall c: ProducedBlock, i' | c.blockhash == h && 0 <= i' < |hist| && hist[i'] == Block(c)
      ensures !StillCached(hist, i')
    {
      assert i' == i by {
        if i' < i { assert Clash(hist[i'], hist[i]); }
        if i < i' { assert Clash(hist[i], hist[i']); }
      }
      assert Evicts(hist, k, c);
    }
  }

  lemma {:induction false} CountPositive(sent: seq<ProducedBlock>, level: Commitment, h: Hash)
    ensures Count(sent, level, h) > 0 <==>
      exists p :: 0 <= p < |sent| && sent[p].commitment == level && sent[p].blockhash == h
  {
    if sent != [] {
      var front := sent[..|sent| - 1];
      CountPositive(front, level, h);
      if Count(front, level, h) > 0 {
        var p :| 0 <= p < |front| && front[p].commitment == level && front[p].blockhash == h;
        assert sent[p] == front[p];
      } else {
        assert forall p :: 0 <= p < |front| ==> sent[p] == front[p];
      }
    }
  }

  /** Appending a confirmed block breaks the order exactly if the finalized one was sent already. */
  lemma {:induction false} OrderOfConfirmed(sent: seq<ProducedBlock>, b: ProducedBlock, h: Hash)
    requires b.commitment == Confirmed
    ensures ConfirmedAfterFinalized(sent + [b], h) <==>
      ConfirmedAfterFinalized(sent, h) || (b.blockhash == h && Count(sent, Finalized, h) > 0)
  {
    CountPositive(sent, Finalized, h);
    var all := sent + [b];
    if ConfirmedAfterFinalized(sent, h) {
      var p, q :| 0 <= p < q < |sent| && sent[p].blockhash == sent[q].blockhash == h && sent[p].commitment == Finalized
        && sent[q].commitment == Confirmed;
      assert all[p] == sent[p] && all[q] == sent[q];
    }
    if b.blockhash == h && Count(sent, Finalized, h) > 0 {
      var p :| 0 <= p < |sent| && sent[p].commitment == Finalized && sent[p].blockhash == h;
      assert all[p] == sent[p] && all[|sent|] == b;
    }
    if ConfirmedAfterFinalized(all, h) {
      var p, q :| 0 <= p < q < |all| && all[p].blockhash == all[q].blockhash == h && all[p].commitment == Finalized
        && all[q].commitment == Confirmed;
      assert all[p] == sent[p];
      if q < |sent| { assert all[q] == sent[q]; }
    }
  }

  lemma {:induction false} OrderOfOthers(sent: seq<ProducedBlock>, b: ProducedBlock, h: Hash)
    requires b.commitment != Confirmed
    ensures ConfirmedAfterFinalized(sent + [b], h) <==> ConfirmedAfterFinalized(sent, h)
  {
    var all := sent + [b];
    if ConfirmedAfterFinalized(sent, h) {
      var p, q :| 0 <= p < q < |sent| && sent[p].blockhash == sent[q].blockhash == h && sent[p].commitment == Finalized
        && sent[q].commitment == Confirmed;
      assert all[p] == sent[p] && all[q] == sent[q];
    }
    if ConfirmedAfterFinalized(all, h) {
      var p, q :| 0 <= p < q < |all| && all[p].blockhash == all[q].blockhash == h && all[p].commitment == Finalized
        && all[q].commitment == Confirmed;
      assert all[p] == sent[p] && all[q] == sent[q];
    }
  }

  /** A processed block, and right after it its confirmed copy, break no order if nothing was finalized yet. */
  lemma {:induction false} OrderOfPair(sent: seq<ProducedBlock>, b: ProducedBlock, h: Hash)
    requires b.commitment == Processed && Count(sent, Finalized, b.blockhash) == 0
    ensures ConfirmedAfterFinalized(sent + [b], h) <==> ConfirmedAfterFinalized(sent, h)
    ensures ConfirmedAfterFinalized(sent + [b] + [At(b, Confirmed)], h) <==> ConfirmedAfterFinalized(sent, h)
  {
    OrderOfOthers(sent, b, h);
    CountConcat(sent, [b], Finalized, b.blockhash);
    OrderOfConfirmed(sent + [b], At(b, Confirmed), h);
  }

  lemma {:induction false} OrderOfBlock(s: Emitter, b: ProducedBlock, h: Hash)
    requires s.running && b.commitment == Processed && Count(s.sent, Finalized, b.blockhash) == 0
    ensures ConfirmedAfterFinalized(OnBlock(s, b).sent, h) <==> ConfirmedAfterFinalized(s.sent, h)
  {
    OrderOfPair(s.sent, b, h);
    var copy := if b.blockhash in s.confirmedWaiting then [At(b, Confirmed)] else [];
    var sent := s.sent + [b] + copy;
    assert copy == [] ==> sent == s.sent + [b];
    if b.blockhash in s.finalizedWaiting {
      OrderOfOthers(sent, At(b, Finalized), h);
    } else {
      assert sent + [] == sent;
    }
  }

  lemma {:induction false} CachedAndFinalized(hist: seq<Event>, h: Hash)
    requires Legal(hist) && CachedHash(hist, h)
    ensures Due(hist, Finalized, h) <==> Early(hist, Finalized, h)
  {
    if CaughtUp(hist, Finalized, h) { CaughtUpEvicts(hist, h); }
  }

  lemma {:induction false} OrderOfNotice(s: Emitter, e: Event, h: Hash)
    requires s.running && e.Info?
    requires e.info.blockhash in s.cache ==> s.cache[e.info.blockhash].blockhash == e.info.blockhash
    ensures ConfirmedAfterFinalized(Step(s, e).sent, h) <==>
      ConfirmedAfterFinalized(s.sent, h)
        || (IsNotice(e, Confirmed, h) && h in s.cache && Count(s.sent, Finalized, h) > 0)
  {
    var b := e.info.blockhash;
    if b in s.cache && e.level == Confirmed {
      OrderOfConfirmed(s.sent, At(s.cache[b], Confirmed), h);
    } else if b in s.cache && e.level == Finalized {
      OrderOfOthers(s.sent, At(s.cache[b], Finalized), h);
    }
  }

  lemma {:induction false} OrderStep(hist: seq<Event>, s: Emitter, e: Event, h: Hash)
    requires Legal(hist + [e]) && CacheMatches(hist, s) && SentExactlyDue(hist, s) && s.running
    requires ConfirmedAfterFinalized(s.sent, h) <==> LateConfirmed(hist, h)
    ensures ConfirmedAfterFinalized(Step(s, e).sent, h) <==> LateConfirmed(hist + [e], h)
  {
    LateConfirmedGrows(hist, e, h);
    if e.Block? {
      assert (hist + [e])[|hist|] == e;
      FirstBlock(hist, e, e.block.blockhash);
      OrderOfBlock(s, e.block, h);
    } else if e.Info? {
      LegalPrefix(hist, e);
      CachedHashIsCached(hist, s, h);
      OrderOfNotice(s, e, h);
      if CachedHash(hist, h) { CachedAndFinalized(hist, h); }
    }
  }

  /** Every cached block was sent before. */
  ghost predicate CacheWasSent(s: Emitter) {
    forall h :: h in s.cache ==> s.cache[h] in s.sent && s.cache[h].commitment == Processed
  }

  lemma {:induction false} ProcessedFirstAppend(sent: seq<ProducedBlock>, b: ProducedBlock)
    requires ProcessedFirst(sent) && (b.commitment == Processed || At(b, Processed) in sent)
    ensures ProcessedFirst(sent + [b])
  {
    var all := sent + [b];
    forall q | 0 <= q < |all| ensures all[q].commitment == Processed || At(all[q], Processed) in all[..q] {
      if q < |sent| { assert all[..q] == sent[..q]; } else { assert all[..q] == sent; }
    }
  }

  lemma {:induction false} ProcessedFirstStep(s: Emitter, e: Event)
    requires ProcessedFirst(s.sent) && CacheWasSent(s) && s.running && (e.Block? ==> e.block.commitment == Processed)
    ensures ProcessedFirst(Step(s, e).sent) && CacheWasSent(Step(s, e))
  {
    StepSends(s, e);
    match e
    case Block(b) =>
      ProcessedFirstAppend(s.sent, b);
      var sent := s.sent + [b];
      assert At(At(b, Confirmed), Processed) == b == At(At(b, Finalized), Processed);
      if b.blockhash in s.confirmedWaiting {
        ProcessedFirstAppend(sent, At(b, Confirmed));
        sent := sent + [At(b, Confirmed)];
      }
      if b.blockhash in s.finalizedWaiting {
        ProcessedFirstAppend(sent, At(b, Finalized));
        sent := sent + [At(b, Finalized)];
      }
      assert sent == Step(s, e).sent && b in sent;
    case Info(level, i) =>
      if level != Processed && i.blockhash in s.cache {
        var cached := s.cache[i.blockhash];
        assert At(At(cached, level), Processed) == cached;
        ProcessedFirstAppend(s.sent, At(cached, level));
      } else {
        assert s.sent + [] == s.sent;
      }
    case CleanupTick => assert s.sent + [] == s.sent;
  }

  // ----- the promises, for every legal history

  ghost predicate Promises(hist: seq<Event>, s: Emitter) {
    && SentExactlyDue(hist, s)
    && ProcessedFirst(s.sent)
    && (forall h :: ConfirmedAfterFinalized(s.sent, h) <==> LateConfirmed(hist, h))
  }

  lemma {:induction false} EmitterInvariant(hist: seq<Event>)
    requires Legal(hist) && Run(hist).running
    ensures CacheMatches(hist, Run(hist)) && WaitingMatches(hist, Run(hist)) && CacheWasSent(Run(hist))
    ensures Promises(hist, Run(hist))
  {
    if hist != [] {
      var before, e := hist[..|hist| - 1], hist[|hist| - 1];
      assert before + [e] == hist;
      var s := Run(before);
      LegalPrefix(before, e);
      EmitterInvariant(before);
      CacheStep(before, s, e);
      WaitingStep(before, s, e);
      SentStep(before, s, e);
      ProcessedFirstStep(s, e);
      forall h ensures ConfirmedAfterFinalized(Run(hist).sent, h) <==> LateConfirmed(hist, h) {
        OrderStep(before, s, e, h);
      }
    }
  }

  /** Each full block is sent at most once per level and never before its processed block. */
  lemma {:induction false} AtMostOnce(hist: seq<Event>, level: Commitment, h: Hash)
    requires Legal(hist) && Run(hist).running
    ensures Count(Run(hist).sent, level, h) <= 1
    ensures Count(Run(hist).sent, level, h) <= Count(Run(hist).sent, Processed, h)
  {
    EmitterInvariant(hist);
    if Due(hist, level, h) && level != Processed {
      if CaughtUp(hist, level, h) {
        var j :| 0 <= j < |hist| && IsNotice(hist[j], level, h) && CachedHash(hist[..j], h);
        CachedMeansArrived(hist, j, h);
      }
    }
  }

  /**
   Once block and confirmed notice have both arrived, exactly one confirmed block is sent if the
   notice came first or found the block cached, and none otherwise.
   */
  lemma {:induction false} ExactlyOneConfirmed(hist: seq<Event>, h: Hash, i: nat, j: nat)
    requires Legal(hist) && Run(hist).running
    requires i < |hist| && IsBlock(hist[i], h)
    requires j < |hist| && IsNotice(hist[j], Confirmed, h)
    ensures Count(Run(hist).sent, Confirmed, h) == if j < i || CachedHash(hist[..j], h) then 1 else 0
  {
    EmitterInvariant(hist);
    forall n | 0 <= n < |hist| && (IsBlock(hist[n], h) || IsNotice(hist[n], Confirmed, h)) ensures n == i || n == j {
      if IsBlock(hist[n], h) {
        if n < i { assert Clash(hist[n], hist[i]); }
        if i < n { assert Clash(hist[i], hist[n]); }
      } else {
        if n < j { assert Clash(hist[n], hist[j]); }
        if j < n { assert Clash(hist[j], hist[n]); }
      }
    }
  }

  /** The finalized notices before position j are at most 99 slots ahead of this slot. */
  ghost predicate Recent(hist: seq<Event>, j: nat, slot: Slot)
    requires j <= |hist|
  {
    forall n :: 0 <= n < j && hist[n].Info? && hist[n].level == Finalized ==> hist[n].info.slot < slot + 100
  }

  lemma {:induction false} RecentBound(hist: seq<Event>, j: nat, slot: Slot)
    requires j <= |hist| && slot > 0 && Recent(hist, j, slot)
    ensures LastFinalized(hist[..j]) < slot + 100
  {
    if j > 0 {
      RecentBound(hist, j - 1, slot);
      assert hist[..j][..j - 1] == hist[..j - 1];
    }
  }

  lemma {:induction false} RecentStaysCached(hist: seq<Event>, i: nat, j: nat)
    requires i < j <= |hist| && hist[i].Block? && hist[i].block.slot > 0 && Recent(hist, j, hist[i].block.slot)
    requires forall n :: i < n < j ==> !IsNotice(hist[n], Finalized, hist[i].block.blockhash)
    ensures CachedHash(hist[..j], hist[i].block.blockhash)
  {
    var b := hist[i].block;
    forall n | i < n < j ensures !Evicts(hist[..j], n, b) {
      assert hist[..j][..n] == hist[..n];
      RecentBound(hist, n, b.slot);
    }
    assert hist[..j][i] == Block(b) && StillCached(hist[..j], i);
    assert Cached(hist[..j], b);
  }

  /** A recent block that is not finalized yet gets exactly one confirmed copy when its notice comes second. */
  lemma {:induction false} RecentBlockConfirmed(hist: seq<Event>, i: nat, j: nat)
    requires Legal(hist) && Run(hist).running && i < j < |hist| && hist[i].Block? && hist[i].block.slot > 0
    requires IsNotice(hist[j], Confirmed, hist[i].block.blockhash) && Recent(hist, j, hist[i].block.slot)
    requires forall n :: i < n < j ==> !IsNotice(hist[n], Finalized, hist[i].block.blockhash)
    ensures Count(Run(hist).sent, Confirmed, hist[i].block.blockhash) == 1
  {
    RecentStaysCached(hist, i, j);
    ExactlyOneConfirmed(hist, hist[i].block.blockhash, i, j);
  }

  // ----- notices are passed on, and a silent stream stops the loop

  function NoticesOf(hist: seq<Event>): seq<BlockInfo> {
    if hist == [] then []
    else NoticesOf(hist[..|hist| - 1]) + if hist[|hist| - 1].Info? then [hist[|hist| - 1].info] else []
  }

  /** Every notice is passed on as it came, whatever its level. */
  lemma {:induction false} NoticesPassedOn(hist: seq<Event>)
    requires Run(hist).running
    ensures Run(hist).infos == NoticesOf(hist)
  {
    if hist != [] { NoticesPassedOn(hist[..|hist| - 1]); }
  }

  datatype Stream = Blocks | ConfirmedNotices | FinalizedNotices

  predicate Heard(x: Stream, e: Event) {
    match x
    case Blocks => e.Block?
    case ConfirmedNotices => e.Info? && e.level == Confirmed
    case FinalizedNotices => e.Info? && e.level == Finalized
  }

  /** The cleanup ticks since the stream was last heard. */
  function Silence(hist: seq<Event>, x: Stream): nat {
    if hist == [] || Heard(x, hist[|hist| - 1]) then 0
    else Silence(hist[..|hist| - 1], x) + if hist[|hist| - 1].CleanupTick? then 1 else 0
  }

  function Counter(s: Emitter, x: Stream): nat {
    match x
    case Blocks => s.ticksWithoutBlock
    case ConfirmedNotices => s.ticksWithoutConfirmed
    case FinalizedNotices => s.ticksWithoutFinalized
  }

  lemma {:induction false} CounterStep(s: Emitter, e: Event, x: Stream)
    requires s.running && Step(s, e).running
    ensures Counter(Step(s, e), x) == if Heard(x, e) then 0 else Counter(s, x) + if e.CleanupTick? then 1 else 0
  {
  }

  lemma {:induction false} CountersAreSilence(hist: seq<Event>, x: Stream)
    requires Run(hist).running
    ensures Counter(Run(hist), x) == Silence(hist, x)
  {
    if hist != [] {
      CountersAreSilence(hist[..|hist| - 1], x);
      CounterStep(Run(hist[..|hist| - 1]), hist[|hist| - 1], x);
    }
  }

  lemma {:induction false} StalledIff(s: Emitter)
    ensures Stalled(s) <==> exists x :: Counter(s, x) >= 13
  {
    if Stalled(s) {
      assert Counter(s, Blocks) >= 13 || Counter(s, ConfirmedNotices) >= 13 || Counter(s, FinalizedNotices) >= 13;
    }
  }

  lemma {:induction false} SilentIff(hist: seq<Event>)
    requires Run(hist).running
    ensures Stalled(Run(hist)) <==> exists x :: Silence(hist, x) >= 13
  {
    StalledIff(Run(hist));
    forall x ensures Counter(Run(hist), x) == Silence(hist, x) { CountersAreSilence(hist, x); }
    if exists x :: Silence(hist, x) >= 13 {
      var x :| Silence(hist, x) >= 13;
      assert Counter(Run(hist), x) >= 13;
    }
    if exists x :: Counter(Run(hist), x) >= 13 {
      var x :| Counter(Run(hist), x) >= 13;
      assert Silence(hist, x) >= 13;
    }
  }

  lemma {:induction false} StepStops(s: Emitter, e: Event)
    requires s.running
    ensures !Step(s, e).running <==> e.CleanupTick? && Stalled(s)
  {
  }

  /** The loop stops exactly at a tick that finds some stream silent for thirteen ticks. */
  lemma {:induction false} StopsIff(hist: seq<Event>, e: Event)
    requires Run(hist).running
    ensures !Run(hist + [e]).running <==> e.CleanupTick? && exists x :: Silence(hist, x) >= 13
  {
    assert (hist + [e])[..|hist|] == hist;
    StepStops(Run(hist), e);
    SilentIff(hist);
  }

  // ----- the documented order

  const FirstExample := ProducedBlock(1, 10, [], Processed)
  const SecondExample := ProducedBlock(2, 20, [], Processed)

  /** A finalized notice that comes before its block. */
  const FinalizedFirst := [Block(FirstExample), Info(Finalized, BlockInfo(1, 10, 1, Finalized)),
                           Info(Finalized, BlockInfo(2, 20, 2, Finalized)), Block(SecondExample)]

  /** And after that block the confirmed notice. */
  const ConfirmedLast := FinalizedFirst + [Info(Confirmed, BlockInfo(2, 20, 2, Confirmed))]

  /** The block is sent as finalized at once and stays cached. */
  lemma {:induction false} FinalizedNoticeFirst()
    ensures var s := Run(FinalizedFirst); s.running && 20 in s.cache && s.cache[20] == SecondExample
    ensures |Run(FinalizedFirst).sent| == 4 && Run(FinalizedFirst).sent[3] == At(SecondExample, Finalized)
  {
    var hist := FinalizedFirst;
    assert hist[..3][..2] == hist[..2] && hist[..2][..1] == hist[..1] && hist[..1][..0] == [];
    assert Run(hist[..1]).cache == map[10 := FirstExample] && Run(hist[..1]).sent == [FirstExample];
    var two := Run(hist[..2]);
    assert two.startupCompleted && 20 !in two.cache && |two.sent| == 2;
    var three := Run(hist[..3]);
    assert 20 in three.finalizedWaiting && 20 !in three.confirmedWaiting && |three.sent| == 2;
  }

  /** The documented order processed, confirmed, finalized does not hold for every history. */
  lemma {:induction false} DocumentedOrderCanFail()
    ensures Legal(ConfirmedLast) && Run(ConfirmedLast).running && ConfirmedAfterFinalized(Run(ConfirmedLast).sent, 20)
  {
    FinalizedNoticeFirst();
    assert ConfirmedLast[..4] == FinalizedFirst;
    var sent := Run(ConfirmedLast).sent;
    assert sent[3] == At(SecondExample, Finalized) && sent[4] == At(SecondExample, Confirmed);
  }
}
