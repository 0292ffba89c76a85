/**
 What the block and transaction caches answer, read off the history of what was put into them
 (core/src/stores and the admission check of services/src/transaction_service.rs).
 */
module DataCacheRuns {
  import opened Common
  import FeeHeap
  import opened DataCache

  // ----- heights and latest blocks

  predicate AddsAbove(e: Event, height: nat) {
    e.BlockAdded? && e.info.blockHeight > height
  }

  /** The start or an added block is above this height. */
  ghost predicate HeightAbove(start: Cache, events: seq<Event>, height: nat) {
    start.blocks.lastBlockheight > height || exists n :: 0 <= n < |events| && AddsAbove(events[n], height)
  }

  lemma {:induction false} HeightAboveGrows(start: Cache, before: seq<Event>, e: Event, height: nat)
    ensures HeightAbove(start, before + [e], height) <==> HeightAbove(start, before, height) || AddsAbove(e, height)
  {
    var all := before + [e];
    assert all[|before|] == e;
    assert forall n :: 0 <= n < |before| ==> all[n] == before[n];
  }

  /** The last block height is the greatest height ever put in. */
  lemma {:induction false} LastHeightAbove(start: Cache, events: seq<Event>, height: nat)
    ensures Run(start, events).blocks.lastBlockheight > height <==> HeightAbove(start, events, height)
  {
    if events != [] {
      var before, e := events[..|events| - 1], events[|events| - 1];
      LastHeightAbove(start, before, height);
      assert events == before + [e];
      HeightAboveGrows(start, before, e, height);
    }
  }

  predicate AddsAt(e: Event, finalized: bool) {
    e.BlockAdded? && (e.info.commitment == Finalized <==> finalized)
  }

  /** The block is the start's or an added one of this kind, and none of them has a later slot. */
  ghost predicate IsLatest(b: BlockInformation, first: BlockInformation, events: seq<Event>, finalized: bool) {
    && (b == first
        || exists n :: 0 <= n < |events| && AddsAt(events[n], finalized) && b == FromBlockInfo(events[n].info))
    && b.slot >= first.slot
    && forall n :: 0 <= n < |events| && AddsAt(events[n], finalized) ==> events[n].info.slot <= b.slot
  }

  lemma {:induction false} LatestStep(
      b: BlockInformation, first: BlockInformation, before: seq<Event>, e: Event, finalized: bool)
    requires IsLatest(b, first, before, finalized)
    ensures IsLatest(if AddsAt(e, finalized) && e.info.slot > b.slot then FromBlockInfo(e.info) else b,
                     first, before + [e], finalized)
  {
    var all := before + [e];
    assert all[|before|] == e;
    assert forall n :: 0 <= n < |before| ==> all[n] == before[n];
    if b != first {
      var n :| 0 <= n < |before| && AddsAt(before[n], finalized) && b == FromBlockInfo(before[n].info);
      assert all[n] == before[n];
    }
  }

  /** The latest finalized block is the newest finalized one, and the latest confirmed block the newest other one. */
  lemma {:induction false} LatestBlocksAre(start: Cache, events: seq<Event>)
    ensures IsLatest(Run(start, events).blocks.latestFinalized, start.blocks.latestFinalized, events, true)
    ensures IsLatest(Run(start, events).blocks.latestConfirmed, start.blocks.latestConfirmed, events, false)
  {
    if events != [] {
      var before, e := events[..|events| - 1], events[|events| - 1];
      LatestBlocksAre(start, before);
      assert events == before + [e];
      LatestStep(Run(start, before).blocks.latestFinalized, start.blocks.latestFinalized, before, e, true);
      LatestStep(Run(start, before).blocks.latestConfirmed, start.blocks.latestConfirmed, before, e, false);
    }
  }

  // ----- which blocks are known

  ghost predicate Known(start: Cache, events: seq<Event>, h: Hash) {
    h in start.blocks.blocks || exists n :: 0 <= n < |events| && Adds(events[n], h)
  }

  lemma {:induction false} KnownGrows(start: Cache, before: seq<Event>, e: Event, h: Hash)
    ensures Known(start, before + [e], h) <==> Known(start, before, h) || Adds(e, h)
  {
    var all := before + [e];
    assert all[|before|] == e;
    assert forall n :: 0 <= n < |before| ==> all[n] == before[n];
  }

  lemma {:induction false} KnownStep(c: Cache, e: Event, h: Hash, known: bool)
    requires h in c.blocks.blocks <==> known
    ensures h in (if e.Cleaned? then c else Step(c, e)).blocks.blocks <==> known || Adds(e, h)
  {
  }

  lemma {:induction false} KnownWithoutCleans(start: Cache, events: seq<Event>, h: Hash)
    ensures h in Run(start, WithoutCleans(events)).blocks.blocks <==> Known(start, events, h)
  {
    if events != [] {
      var before, e := events[..|events| - 1], events[|events| - 1];
      KnownWithoutCleans(start, before, h);
      KnownStep(Run(start, WithoutCleans(before)), e, h, Known(start, before, h));
      WithoutCleansRun(start, events);
      assert events == before + [e];
      KnownGrows(start, before, e, h);
    }
  }

  ghost predicate OnChainRun(start: Cache, events: seq<Event>, slotOf: Hash -> Slot, heightOf: Hash -> nat) {
    && StoreOnChain(start.blocks, slotOf, heightOf)
    && forall n :: 0 <= n < |events| ==> EventOnChain(events[n], slotOf, heightOf)
  }

  /** A submission is accepted exactly if its blockhash was put in and nothing is more than 300 blocks above it. */
  lemma {:induction false} AcceptedIff(
      start: Cache, events: seq<Event>, slotOf: Hash -> Slot, heightOf: Hash -> nat, h: Hash)
    requires OnChainRun(start, events, slotOf, heightOf)
    ensures var r := Admit(Run(start, events).blocks, h);
      && (r.Accepted? <==> Known(start, events, h) && !HeightAbove(start, events, heightOf(h) + 300))
      && (r.Accepted? ==> r == Accepted(slotOf(h), heightOf(h) + 300))
      && (r.BlockhashNotFound? <==> !Known(start, events, h) || CleanedAway(start, events, h))
  {
    CleaningInvisibleAtSubmission(start, events, slotOf, heightOf, h);
    CleaningKeepsRelation(start, events, slotOf, heightOf);
    KnownWithoutCleans(start, events, h);
    MissingIffCleanedAway(start, events, slotOf, heightOf, h);
    LastHeightAbove(start, events, heightOf(h) + 300);
    var f := Run(start, WithoutCleans(events)).blocks;
    if h in f.blocks { assert OnChain(f.blocks[h], slotOf, heightOf); }
  }

  /** A blockhash is valid exactly if it is there and the latest block of the level is at most 300 above it. */
  lemma {:induction false} ValidIff(
      start: Cache, events: seq<Event>, slotOf: Hash -> Slot, heightOf: Hash -> nat, h: Hash, level: Commitment)
    requires OnChainRun(start, events, slotOf, heightOf)
    ensures var c := Run(start, events).blocks;
      IsBlockhashValid(c, h, level) <==>
        && Known(start, events, h) && !CleanedAway(start, events, h)
        && (if level == Finalized then c.latestFinalized else c.latestConfirmed).blockHeight <= heightOf(h) + 300
  {
    CleaningKeepsRelation(start, events, slotOf, heightOf);
    KnownWithoutCleans(start, events, h);
    MissingIffCleanedAway(start, events, slotOf, heightOf, h);
    var c := Run(start, events).blocks;
    if h in c.blocks { assert OnChain(c.blocks[h], slotOf, heightOf); }
  }

  function Rank(level: Commitment): nat {
    match level case Processed => 0 case Confirmed => 1 case Finalized => 2
  }

  /** A known block is replaced exactly by one of a higher commitment. */
  lemma {:induction false} ReplacesIff(known: Commitment, level: Commitment)
    ensures Replaces(known, level) <==> Rank(level) > Rank(known)
  {
  }

  /** The level is the highest with which the block was put in. */
  ghost predicate IsHighest(start: Cache, events: seq<Event>, h: Hash, level: Commitment) {
    && (h in start.blocks.blocks ==> Rank(start.blocks.blocks[h].commitment) <= Rank(level))
    && (forall n :: 0 <= n < |events| && Adds(events[n], h) ==> Rank(events[n].info.commitment) <= Rank(level))
    && ((h in start.blocks.blocks && level == start.blocks.blocks[h].commitment)
        || exists n :: 0 <= n < |events| && Adds(events[n], h) && events[n].info.commitment == level)
  }

  lemma {:induction false} HighestGrows(start: Cache, before: seq<Event>, e: Event, h: Hash, level: Commitment)
    requires IsHighest(start, before, h, level)
    ensures IsHighest(start, before + [e], h,
                      if Adds(e, h) && Rank(e.info.commitment) > Rank(level) then e.info.commitment else level)
  {
    var all := before + [e];
    assert all[|before|] == e;
    assert forall n :: 0 <= n < |before| ==> all[n] == before[n];
    if exists n :: 0 <= n < |before| && Adds(before[n], h) && before[n].info.commitment == level {
      var n :| 0 <= n < |before| && Adds(before[n], h) && before[n].info.commitment == level;
      assert Adds(all[n], h) && all[n].info.commitment == level;
    }
  }

  lemma {:induction false} FirstIsHighest(start: Cache, before: seq<Event>, e: Event, h: Hash)
    requires !Known(start, before, h) && Adds(e, h)
    ensures IsHighest(start, before + [e], h, e.info.commitment)
  {
    var all := before + [e];
    assert all[|before|] == e;
    assert forall n :: 0 <= n < |before| ==> all[n] == before[n];
  }

  /** Without cleaning a block is stored at the highest commitment it was ever put in with. */
  lemma {:induction false} HighestCommitment(start: Cache, events: seq<Event>, h: Hash)
    requires Known(start, events, h)
    ensures h in Run(start, WithoutCleans(events)).blocks.blocks
    ensures IsHighest(start, events, h, Run(start, WithoutCleans(events)).blocks.blocks[h].commitment)
  {
    KnownWithoutCleans(start, events, h);
    if events != [] {
      var before, e := events[..|events| - 1], events[|events| - 1];
      assert events == before + [e];
      KnownGrows(start, before, e, h);
      WithoutCleansRun(start, events);
      KnownWithoutCleans(start, before, h);
      if Known(start, before, h) {
        HighestCommitment(start, before, h);
        var level := Run(start, WithoutCleans(before)).blocks.blocks[h].commitment;
        HighestGrows(start, before, e, h, level);
        if e.BlockAdded? { ReplacesIff(level, e.info.commitment); }
      } else {
        FirstIsHighest(start, before, e, h);
      }
    }
  }

  // ----- the entry of a forwarded transaction

  predicate UpdatesStatus(e: Event, sig: Signature) {
    e.StatusUpdated? && e.sig == sig
  }

  function LastStatus(events: seq<Event>, sig: Signature): Option<Commitment> {
    if events == [] then None
    else if UpdatesStatus(events[|events| - 1], sig) then Some(events[|events| - 1].status)
    else LastStatus(events[..|events| - 1], sig)
  }

  lemma {:induction false} LastStatusSome(events: seq<Event>, sig: Signature)
    ensures LastStatus(events, sig).Some? <==> exists n :: 0 <= n < |events| && UpdatesStatus(events[n], sig)
  {
    if events != [] {
      var before, e := events[..|events| - 1], events[|events| - 1];
      LastStatusSome(before, sig);
      assert forall n :: 0 <= n < |before| ==> before[n] == events[n];
      if UpdatesStatus(e, sig) { assert UpdatesStatus(events[|events| - 1], sig); }
    }
  }

  lemma {:induction false} EntryStep(c: Cache, e: Event, tx: FeeHeap.Tx, status: Option<Commitment>)
    requires HeightsOrdered(c) && !Resubmits(e, tx) && Step(c, e).blocks.lastBlockheight <= tx.lastValidBlockHeight
    requires tx.signature in c.txs && c.txs[tx.signature] == TxProps(status, tx.lastValidBlockHeight, true)
    ensures tx.signature in Step(c, e).txs
    ensures Step(c, e).txs[tx.signature] ==
      TxProps(if UpdatesStatus(e, tx.signature) then Some(e.status) else status, tx.lastValidBlockHeight, true)
  {
  }

  /** Until it expires a forwarded transaction keeps its entry, with the last status that was reported. */
  lemma {:induction false} EntryIs(start: Cache, tx: FeeHeap.Tx, events: seq<Event>)
    requires HeightsOrdered(start) && forall n :: 0 <= n < |events| ==> !Resubmits(events[n], tx)
    ensures var c := Run(Step(start, Forwarded(tx)), events);
      c.blocks.lastBlockheight <= tx.lastValidBlockHeight ==>
        tx.signature in c.txs
        && c.txs[tx.signature] == TxProps(LastStatus(events, tx.signature), tx.lastValidBlockHeight, true)
  {
    if events != [] {
      var before, e := events[..|events| - 1], events[|events| - 1];
      EntryIs(start, tx, before);
      TrackedThroughout(Step(start, Forwarded(tx)), before, tx);
      var c := Run(Step(start, Forwarded(tx)), before);
      if Step(c, e).blocks.lastBlockheight <= tx.lastValidBlockHeight {
        EntryStep(c, e, tx, LastStatus(before, tx.signature));
      }
    }
  }

  /**
   A forwarded transaction counts as confirmed or expired exactly if a status was reported for it or a
   block above its last valid height was there or came.
   */
  lemma {:induction false} ReplayEndsIff(start: Cache, tx: FeeHeap.Tx, events: seq<Event>)
    requires HeightsOrdered(start) && forall n :: 0 <= n < |events| ==> !Resubmits(events[n], tx)
    ensures ConfirmedOrExpired(Run(Step(start, Forwarded(tx)), events), tx) <==>
      || HeightAbove(start, events, tx.lastValidBlockHeight)
      || exists n :: 0 <= n < |events| && UpdatesStatus(events[n], tx.signature)
  {
    var first := Step(start, Forwarded(tx));
    LastHeightAbove(first, events, tx.lastValidBlockHeight);
    assert HeightAbove(first, events, tx.lastValidBlockHeight) <==> HeightAbove(start, events, tx.lastValidBlockHeight);
    LastStatusSome(events, tx.signature);
    EntryIs(start, tx, events);
  }

  /** A transaction that was never forwarded from here is not taken for one that was. */
  lemma {:induction false} OthersNotSentHere(start: Cache, events: seq<Event>, sig: Signature)
    requires sig in start.txs ==> !start.txs[sig].sentByLiteRpc
    requires forall n :: 0 <= n < |events| ==> !(events[n].Forwarded? && events[n].tx.signature == sig)
    ensures sig in Run(start, events).txs ==> !Run(start, events).txs[sig].sentByLiteRpc
  {
    if events != [] { OthersNotSentHere(start, events[..|events| - 1], sig); }
  }
}
