/**
 The block and transaction caches (core/src/stores/block_information_store.rs, tx_store.rs and
 data_cache.rs), and the admission check of submitted transactions
 (services/src/transaction_service.rs).
 */
module DataCache {
  import opened Common
  import opened FeeHeap

  const MAX_RECENT_BLOCKHASHES := 300

  datatype BlockInformation = BlockInformation(slot: Slot, blockHeight: nat, lastValidBlockheight: nat,
        blockhash: Hash, commitment: Commitment)

  function FromBlockInfo(i: BlockInfo): BlockInformation {
    BlockInformation(i.slot, i.blockHeight, i.blockHeight + MAX_RECENT_BLOCKHASHES, i.blockhash, i.commitment)
  }

  datatype BlockStore = BlockStore(blocks: map<Hash, BlockInformation>, lastBlockheight: nat,
                                   latestConfirmed: BlockInformation, latestFinalized: BlockInformation)

  function NewBlockStore(finalized: BlockInformation): BlockStore {
    BlockStore(map[finalized.blockhash := finalized], finalized.blockHeight, finalized, finalized)
  }

  /** Only finalized blocks have a slot of their own; processed ones count as confirmed. */
  function Latest(s: BlockStore, level: Commitment): BlockInformation {
    if level == Finalized then s.latestFinalized else s.latestConfirmed
  }

  /** A known block is replaced only by one of a higher commitment, and never by a processed one. */
  predicate Replaces(known: Commitment, level: Commitment) {
    match known
    case Finalized => false
    case Confirmed => level == Finalized
    case Processed => level == Confirmed || level == Finalized
  }

  function AddBlock(s: BlockStore, b: BlockInformation): BlockStore {
    BlockStore(if b.blockhash in s.blocks && !Replaces(s.blocks[b.blockhash].commitment, b.commitment)
               then s.blocks else s.blocks[b.blockhash := b],
               if s.lastBlockheight < b.blockHeight then b.blockHeight else s.lastBlockheight,
               if b.commitment != Finalized && b.slot > s.latestConfirmed.slot then b else s.latestConfirmed,
               if b.commitment == Finalized && b.slot > s.latestFinalized.slot then b else s.latestFinalized)
  }

  function CleanBlocks(s: BlockStore): BlockStore {
    s.(blocks :=
         map h | h in s.blocks && s.blocks[h].lastValidBlockheight >= s.latestFinalized.blockHeight :: s.blocks[h])
  }

  predicate IsBlockhashValid(s: BlockStore, h: Hash, level: Commitment) {
    h in s.blocks && Latest(s, level).blockHeight <= s.blocks[h].lastValidBlockheight
  }

  class BlockInformationStore {
    var blocks: map<Hash, BlockInformation>
    var lastBlockheight: nat
    var latestConfirmedBlock: BlockInformation
    var latestFinalizedBlock: BlockInformation

    function Value(): BlockStore
      reads this
    {
      BlockStore(blocks, lastBlockheight, latestConfirmedBlock, latestFinalizedBlock)
    }

    constructor (finalized: BlockInformation)
      ensures Value() == NewBlockStore(finalized)
    {
      blocks := map[finalized.blockhash := finalized];
      lastBlockheight := finalized.blockHeight;
      latestConfirmedBlock, latestFinalizedBlock := finalized, finalized;
    }

    method Add(b: BlockInformation) returns (changed: bool)
      modifies this
      ensures Value() == AddBlock(old(Value()), b)
      ensures changed <==> b.blockhash !in old(blocks) || Replaces(old(blocks)[b.blockhash].commitment, b.commitment)
    {
      if lastBlockheight < b.blockHeight {
        lastBlockheight := b.blockHeight;
      }
      if b.commitment == Finalized {
        if b.slot > latestFinalizedBlock.slot {
          latestFinalizedBlock := b;
        }
      } else {
        if b.slot > latestConfirmedBlock.slot {
          latestConfirmedBlock := b;
        }
      }
      if b.blockhash in blocks {
        match blocks[b.blockhash].commitment
        case Finalized => changed := false;
        case Confirmed => changed := b.commitment == Finalized;
        case Processed => changed := b.commitment == Confirmed || b.commitment == Finalized;
      } else {
        changed := true;
      }
      if changed {
        blocks := blocks[b.blockhash := b];
      }
    }

    method Clean()
      modifies this
      ensures Value() == CleanBlocks(old(Value()))
    {
      var height := latestFinalizedBlock.blockHeight;
      blocks := map h | h in blocks && blocks[h].lastValidBlockheight >= height :: blocks[h];
    }

    method IsValid(h: Hash, level: Commitment) returns (valid: bool, slot: Slot)
      ensures valid <==> IsBlockhashValid(Value(), h, level)
      ensures slot == Latest(Value(), level).slot
    {
      var latest := if level == Finalized then latestFinalizedBlock else latestConfirmedBlock;
      valid := h in blocks && latest.blockHeight <= blocks[h].lastValidBlockheight;
      slot := latest.slot;
    }
  }

  // ----- transactions

  datatype TxProps = TxProps(status: Option<Commitment>, lastValidBlockheight: nat, sentByLiteRpc: bool)

  type Txs = map<Signature, TxProps>

  function UpdateStatus(txs: Txs, sig: Signature, status: Commitment, lastValid: nat): Txs {
    txs[sig := if sig in txs then txs[sig].(status := Some(status)) else TxProps(Some(status), lastValid, false)]
  }

  function CleanTxs(txs: Txs, height: nat): Txs {
    map sig | sig in txs && txs[sig].lastValidBlockheight >= height :: txs[sig]
  }

  class TxStore {
    var store: Txs

    constructor ()
      ensures store == map[]
    {
      store := map[];
    }

    method Update(sig: Signature, status: Commitment, lastValid: nat) returns (sentHere: bool)
      modifies this
      ensures store == UpdateStatus(old(store), sig, status, lastValid)
      ensures sentHere <==> sig in old(store) && old(store)[sig].sentByLiteRpc
    {
      if sig in store {
        var meta := store[sig];
        store := store[sig := meta.(status := Some(status))];
        sentHere := meta.sentByLiteRpc;
      } else {
        store := store[sig := TxProps(Some(status), lastValid, false)];
        sentHere := false;
      }
    }

    method Insert(sig: Signature, props: TxProps) returns (prev: Option<TxProps>)
      modifies this
      ensures store == old(store)[sig := props]
      ensures prev == if sig in old(store) then Some(old(store)[sig]) else None
    {
      prev := if sig in store then Some(store[sig]) else None;
      store := store[sig := props];
    }

    method Clean(height: nat)
      modifies this
      ensures store == CleanTxs(old(store), height)
    {
      store := map sig | sig in store && store[sig].lastValidBlockheight >= height :: store[sig];
    }
  }

  // ----- the cache as a whole

  datatype Cache = Cache(blocks: BlockStore, txs: Txs)

  datatype Event =
    | BlockAdded(info: BlockInfo)
    | StatusUpdated(sig: Signature, status: Commitment, lastValid: nat)
    | Forwarded(tx: Tx)
    | Cleaned

  function Step(c: Cache, e: Event): Cache {
    match e
    case BlockAdded(info) => c.(blocks := AddBlock(c.blocks, FromBlockInfo(info)))
    case StatusUpdated(sig, status, lastValid) => c.(txs := UpdateStatus(c.txs, sig, status, lastValid))
    case Forwarded(tx) => c.(txs := c.txs[tx.signature := TxProps(None, tx.lastValidBlockHeight, true)])
    case Cleaned => Cache(CleanBlocks(c.blocks), CleanTxs(c.txs, c.blocks.latestFinalized.blockHeight))
  }

  function Run(start: Cache, events: seq<Event>): Cache {
    if events == [] then start else Step(Run(start, events[..|events| - 1]), events[|events| - 1])
  }

  datatype Admission = Accepted(slot: Slot, lastValidBlockheight: nat) | BlockhashNotFound | BlockhashExpired

  /** The check of a submitted transaction by its recent blockhash. */
  function Admit(s: BlockStore, h: Hash): Admission {
    if h !in s.blocks then BlockhashNotFound
    else if s.lastBlockheight > s.blocks[h].lastValidBlockheight then BlockhashExpired
    else Accepted(s.blocks[h].slot, s.blocks[h].lastValidBlockheight)
  }

  predicate Expired(s: BlockStore, tx: Tx) {
    s.lastBlockheight > tx.lastValidBlockHeight
  }

  predicate ConfirmedOrExpired(c: Cache, tx: Tx) {
    Expired(c.blocks, tx) || (tx.signature in c.txs && c.txs[tx.signature].status.Some?)
  }

  /** The two stores as the services use them. */
  class DataCacheStores {
    const blockInformationStore: BlockInformationStore
    const txs: TxStore

    function Value(): Cache
      reads blockInformationStore, txs
    {
      Cache(blockInformationStore.Value(), txs.store)
    }

    constructor (blocks: BlockInformationStore, txs: TxStore)
      ensures blockInformationStore == blocks && this.txs == txs
    {
      this.blockInformationStore, this.txs := blocks, txs;
    }

    method Clean()
      modifies blockInformationStore, txs
      ensures Value() == Step(old(Value()), Cleaned)
    {
      var finalized := blockInformationStore.latestFinalizedBlock;
      blockInformationStore.Clean();
      txs.Clean(finalized.blockHeight);
    }

    method CheckIfConfirmedOrExpiredBlockheight(tx: Tx) returns (done: bool)
      ensures done <==> ConfirmedOrExpired(Value(), tx)
    {
      var last := blockInformationStore.lastBlockheight;
      done := last > tx.lastValidBlockHeight || (tx.signature in txs.store && txs.store[tx.signature].status.Some?);
    }

    /** The first checks of send_wire_transaction. */
    method CheckBlockhash(h: Hash) returns (r: Admission)
      ensures r == Admit(blockInformationStore.Value(), h)
    {
      if h !in blockInformationStore.blocks {
        return BlockhashNotFound;
      }
      var info := blockInformationStore.blocks[h];
      if blockInformationStore.lastBlockheight > info.lastValidBlockheight {
        return BlockhashExpired;
      }
      r := Accepted(info.slot, info.lastValidBlockheight);
    }
  }

  // ----- cleaning is invisible at submission

  /** The chain fixes the slot and height of each blockhash. */
  predicate OnChain(b: BlockInformation, slotOf: Hash -> Slot, heightOf: Hash -> nat) {
    b.slot == slotOf(b.blockhash) && b.blockHeight == heightOf(b.blockhash)
      && b.lastValidBlockheight == b.blockHeight + MAX_RECENT_BLOCKHASHES
  }

  ghost predicate StoreOnChain(s: BlockStore, slotOf: Hash -> Slot, heightOf: Hash -> nat) {
    && (forall h :: h in s.blocks ==> s.blocks[h].blockhash == h && OnChain(s.blocks[h], slotOf, heightOf))
    && s.latestFinalized.blockHeight <= s.lastBlockheight
  }

  function WithoutCleans(events: seq<Event>): seq<Event> {
    if events == [] then []
    else WithoutCleans(events[..|events| - 1]) + if events[|events| - 1].Cleaned? then [] else [events[|events| - 1]]
  }

  /** The cleaned store lacks only expired blocks. */
  ghost predicate LacksOnlyExpired(cleaned: BlockStore, full: BlockStore) {
    && cleaned.lastBlockheight == full.lastBlockheight
    && cleaned.latestConfirmed == full.latestConfirmed && cleaned.latestFinalized == full.latestFinalized
    && (forall h :: h in cleaned.blocks ==> h in full.blocks)
    && (forall h :: h in full.blocks && h !in cleaned.blocks ==>
      full.blocks[h].lastValidBlockheight < full.lastBlockheight)
  }

  predicate EventOnChain(e: Event, slotOf: Hash -> Slot, heightOf: Hash -> nat) {
    e.BlockAdded? ==> OnChain(FromBlockInfo(e.info), slotOf, heightOf)
  }

  lemma {:induction false} AddKeepsRelation(
      cleaned: BlockStore, full: BlockStore, b: BlockInformation, slotOf: Hash -> Slot, heightOf: Hash -> nat)
    requires LacksOnlyExpired(cleaned, full) && StoreOnChain(cleaned, slotOf, heightOf)
      && StoreOnChain(full, slotOf, heightOf)
    requires OnChain(b, slotOf, heightOf)
    ensures LacksOnlyExpired(AddBlock(cleaned, b), AddBlock(full, b))
    ensures StoreOnChain(AddBlock(cleaned, b), slotOf, heightOf) && StoreOnChain(AddBlock(full, b), slotOf, heightOf)
  {
  }

  lemma {:induction false} CleanKeepsRelation(
      cleaned: BlockStore, full: BlockStore, slotOf: Hash -> Slot, heightOf: Hash -> nat)
    requires LacksOnlyExpired(cleaned, full) && StoreOnChain(cleaned, slotOf, heightOf)
      && StoreOnChain(full, slotOf, heightOf)
    ensures LacksOnlyExpired(CleanBlocks(cleaned), full) && StoreOnChain(CleanBlocks(cleaned), slotOf, heightOf)
  {
    forall h | h in full.blocks && h !in CleanBlocks(cleaned).blocks
      ensures full.blocks[h].lastValidBlockheight < full.lastBlockheight
    {
      if h in cleaned.blocks {
        assert OnChain(cleaned.blocks[h], slotOf, heightOf) && OnChain(full.blocks[h], slotOf, heightOf);
      }
    }
  }

  lemma {:induction false} WithoutCleansRun(start: Cache, events: seq<Event>)
    requires events != []
    ensures var before, e := events[..|events| - 1], events[|events| - 1];
      Run(start, WithoutCleans(events)) ==
        if e.Cleaned? then Run(start, WithoutCleans(before)) else Step(Run(start, WithoutCleans(before)), e)
  {
    var before, e := WithoutCleans(events[..|events| - 1]), events[|events| - 1];
    if e.Cleaned? { assert before + [] == before; } else { assert (before + [e])[..|before|] == before; }
  }

  lemma {:induction false} CleaningKeepsRelation(
      start: Cache, events: seq<Event>, slotOf: Hash -> Slot, heightOf: Hash -> nat)
    requires StoreOnChain(start.blocks, slotOf, heightOf)
    requires forall n :: 0 <= n < |events| ==> EventOnChain(events[n], slotOf, heightOf)
    ensures var c, f := Run(start, events).blocks, Run(start, WithoutCleans(events)).blocks;
      LacksOnlyExpired(c, f) && StoreOnChain(c, slotOf, heightOf) && StoreOnChain(f, slotOf, heightOf)
  {
    if events != [] {
      var before, e := events[..|events| - 1], events[|events| - 1];
      CleaningKeepsRelation(start, before, slotOf, heightOf);
      WithoutCleansRun(start, events);
      var c, f := Run(start, before).blocks, Run(start, WithoutCleans(before)).blocks;
      if e.BlockAdded? { AddKeepsRelation(c, f, FromBlockInfo(e.info), slotOf, heightOf); }
      if e.Cleaned? { CleanKeepsRelation(c, f, slotOf, heightOf); }
    }
  }

  /** Runs with and without cleaning accept exactly the same submissions, with the same slot and expiry height. */
  lemma {:induction false} CleaningInvisibleAtSubmission(
      start: Cache, events: seq<Event>, slotOf: Hash -> Slot, heightOf: Hash -> nat, h: Hash)
    requires StoreOnChain(start.blocks, slotOf, heightOf)
    requires forall n :: 0 <= n < |events| ==> EventOnChain(events[n], slotOf, heightOf)
    ensures var with, without := Admit(Run(start, events).blocks, h),
      Admit(Run(start, WithoutCleans(events)).blocks, h);
      (with.Accepted? || without.Accepted? ==> with == without)
        && (with.BlockhashExpired? ==> without.BlockhashExpired?)
  {
    CleaningKeepsRelation(start, events, slotOf, heightOf);
    var c, f := Run(start, events).blocks, Run(start, WithoutCleans(events)).blocks;
    if h in c.blocks {
      assert OnChain(c.blocks[h], slotOf, heightOf) && OnChain(f.blocks[h], slotOf, heightOf);
    }
  }

  /**
   The validity query does see cleaning, exactly for a block whose blockhash expired for the latest
   finalized block but not for the latest block of the asked level.
   */
  lemma {:induction false} CleaningSeenByValidityIff(s: BlockStore, h: Hash, level: Commitment)
    ensures IsBlockhashValid(CleanBlocks(s), h, level) != IsBlockhashValid(s, h, level) <==>
      h in s.blocks && Latest(s, level).blockHeight <= s.blocks[h].lastValidBlockheight < s.latestFinalized.blockHeight
  {
  }

  /** A finalized block without its confirmed one makes that happen. */
  lemma {:induction false} ValidityCanFlip(a: BlockInformation, b: BlockInformation)
    requires a.blockhash != b.blockhash && a.lastValidBlockheight == a.blockHeight + MAX_RECENT_BLOCKHASHES
    requires b.commitment == Finalized && b.slot > a.slot && b.blockHeight > a.lastValidBlockheight
    ensures var s := AddBlock(NewBlockStore(a), b);
      IsBlockhashValid(s, a.blockhash, Confirmed) && !IsBlockhashValid(CleanBlocks(s), a.blockhash, Confirmed)
  {
    CleaningSeenByValidityIff(AddBlock(NewBlockStore(a), b), a.blockhash, Confirmed);
  }

  predicate Adds(e: Event, h: Hash) {
    e.BlockAdded? && FromBlockInfo(e.info).blockhash == h
  }

  predicate ExpiredWhenFinalized(s: BlockStore, h: Hash) {
    h in s.blocks && s.blocks[h].lastValidBlockheight < s.latestFinalized.blockHeight
  }

  /** A clean met the block after it had expired for the latest finalized block, and it was not added again. */
  ghost predicate CleanedAway(start: Cache, events: seq<Event>, h: Hash) {
    exists n :: 0 <= n < |events| && CleanedAwayAt(start, events, h, n)
  }

  ghost predicate CleanedAwayAt(start: Cache, events: seq<Event>, h: Hash, n: nat)
    requires n < |events|
  {
    && events[n].Cleaned? && ExpiredWhenFinalized(Run(start, WithoutCleans(events[..n])).blocks, h)
    && forall k :: n < k < |events| ==> !Adds(events[k], h)
  }

  lemma {:induction false} CleanedAwayGrows(start: Cache, before: seq<Event>, e: Event, h: Hash)
    ensures CleanedAway(start, before + [e], h) <==>
      || (CleanedAway(start, before, h) && !Adds(e, h))
      || (e.Cleaned? && ExpiredWhenFinalized(Run(start, WithoutCleans(before)).blocks, h))
  {
    var events := before + [e];
    assert events[..|before|] == before && events[|before|] == e;
    forall n | 0 <= n < |before|
      ensures CleanedAwayAt(start, events, h, n) <==> CleanedAwayAt(start, before, h, n) && !Adds(e, h)
    {
      assert events[..n] == before[..n];
      assert events[|before|] == e;
      assert forall k :: n < k < |before| ==> events[k] == before[k];
    }
    assert CleanedAwayAt(start, events, h, |before|) <==>
      e.Cleaned? && ExpiredWhenFinalized(Run(start, WithoutCleans(before)).blocks, h);
  }

  lemma {:induction false} StepKeepsBlock(
      c: Cache, f: Cache, e: Event, slotOf: Hash -> Slot, heightOf: Hash -> nat, h: Hash)
    requires LacksOnlyExpired(c.blocks, f.blocks)
    requires StoreOnChain(c.blocks, slotOf, heightOf) && StoreOnChain(f.blocks, slotOf, heightOf)
    ensures h in Step(c, e).blocks.blocks <==>
      Adds(e, h) || (h in c.blocks.blocks && !(e.Cleaned? && ExpiredWhenFinalized(f.blocks, h)))
    ensures !e.Cleaned? ==> (h in Step(f, e).blocks.blocks <==> Adds(e, h) || h in f.blocks.blocks)
  {
    if h in c.blocks.blocks {
      assert OnChain(c.blocks.blocks[h], slotOf, heightOf) && OnChain(f.blocks.blocks[h], slotOf, heightOf);
    }
  }

  /** A block is missing from the cleaned store exactly if it was cleaned away. */
  lemma {:induction false} MissingIffCleanedAway(
      start: Cache, events: seq<Event>, slotOf: Hash -> Slot, heightOf: Hash -> nat, h: Hash)
    requires StoreOnChain(start.blocks, slotOf, heightOf)
    requires forall n :: 0 <= n < |events| ==> EventOnChain(events[n], slotOf, heightOf)
    ensures h in Run(start, events).blocks.blocks <==>
      h in Run(start, WithoutCleans(events)).blocks.blocks && !CleanedAway(start, events, h)
  {
    if events != [] {
      var before, e := events[..|events| - 1], events[|events| - 1];
      MissingIffCleanedAway(start, before, slotOf, heightOf, h);
      CleaningKeepsRelation(start, before, slotOf, heightOf);
      WithoutCleansRun(start, events);
      assert events == before + [e];
      CleanedAwayGrows(start, before, e, h);
      StepKeepsBlock(Run(start, before), Run(start, WithoutCleans(before)), e, slotOf, heightOf, h);
    }
  }

  /** Over a whole run the validity query sees the cleaning exactly for valid blocks that were cleaned away. */
  lemma {:induction false} RunCleaningSeenIff(
      start: Cache, events: seq<Event>, slotOf: Hash -> Slot, heightOf: Hash -> nat, h: Hash, level: Commitment)
    requires StoreOnChain(start.blocks, slotOf, heightOf)
    requires forall n :: 0 <= n < |events| ==> EventOnChain(events[n], slotOf, heightOf)
    ensures var c, f := Run(start, events).blocks, Run(start, WithoutCleans(events)).blocks;
      IsBlockhashValid(c, h, level) != IsBlockhashValid(f, h, level) <==>
        CleanedAway(start, events, h) && IsBlockhashValid(f, h, level)
  {
    MissingIffCleanedAway(start, events, slotOf, heightOf, h);
    CleaningKeepsRelation(start, events, slotOf, heightOf);
    var c, f := Run(start, events).blocks, Run(start, WithoutCleans(events)).blocks;
    if h in c.blocks { assert OnChain(c.blocks[h], slotOf, heightOf) && OnChain(f.blocks[h], slotOf, heightOf); }
  }

  // ----- a forwarded transaction stays confirmed or expired

  predicate Resubmits(e: Event, tx: Tx) {
    e.Forwarded? && e.tx.signature == tx.signature
  }

  /** The transaction has expired, or its entry still carries its own expiry height. */
  predicate Tracked(c: Cache, tx: Tx) {
    Expired(c.blocks, tx)
      || (tx.signature in c.txs && c.txs[tx.signature].lastValidBlockheight == tx.lastValidBlockHeight)
  }

  predicate HeightsOrdered(c: Cache) {
    c.blocks.latestFinalized.blockHeight <= c.blocks.lastBlockheight
  }

  lemma {:induction false} StepKeepsTracked(c: Cache, e: Event, tx: Tx)
    requires HeightsOrdered(c) && Tracked(c, tx) && !Resubmits(e, tx)
    ensures HeightsOrdered(Step(c, e)) && Tracked(Step(c, e), tx)
    ensures ConfirmedOrExpired(c, tx) ==> ConfirmedOrExpired(Step(c, e), tx)
  {
  }

  lemma {:induction false} TrackedThroughout(c: Cache, more: seq<Event>, tx: Tx)
    requires HeightsOrdered(c) && Tracked(c, tx) && forall n :: 0 <= n < |more| ==> !Resubmits(more[n], tx)
    ensures HeightsOrdered(Run(c, more)) && Tracked(Run(c, more), tx)
    ensures ConfirmedOrExpired(c, tx) ==> ConfirmedOrExpired(Run(c, more), tx)
  {
    if more != [] {
      TrackedThroughout(c, more[..|more| - 1], tx);
      StepKeepsTracked(Run(c, more[..|more| - 1]), more[|more| - 1], tx);
    }
  }

  /** Once a forwarded transaction counts as confirmed or expired it stays so until it is submitted again. */
  lemma {:induction false} ConfirmedOrExpiredIsFinal(start: Cache, tx: Tx, some: seq<Event>, more: seq<Event>)
    requires HeightsOrdered(start)
    requires forall n :: 0 <= n < |some| ==> !Resubmits(some[n], tx)
    requires forall n :: 0 <= n < |more| ==> !Resubmits(more[n], tx)
    requires ConfirmedOrExpired(Run(Step(start, Forwarded(tx)), some), tx)
    ensures ConfirmedOrExpired(Run(Run(Step(start, Forwarded(tx)), some), more), tx)
  {
    TrackedThroughout(Step(start, Forwarded(tx)), some, tx);
    TrackedThroughout(Run(Step(start, Forwarded(tx)), some), more, tx);
  }

  /** Cleaned and full run agree on a forwarded transaction. */
  ghost predicate AgreeOn(c: Cache, f: Cache, tx: Tx) {
    && c.blocks.lastBlockheight == f.blocks.lastBlockheight && c.blocks.latestFinalized == f.blocks.latestFinalized
    && HeightsOrdered(c) && Tracked(c, tx) && Tracked(f, tx)
    && (Expired(c.blocks, tx) || c.txs[tx.signature] == f.txs[tx.signature])
  }

  lemma {:induction false} StepKeepsAgreement(c: Cache, f: Cache, e: Event, tx: Tx)
    requires AgreeOn(c, f, tx) && !Resubmits(e, tx)
    ensures AgreeOn(Step(c, e), if e.Cleaned? then f else Step(f, e), tx)
  {
    StepKeepsTracked(c, e, tx);
    if !e.Cleaned? { StepKeepsTracked(f, e, tx); }
  }

  /** Cleaning does not change whether a forwarded transaction counts as confirmed or expired. */
  lemma {:induction false} CleaningInvisibleToReplay(start: Cache, tx: Tx, events: seq<Event>)
    requires HeightsOrdered(start) && forall n :: 0 <= n < |events| ==> !Resubmits(events[n], tx)
    ensures var c, f := Run(Step(start, Forwarded(tx)), events), Run(Step(start, Forwarded(tx)), WithoutCleans(events));
      AgreeOn(c, f, tx) && (ConfirmedOrExpired(c, tx) <==> ConfirmedOrExpired(f, tx))
  {
    if events != [] {
      var s := Step(start, Forwarded(tx));
      CleaningInvisibleToReplay(start, tx, events[..|events| - 1]);
      WithoutCleansRun(s, events);
      StepKeepsAgreement(Run(s, events[..|events| - 1]), Run(s, WithoutCleans(events[..|events| - 1])),
        events[|events| - 1], tx);
    }
  }
}
