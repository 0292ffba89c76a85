/**
 The multiplexer of one reconnect iteration as a whole (cluster-endpoints/src/grpc_multiplex.rs):
 the block merger and the three block-info filters feed the emitter through FIFO channels. Any
 interleaving of the sources, the channels and the cleanup tick is a run. A blockhash is assumed
 to determine its slot.
 */
module MultiplexPipeline {
  import opened Common
  import opened BlockEmitter
  import opened EmitterOrder
  import Merger = ProcessedBlockMerger

  /** The block-info task of one commitment level: only strictly rising slots pass. */
  class BlockInfoFilter {
    var tip: Slot
    const level: Commitment

    constructor (level: Commitment)
      ensures tip == 0 && this.level == level
    {
      this.level := level;
      tip := 0;
    }

    method Receive(slot: Slot, blockhash: Hash, blockHeight: nat) returns (sent: Option<BlockInfo>)
      modifies this
      ensures FilterStep(Filter(old(tip), []), BlockInfo(slot, blockhash, blockHeight, level))
           == Filter(tip, if sent.Some? then [sent.value] else [])
    {
      sent := None;
      if slot > tip {
        tip := slot;
        sent := Some(BlockInfo(slot, blockhash, blockHeight, level));
      }
    }
  }

  datatype Filter = Filter(tip: Slot, sent: seq<BlockInfo>)

  function FilterStep(f: Filter, i: BlockInfo): Filter {
    if i.slot > f.tip then Filter(i.slot, f.sent + [i]) else f
  }

  ghost predicate FilterSound(f: Filter, slotOf: Hash -> Slot) {
    && (forall i :: 0 <= i < |f.sent| ==> f.sent[i].slot == slotOf(f.sent[i].blockhash))
    && (forall i, j :: 0 <= i < j < |f.sent| ==> f.sent[i].slot < f.sent[j].slot)
    && (forall i :: 0 <= i < |f.sent| ==> f.sent[i].slot <= f.tip)
  }

  /** A channel is everything its sender ever sent together with how much of it was received. */
  datatype Pipeline = Pipeline(
    merged: Merger.Merged, blocksRead: nat,
    processed: Filter, processedRead: nat,
    confirmed: Filter, confirmedRead: nat,
    finalized: Filter, finalizedRead: nat,
    received: seq<Event>, emitter: Emitter, stopped: bool)

  const Start :=
    Pipeline(Merger.Merged({}, []), 0, Filter(0, []), 0, Filter(0, []), 0, Filter(0, []), 0, [], Initial, false)

  datatype Action =
    | SourceUpdate(update: Merger.Update)
    | SourceMeta(info: BlockInfo)
    | DeliverBlock
    | DeliverInfo(level: Commitment)
    | CleanupTimer

  function FilterOf(p: Pipeline, level: Commitment): Filter {
    match level case Processed => p.processed case Confirmed => p.confirmed case Finalized => p.finalized
  }

  function ReadOf(p: Pipeline, level: Commitment): nat {
    match level case Processed => p.processedRead case Confirmed => p.confirmedRead case Finalized => p.finalizedRead
  }

  function Deliver(p: Pipeline, e: Event): Pipeline {
    p.(received := p.received + [e], emitter := BlockEmitter.Step(p.emitter, e))
  }

  function Step(p: Pipeline, a: Action): Pipeline {
    if p.stopped then p
    else
      match a
      case SourceUpdate(u) => p.(merged := Merger.Step(p.merged, u))
      case SourceMeta(i) =>
        (match i.commitment
         case Processed => p.(processed := FilterStep(p.processed, i))
         case Confirmed => p.(confirmed := FilterStep(p.confirmed, i))
         case Finalized => p.(finalized := FilterStep(p.finalized, i)))
      case DeliverBlock =>
        if p.blocksRead < |p.merged.sent|
        then Deliver(p, Block(p.merged.sent[p.blocksRead])).(blocksRead := p.blocksRead + 1)
        else p
      case DeliverInfo(level) =>
        if ReadOf(p, level) < |FilterOf(p, level).sent|
        then
          var q := Deliver(p, Info(level, FilterOf(p, level).sent[ReadOf(p, level)]));
          (match level
           case Processed => q.(processedRead := p.processedRead + 1)
           case Confirmed => q.(confirmedRead := p.confirmedRead + 1)
           case Finalized => q.(finalizedRead := p.finalizedRead + 1))
        else p
      case CleanupTimer => if Stalled(p.emitter) then p.(stopped := true) else Deliver(p, CleanupTick)
  }

  function Run(actions: seq<Action>): Pipeline {
    if actions == [] then Start else Step(Run(actions[..|actions| - 1]), actions[|actions| - 1])
  }

  /** The sources agree on the slot of each blockhash. */
  predicate Consistent(a: Action, slotOf: Hash -> Slot) {
    match a
    case SourceUpdate(u) => u.BlockUpdate? ==> u.slot == slotOf(u.blockhash)
    case SourceMeta(i) => i.slot == slotOf(i.blockhash)
    case _ => true
  }

  ghost predicate SendersSound(p: Pipeline, slotOf: Hash -> Slot) {
    && MergerSound(p.merged, slotOf)
    && (forall level :: FilterSound(FilterOf(p, level), slotOf))
  }

  ghost predicate Bounded(p: Pipeline) {
    p.blocksRead <= |p.merged.sent| && forall level :: ReadOf(p, level) <= |FilterOf(p, level).sent|
  }

  /** The event came out of the read part of its channel. */
  ghost predicate Read(p: Pipeline, e: Event)
    requires Bounded(p)
  {
    match e
    case Block(b) => b in p.merged.sent[..p.blocksRead]
    case Info(level, i) => i in FilterOf(p, level).sent[..ReadOf(p, level)]
    case CleanupTick => true
  }

  ghost predicate ReceivedFrom(p: Pipeline) {
    Bounded(p) && forall k :: 0 <= k < |p.received| ==> Read(p, p.received[k])
  }

  ghost predicate Inv(p: Pipeline, slotOf: Hash -> Slot) {
    && SendersSound(p, slotOf)
    && ReceivedFrom(p)
    && Legal(p.received)
    && p.emitter == BlockEmitter.Run(p.received)
    && p.emitter.running
  }

  lemma {:induction false} LegalAppend(hist: seq<Event>, e: Event)
    requires Legal(hist) && (e.Block? ==> e.block.commitment == Processed)
    requires forall k :: 0 <= k < |hist| ==> !Clash(hist[k], e)
    ensures Legal(hist + [e])
  {
  }

  /** The merger sends blocks of the sources only. */
  ghost predicate MergerSound(m: Merger.Merged, slotOf: Hash -> Slot) {
    && Merger.Sound(m)
    && (forall b :: b in m.sent ==> b.slot == slotOf(b.blockhash) && b.commitment == Processed)
  }

  lemma {:induction false} MergerStep(m: Merger.Merged, u: Merger.Update, slotOf: Hash -> Slot)
    requires MergerSound(m, slotOf) && Consistent(SourceUpdate(u), slotOf)
    ensures MergerSound(Merger.Step(m, u), slotOf)
  {
    Merger.StepKeepsSound(m, u);
  }

  lemma {:induction false} MergerMoves(p: Pipeline, a: Action)
    ensures Step(p, a).merged == if a.SourceUpdate? && !p.stopped then Merger.Step(p.merged, a.update) else p.merged
  {
  }

  lemma {:induction false} FilterKeepsSound(p: Pipeline, a: Action, level: Commitment, slotOf: Hash -> Slot)
    requires FilterSound(FilterOf(p, level), slotOf) && Consistent(a, slotOf)
    ensures FilterSound(FilterOf(Step(p, a), level), slotOf)
  {
    FilterMoves(p, a, level);
    if a.SourceMeta? { FilterStepKeepsSound(FilterOf(p, level), a.info, slotOf); }
  }

  lemma {:induction false} SendersStep(p: Pipeline, a: Action, slotOf: Hash -> Slot)
    requires SendersSound(p, slotOf) && Consistent(a, slotOf)
    ensures SendersSound(Step(p, a), slotOf)
  {
    MergerMoves(p, a);
    if a.SourceUpdate? { MergerStep(p.merged, a.update, slotOf); }
    forall level ensures FilterSound(FilterOf(Step(p, a), level), slotOf) {
      FilterKeepsSound(p, a, level, slotOf);
    }
  }

  /** No step removes anything from a channel, and at most one more item of it is read. */
  lemma {:induction false} FilterMoves(p: Pipeline, a: Action, level: Commitment)
    ensures FilterOf(Step(p, a), level) == FilterOf(p, level)
            || (a.SourceMeta? && FilterOf(Step(p, a), level) == FilterStep(FilterOf(p, level), a.info))
    ensures ReadOf(Step(p, a), level) == ReadOf(p, level)
            || (ReadOf(Step(p, a), level) == ReadOf(p, level) + 1 <= |FilterOf(p, level).sent|)
  {
  }

  lemma {:induction false} FilterStepKeepsSound(f: Filter, i: BlockInfo, slotOf: Hash -> Slot)
    requires FilterSound(f, slotOf) && i.slot == slotOf(i.blockhash)
    ensures FilterSound(FilterStep(f, i), slotOf)
  {
  }

  lemma {:induction false} NextBlockIsNew(p: Pipeline, slotOf: Hash -> Slot)
    requires Inv(p, slotOf) && p.blocksRead < |p.merged.sent|
    ensures Legal(p.received + [Block(p.merged.sent[p.blocksRead])])
  {
    var e := Block(p.merged.sent[p.blocksRead]);
    forall k | 0 <= k < |p.received| ensures !Clash(p.received[k], e) {
      if p.received[k].Block? {
        assert Read(p, p.received[k]);
        var n :| 0 <= n < p.blocksRead && p.merged.sent[n] == p.received[k].block;
        assert p.merged.sent[n].slot != e.block.slot;
      }
    }
    LegalAppend(p.received, e);
  }

  lemma {:induction false} NextInfoIsNew(p: Pipeline, level: Commitment, slotOf: Hash -> Slot)
    requires Inv(p, slotOf) && ReadOf(p, level) < |FilterOf(p, level).sent|
    ensures Legal(p.received + [Info(level, FilterOf(p, level).sent[ReadOf(p, level)])])
  {
    var f, r := FilterOf(p, level), ReadOf(p, level);
    var e := Info(level, f.sent[r]);
    assert FilterSound(f, slotOf);
    forall k | 0 <= k < |p.received| ensures !Clash(p.received[k], e) {
      if p.received[k].Info? && p.received[k].level == level {
        assert Read(p, p.received[k]);
        var n :| 0 <= n < r && f.sent[n] == p.received[k].info;
        assert f.sent[n].slot < f.sent[r].slot;
      }
    }
    LegalAppend(p.received, e);
  }

  lemma {:induction false} DeliverKeeps(p: Pipeline, e: Event)
    requires p.emitter == BlockEmitter.Run(p.received) && p.emitter.running && !(e.CleanupTick? && Stalled(p.emitter))
    ensures Deliver(p, e).emitter == BlockEmitter.Run(Deliver(p, e).received) && Deliver(p, e).emitter.running
  {
    assert (p.received + [e])[..|p.received|] == p.received;
  }

  /** The event that an action hands to the emitter. */
  function Delivery(p: Pipeline, a: Action): Option<Event> {
    if p.stopped then None
    else
      match a
      case DeliverBlock => if p.blocksRead < |p.merged.sent| then Some(Block(p.merged.sent[p.blocksRead])) else None
      case DeliverInfo(level) =>
        if ReadOf(p, level) < |FilterOf(p, level).sent|
        then Some(Info(level, FilterOf(p, level).sent[ReadOf(p, level)])) else None
      case CleanupTimer => if Stalled(p.emitter) then None else Some(CleanupTick)
      case _ => None
  }

  lemma {:induction false} StepDelivers(p: Pipeline, a: Action)
    ensures Delivery(p, a).None? ==> Step(p, a).received == p.received && Step(p, a).emitter == p.emitter
    ensures Delivery(p, a).Some? ==> Step(p, a).received == Deliver(p, Delivery(p, a).value).received
                                     && Step(p, a).emitter == Deliver(p, Delivery(p, a).value).emitter
  {
  }

  lemma {:induction false} ReadGrows(p: Pipeline, a: Action, e: Event)
    requires Bounded(p)
    ensures Bounded(Step(p, a))
    ensures Read(p, e) ==> Read(Step(p, a), e)
  {
    var q := Step(p, a);
    forall level ensures ReadOf(q, level) <= |FilterOf(q, level).sent| { FilterMoves(p, a, level); }
    match e
    case Block(b) => assert p.merged.sent[..p.blocksRead] <= q.merged.sent[..q.blocksRead];
    case Info(level, i) =>
      FilterMoves(p, a, level);
      assert FilterOf(p, level).sent[..ReadOf(p, level)] <= FilterOf(q, level).sent[..ReadOf(q, level)];
    case CleanupTick =>
  }

  lemma {:induction false} DeliveryIsRead(p: Pipeline, a: Action)
    requires Bounded(p) && Bounded(Step(p, a)) && Delivery(p, a).Some?
    ensures Read(Step(p, a), Delivery(p, a).value)
  {
    var q := Step(p, a);
    match a
    case DeliverBlock => assert q.merged.sent[..q.blocksRead][p.blocksRead] == p.merged.sent[p.blocksRead];
    case DeliverInfo(l) =>
      assert FilterOf(q, l).sent[..ReadOf(q, l)][ReadOf(p, l)] == FilterOf(p, l).sent[ReadOf(p, l)];
    case CleanupTimer =>
  }

  lemma {:induction false} ReceivedStep(p: Pipeline, a: Action)
    requires ReceivedFrom(p)
    ensures ReceivedFrom(Step(p, a))
  {
    var q := Step(p, a);
    ReadGrows(p, a, CleanupTick);
    StepDelivers(p, a);
    forall k | 0 <= k < |q.received| ensures Read(q, q.received[k]) {
      if k < |p.received| { ReadGrows(p, a, p.received[k]); } else { DeliveryIsRead(p, a); }
    }
  }

  lemma {:induction false} DeliveryIsLegal(p: Pipeline, a: Action, slotOf: Hash -> Slot)
    requires Inv(p, slotOf) && Delivery(p, a).Some?
    ensures Legal(p.received + [Delivery(p, a).value])
  {
    match a
    case DeliverBlock => NextBlockIsNew(p, slotOf);
    case DeliverInfo(level) => NextInfoIsNew(p, level, slotOf);
    case CleanupTimer => LegalAppend(p.received, CleanupTick);
  }

  lemma {:induction false} InvStep(p: Pipeline, a: Action, slotOf: Hash -> Slot)
    requires Inv(p, slotOf) && Consistent(a, slotOf)
    ensures Inv(Step(p, a), slotOf)
  {
    SendersStep(p, a, slotOf);
    ReceivedStep(p, a);
    StepDelivers(p, a);
    var d := Delivery(p, a);
    if d.Some? {
      DeliveryIsLegal(p, a, slotOf);
      DeliverKeeps(p, d.value);
    }
  }

  lemma {:induction false} InvRun(actions: seq<Action>, slotOf: Hash -> Slot)
    requires forall n :: 0 <= n < |actions| ==> Consistent(actions[n], slotOf)
    ensures Inv(Run(actions), slotOf)
  {
    if actions != [] {
      InvRun(actions[..|actions| - 1], slotOf);
      InvStep(Run(actions[..|actions| - 1]), actions[|actions| - 1], slotOf);
    }
  }

  /**
   Over every interleaving: the emitter has sent each full block that is due exactly once and
   nothing else, never before its processed block, and a confirmed block follows its finalized
   block exactly in the runs LateConfirmed describes.
   */
  lemma {:induction false} EveryRunKeepsPromises(actions: seq<Action>, slotOf: Hash -> Slot)
    requires forall n :: 0 <= n < |actions| ==> Consistent(actions[n], slotOf)
    ensures Legal(Run(actions).received)
    ensures Promises(Run(actions).received, Run(actions).emitter)
    ensures forall level, h :: Count(Run(actions).emitter.sent, level, h) <= 1
  {
    InvRun(actions, slotOf);
    EmitterInvariant(Run(actions).received);
  }

  // ----- the run in which the documented order fails

  lemma {:induction false} RunTwoMore(actions: seq<Action>, a: Action, b: Action)
    ensures Run(actions + [a, b]) == Step(Step(Run(actions), a), b)
  {
    assert (actions + [a, b])[..|actions| + 1] == actions + [a];
    assert (actions + [a])[..|actions|] == actions;
  }

  /** A block of a slot that the merger accepts reaches the emitter. */
  lemma {:induction false} BlockPasses(actions: seq<Action>, slot: Slot, h: Hash, txs: seq<Signature>)
    requires var p := Run(actions);
      !p.stopped && p.blocksRead == |p.merged.sent| && Merger.Accepts(p.merged.window, slot)
    ensures var p, b := Run(actions), ProducedBlock(slot, h, txs, Processed);
      var q := Run(actions + [SourceUpdate(Merger.BlockUpdate(slot, h, txs)), DeliverBlock]);
      && !q.stopped && q.received == p.received + [Block(b)]
      && q.merged.window == Merger.Remember(p.merged.window, slot) && q.blocksRead == |q.merged.sent|
      && (forall level :: FilterOf(q, level) == FilterOf(p, level) && ReadOf(q, level) == ReadOf(p, level))
  {
    RunTwoMore(actions, SourceUpdate(Merger.BlockUpdate(slot, h, txs)), DeliverBlock);
  }

  /** A block info of a later slot than before at its level reaches the emitter. */
  lemma {:induction false} InfoPasses(actions: seq<Action>, level: Commitment, i: BlockInfo)
    requires i.commitment == level
    requires var p := Run(actions);
      !p.stopped && ReadOf(p, level) == |FilterOf(p, level).sent| && i.slot > FilterOf(p, level).tip
    ensures var p, q := Run(actions), Run(actions + [SourceMeta(i), DeliverInfo(level)]);
      && !q.stopped && q.received == p.received + [Info(level, i)]
      && q.merged == p.merged && q.blocksRead == p.blocksRead
      && FilterOf(q, level).tip == i.slot && ReadOf(q, level) == |FilterOf(q, level).sent|
      && (forall l :: l != level ==> FilterOf(q, l) == FilterOf(p, l) && ReadOf(q, l) == ReadOf(p, l))
  {
    RunTwoMore(actions, SourceMeta(i), DeliverInfo(level));
  }

  function ExampleSlot(h: Hash): Slot {
    if h == 20 then 2 else 1
  }

  function BlockActions(slot: Slot, h: Hash): seq<Action> {
    [SourceUpdate(Merger.BlockUpdate(slot, h, [])), DeliverBlock]
  }

  function InfoActions(slot: Slot, h: Hash, level: Commitment): seq<Action> {
    [SourceMeta(BlockInfo(slot, h, slot, level)), DeliverInfo(level)]
  }

  const FirstActions := BlockActions(1, 10) + InfoActions(1, 10, Finalized) + InfoActions(2, 20, Finalized)

  const ConfirmedLastActions := FirstActions + BlockActions(2, 20) + InfoActions(2, 20, Confirmed)

  lemma {:induction false} NoticesArrive()
    ensures var p := Run(FirstActions);
      && !p.stopped && p.merged.window == {1} && p.blocksRead == |p.merged.sent|
      && FilterOf(p, Confirmed) == Filter(0, []) && ReadOf(p, Confirmed) == 0
      && p.received == FinalizedFirst[..3]
  {
    assert [] + BlockActions(1, 10) == BlockActions(1, 10);
    BlockPasses([], 1, 10, []);
    assert Merger.Remember({}, 1) == {1};
    InfoPasses(BlockActions(1, 10), Finalized, BlockInfo(1, 10, 1, Finalized));
    InfoPasses(BlockActions(1, 10) + InfoActions(1, 10, Finalized), Finalized, BlockInfo(2, 20, 2, Finalized));
  }

  lemma {:induction false} AllArrive()
    ensures Run(ConfirmedLastActions).received == ConfirmedLast
  {
    NoticesArrive();
    BlockPasses(FirstActions, 2, 20, []);
    InfoPasses(FirstActions + BlockActions(2, 20), Confirmed, BlockInfo(2, 20, 2, Confirmed));
  }

  lemma {:induction false} ActionsAreConsistent()
    ensures forall n :: 0 <= n < |ConfirmedLastActions| ==> Consistent(ConfirmedLastActions[n], ExampleSlot)
  {
    PairIsConsistent(1, 10);
    PairIsConsistent(2, 20);
    assert forall a :: a in FirstActions ==> Consistent(a, ExampleSlot);
    assert forall a :: a in ConfirmedLastActions ==> Consistent(a, ExampleSlot);
  }

  lemma {:induction false} PairIsConsistent(slot: Slot, h: Hash)
    requires slot == ExampleSlot(h)
    ensures forall a :: a in BlockActions(slot, h) ==> Consistent(a, ExampleSlot)
    ensures forall a, level :: a in InfoActions(slot, h, level) ==> Consistent(a, ExampleSlot)
  {
  }

  /** A run with consistent sources, every item passing merger or filter, that sends the confirmed block last. */
  lemma {:induction false} DocumentedOrderCanFailInRun()
    ensures forall n :: 0 <= n < |ConfirmedLastActions| ==> Consistent(ConfirmedLastActions[n], ExampleSlot)
    ensures Run(ConfirmedLastActions).received == ConfirmedLast
    ensures ConfirmedAfterFinalized(Run(ConfirmedLastActions).emitter.sent, 20)
  {
    AllArrive();
    ActionsAreConsistent();
    EmitterFollows(ConfirmedLastActions, ExampleSlot);
    DocumentedOrderCanFail();
  }

  lemma {:induction false} EmitterFollows(actions: seq<Action>, slotOf: Hash -> Slot)
    requires forall n :: 0 <= n < |actions| ==> Consistent(actions[n], slotOf)
    ensures Run(actions).emitter == BlockEmitter.Run(Run(actions).received)
  {
    InvRun(actions, slotOf);
  }
}
