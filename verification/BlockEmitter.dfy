/**
 The emitter loop of create_grpc_multiplex_blocks_subscription
 (cluster-endpoints/src/grpc_multiplex.rs), for one reconnect iteration: it turns processed blocks
 and block-info notices, arriving in any order, into full blocks at each commitment level.
 */
module BlockEmitter {
  import opened Common

  const CLEANUP_SLOTS_BEHIND_FINALIZED := 100
  const MAX_ALLOWED_CLEANUP_WITHOUT_RECV := 12

  /** What the select! loop can receive. */
  datatype Event =
    | Block(block: ProducedBlock)
    | Info(level: Commitment, info: BlockInfo)
    | CleanupTick

  datatype Emitter = Emitter(
    cache: map<Hash, ProducedBlock>,
    confirmedWaiting: set<Hash>,
    finalizedWaiting: set<Hash>,
    lastFinalizedSlot: Slot,
    startupCompleted: bool,
    ticksWithoutBlock: nat,
    ticksWithoutConfirmed: nat,
    ticksWithoutFinalized: nat,
    running: bool,
    sent: seq<ProducedBlock>,
    infos: seq<BlockInfo>)

  const Initial := Emitter(map[], {}, {}, 0, false, 0, 0, 0, true, [], [])

  function At(b: ProducedBlock, level: Commitment): ProducedBlock {
    b.(commitment := level)
  }

  function OnBlock(s: Emitter, b: ProducedBlock): Emitter {
    s.(ticksWithoutBlock := 0,
       lastFinalizedSlot :=
         if b.commitment == Finalized && b.slot > s.lastFinalizedSlot then b.slot else s.lastFinalizedSlot,
       sent := s.sent + [b]
               + (if b.blockhash in s.confirmedWaiting then [At(b, Confirmed)] else [])
               + (if b.blockhash in s.finalizedWaiting then [At(b, Finalized)] else []),
       confirmedWaiting := s.confirmedWaiting - {b.blockhash},
       finalizedWaiting := s.finalizedWaiting - {b.blockhash},
       cache := s.cache[b.blockhash := b])
  }

  function OnProcessedInfo(s: Emitter, i: BlockInfo): Emitter {
    s.(infos := s.infos + [i])
  }

  function OnConfirmedInfo(s: Emitter, i: BlockInfo): Emitter {
    var s := s.(ticksWithoutConfirmed := 0, infos := s.infos + [i]);
    if i.blockhash in s.cache
    then s.(sent := s.sent + [At(s.cache[i.blockhash], Confirmed)])
    else s.(confirmedWaiting := s.confirmedWaiting + {i.blockhash})
  }

  function OnFinalizedInfo(s: Emitter, i: BlockInfo): Emitter {
    var s := s.(ticksWithoutFinalized := 0, infos := s.infos + [i],
                lastFinalizedSlot := if i.slot > s.lastFinalizedSlot then i.slot else s.lastFinalizedSlot);
    if i.blockhash in s.cache
    then s.(sent := s.sent + [At(s.cache[i.blockhash], Finalized)],
            cache := s.cache - {i.blockhash},
            startupCompleted := true)
    else if s.startupCompleted then s.(finalizedWaiting := s.finalizedWaiting + {i.blockhash})
    else s
  }

  /** The slots that a cleanup tick drops from the cache. */
  predicate TooOld(slot: Slot, lastFinalizedSlot: Slot) {
    lastFinalizedSlot != 0 && slot <= SaturatingSub(lastFinalizedSlot, CLEANUP_SLOTS_BEHIND_FINALIZED)
  }

  predicate Stalled(s: Emitter) {
    || s.ticksWithoutBlock > MAX_ALLOWED_CLEANUP_WITHOUT_RECV
    || s.ticksWithoutConfirmed > MAX_ALLOWED_CLEANUP_WITHOUT_RECV
    || s.ticksWithoutFinalized > MAX_ALLOWED_CLEANUP_WITHOUT_RECV
  }

  function OnCleanupTick(s: Emitter): Emitter {
    if Stalled(s) then s.(running := false)
    else s.(ticksWithoutBlock := s.ticksWithoutBlock + 1,
            ticksWithoutConfirmed := s.ticksWithoutConfirmed + 1,
            ticksWithoutFinalized := s.ticksWithoutFinalized + 1,
            cache := map h | h in s.cache && !TooOld(s.cache[h].slot, s.lastFinalizedSlot) :: s.cache[h])
  }

  /** One arm of the select! loop; after a break nothing is received any more. */
  function Step(s: Emitter, e: Event): Emitter {
    if !s.running then s
    else
      match e
      case Block(b) => OnBlock(s, b)
      case Info(Processed, i) => OnProcessedInfo(s, i)
      case Info(Confirmed, i) => OnConfirmedInfo(s, i)
      case Info(Finalized, i) => OnFinalizedInfo(s, i)
      case CleanupTick => OnCleanupTick(s)
  }

  function Run(hist: seq<Event>): Emitter {
    if hist == [] then Initial else Step(Run(hist[..|hist| - 1]), hist[|hist| - 1])
  }

  /** The loop variables as they are declared before the receive loop. */
  class BlockEmitterTask {
    var recentProcessedBlocks: map<Hash, ProducedBlock>
    var confirmedBlockNotYetProcessed: set<Hash>
    var finalizedBlockNotYetProcessed: set<Hash>
    var lastFinalizedSlot: Slot
    var startupCompleted: bool
    var cleanupWithoutRecvFullBlocks: nat
    var cleanupWithoutConfirmedRecvBlocksMeta: nat
    var cleanupWithoutFinalizedRecvBlocksMeta: nat
    var running: bool
    var producedBlocks: seq<ProducedBlock>
    var blockInfos: seq<BlockInfo>

    function State(): Emitter
      reads this
    {
      Emitter(recentProcessedBlocks, confirmedBlockNotYetProcessed, finalizedBlockNotYetProcessed,
              lastFinalizedSlot, startupCompleted, cleanupWithoutRecvFullBlocks,
              cleanupWithoutConfirmedRecvBlocksMeta, cleanupWithoutFinalizedRecvBlocksMeta,
              running, producedBlocks, blockInfos)
    }

    constructor ()
      ensures State() == Initial
    {
      recentProcessedBlocks := map[];
      confirmedBlockNotYetProcessed, finalizedBlockNotYetProcessed := {}, {};
      lastFinalizedSlot, startupCompleted := 0, false;
      cleanupWithoutRecvFullBlocks, cleanupWithoutConfirmedRecvBlocksMeta, cleanupWithoutFinalizedRecvBlocksMeta :=
        0, 0, 0;
      running, producedBlocks, blockInfos := true, [], [];
    }

    method ReceiveBlock(b: ProducedBlock)
      requires running
      modifies this
      ensures State() == OnBlock(old(State()), b)
    {
      cleanupWithoutRecvFullBlocks := 0;
      if b.commitment == Finalized {
        lastFinalizedSlot := if b.slot > lastFinalizedSlot then b.slot else lastFinalizedSlot;
      }
      producedBlocks := producedBlocks + [b];
      if b.blockhash in confirmedBlockNotYetProcessed {
        confirmedBlockNotYetProcessed := confirmedBlockNotYetProcessed - {b.blockhash};
        producedBlocks := producedBlocks + [At(b, Confirmed)];
      }
      if b.blockhash in finalizedBlockNotYetProcessed {
        finalizedBlockNotYetProcessed := finalizedBlockNotYetProcessed - {b.blockhash};
        producedBlocks := producedBlocks + [At(b, Finalized)];
      }
      recentProcessedBlocks := recentProcessedBlocks[b.blockhash := b];
    }

    method ReceiveInfo(level: Commitment, i: BlockInfo)
      requires running
      modifies this
      ensures State() == Step(old(State()), Info(level, i))
    {
      blockInfos := blockInfos + [i];
      match level
      case Processed =>
      case Confirmed =>
        cleanupWithoutConfirmedRecvBlocksMeta := 0;
        if i.blockhash in recentProcessedBlocks {
          producedBlocks := producedBlocks + [At(recentProcessedBlocks[i.blockhash], Confirmed)];
        } else {
          confirmedBlockNotYetProcessed := confirmedBlockNotYetProcessed + {i.blockhash};
        }
      case Finalized =>
        cleanupWithoutFinalizedRecvBlocksMeta := 0;
        lastFinalizedSlot := if i.slot > lastFinalizedSlot then i.slot else lastFinalizedSlot;
        if i.blockhash in recentProcessedBlocks {
          var cached := recentProcessedBlocks[i.blockhash];
          recentProcessedBlocks := recentProcessedBlocks - {i.blockhash};
          startupCompleted := true;
          producedBlocks := producedBlocks + [At(cached, Finalized)];
        } else if startupCompleted {
          finalizedBlockNotYetProcessed := finalizedBlockNotYetProcessed + {i.blockhash};
        }
    }

    method Tick()
      requires running
      modifies this
      ensures State() == OnCleanupTick(old(State()))
    {
      if cleanupWithoutRecvFullBlocks > MAX_ALLOWED_CLEANUP_WITHOUT_RECV
         || cleanupWithoutConfirmedRecvBlocksMeta > MAX_ALLOWED_CLEANUP_WITHOUT_RECV
         || cleanupWithoutFinalizedRecvBlocksMeta > MAX_ALLOWED_CLEANUP_WITHOUT_RECV {
        running := false;
        return;
      }
      cleanupWithoutRecvFullBlocks := cleanupWithoutRecvFullBlocks + 1;
      cleanupWithoutConfirmedRecvBlocksMeta := cleanupWithoutConfirmedRecvBlocksMeta + 1;
      cleanupWithoutFinalizedRecvBlocksMeta := cleanupWithoutFinalizedRecvBlocksMeta + 1;
      recentProcessedBlocks :=
        map h | h in recentProcessedBlocks && !TooOld(recentProcessedBlocks[h].slot, lastFinalizedSlot)
        :: recentProcessedBlocks[h];
    }
  }
}
