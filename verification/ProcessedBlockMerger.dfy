/**
 The task that merges the processed blocks of all geyser sources
 (cluster-endpoints/src/grpc_multiplex.rs, the receive loop of
 create_grpc_multiplex_processed_block_task).
 It remembers at most MAX_SIZE slots and still never emits a slot twice.
 */
module ProcessedBlockMerger {
  import opened Common

  const MAX_SIZE := 1024

  datatype Update =
    | SlotUpdate(slot: Slot)
    | BlockMetaUpdate(slot: Slot)
    | BlockUpdate(slot: Slot, blockhash: Hash, transactions: seq<Signature>)
    | OtherUpdate

  function ExtractSlot(u: Update): Option<Slot> {
    match u
    case SlotUpdate(slot) => Some(slot)
    case BlockMetaUpdate(slot) => Some(slot)
    case BlockUpdate(slot, _, _) => Some(slot)
    case OtherUpdate => None
  }

  /** Only full blocks are mapped, always at commitment processed. */
  function MapBlock(u: Update): Option<ProducedBlock> {
    match u
    case BlockUpdate(slot, blockhash, transactions) =>
      Some(ProducedBlock(slot, blockhash, transactions, Processed))
    case _ => None
  }

  /** The two tests of the receive loop: not in the window, and not too old for a half full window. */
  predicate Accepts(window: set<Slot>, slot: Slot) {
    && slot !in window
    && !(|window| >= MAX_SIZE / 2 && window != {} && slot <= Min(window))
  }

  /** The window after a block of this slot was sent: insert, then pop the first if too large. */
  function Remember(window: set<Slot>, slot: Slot): set<Slot> {
    var grown := window + {slot};
    if |grown| > MAX_SIZE then grown - {Min(grown)} else grown
  }

  predicate Emits(window: set<Slot>, u: Update) {
    u.BlockUpdate? && Accepts(window, u.slot)
  }

  class BlockMerger {
    var slotsProcessed: set<Slot>

    constructor ()
      ensures slotsProcessed == {}
    {
      slotsProcessed := {};
    }

    /** One iteration of the receive loop; the result is the block sent downstream, if any. */
    method Receive(u: Update) returns (sent: Option<ProducedBlock>)
      modifies this
      ensures slotsProcessed ==
        if Emits(old(slotsProcessed), u) then Remember(old(slotsProcessed), u.slot) else old(slotsProcessed)
      ensures sent == if Emits(old(slotsProcessed), u) then MapBlock(u) else None
    {
      sent := None;
      var extracted := ExtractSlot(u);
      if extracted.Some? {
        var slot := extracted.value;
        if slot in slotsProcessed {
          return;
        }
        if |slotsProcessed| >= MAX_SIZE / 2 {
          var first := Min(slotsProcessed);
          if slot <= first {
            return;
          }
        }
        var mapped := MapBlock(u);
        if mapped.Some? {
          sent := mapped;
          slotsProcessed := slotsProcessed + {slot};
          if |slotsProcessed| > MAX_SIZE {
            slotsProcessed := slotsProcessed - {Min(slotsProcessed)};
          }
        }
      }
    }
  }

  // ----- whole runs

  datatype Merged = Merged(window: set<Slot>, sent: seq<ProducedBlock>)

  function Step(m: Merged, u: Update): Merged {
    if Emits(m.window, u)
    then Merged(Remember(m.window, u.slot), m.sent + [MapBlock(u).value])
    else m
  }

  function Run(updates: seq<Update>): Merged {
    if updates == [] then Merged({}, [])
    else Step(Run(updates[..|updates| - 1]), updates[|updates| - 1])
  }

  function SlotsOf(blocks: seq<ProducedBlock>): set<Slot> {
    set b | b in blocks :: b.slot
  }

  ghost predicate DistinctSlots(blocks: seq<ProducedBlock>) {
    forall i, j :: 0 <= i < j < |blocks| ==> blocks[i].slot != blocks[j].slot
  }

  // ----- the reference: a merger that remembers every slot it ever emitted

  function Newer(seen: set<Slot>, slot: Slot): set<Slot> {
    set s | s in seen && s > slot
  }

  /** A slot is stale once it is older than the whole seen-set (half a window) or than a full window of it. */
  predicate Stale(seen: set<Slot>, slot: Slot) {
    |seen| >= 512 && |Newer(seen, slot)| >= if |seen| < 1024 then |seen| else 1024
  }

  function UnboundedStep(sent: seq<ProducedBlock>, u: Update): seq<ProducedBlock> {
    var seen := SlotsOf(sent);
    if u.BlockUpdate? && u.slot !in seen && !Stale(seen, u.slot) then sent + [MapBlock(u).value] else sent
  }

  function UnboundedRun(updates: seq<Update>): seq<ProducedBlock> {
    if updates == [] then []
    else UnboundedStep(UnboundedRun(updates[..|updates| - 1]), updates[|updates| - 1])
  }

  // ----- the window is the newest part of the seen-set

  /** The window holds the MAX_SIZE newest emitted slots, or all of them. */
  ghost predicate NewestOf(window: set<Slot>, seen: set<Slot>) {
    && window <= seen
    && |window| <= MAX_SIZE
    && (forall gone, kept :: gone in seen - window && kept in window ==> gone < kept)
    && (window != seen ==> |window| == MAX_SIZE)
  }

  /** On a window that is the newest part of the seen-set, both mergers take the same decision. */
  lemma {:induction false} SameDecision(window: set<Slot>, seen: set<Slot>, slot: Slot)
    requires NewestOf(window, seen)
    ensures Accepts(window, slot) <==> slot !in seen && !Stale(seen, slot)
  {
    if slot in seen {
      if slot !in window {
        assert |window| == MAX_SIZE;
        assert slot in seen - window && Min(window) in window;
      }
    } else {
      var size := if |seen| < MAX_SIZE then |seen| else MAX_SIZE;
      SubsetSize(window, seen);
      assert |window| == size;
      if window != {} {
        if slot <= Min(window) {
          assert window <= Newer(seen, slot);
          SubsetSize(window, Newer(seen, slot));
        } else {
          forall s | s in Newer(seen, slot) ensures s in window - {Min(window)} {
            assert s in window || s in seen - window;
          }
          SubsetSize(Newer(seen, slot), window - {Min(window)});
        }
      }
    }
  }

  /** Remembering an accepted slot keeps the window the newest part of the seen-set. */
  lemma {:induction false} RememberKeepsNewest(window: set<Slot>, seen: set<Slot>, slot: Slot)
    requires NewestOf(window, seen) && Accepts(window, slot)
    ensures NewestOf(Remember(window, slot), seen + {slot})
  {
    var grown := window + {slot};
    assert |grown| == |window| + 1;
    if |grown| > MAX_SIZE {
      var first := Min(grown);
      assert first != slot;
      var kept, all := grown - {first}, seen + {slot};
      forall gone, k | gone in all - kept && k in kept ensures gone < k {
        if gone != first { assert gone in seen - window && first in window; }
      }
    }
  }

  lemma {:induction false} SlotsOfAppend(blocks: seq<ProducedBlock>, b: ProducedBlock)
    ensures SlotsOf(blocks + [b]) == SlotsOf(blocks) + {b.slot}
  {
    assert forall x :: x in blocks + [b] <==> x in blocks || x == b;
    forall s | s in SlotsOf(blocks) + {b.slot}
      ensures s in SlotsOf(blocks + [b])
    {
      if s == b.slot {
        assert b in blocks + [b];
      } else {
        var x :| x in blocks && x.slot == s;
        assert x in blocks + [b];
      }
    }
  }

  /** What every step of the merger keeps. */
  ghost predicate Sound(m: Merged) {
    NewestOf(m.window, SlotsOf(m.sent)) && DistinctSlots(m.sent)
  }

  lemma {:induction false} StepKeepsSound(m: Merged, u: Update)
    requires Sound(m)
    ensures Sound(Step(m, u))
    ensures Step(m, u).sent == UnboundedStep(m.sent, u)
  {
    if u.BlockUpdate? {
      SameDecision(m.window, SlotsOf(m.sent), u.slot);
      if Accepts(m.window, u.slot) {
        SlotsOfAppend(m.sent, MapBlock(u).value);
        RememberKeepsNewest(m.window, SlotsOf(m.sent), u.slot);
        forall i | 0 <= i < |m.sent| ensures m.sent[i].slot != u.slot {
          assert m.sent[i] in m.sent;
        }
      }
    }
  }

  lemma {:induction false} RunIsSound(updates: seq<Update>)
    ensures Sound(Run(updates))
    ensures Run(updates).sent == UnboundedRun(updates)
  {
    if updates == [] {
      assert SlotsOf([]) == {};
    } else {
      var before := updates[..|updates| - 1];
      RunIsSound(before);
      StepKeepsSound(Run(before), updates[|updates| - 1]);
    }
  }

  /** The bounded window refines the unbounded seen-set: same blocks, same order, for every input. */
  lemma {:induction false} WindowRefinesSeenSet(updates: seq<Update>)
    ensures Run(updates).sent == UnboundedRun(updates)
    ensures |Run(updates).window| <= 1024
  {
    RunIsSound(updates);
  }

  /** No slot is emitted twice in the whole lifetime of the merger. */
  lemma {:induction false} NoSlotTwice(updates: seq<Update>)
    ensures DistinctSlots(Run(updates).sent)
  {
    RunIsSound(updates);
  }
}
