/**
 The slot estimator of RPC polling (cluster-endpoints/src/rpc_polling/poll_slots.rs): it forwards the
 polled slots and, while none arrives, lets its estimate run ahead.
 */
module SlotEstimator {
  import opened Common

  const MAX_AHEAD := 32

  datatype SlotNotification = SlotNotification(processedSlot: Slot, estimatedProcessedSlot: Slot)

  datatype Estimate = Estimate(current: Slot, estimated: Slot, sent: seq<SlotNotification>)

  datatype Input = Polled(slot: Slot) | Timeout

  function Send(e: Estimate): Estimate {
    e.(sent := e.sent + [SlotNotification(e.current, e.estimated)])
  }

  function Step(e: Estimate, input: Input): Estimate {
    match input
    case Polled(slot) =>
      if slot > e.current
      then Send(e.(current := slot, estimated := if slot > e.estimated then slot else e.estimated))
      else e
    case Timeout =>
      if e.estimated < e.current + MAX_AHEAD then Send(e.(estimated := e.estimated + 1)) else e
  }

  function Run(slot: Slot, inputs: seq<Input>): Estimate {
    if inputs == [] then Estimate(slot, slot, []) else Step(Run(slot, inputs[..|inputs| - 1]), inputs[|inputs| - 1])
  }

  class Estimator {
    var currentSlot: Slot
    var estimatedSlot: Slot
    var sent: seq<SlotNotification>

    function Value(): Estimate
      reads this
    {
      Estimate(currentSlot, estimatedSlot, sent)
    }

    constructor (slot: Slot)
      ensures Value() == Estimate(slot, slot, [])
    {
      currentSlot, estimatedSlot, sent := slot, slot, [];
    }

    method OnSlot(slot: Slot)
      modifies this
      ensures Value() == Step(old(Value()), Polled(slot))
    {
      if slot > currentSlot {
        currentSlot := slot;
        if currentSlot > estimatedSlot {
          estimatedSlot := slot;
        }
        sent := sent + [SlotNotification(currentSlot, estimatedSlot)];
      }
    }

    method OnTimeout()
      modifies this
      ensures Value() == Step(old(Value()), Timeout)
    {
      if estimatedSlot < currentSlot + MAX_AHEAD {
        estimatedSlot := estimatedSlot + 1;
        sent := sent + [SlotNotification(currentSlot, estimatedSlot)];
      }
    }
  }

  predicate Close(processed: Slot, estimated: Slot) {
    processed <= estimated <= processed + MAX_AHEAD
  }

  ghost predicate Inv(e: Estimate) {
    && Close(e.current, e.estimated)
    && (forall i :: 0 <= i < |e.sent| ==> Close(e.sent[i].processedSlot, e.sent[i].estimatedProcessedSlot))
    && (forall i :: 0 <= i < |e.sent| ==>
      e.sent[i].processedSlot <= e.current && e.sent[i].estimatedProcessedSlot <= e.estimated)
    && (forall i, j :: 0 <= i < j < |e.sent| ==>
          && e.sent[i].processedSlot <= e.sent[j].processedSlot
          && e.sent[i].estimatedProcessedSlot <= e.sent[j].estimatedProcessedSlot
          && e.sent[i] != e.sent[j])
    && (e.sent != [] ==> e.sent[|e.sent| - 1] == SlotNotification(e.current, e.estimated))
  }

  /** Sending a later pair keeps all pairs in order. */
  lemma {:induction false} SendKeepsInv(e: Estimate, current: Slot, estimated: Slot)
    requires Inv(e) && Close(current, estimated)
    requires current >= e.current && estimated >= e.estimated && (current > e.current || estimated > e.estimated)
    ensures Inv(Send(e.(current := current, estimated := estimated)))
  {
  }

  lemma {:induction false} StepKeepsInv(e: Estimate, input: Input)
    requires Inv(e)
    ensures Inv(Step(e, input))
  {
    match input
    case Polled(slot) =>
      if slot > e.current { SendKeepsInv(e, slot, if slot > e.estimated then slot else e.estimated); }
    case Timeout =>
      if e.estimated < e.current + MAX_AHEAD { SendKeepsInv(e, e.current, e.estimated + 1); }
  }

  /** In every run all notifications are within 32 slots, never go back, and never repeat. */
  lemma {:induction false} EstimateStaysClose(slot: Slot, inputs: seq<Input>)
    ensures Inv(Run(slot, inputs))
  {
    if inputs != [] {
      EstimateStaysClose(slot, inputs[..|inputs| - 1]);
      StepKeepsInv(Run(slot, inputs[..|inputs| - 1]), inputs[|inputs| - 1]);
    }
  }

  // ----- how the estimate moves

  function Timeouts(n: nat): seq<Input> {
    seq(n, _ => Timeout)
  }

  function Continue(e: Estimate, inputs: seq<Input>): Estimate {
    if inputs == [] then e else Step(Continue(e, inputs[..|inputs| - 1]), inputs[|inputs| - 1])
  }

  /** While no slot comes the estimate advances one by one, up to 32 ahead, and each advance is sent. */
  lemma {:induction false} TimeoutsAdvance(e: Estimate, n: nat)
    requires Inv(e)
    ensures var after, ahead := Continue(e, Timeouts(n)), e.current + 32 - e.estimated;
      && after.current == e.current && after.estimated == e.estimated + (if n < ahead then n else ahead)
      && |after.sent| == |e.sent| + (if n < ahead then n else ahead) && after.sent[..|e.sent|] == e.sent
      && forall i :: |e.sent| <= i < |after.sent| ==>
           after.sent[i] == SlotNotification(e.current, e.estimated + 1 + i - |e.sent|)
  {
    if n > 0 {
      TimeoutsAdvance(e, n - 1);
      assert Timeouts(n)[..n - 1] == Timeouts(n - 1);
    }
  }

  /** A later slot becomes the current one, lifts the estimate to at least itself, and is sent; others are ignored. */
  lemma {:induction false} SlotArrives(e: Estimate, slot: Slot)
    requires Inv(e)
    ensures var after := Step(e, Polled(slot));
      if slot > e.current
      then after.current == slot && slot <= after.estimated && e.estimated <= after.estimated
           && (after.estimated == slot || after.estimated == e.estimated)
           && after.sent == e.sent + [SlotNotification(slot, after.estimated)]
      else after == e
  {
  }
}
