/**
 Where a holder's session comes from and where its evidence goes: the counts of fresh
 and resumed sessions, their lanes, and the close report that reads the exit record.
 */
module HoldSessions {
  import opened Basics
  import opened Statuses
  import opened Lanes
  import opened CloseReports
  import opened HolderLog
  import Holder
  import LoopState
  import LoopRotation

  /** The request that a loop's acquisition provisions for a slot with a lane. */
  function FreshRequest(c: LoopState.Child): Result<Holder.Request, LaneError>
    requires c.lane.Some?
  {
    var binding := HolderBinding(c.lane.value, c.completedRounds);
    if binding.Err? then Err(binding.error)
    else Ok(Holder.Request(Holder.Create, false, None, c.budget, c.ownsContinuation, 1, 1, false, Some(binding.value)))
  }

  /** The counts that resuming a Hold with a lane computes; out of the lane it raises. */
  function ResumedRequest(lane: Lane, existingTotal: nat, autoContinue: bool): Result<Holder.Request, LaneError> {
    var batch := LaneBatchIds(lane, existingTotal + 1);
    if batch.Err? then Err(batch.error)
    else Ok(Holder.Request(
              Holder.Resume, true, None, Rounds(lane) - existingTotal, autoContinue, 1, existingTotal + 1, false,
              Some(lane)))
  }

  /**
   A thread of a slot, with or without a quota, never runs out of its lane, its session runs no more turns
   than its budget, and its turn `k` sees round `completed + k` of the slot.
   */
  lemma FreshSessionFits(s: LoopState.Loop, slot: LoopState.Child, g: LoopState.Receipt, k: int)
    requires LoopRotation.WellFormed(s, slot) && slot.lane.Some? && slot.completedRounds < Rounds(slot.lane.value)
    ensures var c := LoopRotation.Acquired(s, slot, g);
      && FreshRequest(c).Ok?
      && Holder.LaneFits(FreshRequest(c).value)
      && Holder.FirstTurn(FreshRequest(c).value) == 1
      && Holder.TurnBound(FreshRequest(c).value) == (if slot.ownsContinuation then c.budget else 1) <= c.budget
      && (1 <= k <= Holder.TurnBound(FreshRequest(c).value) ==>
            LaneBatchIds(FreshRequest(c).value.lane.value, k) ==
            LaneBatchIds(slot.lane.value, slot.completedRounds + k))
  {
    var lane := slot.lane.value;
    SuffixRounds(lane, slot.completedRounds);
    RoundsBound(lane, slot.completedRounds);
    assert Valid(HolderBinding(lane, slot.completedRounds).value);
    if 1 <= k {
      SuffixBatch(lane, slot.completedRounds, k);
    }
  }

  /** A resumed session goes on at the next round of its lane and, where it may continue, ends with the last. */
  lemma ResumedSessionFits(lane: Lane, existingTotal: nat, autoContinue: bool)
    requires Valid(lane) && existingTotal < Rounds(lane)
    ensures ResumedRequest(lane, existingTotal, autoContinue).Ok?
    ensures var r := ResumedRequest(lane, existingTotal, autoContinue).value;
      && Holder.LaneFits(r)
      && Holder.FirstTotal(r) == existingTotal + 1
      && Holder.FirstTotal(r) + Holder.TurnBound(r) - 1 == (if autoContinue then Rounds(lane) else existingTotal + 1)
  {
  }

  /** A session dispatches each turn number at most once, and only numbers of its budget. */
  lemma SessionWithinBudget(r: Holder.Request, log: seq<Event>, i: nat)
    requires Orderly(log, Holder.FirstTotal(r)) && |log| <= 3 * Holder.TurnBound(r) && i < |log|
    ensures Holder.FirstTotal(r) <= log[i].number < Holder.FirstTotal(r) + Holder.TurnBound(r)
    ensures forall j: nat :: j < |log| && j != i && Dispatches(log[i]) && Dispatches(log[j]) ==>
              log[j].number != log[i].number
  {
    DispatchesWithinBound(log, Holder.FirstTotal(r), Holder.TurnBound(r), i);
    forall j: nat | j < |log| && j != i && Dispatches(log[i]) && Dispatches(log[j])
      ensures log[j].number != log[i].number
    {
      if i < j {
        DispatchedOnce(log, Holder.FirstTotal(r), i, j);
      } else {
        DispatchedOnce(log, Holder.FirstTotal(r), j, i);
      }
    }
  }

  /**
   Evidence read from a holder's exit record. It is confirmed by the record itself, by the report's own
   non-dispatch mark that a status read repeats, by the host after the holder's exact read-back, by a
   rejected model before any start, or by reconciling the record's turn with what the App Server has ended.
   `local_observer_stopped` is only ever written next to the exit record.
   */
  predicate ReadFrom(ev: Evidence, x: Holder.Exit, r: Report, ended: set<Turn>) {
    && (ev.confirmed ==>
          || x.confirmed || r.nonDispatch || x.cause.OwnerStopped? || x.dispatch.NotSent?
          || (x.turn.Some? && x.turn.value in ended))
    && (ev.observerStopped ==> ev.dispatch == x.dispatch)
  }

  /**
   The close report and the holder together: as long as its evidence is read from the exit record of a
   holder run, a completed report never hides a running turn that the holder dispatched or was recovering.
   */
  lemma CloseNeverHidesTurn(x: Holder.Exit, log: seq<Event>, ended: set<Turn>, r: Report, inputs: seq<Input>)
    requires Holder.SoundExit(x, log) && Opened(r)
    requires forall i :: 0 <= i < |inputs| && inputs[i].ev.request == Some(r.request) ==>
               ReadFrom(inputs[i].ev, x, RefreshAll(r, inputs[..i]), ended)
    ensures RefreshAll(r, inputs).status.Complete? ==> !StillRuns(log, ended)
  {
    forall i | 0 <= i < |inputs| && inputs[i].ev.request == Some(r.request)
      ensures Truthful(RefreshAll(r, inputs[..i]), inputs[i].ev, StillRuns(log, ended))
    {
      assert ReadFrom(inputs[i].ev, x, RefreshAll(r, inputs[..i]), ended);
    }
    ReportHidesNoTurn(r, inputs, StillRuns(log, ended));
  }
}
