/**
 The controller's entry points on one loop: a tick, a stop and a close. Each loads the
 record, works on its own copy and saves; other writers act in between. Whatever the
 interleaving, every call keeps the latches of the stored record.
 */
module LoopController {
  import opened Basics
  import opened Statuses
  import opened CloseReports
  import opened LoopState
  import opened LoopStore
  import opened LoopCleanup
  import opened LoopRotation

  /** What a call meets from outside: other writers before and after its effects, and the runtime's answers. */
  datatype Outside = Outside(
    before: seq<Op>,
    after: seq<Op>,
    expired: bool,
    cancelled: bool,
    receipts: nat -> Receipt,
    replies: nat -> Reply,
    world: World)

  lemma ObservedWellFormed(s: Loop, receipts: nat -> Receipt)
    requires AllWellFormed(s)
    ensures AllWellFormed(s.(children := ObservedChildren(s, receipts)))
  {
  }

  function ObservedChildren(s: Loop, receipts: nat -> Receipt): (r: seq<Child>)
    ensures |r| == |s.children|
    ensures forall i :: 0 <= i < |r| ==> r[i] == Observed(s, s.children[i], receipts(i))
  {
    seq(|s.children|, i requires 0 <= i < |s.children| => Observed(s, s.children[i], receipts(i)))
  }

  /** `_refresh` */
  function RefreshedLoop(s: Loop): Loop {
    if s.status == Ends(ToBlocked) then s
    else if exists i :: 0 <= i < |s.children| && s.children[i].phase.Terminal? then s.(status := ResumePending)
    else if exists i :: 0 <= i < |s.children| && s.children[i].phase.Acquiring? then s.(status := Acquires)
    else s.(status := Runs)
  }

  predicate AllSettled(s: Loop) {
    forall i :: 0 <= i < |s.children| ==> Settled(s.children[i])
  }

  function EndTarget(s: Loop): Target {
    if exists i :: 0 <= i < |s.children| && s.children[i].phase.Stuck? then ToBlocked else ToCompleted
  }

  predicate NeedsCleanup(s: Loop) {
    s.cleanup.Some? && (!s.cleanup.value.completed || !Confirmed(s))
  }

  /** The copy with the close intent, unless it already has one. */
  function WithClose(s: Loop, id: Id): Loop {
    if s.close.Some? then s else s.(close := Some(Close(id, map[], Pending, false, false, false, false)))
  }

  predicate CloseSettled(s: Loop) {
    s.close.Some? && (s.close.value.status.Complete? || s.close.value.status.Unresolved?)
  }

  /** The close intent is lost exactly when the stored cleanup wins over a copy and has no close itself. */
  lemma IntentStoredExactly(latest: Loop, s: Loop, id: Id)
    ensures Saved(Some(latest), WithClose(s, id)).close.None? <==> latest.close.None? && CleanupProtected(latest, s)
  {
  }

  /** Without other writers between load and save the intent is always stored. */
  lemma IntentStoredAlone(s: Loop, id: Id)
    ensures Saved(Some(s), WithClose(s, id)).close.Some?
  {
  }

  /** The stored record of a loop with one running child and nothing to close or clean up. */
  function RunningLoop(): Loop {
    var receipt := Receipt(Done, Some(7), Some(1), Some(Lifecycle.Active), false, false, 1, 1, Verification(false, []));
    var child := Child(0, None, true, Some(7), Some(receipt), false, Phase.Running, 1, 0, 1, false, None);
    Loop(Runs, 1, 1, None, true, [child], None, None)
  }

  /** A close intent is lost to a cleanup that another process latched between the load and the save. */
  lemma IntentIsLost()
    ensures exists s: Loop, ops: seq<Op>, id: Id ::
              s.close.None? && Saved(After(Some(s), ops), WithClose(s, id)).close.None?
  {
    var s := RunningLoop();
    var op := SaveOp(Latch(s, ToExpired));
    assert Apply(Some(s), op) == Some(Latch(s, ToExpired));
    AfterOne(Some(s), op);
    assert Saved(After(Some(s), [op]), WithClose(s, 1)).close.None?;
  }

  /** A cleanup latch is lost to a close intent that another process stored between the load and the save. */
  lemma LatchIsLost()
    ensures exists s: Loop, ops: seq<Op>, target: Target ::
              s.cleanup.None? && Saved(After(Some(s), ops), Latch(s, target)).cleanup.None?
  {
    var s := RunningLoop();
    var op := SaveOp(WithClose(s, 1));
    assert Apply(Some(s), op) == Some(WithClose(s, 1));
    AfterOne(Some(s), op);
    assert Saved(After(Some(s), [op]), Latch(s, ToExpired)).cleanup.None?;
  }

  lemma AfterOne(disk: Option<Loop>, op: Op)
    ensures After(disk, [op]) == Apply(disk, op)
  {
    assert [op][1..] == [];
    assert After(disk, [op]) == After(Apply(disk, op), []);
  }

  lemma SaveAfterOthers(disk: Loop, ops: seq<Op>, incoming: Loop)
    ensures After(Some(disk), ops).Some?
    ensures Latched(disk, Saved(After(Some(disk), ops), incoming))
  {
    MergeLatches(disk, ops);
    var latest := After(Some(disk), ops).value;
    SaveLatches(latest, incoming);
    LatchedTransitive(disk, latest, Saved(Some(latest), incoming));
  }

  /** What the cleanup calls leave on disk when nobody else writes. */
  function CleanedUp(disk: Loop, s: Loop, target: Target, o: Outside): Loop {
    var stored := Saved(Some(disk), Latch(s, target));
    if stored.cleanup.None? then stored
    else Saved(Some(stored), if stored.cleanup.value.completed then stored else Drained(stored, o.cancelled, o.replies))
  }

  /** A recorded report reads as release evidence exactly when it is. */
  lemma ReportEvidenceExactly(r: Report)
    ensures ReceiptReleased(Some(ReportReceipt(r))) <==> ReleaseEvidence(r)
  {
  }

  /** The child has no recorded report, or one that is release evidence. */
  predicate ReportAgrees(c: Child, reports: map<Id, Report>) {
    c.hold.Some? && c.hold.value in reports ==> ReleaseEvidence(reports[c.hold.value])
  }

  /**
   Saving a drain that completed: the cleanup stays completed, and the stored evidence confirms it exactly
   when every report recorded meanwhile is release evidence itself. Otherwise the next tick drains again.
   */
  lemma SavedDrainConfirmedExactly(latest: Loop, d: Loop)
    requires Sealed(d) && !CleanupProtected(latest, d) && !CloseProtected(latest, d)
    ensures var t := Saved(Some(latest), d);
      && CleanupCompleted(t)
      && (Confirmed(t) <==> forall i :: 0 <= i < |d.children| ==> ReportAgrees(d.children[i], Reports(latest)))
      && (NeedsCleanup(t) <==> !Confirmed(t))
  {
    var t := Saved(Some(latest), d);
    if Reports(latest) != map[] {
      var m := Merged(latest, d);
      AggregateKeeps(m);
      forall i | 0 <= i < |d.children|
        ensures t.children[i] == MergedChild(d.children[i], Reports(latest))
        ensures ChildConfirmed(d.children[i])
        ensures ChildConfirmed(t.children[i]) <==> ReportAgrees(d.children[i], Reports(latest))
      {
        if d.children[i].hold.Some? && d.children[i].hold.value in Reports(latest) {
          ReportEvidenceExactly(Reports(latest)[d.children[i].hold.value]);
        }
      }
      assert |t.children| == |d.children|;
      if Confirmed(t) {
        forall i | 0 <= i < |d.children|
          ensures ChildConfirmed(t.children[i])
        {
        }
      }
    }
  }

  function TargetOf(s: Loop): Target {
    if s.cleanup.Some? then s.cleanup.value.target else ToStopped
  }

  /** What a stop leaves on disk when nobody else writes. */
  function Stopped(s: Loop, o: Outside): Loop {
    if Sealed(s) then s else CleanedUp(s, s, TargetOf(s), o)
  }

  /** What a close leaves on disk when nobody else writes: the intent, then the same cleanup as a stop. */
  function ClosedLoop(s: Loop, id: Id, o: Outside): Loop {
    var first := if CloseSettled(s) then s else Saved(Some(s), WithClose(s, id));
    if first.status.ClosedUnconfirmedLoop? then first
    else if Sealed(first) && first.close.Some? then
      Saved(Some(first), first.(close := Some(first.close.value.(
        status := Complete, schedulingClosed := true, confirmed := true, managementClosed := true,
        unresolved := false))))
    else Stopped(first, o)
  }

  /** What observing, sweeping and ending or refreshing leaves on disk. */
  function Reconciled(disk: Loop, s: Loop, o: Outside): Loop
    requires AllWellFormed(s)
  {
    ObservedWellFormed(s, o.receipts);
    var seen := s.(children := ObservedChildren(s, o.receipts));
    var t := SweepFrom(Sweep(seen, disk, false, false, false, 0), o.world, 0);
    if t.raised then t.disk
    else if !t.adopted && t.changed && AllSettled(t.s) then CleanedUp(t.disk, t.s, EndTarget(t.s), o)
    else Saved(Some(t.disk), if !t.adopted && t.changed then RefreshedLoop(t.s) else t.s)
  }

  /** What a tick leaves on disk when nobody else writes outside its sweep. */
  function Ticked(s: Loop, o: Outside): Loop
    requires AllWellFormed(s)
  {
    if s.status.ClosedUnconfirmedLoop? then s
    else if s.close.Some? && s.cleanup.None? then CleanedUp(s, s, ToStopped, o)
    else if NeedsCleanup(s) then CleanedUp(s, s, s.cleanup.value.target, o)
    else if s.status.Ends? then s
    else if o.expired then CleanedUp(s, s, ToExpired, o)
    else Reconciled(s, s, o)
  }

  class Controller {
    const store: Store

    constructor (s: Store)
      ensures store == s
    {
      store := s;
    }

    /** Other writers act. */
    method Meanwhile(loop: Id, ops: seq<Op>)
      requires loop in store.files
      modifies store
      ensures After(Some(old(store.files)[loop]), ops).Some?
      ensures store.files == old(store.files)[loop := After(Some(old(store.files)[loop]), ops).value]
      ensures Latched(old(store.files)[loop], store.files[loop])
      ensures ops == [] ==> store.files == old(store.files)
    {
      MergeLatches(store.files[loop], ops);
      store.files := store.files[loop := After(Some(store.files[loop]), ops).value];
      assert ops == [] ==> store.files == old(store.files);
    }

    /** Load, on behalf of one call. */
    method Load(loop: Id) returns (copy: Copy)
      requires loop in store.files
      ensures fresh(copy) && copy.s == store.files[loop]
    {
      copy := new Copy(store.files[loop]);
    }

    /** `_finish` and the save of its caller. */
    method FinishAndSave(loop: Id, copy: Copy, target: Target, o: Outside) returns (latched: bool)
      requires loop in store.files
      modifies store, copy
      ensures loop in store.files && Latched(old(store.files)[loop], store.files[loop])
      ensures latched <==> Saved(Some(old(store.files)[loop]), Latch(old(copy.s), target)).cleanup.Some?
      ensures o.after == [] ==> store.files[loop] == CleanedUp(old(store.files)[loop], old(copy.s), target, o)
      ensures latched ==> copy.s == store.files[loop]
    {
      ghost var first := store.files[loop];
      SaveLatches(first, Latch(copy.s, target));
      latched := Finish(store, loop, copy, target, o.cancelled, o.replies);
      if !latched {
        return;
      }
      ghost var stored := store.files[loop];
      SaveAfterOthers(stored, o.after, copy.s);
      Meanwhile(loop, o.after);
      store.Save(loop, copy);
      LatchedTransitive(first, stored, store.files[loop]);
    }

    /** `stop`; `found` is false for a loop without a record. */
    method Stop(loop: Id, o: Outside) returns (found: bool)
      modifies store
      ensures found <==> loop in old(store.files)
      ensures !found ==> store.files == old(store.files)
      ensures found ==> loop in store.files && Latched(old(store.files)[loop], store.files[loop])
      ensures found && Sealed(old(store.files)[loop]) ==> store.files == old(store.files)
      ensures found && o.before == [] && o.after == [] ==> store.files[loop] == Stopped(old(store.files)[loop], o)
    {
      if loop !in store.files {
        return false;
      }
      found := true;
      ghost var first := store.files[loop];
      var copy := Load(loop);
      if CleanupCompleted(copy.s) && Confirmed(copy.s) {
        return;
      }
      var target := TargetOf(copy.s);
      Meanwhile(loop, o.before);
      ghost var second := store.files[loop];
      var latched := FinishAndSave(loop, copy, target, o);
      LatchedTransitive(first, second, store.files[loop]);
    }

    /**
     `close`: the intent is stored before any effect. `lost` tells that the record came back without a
     close, which an already completed cleanup then turns into a look-up error.
     */
    method Close(loop: Id, id: Id, o: Outside) returns (found: bool, lost: bool)
      modifies store
      ensures found <==> loop in old(store.files)
      ensures !found ==> store.files == old(store.files)
      ensures found ==> loop in store.files && Latched(old(store.files)[loop], store.files[loop])
      ensures found && o.before == [] ==> !lost && store.files[loop].close.Some?
      ensures found && o.before == [] && o.after == [] ==>
                store.files[loop] == ClosedLoop(old(store.files)[loop], id, o)
      ensures found && !lost ==> store.files[loop].close.Some?
      ensures lost ==> found && old(store.files)[loop].close.None?
    {
      lost := false;
      if loop !in store.files {
        return false, lost;
      }
      found := true;
      ghost var first := store.files[loop];
      var copy := Load(loop);
      if !CloseSettled(copy.s) {
        SaveAfterOthers(first, o.before, WithClose(copy.s, id));
        Meanwhile(loop, o.before);
        ghost var latest := store.files[loop];
        IntentStoredExactly(latest, copy.s, id);
        IntentStoredAlone(copy.s, id);
        copy.s := WithClose(copy.s, id);
        store.Save(loop, copy);
      } else {
        LatchedReflexive(first);
      }
      ghost var second := store.files[loop];
      lost := copy.s.close.None?;
      if copy.s.status.ClosedUnconfirmedLoop? {
        return;
      }
      if CleanupCompleted(copy.s) && Confirmed(copy.s) {
        if lost {
          return;
        }
        copy.s := copy.s.(close := Some(copy.s.close.value.(
          status := Complete, schedulingClosed := true, confirmed := true, managementClosed := true,
          unresolved := false)));
        SaveLatches(second, copy.s);
        store.Save(loop, copy);
        LatchedTransitive(first, second, store.files[loop]);
        return;
      }
      var stopped := Stop(loop, o.(before := []));
      LatchedTransitive(first, second, store.files[loop]);
    }

    /** The automatic tick; `acquired` counts the threads that it acquired. */
    method Tick(loop: Id, o: Outside) returns (found: bool, acquired: nat)
      requires loop in store.files ==> AllWellFormed(store.files[loop])
      modifies store
      ensures found <==> loop in old(store.files)
      ensures !found ==> store.files == old(store.files)
      ensures found ==> loop in store.files && Latched(old(store.files)[loop], store.files[loop])
      ensures found && Closing(old(store.files)[loop]) ==> acquired == 0
      ensures found && o.after == [] ==> store.files[loop] == Ticked(old(store.files)[loop], o)
    {
      acquired := 0;
      if loop !in store.files {
        return false, acquired;
      }
      found := true;
      ghost var first := store.files[loop];
      LatchedReflexive(first);
      var copy := Load(loop);
      if copy.s.status.ClosedUnconfirmedLoop? {
        return;
      }
      if copy.s.close.Some? && copy.s.cleanup.None? {
        var latched := FinishAndSave(loop, copy, ToStopped, o);
        return;
      }
      if NeedsCleanup(copy.s) {
        var latched := FinishAndSave(loop, copy, copy.s.cleanup.value.target, o);
        return;
      }
      if copy.s.status.Ends? {
        return;
      }
      if o.expired {
        var latched := FinishAndSave(loop, copy, ToExpired, o);
        return;
      }
      acquired := ObserveAndReconcile(loop, copy, o);
    }

    /** The observing part of the tick: read every Hold, sweep the terminal ones, end or refresh, and save. */
    method ObserveAndReconcile(loop: Id, copy: Copy, o: Outside) returns (acquired: nat)
      requires loop in store.files && AllWellFormed(copy.s)
      modifies store, copy
      ensures loop in store.files && Latched(old(store.files)[loop], store.files[loop])
      ensures Closing(old(store.files)[loop]) ==> acquired == 0
      ensures o.after == [] ==> store.files[loop] == Reconciled(old(store.files)[loop], old(copy.s), o)
    {
      ghost var first := store.files[loop];
      LatchedReflexive(first);
      ObserveChildren(copy, o.receipts);
      ghost var start := Sweep(copy.s, first, false, false, false, 0);
      SweepLatches(start, o.world, 0);
      if Closing(first) {
        ClosedSweepAcquiresNothing(start, o.world, 0);
      }
      var t := SweepTerminals(store, loop, copy, o.world);
      acquired := t.acquired;
      ghost var second := store.files[loop];
      if t.raised {
        return;
      }
      if !t.adopted && t.changed {
        if AllSettled(copy.s) {
          var latched := FinishAndSave(loop, copy, EndTarget(copy.s), o);
          LatchedTransitive(first, second, store.files[loop]);
          return;
        }
        copy.s := RefreshedLoop(copy.s);
      }
      SaveAfterOthers(second, o.after, copy.s);
      Meanwhile(loop, o.after);
      store.Save(loop, copy);
      LatchedTransitive(first, second, store.files[loop]);
    }

    /** `_observe` */
    method ObserveChildren(copy: Copy, receipts: nat -> Receipt)
      requires AllWellFormed(copy.s)
      modifies copy
      ensures copy.s == old(copy.s).(children := ObservedChildren(old(copy.s), receipts))
      ensures AllWellFormed(copy.s)
    {
      var s := copy.s;
      var children := copy.s.children;
      for i := 0 to |children|
        invariant |children| == |s.children| && copy.s == s
        invariant forall j :: 0 <= j < i ==> children[j] == Observed(s, s.children[j], receipts(j))
        invariant forall j :: i <= j < |children| ==> children[j] == s.children[j]
      {
        var child, r := children[i], receipts(i);
        if Settled(child) || child.hold.None? {
          continue;
        }
        child := child.(receipt := Some(r));
        if r.status.Done? && r.lifecycle.Some? {
          if r.lifecycle.value.Active? {
            child := child.(phase := Phase.Running, round := if child.round == 0 then 1 else child.round);
          } else if IsTerminal(r.lifecycle.value) {
            if child.ownsContinuation {
              child := child.(round := Max(child.round, CompletedTurns(s, child, r)));
            }
            child := child.(phase := Terminal);
          }
        }
        children := children[i := child];
      }
      assert children == ObservedChildren(s, receipts);
      ObservedWellFormed(s, receipts);
      copy.s := copy.s.(children := children);
    }
  }

  lemma LatchedReflexive(s: Loop)
    ensures Latched(s, s)
  {
  }

  lemma SweepChildLatches(t: Sweep, w: World, i: nat)
    requires i < |t.s.children| && WellFormed(t.s, t.s.children[i])
    ensures Latched(t.disk, SweepChild(t, w, i).disk)
  {
    LatchedReflexive(t.disk);
    var latest := DiskAt(t.disk, w, i);
    if Judge(t.s, t.s.children[i], w.monitor(i)).Rotate? && !Closing(latest) {
      LatchedTransitive(t.disk, latest, SweepChild(t, w, i).disk);
    }
  }

  /** The sweep keeps the latches of the stored record, whatever others write meanwhile. */
  lemma {:induction false} SweepLatches(t: Sweep, w: World, i: nat)
    requires AllWellFormed(t.s)
    ensures Latched(t.disk, SweepFrom(t, w, i).disk)
    decreases |t.s.children| - i
  {
    LatchedReflexive(t.disk);
    if i < |t.s.children| && !t.adopted && !t.raised {
      var next := SweepChild(t, w, i);
      SweepChildLatches(t, w, i);
      if !next.adopted && !next.raised {
        SweepChildKeeps(t, w, i);
        SweepLatches(next, w, i + 1);
        LatchedTransitive(t.disk, next.disk, SweepFrom(t, w, i).disk);
      }
    }
  }
}
