/**
 The file of a loop under concurrent writers.

 Tickers, closers and child reports each load the record, work on their own copy and
 come back later. Saving merges: the latches of the stored record survive any stale
 copy, and the copy in memory is replaced by what was stored.
 */
module LoopStore {
  import opened Basics
  import opened Statuses
  import opened CloseReports
  import opened LoopState

  /** The stored cleanup wins over a copy without it, with another target, or with its evidence undone. */
  predicate CleanupProtected(latest: Loop, incoming: Loop) {
    && latest.cleanup.Some?
    && (|| incoming.cleanup.None?
        || latest.cleanup.value.target != incoming.cleanup.value.target
        || (latest.cleanup.value.completed && !incoming.cleanup.value.completed && Confirmed(latest)))
  }

  predicate CloseProtected(latest: Loop, incoming: Loop) {
    latest.close.Some? && (incoming.close.None? || incoming.close.value.id != latest.close.value.id)
  }

  /** The copy with the stored child reports in place of its own. */
  function Merged(latest: Loop, incoming: Loop): Loop
    requires incoming.close.Some?
  {
    incoming.(
      close := Some(incoming.close.value.(reports := Reports(latest))),
      children := MergedChildren(incoming.children, Reports(latest)))
  }

  /** What a save stores, and leaves in memory. */
  function Saved(latest: Option<Loop>, incoming: Loop): Loop {
    if latest.None? then incoming
    else if CleanupProtected(latest.value, incoming) || CloseProtected(latest.value, incoming) then latest.value
    else if Reports(latest.value) != map[] then Aggregate(Merged(latest.value, incoming))
    else incoming
  }

  /** The first child bound to `hold` from position `i` on. */
  function FindChild(cs: seq<Child>, hold: Id, i: nat): (r: Option<nat>)
    requires i <= |cs|
    decreases |cs| - i
    ensures r.Some? ==> i <= r.value < |cs| && cs[r.value].hold == Some(hold)
    ensures r.None? ==> forall j :: i <= j < |cs| ==> cs[j].hold != Some(hold)
  {
    if i == |cs| then None
    else if cs[i].hold == Some(hold) then Some(i)
    else FindChild(cs, hold, i + 1)
  }

  /** A report that the record accepts: of this close, of a bound child and request, not against a completed one. */
  predicate Accepts(latest: Loop, r: Report) {
    && latest.close.Some? && r.parent.Some? && r.parent.value.closeRequest == latest.close.value.id
    && FindChild(latest.children, r.hold, 0).Some?
    && (r.hold in Reports(latest) ==>
          Reports(latest)[r.hold].request == r.request && !Reports(latest)[r.hold].status.Complete?)
    && var receipt := latest.children[FindChild(latest.children, r.hold, 0).value].receipt;
       (receipt.Some? && receipt.value.request.Some? ==> receipt.value.request.value == r.request)
  }

  function WithChildReport(latest: Loop, r: Report): Loop
    requires Accepts(latest, r)
  {
    var i := FindChild(latest.children, r.hold, 0).value;
    latest.(
      close := Some(latest.close.value.(reports := latest.close.value.reports[r.hold := r])),
      children := latest.children[i := WithReport(latest.children[i], r)])
  }

  /** What recording a child's close report stores. */
  function Recorded(latest: Loop, r: Report): Loop {
    if Accepts(latest, r) then Aggregate(WithChildReport(latest, r)) else latest
  }

  predicate Closing(s: Loop) {
    s.close.Some? || s.cleanup.Some?
  }

  /** A state that a thread of execution works on: a dictionary updated in place. */
  class Copy {
    var s: Loop

    constructor (s0: Loop)
      ensures s == s0
    {
      s := s0;
    }
  }

  class Store {
    var files: map<Id, Loop>

    constructor ()
      ensures files == map[]
    {
      files := map[];
    }

    function OnDisk(loop: Id): Option<Loop>
      reads this
    {
      if loop in files then Some(files[loop]) else None
    }

    /** `save`: the copy is cleared and refilled when the stored record wins. */
    method Save(loop: Id, copy: Copy)
      modifies this, copy
      ensures copy.s == Saved(old(OnDisk(loop)), old(copy.s))
      ensures files == old(files)[loop := copy.s]
    {
      if loop in files {
        var latest := files[loop];
        if CleanupProtected(latest, copy.s) {
          copy.s := latest;
          assert files == old(files)[loop := copy.s];
          return;
        }
        if CloseProtected(latest, copy.s) {
          copy.s := latest;
          assert files == old(files)[loop := copy.s];
          return;
        }
        var reports := Reports(latest);
        if reports != map[] {
          var children := copy.s.children;
          copy.s := copy.s.(close := Some(copy.s.close.value.(reports := reports)));
          for i := 0 to |children|
            invariant |children| == |old(copy.s).children|
            invariant forall j :: 0 <= j < i ==> children[j] == MergedChild(old(copy.s).children[j], reports)
            invariant forall j :: i <= j < |children| ==> children[j] == old(copy.s).children[j]
          {
            var child := children[i];
            if child.hold.Some? && child.hold.value in reports {
              children := children[i := WithReport(child, reports[child.hold.value])];
            }
          }
          assert children == MergedChildren(old(copy.s).children, reports);
          copy.s := Aggregate(copy.s.(children := children));
        }
      }
      files := files[loop := copy.s];
    }

    /** `record_child_close`; `found` is false where the load raises. */
    method RecordChildClose(r: Report) returns (found: bool)
      modifies this
      ensures found <==> r.parent.Some? && r.parent.value.loop in old(files)
      ensures files == if found then old(files)[r.parent.value.loop := Recorded(old(files)[r.parent.value.loop], r)]
                       else old(files)
    {
      if r.parent.None? || r.parent.value.loop !in files {
        return false;
      }
      found := true;
      var loop := r.parent.value.loop;
      var state := files[loop];
      ghost var same := files[loop := state];
      assert same == files;
      if state.close.None? || state.close.value.id != r.parent.value.closeRequest {
        return;
      }
      var index := FindChild(state.children, r.hold, 0);
      if index.None? {
        return;
      }
      var reports := state.close.value.reports;
      if r.hold in reports && (reports[r.hold].request != r.request || reports[r.hold].status.Complete?) {
        return;
      }
      var child := state.children[index.value];
      if child.receipt.Some? && child.receipt.value.request.Some? && child.receipt.value.request.value != r.request {
        return;
      }
      state := state.(close := Some(state.close.value.(reports := reports[r.hold := r])));
      state := state.(children := state.children[index.value := WithReport(child, r)]);
      files := files[loop := Aggregate(state)];
    }

    /**
     The locked section of a rotation: recheck the stored record, then either adopt it without
     acquiring, or store the copy that holds the new binding.
     */
    method CommitDispatch(loop: Id, copy: Copy, dispatched: Loop) returns (acquired: bool)
      requires loop in files
      modifies this, copy
      ensures acquired <==> !Closing(old(files)[loop])
      ensures copy.s == if acquired then dispatched else old(files)[loop]
      ensures files == old(files)[loop := copy.s]
    {
      var latest := files[loop];
      if latest.close.Some? || latest.cleanup.Some? {
        copy.s := latest;
        assert files == old(files)[loop := copy.s];
        return false;
      }
      copy.s := dispatched;
      files := files[loop := copy.s];
      return true;
    }
  }

  // Any number of writers with arbitrarily stale copies, one locked section at a time

  datatype Op = SaveOp(incoming: Loop) | RecordOp(report: Report) | CommitOp(dispatched: Loop)

  function Apply(disk: Option<Loop>, op: Op): Option<Loop> {
    match op
    case SaveOp(incoming) => Some(Saved(disk, incoming))
    case RecordOp(report) => if disk.Some? then Some(Recorded(disk.value, report)) else None
    case CommitOp(dispatched) => if disk.Some? && !Closing(disk.value) then Some(dispatched) else disk
  }

  function After(disk: Option<Loop>, ops: seq<Op>): Option<Loop>
    decreases |ops|
  {
    if ops == [] then disk else After(Apply(disk, ops[0]), ops[1..])
  }

  predicate ReportLatched(a: map<Id, Report>, b: map<Id, Report>, h: Id)
    requires h in a
  {
    && h in b && b[h].request == a[h].request
    && (a[h].status.Complete? ==> b[h] == a[h])
  }

  /** What no later record may take back. */
  ghost predicate Latched(a: Loop, b: Loop) {
    && (a.cleanup.Some? ==> b.cleanup.Some? && b.cleanup.value.target == a.cleanup.value.target)
    && (a.close.Some? ==> b.close.Some? && b.close.value.id == a.close.value.id)
    && forall h :: h in Reports(a) ==> ReportLatched(Reports(a), Reports(b), h)
  }

  lemma SaveLatches(latest: Loop, incoming: Loop)
    ensures Latched(latest, Saved(Some(latest), incoming))
  {
    if !CleanupProtected(latest, incoming) && !CloseProtected(latest, incoming) && Reports(latest) != map[] {
      AggregateKeeps(Merged(latest, incoming));
      assert Reports(Merged(latest, incoming)) == Reports(latest);
    }
  }

  lemma RecordLatches(latest: Loop, r: Report)
    ensures Latched(latest, Recorded(latest, r))
  {
    if Accepts(latest, r) {
      AggregateKeeps(WithChildReport(latest, r));
      assert Reports(WithChildReport(latest, r)) == Reports(latest)[r.hold := r];
    }
  }

  lemma ApplyLatches(disk: Loop, op: Op)
    ensures Apply(Some(disk), op).Some? && Latched(disk, Apply(Some(disk), op).value)
  {
    match op
    case SaveOp(incoming) => SaveLatches(disk, incoming);
    case RecordOp(report) => RecordLatches(disk, report);
    case CommitOp(dispatched) =>
  }

  lemma LatchedTransitive(a: Loop, b: Loop, c: Loop)
    requires Latched(a, b) && Latched(b, c)
    ensures Latched(a, c)
  {
  }

  /**
   Under any sequence of saves of arbitrary copies, dispatch commits and child reports: a stored cleanup
   target and close request never change or vanish, and a child report never disappears, never changes
   its request, and is never replaced once completed.
   */
  lemma {:induction false} MergeLatches(disk: Loop, ops: seq<Op>)
    ensures After(Some(disk), ops).Some? && Latched(disk, After(Some(disk), ops).value)
    decreases |ops|
  {
    if ops != [] {
      ApplyLatches(disk, ops[0]);
      var next := Apply(Some(disk), ops[0]).value;
      MergeLatches(next, ops[1..]);
      LatchedTransitive(disk, next, After(Some(disk), ops).value);
    }
  }

  /** Number of rotations that acquired a thread. */
  function Acquisitions(disk: Option<Loop>, ops: seq<Op>): nat
    decreases |ops|
  {
    if ops == [] then 0
    else
      (if ops[0].CommitOp? && disk.Some? && !Closing(disk.value) then 1 else 0) +
      Acquisitions(Apply(disk, ops[0]), ops[1..])
  }

  /** Once a close or a cleanup is stored, no rotation acquires a thread, whatever the interleaving. */
  lemma {:induction false} NoReplacementAfterClose(disk: Loop, ops: seq<Op>)
    requires Closing(disk)
    ensures Acquisitions(Some(disk), ops) == 0
    decreases |ops|
  {
    if ops != [] {
      ApplyLatches(disk, ops[0]);
      NoReplacementAfterClose(Apply(Some(disk), ops[0]).value, ops[1..]);
    }
  }

  // A completed cleanup

  /** No single write takes back a completed cleanup whose evidence is confirmed. */
  lemma ConfirmedCleanupStays(disk: Loop, op: Op)
    requires CleanupCompleted(disk) && Confirmed(disk)
    ensures CleanupCompleted(Apply(Some(disk), op).value)
  {
  }

  /** The merged reports complete the cleanup again. */
  predicate ReportsComplete(disk: Loop, incoming: Loop)
    requires incoming.cleanup.Some?
  {
    && Reports(disk) != map[] && incoming.close.Some?
    && incoming.cleanup.value.heartbeatCancelled
    && AllReported(Merged(disk, incoming)) && AllComplete(Merged(disk, incoming))
  }

  /** Exactly when a write takes a completed cleanup back to pending. */
  lemma CleanupReopensExactly(disk: Loop, op: Op)
    requires CleanupCompleted(disk)
    ensures !CleanupCompleted(Apply(Some(disk), op).value) <==>
              && op.SaveOp? && !Confirmed(disk)
              && op.incoming.cleanup.Some? && !op.incoming.cleanup.value.completed
              && op.incoming.cleanup.value.target == disk.cleanup.value.target
              && !CloseProtected(disk, op.incoming)
              && !ReportsComplete(disk, op.incoming)
  {
  }

  /** Children are fixed when a loop starts; only a rotation binds one to another Hold. */
  predicate SameHolds(a: Loop, b: Loop) {
    |a.children| == |b.children| && forall i :: 0 <= i < |a.children| ==> a.children[i].hold == b.children[i].hold
  }

  /** A closed loop whose one child is released: completed and confirmed. */
  function ReleasedLoop(): Loop {
    var receipt := Receipt(Done, Some(7), Some(1), Some(Completed), true, true, 1, 1, Verification(false, []));
    var child := Child(0, None, true, Some(7), Some(receipt), true, Finished, 1, 0, 1, false, None);
    Loop(Ends(ToStopped), 1, 1, None, false, [child], Some(Cleanup(ToStopped, true, true)),
         Some(Close(5, map[], Pending, false, false, false, false)))
  }

  /** The copy that a writer latched before the completion. */
  function BeforeCompletion(s: Loop): Loop
    requires s.cleanup.Some?
  {
    s.(cleanup := Some(s.cleanup.value.(completed := false)), status := Stopping)
  }

  /** A report of the same child and request whose claim is not released yet. */
  function LateReport(): Report {
    Report(7, 1, Some(ParentClose(1, 5)), Unresolved, false, true, None, Unsure, false, false, false, false)
  }

  lemma LateReportUndoesEvidence()
    ensures Sealed(ReleasedLoop()) && Accepts(ReleasedLoop(), LateReport())
    ensures var t := Recorded(ReleasedLoop(), LateReport());
      && !Confirmed(t) && Reports(t) == map[7 := LateReport()]
      && t.cleanup == ReleasedLoop().cleanup && t.close.Some? && t.close.value.id == 5
  {
    var disk, r := ReleasedLoop(), LateReport();
    assert ChildConfirmed(disk.children[0]);
    assert FindChild(disk.children, 7, 0) == Some(0);
    var m := WithChildReport(disk, r);
    assert m.children[0] == WithReport(disk.children[0], r) && !ChildConfirmed(m.children[0]);
    AggregateKeeps(m);
    assert Owned(m, 0) && Reported(m, 0) && !ReportOf(m, 0).status.Complete?;
  }

  /**
   The latch does not outlive a later report, where a runtime records reports after the drain only: one that
   is not released undoes the evidence of a completed cleanup, and the copy of a writer from before the
   completion then reopens it.
   */
  lemma ReportReopensCleanup()
    ensures exists disk: Loop, r: Report ::
              && Sealed(disk) && SoundReport(r) && Accepts(disk, r)
              && !CleanupCompleted(Saved(Some(Recorded(disk, r)), BeforeCompletion(disk)))
  {
    LateReportUndoesEvidence();
    var disk, r := ReleasedLoop(), LateReport();
    var t, b := Recorded(disk, r), BeforeCompletion(disk);
    assert !CleanupProtected(t, b) && !CloseProtected(t, b);
    var m := Merged(t, b);
    assert Owned(m, 0) && Reported(m, 0) && !ReportOf(m, 0).status.Complete?;
    AggregateCompletesExactly(m);
    assert !CleanupCompleted(Saved(Some(t), b));
  }

  predicate Sealed(s: Loop) {
    CleanupCompleted(s) && Confirmed(s)
  }

  predicate ReleaseEvidence(r: Report) {
    r.released && r.confirmed && LabelTerminal(r)
  }

  /** A write that takes the evidence of a sealed record away: it is accepted, and brings or leaves none itself. */
  predicate Unseals(disk: Loop, op: Op) {
    match op
    case SaveOp(incoming) =>
      && !CleanupProtected(disk, incoming) && !CloseProtected(disk, incoming)
      && exists i :: 0 <= i < |incoming.children| && !ChildConfirmed(MergedChild(incoming.children[i], Reports(disk)))
    case RecordOp(report) => Accepts(disk, report) && !ReleaseEvidence(report)
    case CommitOp(dispatched) => false
  }

  lemma SaveUnsealsExactly(disk: Loop, incoming: Loop)
    requires Sealed(disk)
    ensures Sealed(Saved(Some(disk), incoming)) <==> !Unseals(disk, SaveOp(incoming))
  {
    if !CleanupProtected(disk, incoming) && !CloseProtected(disk, incoming) {
      var t := Saved(Some(disk), incoming);
      if Reports(disk) != map[] {
        AggregateKeeps(Merged(disk, incoming));
      }
      assert |t.children| == |incoming.children|;
      assert forall i :: 0 <= i < |t.children| ==> t.children[i] == MergedChild(incoming.children[i], Reports(disk));
    }
  }

  lemma RecordUnsealsExactly(disk: Loop, r: Report)
    requires Sealed(disk)
    ensures Sealed(Recorded(disk, r)) <==> !Unseals(disk, RecordOp(r))
  {
    if Accepts(disk, r) {
      var m := WithChildReport(disk, r);
      AggregateKeeps(m);
      var k := FindChild(disk.children, r.hold, 0).value;
      assert m.children[k] == WithReport(disk.children[k], r);
      assert ChildConfirmed(m.children[k]) <==> ReleaseEvidence(r);
      forall i | 0 <= i < |m.children| && i != k
        ensures ChildConfirmed(m.children[i])
      {
        assert m.children[i] == disk.children[i];
      }
    }
  }

  /** Every later record is completed and confirmed. */
  ghost predicate SealedThroughout(disk: Loop, ops: seq<Op>)
    decreases |ops|
  {
    Sealed(disk) && (ops == [] || SealedThroughout(Apply(Some(disk), ops[0]).value, ops[1..]))
  }

  ghost predicate NoneUnseals(disk: Loop, ops: seq<Op>)
    decreases |ops|
  {
    ops == [] || (!Unseals(disk, ops[0]) && NoneUnseals(Apply(Some(disk), ops[0]).value, ops[1..]))
  }

  /** Over any sequence of writes a completed, confirmed cleanup stays so exactly when none of them unseals it. */
  lemma {:induction false} SealStaysExactly(disk: Loop, ops: seq<Op>)
    requires Sealed(disk)
    ensures SealedThroughout(disk, ops) <==> NoneUnseals(disk, ops)
    decreases |ops|
  {
    if ops != [] {
      var next := Apply(Some(disk), ops[0]).value;
      match ops[0] {
        case SaveOp(incoming) => SaveUnsealsExactly(disk, incoming);
        case RecordOp(report) => RecordUnsealsExactly(disk, report);
        case CommitOp(dispatched) =>
      }
      if Sealed(next) {
        SealStaysExactly(next, ops[1..]);
      }
    }
  }

  /** A copy of the same children that carries its own evidence unseals nothing. */
  lemma EvidencedCopyKeepsSeal(disk: Loop, incoming: Loop)
    requires Sealed(disk) && Mirrors(disk) && Confirmed(incoming) && SameHolds(incoming, disk)
    ensures !Unseals(disk, SaveOp(incoming))
  {
    forall i | 0 <= i < |incoming.children|
      ensures ChildConfirmed(MergedChild(incoming.children[i], Reports(disk)))
    {
      assert ChildConfirmed(disk.children[i]) && ChildConfirmed(incoming.children[i]);
      if Owned(disk, i) && Reported(disk, i) {
        assert disk.children[i].receipt == Some(ReportReceipt(ReportOf(disk, i)));
      }
    }
  }

  /** A seal under reports: every owned child's report is recorded, completed and release evidence. */
  predicate ReportSealed(s: Loop) {
    && Sealed(s)
    && forall i :: 0 <= i < |s.children| && Owned(s, i) ==>
         Reported(s, i) && ReportOf(s, i).status.Complete? && ReleaseEvidence(ReportOf(s, i))
  }

  /** A copy of the same children none of which is being acquired any more. */
  predicate SettledCopy(disk: Loop, incoming: Loop) {
    && SameHolds(incoming, disk)
    && forall i :: 0 <= i < |incoming.children| && incoming.children[i].hold.None? ==>
         !ReceiptActive(incoming.children[i].receipt)
  }

  lemma SettledSaveKeepsSeal(disk: Loop, incoming: Loop)
    requires ReportSealed(disk) && SettledCopy(disk, incoming)
    ensures ReportSealed(Saved(Some(disk), incoming)) && SameHolds(Saved(Some(disk), incoming), disk)
  {
    forall i | 0 <= i < |incoming.children|
      ensures ChildConfirmed(MergedChild(incoming.children[i], Reports(disk)))
    {
      if incoming.children[i].hold.Some? {
        assert Owned(disk, i) && Reported(disk, i);
      }
    }
    SaveUnsealsExactly(disk, incoming);
    if !CleanupProtected(disk, incoming) && !CloseProtected(disk, incoming) {
      var t := Saved(Some(disk), incoming);
      if Reports(disk) != map[] {
        AggregateKeeps(Merged(disk, incoming));
      }
      forall i | 0 <= i < |t.children| && Owned(t, i)
        ensures Reported(t, i) && ReportOf(t, i).status.Complete? && ReleaseEvidence(ReportOf(t, i))
      {
        assert Owned(disk, i) && t.children[i].hold == disk.children[i].hold;
      }
    }
  }

  lemma SealedReportsAreFinal(disk: Loop, r: Report)
    requires ReportSealed(disk)
    ensures Recorded(disk, r) == disk
  {
    var k := FindChild(disk.children, r.hold, 0);
    assert k.Some? ==> Owned(disk, k.value) && Reported(disk, k.value);
  }

  /** Writers of the same children: their saves and child reports, and any dispatch commit. */
  ghost predicate SettledRun(disk: Loop, ops: seq<Op>)
    decreases |ops|
  {
    ops == [] ||
    (&& (ops[0].SaveOp? ==> SettledCopy(disk, ops[0].incoming))
     && SettledRun(Apply(Some(disk), ops[0]).value, ops[1..]))
  }

  /** With every owned child's report in place no writer of the same children ever breaks the seal. */
  lemma {:induction false} ReportSealHolds(disk: Loop, ops: seq<Op>)
    requires ReportSealed(disk) && SettledRun(disk, ops)
    ensures After(Some(disk), ops).Some? && ReportSealed(After(Some(disk), ops).value)
    decreases |ops|
  {
    if ops != [] {
      match ops[0] {
        case SaveOp(incoming) => SettledSaveKeepsSeal(disk, incoming);
        case RecordOp(report) => SealedReportsAreFinal(disk, report);
        case CommitOp(dispatched) =>
      }
      ReportSealHolds(Apply(Some(disk), ops[0]).value, ops[1..]);
    }
  }

  // Records stay readable as evidence

  ghost predicate DistinctHolds(s: Loop) {
    forall i, j :: Owned(s, i) && Owned(s, j) && s.children[i].hold == s.children[j].hold ==> i == j
  }

  predicate SoundReport(r: Report) {
    r.status.Complete? ==> r.confirmed && r.released
  }

  /** A writer whose copy was loaded from this file at some time, and reports made by a refresh. */
  ghost predicate Honest(disk: Option<Loop>, op: Op) {
    match op
    case SaveOp(incoming) =>
      DistinctHolds(incoming) && (Reports(incoming) != map[] ==> disk.Some? && Reports(disk.value) != map[])
    case RecordOp(report) => SoundReport(report)
    case CommitOp(dispatched) => DistinctHolds(dispatched) && Reports(dispatched) == map[]
  }

  ghost predicate HonestRun(disk: Option<Loop>, ops: seq<Op>)
    decreases |ops|
  {
    ops == [] || (Honest(disk, ops[0]) && HonestRun(Apply(disk, ops[0]), ops[1..]))
  }

  ghost predicate Faithful(s: Loop) {
    Mirrors(s) && SoundReports(s) && DistinctHolds(s)
  }

  lemma SaveKeepsFaithful(disk: Option<Loop>, incoming: Loop)
    requires disk.Some? ==> Faithful(disk.value)
    requires Honest(disk, SaveOp(incoming))
    ensures Faithful(Saved(disk, incoming))
  {
    if disk.Some? && !CleanupProtected(disk.value, incoming) && !CloseProtected(disk.value, incoming)
       && Reports(disk.value) != map[] {
      var m := Merged(disk.value, incoming);
      AggregateKeeps(m);
      assert forall i :: 0 <= i < |m.children| ==> m.children[i].hold == incoming.children[i].hold;
      assert DistinctHolds(m) by {
        forall i, j | Owned(m, i) && Owned(m, j) && m.children[i].hold == m.children[j].hold
          ensures i == j
        {
          assert Owned(incoming, i) && Owned(incoming, j);
        }
      }
      FaithfulAggregate(m);
    }
  }

  lemma FaithfulAggregate(s: Loop)
    requires Faithful(s)
    ensures Faithful(Aggregate(s))
  {
    AggregateKeeps(s);
    var t := Aggregate(s);
    forall i | Owned(t, i) && Reported(t, i)
      ensures t.children[i].receipt == Some(ReportReceipt(ReportOf(t, i)))
    {
      assert Owned(s, i) && Reported(s, i);
    }
    forall i, j | Owned(t, i) && Owned(t, j) && t.children[i].hold == t.children[j].hold
      ensures i == j
    {
      assert Owned(s, i) && Owned(s, j);
    }
  }

  lemma WithReportFaithful(latest: Loop, r: Report)
    requires Faithful(latest) && SoundReport(r) && Accepts(latest, r)
    ensures Faithful(WithChildReport(latest, r))
  {
  }

  lemma ApplyKeepsFaithful(disk: Option<Loop>, op: Op)
    requires disk.Some? ==> Faithful(disk.value)
    requires Honest(disk, op)
    ensures Apply(disk, op).Some? ==> Faithful(Apply(disk, op).value)
  {
    match op
    case SaveOp(incoming) => SaveKeepsFaithful(disk, incoming);
    case RecordOp(report) =>
      if disk.Some? && Accepts(disk.value, report) {
        WithReportFaithful(disk.value, report);
        FaithfulAggregate(WithChildReport(disk.value, report));
      }
    case CommitOp(dispatched) =>
  }

  /** Over every honest run each reported child shows exactly its recorded report, and reports stay sound. */
  lemma {:induction false} HonestRunFaithful(disk: Option<Loop>, ops: seq<Op>)
    requires disk.Some? ==> Faithful(disk.value)
    requires HonestRun(disk, ops)
    ensures After(disk, ops).Some? ==> Faithful(After(disk, ops).value)
    decreases |ops|
  {
    if ops != [] {
      ApplyKeepsFaithful(disk, ops[0]);
      HonestRunFaithful(Apply(disk, ops[0]), ops[1..]);
    }
  }

  /**
   A child report that completes the cleanup after an honest run: every owned child's report is completed,
   terminal and released; the evidence predicate holds exactly when the labels are terminal and no child
   without a Hold is still being acquired.
   */
  lemma ReportCompletesTruthfully(ops: seq<Op>, r: Report)
    requires HonestRun(None, ops) && After(None, ops).Some? && SoundReport(r)
    requires var s := After(None, ops).value; !CleanupCompleted(s) && CleanupCompleted(Recorded(s, r))
    ensures var t := Recorded(After(None, ops).value, r);
      && t.cleanup.value.heartbeatCancelled && AllReported(t) && AllComplete(t)
      && (forall i :: 0 <= i < |t.children| && Owned(t, i) ==> ReportOf(t, i).confirmed && ReportOf(t, i).released)
      && (Confirmed(t) <==>
            && (forall i :: 0 <= i < |t.children| && Owned(t, i) ==> LabelTerminal(ReportOf(t, i)))
            && (forall i :: 0 <= i < |t.children| && t.children[i].hold.None? ==>
                  !ReceiptActive(t.children[i].receipt)))
  {
    HonestRunFaithful(None, ops);
    var s := After(None, ops).value;
    WithReportFaithful(s, r);
    var m := WithChildReport(s, r);
    AggregateCompletesExactly(m);
    AggregateIsConfirmedExactly(m);
    AggregateKeeps(m);
    var t := Aggregate(m);
    assert forall i :: Owned(t, i) <==> Owned(m, i);
    assert forall i :: Owned(t, i) ==> (Reported(t, i) <==> Reported(m, i));
    assert forall i :: Owned(t, i) && Reported(t, i) ==> ReportOf(t, i) == ReportOf(m, i);
  }
}
