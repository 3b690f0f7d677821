/**
 The durable record of one loop, the independent evidence predicate for its cleanup,
 and the aggregation of child close reports.
 */
module LoopState {
  import opened Basics
  import opened Statuses
  import opened CloseReports
  import opened Lanes

  /** `Live` stands for accepted, holding and running. */
  datatype ReceiptStatus = Live | Done | Refused

  datatype Verification = Verification(accepted: bool, ids: seq<int>)

  /** A Monitor or Hold receipt with the fields of its `data` that the loop reads. */
  datatype Receipt = Receipt(
    status: ReceiptStatus,
    hold: Option<Id>,
    request: Option<Id>,
    lifecycle: Option<Lifecycle>,
    released: bool,
    confirmed: bool,
    turns: nat,
    totalTurns: nat,
    verification: Verification)

  datatype Phase = Acquiring | Running | Terminal | Finished | Stuck

  datatype CloseReceipt = Closed | ClosedUnconfirmed | StillClosing | CloseFailed | Unsupported | InvalidRequest

  datatype Child = Child(
    slot: nat,
    lane: Option<Lane>,
    ownsContinuation: bool,
    hold: Option<Id>,
    receipt: Option<Receipt>,
    released: bool,
    phase: Phase,
    round: nat,
    completedRounds: nat,
    budget: int,
    stopRequested: bool,
    closeReceipt: Option<CloseReceipt>)

  datatype Close = Close(
    id: Id,
    reports: map<Id, Report>,
    status: ReportStatus,
    confirmed: bool,
    schedulingClosed: bool,
    managementClosed: bool,
    unresolved: bool)

  datatype Status =
    | Acquires | Runs | ResumePending | Stopping | Finalizing
    | Ends(target: Target)
    | ClosedUnconfirmedLoop

  datatype Target = ToCompleted | ToStopped | ToExpired | ToBlocked

  datatype Cleanup = Cleanup(target: Target, completed: bool, heartbeatCancelled: bool)

  datatype Loop = Loop(
    status: Status,
    maxRounds: nat,
    maxTurns: nat,
    quota: Option<nat>,
    hasHeartbeat: bool,
    children: seq<Child>,
    cleanup: Option<Cleanup>,
    close: Option<Close>)

  predicate ReceiptActive(r: Option<Receipt>) {
    r.Some? && r.value.status.Live?
  }

  predicate ReceiptReleased(r: Option<Receipt>) {
    && r.Some? && r.value.status.Done?
    && r.value.lifecycle.Some? && IsTerminal(r.value.lifecycle.value)
    && r.value.released && r.value.confirmed
  }

  predicate ChildConfirmed(c: Child) {
    if c.hold.None? then !ReceiptActive(c.receipt) else ReceiptReleased(c.receipt)
  }

  /** `_cleanup_evidence_confirmed` */
  predicate Confirmed(s: Loop) {
    forall i :: 0 <= i < |s.children| ==> ChildConfirmed(s.children[i])
  }

  predicate CleanupCompleted(s: Loop) {
    s.cleanup.Some? && s.cleanup.value.completed
  }

  function Reports(s: Loop): map<Id, Report> {
    if s.close.Some? then s.close.value.reports else map[]
  }

  predicate Owned(s: Loop, i: int) {
    0 <= i < |s.children| && s.children[i].hold.Some?
  }

  predicate Reported(s: Loop, i: int)
    requires Owned(s, i)
  {
    s.children[i].hold.value in Reports(s)
  }

  function ReportOf(s: Loop, i: int): Report
    requires Owned(s, i) && Reported(s, i)
  {
    Reports(s)[s.children[i].hold.value]
  }

  /** Every owned child has a report, and there is an owned child. */
  predicate AllReported(s: Loop) {
    && (exists i :: 0 <= i < |s.children| && Owned(s, i))
    && forall i :: 0 <= i < |s.children| && Owned(s, i) ==> Reported(s, i)
  }

  predicate AllComplete(s: Loop)
    requires AllReported(s)
  {
    forall i :: 0 <= i < |s.children| && Owned(s, i) ==> ReportOf(s, i).status.Complete?
  }

  predicate AllClosed(s: Loop)
    requires AllReported(s)
  {
    forall i :: 0 <= i < |s.children| && Owned(s, i) ==> ReportOf(s, i).managementClosed
  }

  predicate AnyBroken(s: Loop)
    requires AllReported(s)
  {
    exists i :: 0 <= i < |s.children| && Owned(s, i) && ReportOf(s, i).status.Broken?
  }

  /** `_aggregate_close_reports` */
  function Aggregate(s: Loop): Loop {
    if s.close.None? || !AllReported(s) || s.cleanup.None? || !s.cleanup.value.heartbeatCancelled then s
    else
      var complete, stopped, broken := AllComplete(s), AllClosed(s), AnyBroken(s);
      var close := s.close.value.(
        status := if broken then Broken else if complete then Complete else if stopped then Unresolved else Pending,
        schedulingClosed := true, confirmed := complete, managementClosed := stopped,
        unresolved := stopped && !complete);
      if complete then
        s.(close := Some(close), cleanup := Some(s.cleanup.value.(completed := true)),
           status := Ends(s.cleanup.value.target))
      else if stopped then s.(close := Some(close), status := ClosedUnconfirmedLoop)
      else s.(close := Some(close))
  }

  /** What a recorded report makes of the child's last receipt. */
  function ReportReceipt(r: Report): Receipt {
    Receipt(
      Done, Some(r.hold), Some(r.request),
      Some(if r.lifecycle.Some? then r.lifecycle.value else if r.confirmed then Cancelled else Unknown),
      r.released, r.confirmed, 0, 0, Verification(false, []))
  }

  function WithReport(c: Child, r: Report): Child {
    c.(released := r.released, receipt := Some(ReportReceipt(r)))
  }

  function MergedChild(c: Child, reports: map<Id, Report>): Child {
    if c.hold.Some? && c.hold.value in reports then WithReport(c, reports[c.hold.value]) else c
  }

  function MergedChildren(cs: seq<Child>, reports: map<Id, Report>): (r: seq<Child>)
    ensures |r| == |cs| && forall i :: 0 <= i < |cs| ==> r[i] == MergedChild(cs[i], reports)
  {
    seq(|cs|, i requires 0 <= i < |cs| => MergedChild(cs[i], reports))
  }

  /** A receipt mirrors the report recorded for the child. */
  ghost predicate Mirrors(s: Loop) {
    forall i :: 0 <= i < |s.children| && Owned(s, i) && Reported(s, i) ==>
      s.children[i].receipt == Some(ReportReceipt(ReportOf(s, i)))
  }

  /** A completed report is released and terminal, as `CloseReports.CompletedIsReleased` shows. */
  ghost predicate SoundReports(s: Loop) {
    forall h :: h in Reports(s) ==>
      Reports(s)[h].status.Complete? ==> Reports(s)[h].confirmed && Reports(s)[h].released
  }

  /** The label that the loop reads off a recorded report is terminal. */
  predicate LabelTerminal(r: Report) {
    r.lifecycle.None? || IsTerminal(r.lifecycle.value)
  }

  /** Aggregation marks the cleanup completed exactly when every owned child's report is completed. */
  lemma AggregateCompletesExactly(s: Loop)
    requires !CleanupCompleted(s)
    ensures CleanupCompleted(Aggregate(s)) <==>
              && s.close.Some? && s.cleanup.Some? && s.cleanup.value.heartbeatCancelled
              && AllReported(s) && AllComplete(s)
    ensures CleanupCompleted(Aggregate(s)) ==> Aggregate(s).status == Ends(s.cleanup.value.target)
  {
  }

  /** Aggregation touches neither identities nor children, and never undoes a completed cleanup. */
  lemma AggregateKeeps(s: Loop)
    ensures var t := Aggregate(s);
      && t.children == s.children
      && (t.close.Some? <==> s.close.Some?) && (s.close.Some? ==> t.close.value.id == s.close.value.id)
      && Reports(t) == Reports(s)
      && (t.cleanup.Some? <==> s.cleanup.Some?)
      && (s.cleanup.Some? ==> t.cleanup.value.target == s.cleanup.value.target)
      && (CleanupCompleted(s) ==> CleanupCompleted(t))
  {
  }

  /**
   Aggregation looks at owned children only. When it completes the cleanup of a state that mirrors
   sound reports, the independent evidence predicate holds exactly when every label is terminal and no
   child without a Hold still has an active acquisition receipt.
   */
  lemma AggregateIsConfirmedExactly(s: Loop)
    requires Mirrors(s) && SoundReports(s)
    requires !CleanupCompleted(s) && CleanupCompleted(Aggregate(s))
    ensures Confirmed(Aggregate(s)) <==>
              && (forall i :: 0 <= i < |s.children| && Owned(s, i) ==> LabelTerminal(ReportOf(s, i)))
              && (forall i :: 0 <= i < |s.children| && s.children[i].hold.None? ==>
                    !ReceiptActive(s.children[i].receipt))
  {
    AggregateCompletesExactly(s);
    var t := Aggregate(s);
    assert t.children == s.children;
    forall i | Owned(s, i)
      ensures ChildConfirmed(t.children[i]) <==> LabelTerminal(ReportOf(s, i))
    {
      assert ReportOf(s, i).status.Complete?;
      assert s.children[i].receipt == Some(ReportReceipt(ReportOf(s, i)));
    }
    if Confirmed(t) {
      forall i | 0 <= i < |s.children| && s.children[i].hold.None?
        ensures !ReceiptActive(s.children[i].receipt)
      {
        assert ChildConfirmed(t.children[i]);
      }
    }
  }

  /** A child without a Hold whose acquisition is still active is overlooked when the reports complete the cleanup. */
  lemma AggregateOverlooksUnowned()
    ensures exists s: Loop ::
              && Mirrors(s) && SoundReports(s) && !CleanupCompleted(s)
              && CleanupCompleted(Aggregate(s)) && !Confirmed(Aggregate(s))
  {
    var r := Report(
      7, 1, Some(ParentClose(1, 5)), Complete, false, true, Some(Completed), Ended, true, true, true, false);
    var owned := Child(0, None, true, Some(7), Some(ReportReceipt(r)), true, Finished, 1, 0, 1, false, None);
    var active := Receipt(Live, None, None, None, false, false, 0, 0, Verification(false, []));
    var queued := Child(1, None, true, None, Some(active), false, Stuck, 0, 0, 1, false, None);
    var close := Close(5, map[7 := r], Pending, false, false, false, false);
    var s := Loop(
      Stopping, 1, 1, None, false, [owned, queued], Some(Cleanup(ToStopped, false, true)), Some(close));
    assert Owned(s, 0) && Reported(s, 0) && ReportOf(s, 0) == r && !Owned(s, 1);
    AggregateCompletesExactly(s);
    assert !ChildConfirmed(Aggregate(s).children[1]);
  }
}
