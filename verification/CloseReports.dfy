/**
 The close report of one Hold: which evidence completes it.

 The report may be completed by terminal evidence of a released Hold, or by the
 sticky confirmation that nothing was dispatched.
 */
module CloseReports {
  import opened Basics
  import opened Statuses

  datatype ReportStatus = Pending | Complete | Unresolved | Broken

  datatype Execution = NotStarted | Ended | Unsure | Running

  datatype ParentClose = ParentClose(loop: Id, closeRequest: Id)

  datatype Report = Report(
    hold: Id,
    request: Id,
    parent: Option<ParentClose>,
    status: ReportStatus,
    nonDispatch: bool,
    schedulingClosed: bool,
    lifecycle: Option<Lifecycle>,
    execution: Execution,
    confirmed: bool,
    released: bool,
    managementClosed: bool,
    unresolved: bool)

  datatype Evidence = Evidence(
    request: Option<Id>,
    status: Option<Lifecycle>,
    lifecycle: Option<Lifecycle>,
    confirmed: bool,
    released: bool,
    dispatch: Dispatch,
    turn: Option<Turn>,
    observerStopped: bool,
    holderExited: bool)

  /** What else the refresh reads from the Hold root. */
  datatype Root = Root(request: Option<Id>, stop: bool, claim: bool)

  /** A fresh report, as a close request records it. */
  predicate Opened(r: Report) {
    r.status.Pending? && !r.nonDispatch && !r.confirmed && !r.released
  }

  predicate Bound(r: Report, root: Root, ev: Evidence) {
    root.request == Some(r.request) && ev.request == Some(r.request)
  }

  predicate NothingSent(root: Root, ev: Evidence) {
    ev.dispatch.NotSent? && ev.turn.None? && ev.observerStopped && !root.claim
  }

  function Refreshed(r: Report, root: Root, ev: Evidence, failure: bool): Report {
    if !Bound(r, root, ev) || (r.status.Complete? && !failure) then r
    else
      var notSent := NothingSent(root, ev);
      var quiet := notSent || r.nonDispatch;
      var terminal := if quiet then true else ev.confirmed;
      var released := if quiet then !root.claim else ev.released;
      var completed := terminal && released;
      var stopped := ev.observerStopped && (!root.claim || ev.holderExited);
      var unknown := !terminal && ev.status.Some?
        && (ev.status.value.Failed? || ev.status.value.Unknown? || ev.status.value.Interrupted?);
      r.(
        schedulingClosed := root.stop || completed,
        lifecycle := if ev.lifecycle.Some? then ev.lifecycle else ev.status,
        execution := if notSent then NotStarted else if terminal then Ended else if unknown then Unsure else Running,
        confirmed := terminal,
        released := released,
        managementClosed := completed || stopped,
        unresolved := !terminal && stopped,
        status :=
          if failure then Broken
          else if completed then Complete
          else if unknown || terminal then Unresolved
          else Pending,
        nonDispatch := notSent || r.nonDispatch)
  }

  /** `close.json`, with the reports that were passed on to the parent loop. */
  class CloseFile {
    var report: Option<Report>
    var forwarded: seq<Report>

    constructor ()
      ensures report.None? && forwarded == []
    {
      report := None;
      forwarded := [];
    }

    method Refresh(root: Root, ev: Evidence, failure: bool)
      modifies this
      ensures old(report).None? ==> report.None? && forwarded == old(forwarded)
      ensures old(report).Some? ==> report == Some(Refreshed(old(report).value, root, ev, failure))
      ensures old(report).Some? ==>
                forwarded == old(forwarded) +
                  (if Bound(old(report).value, root, ev) && old(report).value.parent.Some? then [report.value] else [])
    {
      if report.None? {
        return;
      }
      var r := report.value;
      if !Bound(r, root, ev) {
        return;
      }
      var released, terminal := ev.released, ev.confirmed;
      var notSent := ev.dispatch.NotSent? && ev.turn.None? && ev.observerStopped && !root.claim;
      if notSent || r.nonDispatch {
        terminal, released := true, !root.claim;
      }
      var completed := terminal && released;
      var stopped := ev.observerStopped && (!root.claim || ev.holderExited);
      var unknown := !terminal && ev.status.Some?
        && (ev.status.value.Failed? || ev.status.value.Unknown? || ev.status.value.Interrupted?);
      if r.status.Complete? && !failure {
        if r.parent.Some? {
          forwarded := forwarded + [r];
        }
        return;
      }
      var status :=
        if failure then Broken
        else if completed then Complete
        else if unknown || terminal then Unresolved
        else Pending;
      var execution := if notSent then NotStarted else if terminal then Ended else if unknown then Unsure else Running;
      r := r.(
        schedulingClosed := root.stop || completed,
        lifecycle := if ev.lifecycle.Some? then ev.lifecycle else ev.status,
        execution := execution, confirmed := terminal, released := released,
        managementClosed := completed || stopped, unresolved := !terminal && stopped,
        status := status, nonDispatch := notSent || r.nonDispatch);
      assert r == Refreshed(old(report).value, root, ev, failure);
      report := Some(r);
      if r.parent.Some? {
        forwarded := forwarded + [r];
      }
    }
  }

  /** One refresh of the file: what it read, and whether the close itself raised. */
  datatype Input = Input(root: Root, ev: Evidence, failure: bool)

  function RefreshAll(r: Report, inputs: seq<Input>): Report {
    if inputs == [] then r
    else
      var last := inputs[|inputs| - 1];
      Refreshed(RefreshAll(r, inputs[..|inputs| - 1]), last.root, last.ev, last.failure)
  }

  /** A completed report is always terminal, released and closed for management. */
  lemma {:induction false} CompletedIsReleased(r: Report, inputs: seq<Input>)
    requires Opened(r)
    ensures var end := RefreshAll(r, inputs);
      end.status.Complete? ==> end.confirmed && end.released && end.managementClosed
  {
    if inputs != [] {
      CompletedIsReleased(r, inputs[..|inputs| - 1]);
    }
  }

  /** Exactly when a refresh completes a report that was not complete. */
  lemma CompletesExactly(r: Report, root: Root, ev: Evidence, failure: bool)
    requires !r.status.Complete?
    ensures Refreshed(r, root, ev, failure).status.Complete? <==>
              && Bound(r, root, ev) && !failure
              && ((ev.confirmed && ev.released && !r.nonDispatch)
                  || (!root.claim && (r.nonDispatch || NothingSent(root, ev))))
  {
  }

  /** Completion is undone by nothing but a failing close of the same request. */
  lemma {:induction false} CompletionStays(r: Report, inputs: seq<Input>)
    requires r.status.Complete?
    requires forall i :: 0 <= i < |inputs| ==> !inputs[i].failure
    ensures RefreshAll(r, inputs) == r
  {
    if inputs != [] {
      CompletionStays(r, inputs[..|inputs| - 1]);
    }
  }

  /**
   Evidence about one finished holder, of which `left` tells whether it left a started turn that is not
   known to have ended. A status read may also repeat the report's own non-dispatch confirmation.
   */
  predicate Truthful(r: Report, ev: Evidence, left: bool) {
    && (ev.confirmed ==> !left || r.nonDispatch)
    && (ev.dispatch.NotSent? && ev.turn.None? && ev.observerStopped ==> !left)
  }

  /**
   A report never hides a running turn: over any refreshes whose bound evidence is truthful about one
   finished holder, a completed report means that the holder left no turn open.
   */
  lemma {:induction false} ReportHidesNoTurn(r: Report, inputs: seq<Input>, left: bool)
    requires Opened(r)
    requires forall i :: 0 <= i < |inputs| && inputs[i].ev.request == Some(r.request) ==>
               Truthful(RefreshAll(r, inputs[..i]), inputs[i].ev, left)
    ensures var end := RefreshAll(r, inputs);
      end.request == r.request && (end.status.Complete? || end.nonDispatch ==> !left)
  {
    if inputs != [] {
      var n := |inputs| - 1;
      forall i | 0 <= i < n
        ensures inputs[..n][..i] == inputs[..i] && inputs[..n][i] == inputs[i]
      {
      }
      ReportHidesNoTurn(r, inputs[..n], left);
      assert inputs[n].ev.request == Some(r.request) ==> Truthful(RefreshAll(r, inputs[..n]), inputs[n].ev, left);
    }
  }
}
