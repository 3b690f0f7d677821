/**
 The holder of one Hold: first dispatch or recovery, then one bounded turn at a time.

 The App Server is adversarial: it may end a turn in any way, and every report, start,
 read-back, history write or acknowledgement write may raise.
 */
module Holder {
  import opened Basics
  import opened Statuses
  import opened Lanes
  import opened TurnMonitor
  import opened HolderLog

  datatype Mode = Create | Resume | Recover

  /** The request as read from disk; counts are normalised on entry. */
  datatype Request = Request(
    mode: Mode,
    thread: bool,
    turn: Option<Turn>,
    maxTurns: int,
    autoContinue: bool,
    initialTurn: int,
    initialTotal: int,
    finalAnswer: bool,
    lane: Option<Lane>)

  /**
   One start request, as far as it got: before `turn_starting` was reported, between that report and the
   send, sent without an answer, answered without a turn id, answered with a turn id whose report raised,
   or answered and reported. `turn` is what the App Server started.
   */
  datatype Launch =
    | Quiet | Announced | Lost(turn: Turn) | Nameless(turn: Turn) | Named(turn: Turn) | Started(turn: Turn)

  datatype Opening = Opening(
    early: bool,
    stop: bool,
    setup: bool,
    attach: bool,
    launch: Launch,
    ack: bool)

  /**
   The wait for a terminal: it ends, or the control poll raises out of it, be it after an exact read-back
   of the terminal.
   */
  datatype Wait = Ends(end: TurnEnd) | PollRaises | ExactTerminal(end: TurnEnd) | StopUnknown

  /** One round of the loop; a Boolean named after a step tells that the step raises. */
  datatype Round = Round(
    wait: Wait,
    observe: bool,
    view: View,
    recheck: bool,
    stopped: bool,
    record: bool,
    ack: bool,
    launch: Launch,
    bind: bool)

  datatype Cause = Finished | StoppedBeforeDispatch | Raised | OutOfLane | OwnerStopped(end: TurnEnd) | OwnerUnknown

  /** What the holder leaves in `result.json`. */
  datatype Exit = Exit(
    cause: Cause,
    status: Lifecycle,
    confirmed: bool,
    dispatch: Dispatch,
    turn: Option<Turn>,
    turnCount: int,
    total: int)

  /** The index of a turn is bound to a batch of the lane. */
  predicate InLane(r: Request, number: int) {
    r.lane.Some? ==> LaneBatchIds(r.lane.value, number).Ok?
  }

  function MaxTurns(r: Request): int { Max(r.maxTurns, 1) }

  function FirstTurn(r: Request): int { Max(r.initialTurn, 1) }

  function FirstTotal(r: Request): int { Max(r.initialTotal, 1) }

  /** The most turns that a session may run: the first one is not checked against the budget. */
  function TurnBound(r: Request): int {
    if r.autoContinue then Max(1, MaxTurns(r) - FirstTurn(r) + 1) else 1
  }

  /** The lane has a batch for every turn that the budget permits. */
  predicate LaneFits(r: Request) {
    r.lane.Some? ==> Valid(r.lane.value) && FirstTotal(r) + TurnBound(r) - 1 <= Rounds(r.lane.value)
  }

  lemma LaneFitsCovers(r: Request, number: int)
    requires LaneFits(r) && FirstTotal(r) <= number < FirstTotal(r) + TurnBound(r)
    ensures InLane(r, number)
  {
  }

  /** The evidence of an exit is sound about the turns that this holder dispatched or was recovering. */
  predicate SoundExit(x: Exit, log: seq<Event>) {
    && (x.confirmed || x.dispatch.NotSent? || x.cause.OwnerStopped? ==> !LeftOpen(log))
    && (x.turn.Some? && LeftOpen(log) ==> OpenTurn(log) == x.turn)
  }

  /** The decision of a round whose wait ended: the monitor's, unless a stop came before the continuation. */
  function Decided(r: Round, t: Terms): Option<Decision> {
    if !r.wait.Ends? then None
    else
      var d := Observe(r.view.(end := r.wait.end), t);
      Some(if d.Continue? && r.stopped then Stop(Cancelled, StopRequested) else d)
  }

  function TermsAt(r: Request, turnCount: int): Terms {
    TurnMonitor.Terms(turnCount, MaxTurns(r), r.autoContinue, r.finalAnswer)
  }

  /** The decision of round `i` of the session. */
  function DecidedAt(r: Request, rounds: nat -> Round, i: nat): Option<Decision> {
    Decided(rounds(i), TermsAt(r, FirstTurn(r) + i))
  }

  predicate ContinuedAt(r: Request, rounds: nat -> Round, i: nat) {
    DecidedAt(r, rounds, i) == Some(Decision.Continue)
  }

  /** The first `n` rounds of the session all decided to continue. */
  ghost predicate Continued(r: Request, rounds: nat -> Round, n: nat) {
    forall i: nat :: i < n ==> ContinuedAt(r, rounds, i)
  }

  lemma RoundDecides(r: Request, rounds: nat -> Round, i: nat, count: int, d: Decision)
    requires count == FirstTurn(r) + i && Decided(rounds(i), TermsAt(r, count)) == Some(d)
    ensures DecidedAt(r, rounds, i) == Some(d)
  {
  }

  lemma ContinuedNext(r: Request, rounds: nat -> Round, n: nat)
    requires Continued(r, rounds, n) && ContinuedAt(r, rounds, n)
    ensures Continued(r, rounds, n + 1)
  {
  }

  /** What a final decision says about the counters and the request. */
  predicate Justified(d: Decision, t: Terms) {
    && d.Stop? && !d.result.Active?
    && (d.result.TurnLimitReached? ==> t.turnCount >= t.maxTurns)
    && (d.result.Completed? ==> !t.continuation)
  }

  ghost predicate AllInLane(r: Request, log: seq<Event>) {
    forall i :: 0 <= i < |log| ==> log[i].Attached? || InLane(r, log[i].number)
  }

  /** Old rows are untouched, every recorded turn has a row, and every new row carries a recorded number. */
  ghost predicate RowsMatch(log: seq<Event>, rows: map<Turn, int>, history: map<Turn, int>) {
    && (forall i :: 0 <= i < |log| && log[i].Recorded? ==> log[i].turn in history)
    && (forall t :: t in rows ==> t in history && history[t] == rows[t])
    && (forall t :: t in history && t !in rows ==> Recorded(history[t], t) in log)
  }

  class Holder {
    const request: Request
    ghost const rows: map<Turn, int>
    var turnCount: int
    var total: int
    var turn: Option<Turn>
    var confirmed: bool
    var dispatch: Dispatch
    var log: seq<Event>
    var history: map<Turn, int>

    constructor (r: Request, rows: map<Turn, int>)
      ensures request == r && this.rows == rows && history == rows
      ensures Opening() && Sound()
    {
      request, history, this.rows := r, rows, rows;
      turnCount, total := FirstTurn(r), FirstTotal(r);
      turn := if r.mode.Recover? then r.turn else None;
      confirmed := !r.mode.Recover?;
      dispatch := if r.mode.Recover? then Unclear else NotSent;
      log := if r.mode.Recover? then [Attached(FirstTotal(r), r.turn)] else [];
    }

    /** Counters, order of events, lane and history rows, at every moment of the run. */
    ghost predicate Valid()
      reads this
    {
      && total - turnCount == FirstTotal(request) - FirstTurn(request)
      && FirstTurn(request) <= turnCount < FirstTurn(request) + TurnBound(request)
      && Orderly(log, FirstTotal(request)) && |log| <= 3 * TurnBound(request)
      && AllInLane(request, log) && RowsMatch(log, rows, history)
    }

    /** The evidence never claims an end, an unsent start or an identity that the log does not show. */
    ghost predicate Sound()
      reads this
    {
      && (confirmed || dispatch.NotSent? ==> !LeftOpen(log))
      && (turn.Some? && LeftOpen(log) ==> OpenTurn(log) == turn)
    }

    /** Nothing was done yet. */
    ghost predicate Opening()
      reads this
    {
      && Valid() && turnCount == FirstTurn(request)
      && log == (if request.mode.Recover? then [Attached(FirstTotal(request), request.turn)] else [])
      && confirmed == !request.mode.Recover?
      && turn == (if request.mode.Recover? then request.turn else None)
      && dispatch == (if request.mode.Recover? then Unclear else NotSent)
    }

    /** The turn of the current counters is dispatched or attached, and nothing is known of its end. */
    ghost predicate Watching()
      reads this
    {
      && Valid() && Sound() && !confirmed && turn.Some? && InLane(request, total)
      && log != [] && Dispatches(log[|log| - 1]) && log[|log| - 1].number == total
    }

    function Terms(): Terms
      reads this
    {
      TermsAt(request, turnCount)
    }

    /** The record that the outermost handler writes. */
    function Failure(cause: Cause): Exit
      reads this
    {
      Exit(cause,
        if cause.OwnerUnknown? then Unknown
        else if cause.OwnerStopped? then (if cause.end.Done? then Cancelled else TurnMonitor.Result(cause.end))
        else Failed,
        confirmed && !cause.OwnerStopped? && !cause.OwnerUnknown?,
        dispatch, turn, turnCount, total)
    }

    /** One start request with its phase reports; `ok` is false where it raises. */
    method Issue(l: Launch, number: int) returns (ok: bool)
      requires Valid() && InLane(request, number) && |log| < 3 * TurnBound(request)
      requires !LeftOpen(log) && turn.None? && MayIssue(log, FirstTotal(request), number)
      modifies this`turn, this`dispatch, this`log
      ensures Valid()
      ensures log == if l.Quiet? || l.Announced? then old(log) else old(log) + [Issued(number, l.turn)]
      ensures ok <==> l.Started?
      ensures ok ==> turn == Some(l.turn)
      ensures turn.Some? ==> LeftOpen(log) && OpenTurn(log) == turn
      ensures l.Quiet? ==> dispatch == old(dispatch) && turn == old(turn)
      ensures !l.Quiet? ==> !dispatch.NotSent?
    {
      if l.Quiet? {
        return false;
      }
      dispatch := PossiblySent;
      if l.Announced? {
        return false;
      }
      IssueKeepsOrder(log, FirstTotal(request), number, l.turn);
      log := log + [Issued(number, l.turn)];
      if l.Lost? {
        return false;
      }
      dispatch := Sent;
      if l.Nameless? {
        return false;
      }
      turn := Some(l.turn);
      return l.Started?;
    }

    /** The first locked block: stop check, then attach, resume or create. */
    method Open(o: Opening) returns (failed: Option<Cause>)
      requires Opening() && Sound()
      modifies this`turn, this`dispatch, this`log, this`confirmed
      ensures Valid() && Sound() && turnCount == old(turnCount) && total == old(total)
      ensures failed.None? ==> Watching() && (o.stop ==> request.mode.Recover?)
      ensures failed == Some(StoppedBeforeDispatch) ==> log == [] && o.stop
      ensures failed.Some? ==> !failed.value.Finished? && !failed.value.OwnerStopped?
      ensures failed.Some? && failed.value.OutOfLane? ==> !LaneFits(request)
      ensures o.stop && !request.mode.Recover? ==> log == []
    {
      if o.early {
        return Some(Raised);
      }
      if o.stop && !request.mode.Recover? {
        return Some(StoppedBeforeDispatch);
      }
      if o.setup {
        return Some(Raised);
      }
      if !InLane(request, total) {
        if LaneFits(request) {
          LaneFitsCovers(request, total);
        }
        return Some(OutOfLane);
      }
      if request.mode.Recover? {
        if !request.thread || turn.None? || o.attach {
          return Some(Raised);
        }
      } else {
        if request.mode.Resume? && !request.thread {
          return Some(Raised);
        }
        confirmed := false;
        var ok := Issue(o.launch, total);
        if !ok {
          return Some(Raised);
        }
      }
      if o.ack {
        return Some(Raised);
      }
      return None;
    }

    /** One history row per turn: an existing row is left alone. */
    method Record()
      requires Valid() && InLane(request, total) && turn.Some? && |log| < 3 * TurnBound(request)
      requires log != [] && log[|log| - 1] == Ended(total)
      modifies this`history, this`log
      ensures Valid()
      ensures log == old(log) + [Recorded(total, turn.value)]
      ensures history == if turn.value in old(history) then old(history) else old(history)[turn.value := total]
    {
      if turn.value !in history {
        history := history[turn.value := total];
      }
      log := log + [Recorded(total, turn.value)];
    }

    /** The current turn is over and recorded. */
    ghost predicate Closed()
      reads this
    {
      && Valid() && Sound() && confirmed && turn.Some?
      && log != [] && log[|log| - 1] == Recorded(total, turn.value)
    }

    /** Wait for the end of the current turn and note it; `end` is what the client returned. */
    method Await(r: Round) returns (failed: Option<Cause>, end: TurnEnd)
      requires Watching()
      modifies this`log
      ensures Valid() && Sound()
      ensures failed.None? ==> r.wait == Ends(end)
      ensures failed.None? ==> log == if end.Vague? then old(log) else old(log) + [Ended(total)]
      ensures failed.Some? ==> failed.value.Raised? || failed.value.OwnerStopped? || failed.value.OwnerUnknown?
      ensures failed.Some? && failed.value.OwnerStopped? ==> !LeftOpen(log)
    {
      end := Vague;
      match r.wait {
        case PollRaises => return Some(Raised), end;
        case ExactTerminal(exact) =>
          if exact.Vague? {
            return Some(OwnerUnknown), end;
          }
          OrderlyShape(log, FirstTotal(request), |log| - 1);
          log := log + [Ended(total)];
          return Some(OwnerStopped(exact)), end;
        case StopUnknown => return Some(OwnerUnknown), end;
        case Ends(e) => end := e;
      }
      if !end.Vague? {
        OrderlyShape(log, FirstTotal(request), |log| - 1);
        log := log + [Ended(total)];
      }
      if r.observe {
        return Some(Raised), end;
      }
      return None, end;
    }

    /** Record the ended turn and acknowledge the decision. */
    method Settle(r: Round) returns (failed: Option<Cause>)
      requires Valid() && Sound() && confirmed && turn.Some? && InLane(request, total)
      requires log != [] && log[|log| - 1] == Ended(total)
      modifies this`log, this`history
      ensures Valid() && Sound()
      ensures if failed.None? then Closed() else failed.value.Raised?
    {
      if r.record {
        return Some(Raised);
      }
      OrderlyShape(log, FirstTotal(request), |log| - 1);
      Record();
      if r.ack {
        return Some(Raised);
      }
      return None;
    }

    /** Observe the current turn, decide, recheck the stop before a continuation, and record it. */
    method Watch(r: Round) returns (failed: Option<Cause>, decision: Decision)
      requires Watching()
      modifies this`log, this`confirmed, this`history
      ensures Valid() && Sound()
      ensures failed.None? || failed == Some(Finished) ==> Decided(r, Terms()) == Some(decision)
      ensures failed.None? ==> Closed() && (decision.Stop? ==> Justified(decision, Terms()))
      ensures failed.None? && decision.Stop? ==> IsTerminal(decision.result)
      ensures failed.None? && decision.Continue? ==>
                !r.stopped && turnCount < MaxTurns(request) && request.autoContinue && !LeftOpen(log)
      ensures failed == Some(Finished) ==> Justified(decision, Terms()) && !confirmed && !IsTerminal(decision.result)
      ensures failed.Some? ==> !failed.value.StoppedBeforeDispatch? && !failed.value.OutOfLane?
      ensures failed.Some? && failed.value.OwnerStopped? ==> !LeftOpen(log)
    {
      decision := Continue;
      var end;
      failed, end := Await(r);
      if failed.Some? {
        return;
      }
      var v := r.view.(end := end);
      decision := Observe(v, Terms());
      if decision.Stop? {
        StopMeans(v, Terms());
      }
      confirmed := decision.Continue? || IsTerminal(decision.result);
      if r.recheck {
        return Some(Raised), decision;
      }
      if decision.Continue? && r.stopped {
        decision := Stop(Cancelled, StopRequested);
      }
      if !confirmed {
        return Some(Finished), decision;
      }
      failed := Settle(r);
    }

    /** Count the started turn and bind it to the request; `bind` tells that this raises. */
    method Advance(bind: bool) returns (failed: Option<Cause>)
      requires Valid() && Sound() && !confirmed && turn.Some? && LeftOpen(log)
      requires log[|log| - 1].number == total + 1 && InLane(request, total + 1)
      requires turnCount + 1 < FirstTurn(request) + TurnBound(request)
      modifies this`turnCount, this`total
      ensures Watching() && turnCount == old(turnCount) + 1
      ensures failed.None? || failed.value.Raised?
    {
      turnCount, total := turnCount + 1, total + 1;
      return if bind then Some(Raised) else None;
    }

    /** Dispatch the next turn after a recorded one. */
    method Next(l: Launch, bind: bool) returns (failed: Option<Cause>)
      requires Closed() && turnCount < MaxTurns(request) && request.autoContinue
      modifies this`turn, this`dispatch, this`log, this`confirmed, this`turnCount, this`total
      ensures Valid() && Sound()
      ensures failed.None? ==> Watching() && turnCount == old(turnCount) + 1
      ensures failed.Some? ==> failed.value.Raised? || (failed.value.OutOfLane? && !LaneFits(request))
    {
      confirmed, turn, dispatch := false, None, NotSent;
      if !InLane(request, total + 1) {
        if LaneFits(request) {
          LaneFitsCovers(request, total + 1);
        }
        return Some(OutOfLane);
      }
      RecordedLength(log, FirstTotal(request));
      var ok := Issue(l, total + 1);
      if !ok {
        return Some(Raised);
      }
      failed := Advance(bind);
    }

    /** One round: watch the current turn and dispatch the next one; without an exit the session goes on. */
    method Round(r: Round) returns (x: Option<Exit>, decision: Decision)
      requires Watching()
      modifies this`turn, this`dispatch, this`log, this`confirmed, this`history, this`turnCount, this`total
      ensures Valid()
      ensures x.None? ==> Watching() && turnCount == old(turnCount) + 1 && decision.Continue?
      ensures x.Some? ==> SoundExit(x.value, log) && !x.value.cause.StoppedBeforeDispatch?
      ensures x.Some? && x.value.cause.OutOfLane? ==> !LaneFits(request)
      ensures x.Some? && x.value.cause.Finished? ==> Finishes(x.value, decision, old(turnCount))
      ensures x.None? || x.value.cause.Finished? ==> Decided(r, TermsAt(request, old(turnCount))) == Some(decision)
    {
      var failed;
      failed, decision := Watch(r);
      if failed == Some(Finished) || (failed.None? && decision.Stop?) {
        return Some(Exit(Finished, decision.result, confirmed, Unclear, turn, turnCount, total)), decision;
      }
      if failed.None? {
        failed := Next(r.launch, r.bind);
      }
      if failed.Some? {
        return Some(Failure(failed.value)), decision;
      }
      return None, decision;
    }

    /** A regular exit: the decision of its last round, and the record of its last turn. */
    ghost predicate Finishes(x: Exit, d: Decision, count: int)
      reads this
    {
      && d.Stop? && x.status == d.result && Justified(d, TermsAt(request, count))
      && x.turnCount == count && x.total - x.turnCount == FirstTotal(request) - FirstTurn(request)
      && (x.confirmed <==> IsTerminal(x.status))
      && (x.confirmed ==> x.turn.Some? && log != [] && log[|log| - 1] == Recorded(x.total, x.turn.value))
    }

    /** A regular exit follows from the decisions of all its rounds: `n` continued, and the next one stopped. */
    ghost predicate FinishedAfter(x: Exit, rounds: nat -> Round, n: nat)
      reads this
    {
      && Continued(request, rounds, n)
      && var d := DecidedAt(request, rounds, n);
         d.Some? && Finishes(x, d.value, FirstTurn(request) + n)
    }

    /** The loop of `hold_task`. */
    method RunRounds(rounds: nat -> Round) returns (x: Exit)
      requires Watching() && turnCount == FirstTurn(request)
      modifies this`turn, this`dispatch, this`log, this`confirmed, this`history, this`turnCount, this`total
      ensures Valid() && SoundExit(x, log) && !x.cause.StoppedBeforeDispatch?
      ensures x.cause.Finished? ==> exists n: nat :: FinishedAfter(x, rounds, n)
      ensures x.cause.OutOfLane? ==> !LaneFits(request)
    {
      var i := 0;
      while true
        invariant Watching() && turnCount == FirstTurn(request) + i
        invariant Continued(request, rounds, i)
        decreases FirstTurn(request) + TurnBound(request) - turnCount
      {
        ghost var count := turnCount;
        var end, decision := Round(rounds(i));
        if end.None? || end.value.cause.Finished? {
          RoundDecides(request, rounds, i, count, decision);
        }
        if end.Some? {
          if end.value.cause.Finished? {
            assert FinishedAfter(end.value, rounds, i);
          }
          return end.value;
        }
        ContinuedNext(request, rounds, i);
        i := i + 1;
      }
    }

    /** The whole of `hold_task`, with the record it leaves behind. */
    method Run(o: Opening, rounds: nat -> Round) returns (x: Exit)
      requires Opening() && Sound()
      modifies this`turn, this`dispatch, this`log, this`confirmed, this`history, this`turnCount, this`total
      ensures Valid() && SoundExit(x, log)
      ensures x.cause.Finished? ==> exists n: nat :: FinishedAfter(x, rounds, n)
      ensures x.cause.StoppedBeforeDispatch? ==> o.stop && log == [] && x.confirmed
      ensures o.stop && !request.mode.Recover? ==> log == []
      ensures x.cause.OutOfLane? ==> !LaneFits(request)
    {
      var failed := Open(o);
      if failed.Some? {
        if failed.value.StoppedBeforeDispatch? {
          return Exit(StoppedBeforeDispatch, Cancelled, true, Unclear, None, turnCount, 0);
        }
        return Failure(failed.value);
      }
      x := RunRounds(rounds);
    }
  }
}
