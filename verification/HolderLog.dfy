/** The order of dispatches, terminals and history rows that one holder produces. */
module HolderLog {
  import opened Basics
  import opened Statuses

  /**
   Events carry the number of the turn within its lane; a dispatch carries the turn that the App Server
   really started, whether or not the holder learnt of it. `Attached` is the turn a recovery watches.
   */
  datatype Event =
    | Attached(number: int, watched: Option<Turn>)
    | Issued(number: int, started: Turn)
    | Ended(number: int)
    | Recorded(number: int, turn: Turn)

  predicate Dispatches(e: Event) {
    e.Attached? || e.Issued?
  }

  /** A turn is over before it is recorded, and recorded before the next start is sent. */
  predicate Follows(a: Event, b: Event) {
    match a
    case Attached(n, _) => b == Ended(n)
    case Issued(n, _) => b == Ended(n)
    case Ended(n) => b.Recorded? && b.number == n
    case Recorded(n, _) => b.Issued? && b.number == n + 1
  }

  predicate Orderly(log: seq<Event>, first: int) {
    && (log != [] ==> Dispatches(log[0]) && log[0].number == first)
    && forall i :: 0 <= i < |log| - 1 ==> Follows(log[i], log[i + 1])
  }

  /** A dispatched or recovered turn is not known to have ended. */
  predicate LeftOpen(log: seq<Event>) {
    log != [] && Dispatches(log[|log| - 1])
  }

  /** The turn that is left open, where it has a name. */
  function OpenTurn(log: seq<Event>): Option<Turn> {
    if !LeftOpen(log) then None
    else
      var last := log[|log| - 1];
      if last.Attached? then last.watched else Some(last.started)
  }

  /** A turn is left open that is not among those known to have ended. */
  predicate StillRuns(log: seq<Event>, ended: set<Turn>) {
    LeftOpen(log) && !(OpenTurn(log).Some? && OpenTurn(log).value in ended)
  }

  /** In an orderly log event `i` belongs to turn `first + i / 3`, in the order dispatch, end, record. */
  lemma {:induction false} OrderlyShape(log: seq<Event>, first: int, i: nat)
    requires Orderly(log, first) && i < |log|
    ensures log[i].number == first + i / 3
    ensures Dispatches(log[i]) <==> i % 3 == 0
    ensures log[i].Ended? <==> i % 3 == 1
    ensures log[i].Recorded? <==> i % 3 == 2
  {
    if i > 0 {
      OrderlyShape(log, first, i - 1);
      assert Follows(log[i - 1], log[i - 1 + 1]);
    }
  }

  /** A start of turn `number` keeps the order: it is the first, or follows the record of the turn before. */
  predicate MayIssue(log: seq<Event>, first: int, number: int) {
    if log == [] then number == first else log[|log| - 1].Recorded? && log[|log| - 1].number == number - 1
  }

  lemma IssueKeepsOrder(log: seq<Event>, first: int, number: int, t: Turn)
    requires Orderly(log, first) && MayIssue(log, first, number)
    ensures Orderly(log + [Issued(number, t)], first)
  {
  }

  /** Three events were spent on each turn up to the last record. */
  lemma RecordedLength(log: seq<Event>, first: int)
    requires Orderly(log, first) && log != [] && log[|log| - 1].Recorded?
    ensures |log| == 3 * (log[|log| - 1].number - first + 1)
  {
    OrderlyShape(log, first, |log| - 1);
  }

  /** An orderly log of at most `3 * bound` events dispatches at most `bound` turns. */
  lemma DispatchesWithinBound(log: seq<Event>, first: int, bound: nat, i: nat)
    requires Orderly(log, first) && |log| <= 3 * bound && i < |log|
    ensures first <= log[i].number < first + bound
  {
    OrderlyShape(log, first, i);
  }

  /** No turn number is dispatched twice, and a start is sent only after the previous turn was recorded. */
  lemma DispatchedOnce(log: seq<Event>, first: int, i: nat, j: nat)
    requires Orderly(log, first) && i < j < |log| && Dispatches(log[i]) && Dispatches(log[j])
    ensures log[i].number < log[j].number
    ensures log[j - 1].Recorded? && log[j - 1].number == log[j].number - 1
  {
    OrderlyShape(log, first, i);
    OrderlyShape(log, first, j);
    OrderlyShape(log, first, j - 1);
  }
}
