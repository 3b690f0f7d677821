/**
 The local scheduler's heartbeat table, and why the reconcile heartbeat of a loop never
 exhausts its run budget before the loop expires. Time is real, in seconds.
 */
module LocalHeartbeat {
  import opened Basics
  import Statuses

  type Id = Statuses.Id

  datatype RowStatus = Active | Completed | Cancelled | Failed

  datatype Row = Row(
    id: Id,
    loopTick: bool,
    interval: nat,
    status: RowStatus,
    next: Option<real>,
    runs: nat,
    maxRuns: nat,
    expires: real,
    failures: nat)

  /** `Moving` stands for acquiring, stopping and finalizing, which count as success for loop ticks only. */
  datatype Outcome = Fine | Moving | Bad

  datatype Request = Request(
    id: Id,
    loopTick: bool,
    interval: int,
    maxRuns: int,
    expires: real,
    startAt: Option<real>,
    immediately: bool)

  datatype CreateError = IntervalOutsideLimits | NoRuns | AlreadyExpired

  function Ceil(x: real): int {
    -((-x).Floor)
  }

  /** The run budget that `_reconcile_heartbeat_options` asks for, `remaining` seconds before expiry. */
  function ReconcileMaxRuns(remaining: real, interval: nat): int
    requires interval >= 1
  {
    var left := if remaining > 0.0 then remaining else 0.0;
    Max(1, Ceil(left / (interval as real)) + 1)
  }

  function NewRow(r: Request, now: real, lo: int, hi: int): Result<Row, CreateError>
    requires 1 <= lo
  {
    if !(lo <= r.interval <= hi) then Err(IntervalOutsideLimits)
    else if r.maxRuns < 1 then Err(NoRuns)
    else if r.expires <= now then Err(AlreadyExpired)
    else
      var start :=
        if r.startAt.Some? then r.startAt.value
        else if r.immediately then now
        else now + r.interval as real;
      Ok(Row(r.id, r.loopTick, r.interval, Active, Some(start), 0, r.maxRuns, r.expires, 0))
  }

  /** Selected by `claim_due`: active, due, within its run budget and not expired. */
  predicate Due(row: Row, now: real) {
    && row.status.Active? && row.next.Some? && row.next.value <= now && row.runs < row.maxRuns
    && row.expires > now
  }

  function ClaimedRow(row: Row, now: real): Row {
    if Due(row, now) then row.(next := Some(now + row.interval as real)) else row
  }

  predicate Succeeds(row: Row, o: Outcome) {
    o.Fine? || (row.loopTick && o.Moving?)
  }

  function RecordedRow(row: Row, success: bool): Row {
    var runs := row.runs + (if success then 1 else 0);
    var failures := if success then 0 else row.failures + 1;
    var status :=
      if !row.status.Active? then row.status
      else if success && runs >= row.maxRuns then Completed
      else if failures >= 3 then Failed
      else row.status;
    row.(runs := runs, failures := failures, status := status,
         next := if status.Active? then row.next else None)
  }

  function CancelledRow(row: Row): Row {
    if row.status.Active? then row.(status := Cancelled, next := None) else row
  }

  /** The position of a heartbeat, from `i` on. */
  function Find(rows: seq<Row>, id: Id, i: nat): (k: Option<nat>)
    requires i <= |rows|
    decreases |rows| - i
    ensures k.Some? ==> i <= k.value < |rows| && rows[k.value].id == id
    ensures k.None? ==> forall j :: i <= j < |rows| ==> rows[j].id != id
  {
    if i == |rows| then None else if rows[i].id == id then Some(i) else Find(rows, id, i + 1)
  }

  class LocalHeartbeatStore {
    var rows: seq<Row>
    const lo: int
    const hi: int

    ghost predicate Valid()
      reads this
    {
      1 <= lo && forall i, j :: 0 <= i < j < |rows| ==> rows[i].id != rows[j].id
    }

    constructor (lo: int, hi: int)
      requires 1 <= lo
      ensures Valid() && rows == [] && this.lo == lo && this.hi == hi
    {
      rows := [];
      this.lo, this.hi := lo, hi;
    }

    method Create(r: Request, now: real) returns (created: Result<bool, CreateError>)
      requires Valid()
      modifies this`rows
      ensures Valid()
      ensures created.Err? <==> NewRow(r, now, lo, hi).Err?
      ensures created == Ok(true) ==>
                && rows == old(rows) + [NewRow(r, now, lo, hi).value]
                && forall i :: 0 <= i < |old(rows)| ==> old(rows)[i].id != r.id
      ensures created != Ok(true) ==> rows == old(rows)
      ensures created == Ok(false) ==> exists i :: 0 <= i < |rows| && rows[i].id == r.id
    {
      var row := NewRow(r, now, lo, hi);
      if row.Err? {
        return Err(row.error);
      }
      if Find(rows, r.id, 0).Some? {
        return Ok(false);
      }
      rows := rows + [row.value];
      return Ok(true);
    }

    /** Cancel; `confirmed` is false where the row is missing. */
    method Cancel(id: Id) returns (confirmed: bool)
      requires Valid()
      modifies this`rows
      ensures Valid() && |rows| == |old(rows)|
      ensures confirmed <==> exists i :: 0 <= i < |old(rows)| && old(rows)[i].id == id
      ensures forall i :: 0 <= i < |rows| ==>
                rows[i] == if old(rows)[i].id == id then Step(old(rows)[i], Event.Cancel) else old(rows)[i]
    {
      var k := Find(rows, id, 0);
      if k.None? {
        return false;
      }
      rows := rows[k.value := CancelledRow(rows[k.value])];
      return true;
    }

    /** Select the due rows, then move each of them to its next run. */
    method ClaimDue(now: real) returns (claimed: seq<Row>)
      requires Valid()
      modifies this`rows
      ensures Valid() && |rows| == |old(rows)|
      ensures forall i :: 0 <= i < |rows| ==> rows[i] == Step(old(rows)[i], Claim(now))
      ensures forall row :: row in claimed <==> row in old(rows) && Due(row, now)
      ensures forall i, j :: 0 <= i < j < |claimed| ==> claimed[i].id != claimed[j].id
    {
      claimed := [];
      for i := 0 to |rows|
        invariant |rows| == |old(rows)|
        invariant forall j :: 0 <= j < i ==> rows[j] == ClaimedRow(old(rows)[j], now)
        invariant forall j :: i <= j < |rows| ==> rows[j] == old(rows)[j]
        invariant forall row :: row in claimed <==> row in old(rows)[..i] && Due(row, now)
        invariant forall a, b :: 0 <= a < b < |claimed| ==> claimed[a].id != claimed[b].id
      {
        var row := rows[i];
        assert old(rows)[..i + 1] == old(rows)[..i] + [row];
        if Due(row, now) {
          assert forall a :: 0 <= a < |claimed| ==> claimed[a] in old(rows)[..i];
          claimed := claimed + [row];
          rows := rows[i := row.(next := Some(now + row.interval as real))];
        }
      }
      assert old(rows)[..|rows|] == old(rows);
    }

    /** Record the outcome of one claimed run; a missing row raises. */
    method Record(id: Id, o: Outcome) returns (found: bool)
      requires Valid()
      modifies this`rows
      ensures Valid() && |rows| == |old(rows)|
      ensures found <==> exists i :: 0 <= i < |old(rows)| && old(rows)[i].id == id
      ensures forall i :: 0 <= i < |rows| ==>
                rows[i] ==
                if old(rows)[i].id == id then Step(old(rows)[i], Report(Succeeds(old(rows)[i], o)))
                else old(rows)[i]
    {
      var k := Find(rows, id, 0);
      if k.None? {
        return false;
      }
      var row := rows[k.value];
      var success := o.Fine? || (row.loopTick && o.Moving?);
      var runs, failures := row.runs, row.failures + 1;
      if success {
        runs, failures := row.runs + 1, 0;
      }
      var status := row.status;
      if status.Active? {
        if success && runs >= row.maxRuns {
          status := Completed;
        } else if failures >= 3 {
          status := Failed;
        }
      }
      rows := rows[k.value := row.(runs := runs, failures := failures, status := status,
                                   next := if status.Active? then row.next else None)];
      return true;
    }
  }

  // The life of one row under a single scheduler

  datatype Event = Claim(now: real) | Report(success: bool) | Cancel

  function Step(row: Row, e: Event): Row {
    match e
    case Claim(now) => ClaimedRow(row, now)
    case Report(success) => RecordedRow(row, success)
    case Cancel => CancelledRow(row)
  }

  function After(row: Row, events: seq<Event>): Row {
    if events == [] then row else Step(After(row, events[..|events| - 1]), events[|events| - 1])
  }

  /** Number of claims that succeeded. */
  function Claims(row: Row, events: seq<Event>): nat {
    if events == [] then 0
    else
      var front, e := events[..|events| - 1], events[|events| - 1];
      Claims(row, front) + (if e.Claim? && Due(After(row, front), e.now) then 1 else 0)
  }

  /** A single scheduler reports each run that it claimed at most once. */
  ghost predicate OneScheduler(row: Row, events: seq<Event>) {
    forall i {:trigger events[..i]} :: 0 <= i <= |events| ==> Reports(events[..i]) <= Claims(row, events[..i])
  }

  function Reports(events: seq<Event>): nat {
    if events == [] then 0
    else Reports(events[..|events| - 1]) + (if events[|events| - 1].Report? then 1 else 0)
  }

  /** Cancelled, completed and failed rows stay so, whatever is still recorded for them. */
  lemma {:induction false} TerminalStays(row: Row, events: seq<Event>)
    requires !row.status.Active? && row.next.None?
    ensures After(row, events).status == row.status && After(row, events).next.None?
  {
    if events != [] {
      TerminalStays(row, events[..|events| - 1]);
    }
  }

  function Span(n: nat, interval: nat): real {
    n as real * interval as real
  }

  lemma SpanNext(n: nat, interval: nat)
    ensures Span(n + 1, interval) == Span(n, interval) + interval as real
  {
  }

  /** After `n` claims the next run is not due before `created + (n + 1) * interval`, and the last was before expiry. */
  lemma {:induction false} ClaimsAreSpaced(row: Row, created: real, events: seq<Event>)
    requires row.next == Some(created + row.interval as real) && created < row.expires
    ensures var end, n := After(row, events), Claims(row, events);
      && end.interval == row.interval && end.expires == row.expires && end.maxRuns == row.maxRuns
      && (end.next.Some? ==> end.next.value >= created + Span(n + 1, row.interval))
      && created + Span(n, row.interval) < row.expires
  {
    if events == [] {
      SpanNext(0, row.interval);
    } else {
      var front, e := events[..|events| - 1], events[|events| - 1];
      ClaimsAreSpaced(row, created, front);
      var n := Claims(row, front);
      SpanNext(n + 1, row.interval);
      assert e.Claim? && Due(After(row, front), e.now) ==> e.now >= created + Span(n + 1, row.interval);
    }
  }

  lemma {:induction false} RunsAreReports(row: Row, events: seq<Event>)
    requires row.runs == 0
    ensures After(row, events).runs <= Reports(events)
  {
    if events != [] {
      RunsAreReports(row, events[..|events| - 1]);
    }
  }

  lemma ProductsKeepOrder(a: real, b: real, k: real)
    requires a <= b && k >= 0.0
    ensures a * k <= b * k
  {
  }

  lemma BelowCeil(n: nat, interval: nat, remaining: real)
    requires interval >= 1 && Span(n, interval) < remaining
    ensures n + 2 <= ReconcileMaxRuns(remaining, interval)
  {
    var k := interval as real;
    var x := remaining / k;
    assert x * k == remaining;
    if x <= n as real {
      ProductsKeepOrder(x, n as real, k);
    }
    assert n as real < x;
    assert (-x).Floor + n < 0;
  }

  /** The row that a loop's reconcile heartbeat starts from, its options computed at `asked`. */
  predicate Reconciling(row: Row, asked: real, created: real) {
    && row.interval >= 1 && asked <= created < row.expires
    && row.status.Active? && row.runs == 0 && row.failures == 0
    && row.next == Some(created + row.interval as real)
    && row.maxRuns == ReconcileMaxRuns(row.expires - asked, row.interval)
  }

  /** Creating the reconcile heartbeat makes such a row. */
  lemma CreatedReconciling(id: Id, interval: nat, expires: real, asked: real, created: real, lo: int, hi: int)
    requires 1 <= lo <= interval <= hi && asked <= created < expires
    ensures var r := Request(id, true, interval, ReconcileMaxRuns(expires - asked, interval), expires, None, false);
      NewRow(r, created, lo, hi).Ok? && Reconciling(NewRow(r, created, lo, hi).value, asked, created)
  {
  }

  /**
   The reconcile heartbeat never runs dry: for every interval and lateness pattern the claims before
   expiry stay at least two below its run budget, so it is never completed by that budget.
   */
  lemma {:induction false} NeverRunsDry(row: Row, asked: real, created: real, events: seq<Event>)
    requires Reconciling(row, asked, created) && OneScheduler(row, events)
    ensures Claims(row, events) + 2 <= row.maxRuns
    ensures After(row, events).runs + 2 <= row.maxRuns
    ensures !After(row, events).status.Completed?
  {
    ClaimsAreSpaced(row, created, events);
    BelowCeil(Claims(row, events), row.interval, row.expires - asked);
    RunsAreReports(row, events);
    assert events[..|events|] == events;
    if events != [] {
      var front := events[..|events| - 1];
      assert OneScheduler(row, front) by {
        forall i | 0 <= i <= |front|
          ensures Reports(front[..i]) <= Claims(row, front[..i])
        {
          assert front[..i] == events[..i];
        }
      }
      NeverRunsDry(row, asked, created, front);
      ClaimsAreSpaced(row, created, front);
    }
  }

  /** So an active reconcile heartbeat is claimed whenever it is due before the loop expires. */
  lemma DueIsOnlyTime(row: Row, asked: real, created: real, events: seq<Event>, now: real)
    requires Reconciling(row, asked, created) && OneScheduler(row, events)
    requires After(row, events).status.Active?
    ensures Due(After(row, events), now) <==>
              After(row, events).next.Some? && After(row, events).next.value <= now < row.expires
  {
    NeverRunsDry(row, asked, created, events);
    ClaimsAreSpaced(row, created, events);
  }
}
