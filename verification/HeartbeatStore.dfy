/**
 The heartbeat state machine: schedule rows, their runs, and the one AI handoff that a
 native probe may trigger. Each method is one database transaction; a service restart
 may fall between any two of them.
 */
module HeartbeatStore {
  import opened Basics
  import Statuses

  type Id = Statuses.Id

  datatype RowStatus = Active | Paused | Completed | Cancelled | Failed

  datatype Trigger = NotApplicable | Monitoring | HandoffInflight | PendingDelivery | DeliveredCancelled

  datatype Row = Row(
    id: Id,
    status: RowStatus,
    probe: bool,
    next: Option<real>,
    interval: nat,
    maxRuns: Option<nat>,
    expires: Option<real>,
    runCount: nat,
    failures: nat,
    fingerprint: Option<Id>,
    staleRounds: nat,
    busySince: Option<real>,
    busyNoticed: bool,
    quiet: Option<Id>,
    alerted: Option<Id>,
    trigger: Trigger,
    triggerRun: Option<Id>,
    message: Option<Id>)

  datatype Run = Run(heartbeat: Id, completed: bool, turn: Option<Id>)

  predicate Terminal(s: RowStatus) {
    s.Completed? || s.Cancelled? || s.Failed?
  }

  /** A validated replacement for a schedule. */
  datatype Schedule = Schedule(probe: bool, interval: nat, maxRuns: nat, expires: real, next: real)

  datatype ReceiptKind = ContinueSafe | EndOfWork | OtherKind

  /** A continuation receipt; its progress fingerprint may be absent whatever its kind. */
  datatype Receipt = Receipt(kind: ReceiptKind, fingerprint: Option<Id>)

  /** The class of a run's outcome; `HandedOff` stands for the two outcomes that also clear the schedule. */
  datatype Outcome = Good | HandedOff | Busy | Bad

  /**
   What a finished run reports, with the schedule as it was claimed: `prompt` mode, `next`, `maxRuns` and
   `interval`.
   `queue` is the fingerprint of a queue probe, `quiet` tells that the probe found nothing to do.
   */
  datatype Result = Result(
    outcome: Outcome,
    completes: bool,
    receipt: Option<Receipt>,
    queue: Option<Id>,
    quiet: bool,
    prompt: bool,
    next: Option<real>,
    maxRuns: Option<nat>,
    interval: nat)

  datatype Config = Config(requireReceipt: bool, staleLimit: nat, maxFailures: nat, retry: nat)

  // Transitions of one row

  function NewRow(id: Id, v: Schedule): Row {
    Row(id, Active, v.probe, Some(v.next), v.interval, Some(v.maxRuns), Some(v.expires), 0, 0, None, 0, None, false,
        None, None, if v.probe then Monitoring else NotApplicable, None, None)
  }

  predicate CanUpdate(row: Row, reactivate: bool, inflight: bool) {
    !inflight && (Terminal(row.status) ==> reactivate)
  }

  function Updated(row: Row, v: Schedule, reactivate: bool): Row {
    var status := if reactivate then Active else row.status;
    row.(
      status := status, next := if status.Active? then Some(v.next) else row.next,
      probe := v.probe, interval := v.interval, maxRuns := Some(v.maxRuns), expires := Some(v.expires),
      trigger := if v.probe then Monitoring else NotApplicable, triggerRun := None, message := None, failures := 0)
  }

  predicate CanSet(row: Row, desired: RowStatus) {
    (desired.Active? || desired.Paused? || desired.Cancelled?) && (Terminal(row.status) ==> row.status == desired)
  }

  function WithStatus(row: Row, desired: RowStatus, now: real): Row {
    row.(status := desired, next := if desired.Active? then Some(now + row.interval as real) else row.next)
  }

  predicate CanArm(row: Row) {
    row.status.Active? && row.probe && row.trigger.Monitoring? && row.triggerRun.None?
  }

  function Armed(row: Row, run: Id): Row {
    row.(trigger := HandoffInflight, triggerRun := Some(run), next := None)
  }

  predicate CanFinish(row: Row, run: Id) {
    row.trigger.HandoffInflight? && row.triggerRun == Some(run)
  }

  function FinishedHandoff(row: Row, started: bool): Row {
    if started then row.(trigger := PendingDelivery) else row.(trigger := Monitoring, triggerRun := None)
  }

  predicate CanDeliver(row: Row) {
    row.status.Active? && row.trigger.PendingDelivery?
  }

  function Delivered(row: Row, message: Id): Row {
    row.(status := Cancelled, trigger := DeliveredCancelled, message := Some(message), next := None)
  }

  predicate CanRecover(row: Row) {
    row.status.Active? && row.probe && row.trigger.HandoffInflight?
  }

  /** Recovery after a restart: with a persisted turn the handoff is pending, otherwise it is retried. */
  function Recovered(row: Row, turn: bool, retryAt: real): Row {
    if turn then row.(trigger := PendingDelivery, next := None)
    else row.(trigger := Monitoring, triggerRun := None, next := Some(retryAt), failures := row.failures + 1)
  }

  predicate Expired(row: Row, now: real) {
    row.status.Active? && row.expires.Some? && row.expires.value <= now
  }

  predicate Due(row: Row, now: real) {
    && row.status.Active? && !Expired(row, now)
    && row.next.Some? && row.next.value <= now
    && (row.maxRuns.Some? ==> row.runCount < row.maxRuns.value)
  }

  function Swept(row: Row, now: real): Row {
    if Expired(row, now) then row.(status := Completed)
    else if Due(row, now) then row.(next := Some(now + row.interval as real))
    else row
  }

  /** A prompt run that must bring a continuation receipt. */
  predicate Checks(c: Config, r: Result) {
    c.requireReceipt && r.prompt
  }

  predicate HasKind(r: Result, kind: ReceiptKind) {
    r.receipt.Some? && r.receipt.value.kind == kind
  }

  /** The progress fingerprint that a checked receipt brings. */
  function Progress(c: Config, r: Result): Option<Id> {
    if Checks(c, r) && r.receipt.Some? then r.receipt.value.fingerprint else None
  }

  /** The run counts as a success: by its receipt where one is required, by its outcome otherwise. */
  predicate Succeeds(c: Config, r: Result) {
    if Checks(c, r) then HasKind(r, ContinueSafe) && Progress(c, r).Some?
    else r.outcome.Good? || r.outcome.HandedOff?
  }

  /** A missing receipt replaces the outcome, so such a run is neither a deferral nor a handoff. */
  predicate KeepsOutcome(c: Config, r: Result) {
    Checks(c, r) ==> r.receipt.Some?
  }

  predicate Defers(c: Config, r: Result) {
    r.outcome.Busy? && KeepsOutcome(c, r)
  }

  function FailuresAfter(c: Config, row: Row, r: Result): nat {
    if Defers(c, r) then row.failures else if Succeeds(c, r) then 0 else row.failures + 1
  }

  function RunsAfter(c: Config, row: Row, r: Result): nat {
    row.runCount + (if Succeeds(c, r) then 1 else 0)
  }

  predicate EndsWork(c: Config, r: Result) {
    r.completes || (Checks(c, r) && HasKind(r, EndOfWork))
  }

  /** The receipt decides over going on: the run is checked, no deferral, and does not end the work. */
  predicate Judged(c: Config, r: Result) {
    Checks(c, r) && !Defers(c, r) && !EndsWork(c, r)
  }

  function StaleAfter(c: Config, row: Row, r: Result): nat {
    if !(Judged(c, r) && HasKind(r, ContinueSafe)) then 0
    else if row.fingerprint == Progress(c, r) then row.staleRounds + 1
    else 1
  }

  predicate Pauses(c: Config, row: Row, r: Result) {
    Judged(c, r) && (!HasKind(r, ContinueSafe) || StaleAfter(c, row, r) >= c.staleLimit)
  }

  predicate Exhausts(c: Config, row: Row, r: Result) {
    && !EndsWork(c, r) && !Pauses(c, row, r)
    && r.maxRuns.Some? && RunsAfter(c, row, r) >= r.maxRuns.value
  }

  function StatusAfter(c: Config, row: Row, r: Result): RowStatus {
    if Exhausts(c, row, r) then Completed
    else if FailuresAfter(c, row, r) >= c.maxFailures then Failed
    else if EndsWork(c, r) then Completed
    else if Pauses(c, row, r) then Paused
    else Active
  }

  function BusyFor(row: Row, now: real): real {
    if row.busySince.Some? && row.busySince.value < now then now - row.busySince.value else 0.0
  }

  /** A quiet queue that is unchanged since the last quiet run is reported as abnormal, once. */
  predicate Alerts(row: Row, r: Result) {
    row.status.Active? && r.queue.Some? && r.quiet && row.quiet == r.queue && row.alerted != r.queue
  }

  function NextAfter(c: Config, row: Row, r: Result, now: real): Option<real> {
    if !Succeeds(c, r) && StatusAfter(c, row, r).Active? then
      if Defers(c, r) && BusyFor(row, now) >= r.interval as real / 2.0
      then Some(now + Max(c.retry, r.interval / 2) as real)
      else Some(now + c.retry as real)
    else if Alerts(row, r) || (r.outcome.HandedOff? && KeepsOutcome(c, r)) then None
    else r.next
  }

  /** What recording a run makes of a row: nothing unless the row is still active. */
  function RecordedRow(c: Config, row: Row, r: Result, now: real): Row {
    if !row.status.Active? then row
    else
      var busy := Defers(c, r);
      row.(
        status := StatusAfter(c, row, r), runCount := RunsAfter(c, row, r), failures := FailuresAfter(c, row, r),
        staleRounds := StaleAfter(c, row, r),
        fingerprint := if Progress(c, r).Some? then Progress(c, r) else row.fingerprint,
        busySince := if !busy then None else if row.busySince.Some? then row.busySince else Some(now),
        busyNoticed := busy && (row.busyNoticed || BusyFor(row, now) >= r.interval as real),
        quiet := if r.queue.None? then row.quiet else if r.quiet then r.queue else None,
        alerted := if r.queue.None? then row.alerted else if r.quiet && row.quiet == r.queue then r.queue else None,
        next := NextAfter(c, row, r, now))
  }

  function Find(rows: seq<Row>, id: Id, i: nat): (k: Option<nat>)
    requires i <= |rows|
    decreases |rows| - i
    ensures k.Some? ==> i <= k.value < |rows| && rows[k.value].id == id
    ensures k.None? ==> forall j :: i <= j < |rows| ==> rows[j].id != id
  {
    if i == |rows| then None else if rows[i].id == id then Some(i) else Find(rows, id, i + 1)
  }

  /** The positions of the due rows among the first `n`. */
  function DueRows(rows: seq<Row>, now: real, n: nat): (r: seq<nat>)
    requires n <= |rows|
    ensures forall i :: 0 <= i < |r| ==> r[i] < n
  {
    if n == 0 then []
    else DueRows(rows, now, n - 1) + (if Due(rows[n - 1], now) then [n - 1] else [])
  }

  /** Each due row is claimed exactly once, and no other row is. */
  lemma {:induction false} DueRowsExactly(rows: seq<Row>, now: real, n: nat)
    requires n <= |rows|
    ensures var r := DueRows(rows, now, n);
      && (forall a, b :: 0 <= a < b < |r| ==> r[a] < r[b])
      && (forall i: nat :: i in r <==> i < n && Due(rows[i], now))
  {
    if n > 0 {
      DueRowsExactly(rows, now, n - 1);
    }
  }

  predicate Before(rows: seq<Row>, i: nat, j: nat)
    requires i < |rows| && j < |rows|
  {
    var a, b := NextOf(rows[i]), NextOf(rows[j]);
    a < b || (a == b && rows[i].id <= rows[j].id)
  }

  function NextOf(row: Row): real {
    if row.next.Some? then row.next.value else 0.0
  }

  predicate Positions(rows: seq<Row>, ks: seq<nat>) {
    forall i :: 0 <= i < |ks| ==> ks[i] < |rows|
  }

  function Inserted(rows: seq<Row>, k: nat, ks: seq<nat>): (r: seq<nat>)
    requires k < |rows| && Positions(rows, ks)
    ensures Positions(rows, r) && multiset(r) == multiset{k} + multiset(ks)
    ensures forall x :: x in r <==> x == k || x in ks
  {
    if ks == [] then [k]
    else if Before(rows, k, ks[0]) then [k] + ks
    else
      assert ks == [ks[0]] + ks[1..];
      [ks[0]] + Inserted(rows, k, ks[1..])
  }

  /** `ORDER BY next_run_epoch, heartbeat_id` */
  function DueOrder(rows: seq<Row>, ks: seq<nat>): (r: seq<nat>)
    requires Positions(rows, ks)
    ensures Positions(rows, r)
  {
    if ks == [] then [] else Inserted(rows, ks[0], DueOrder(rows, ks[1..]))
  }

  predicate Ordered(rows: seq<Row>, ks: seq<nat>)
    requires Positions(rows, ks)
  {
    forall i, j :: 0 <= i < j < |ks| ==> Before(rows, ks[i], ks[j])
  }

  lemma OrderedAfter(rows: seq<Row>, k: nat, ks: seq<nat>)
    requires k < |rows| && Positions(rows, ks) && Ordered(rows, ks)
    requires forall x :: x in ks ==> x < |rows| && Before(rows, k, x)
    ensures Ordered(rows, [k] + ks)
  {
  }

  lemma {:induction false} InsertedOrdered(rows: seq<Row>, k: nat, ks: seq<nat>)
    requires k < |rows| && Positions(rows, ks) && Ordered(rows, ks)
    ensures Ordered(rows, Inserted(rows, k, ks))
  {
    if ks != [] {
      var first, rest := ks[0], ks[1..];
      if Before(rows, k, first) {
        forall x | x in ks
          ensures Before(rows, k, x)
        {
          var j :| 0 <= j < |ks| && ks[j] == x;
          assert j > 0 ==> Before(rows, ks[0], ks[j]);
        }
        OrderedAfter(rows, k, ks);
      } else {
        InsertedOrdered(rows, k, rest);
        forall x | x in Inserted(rows, k, rest)
          ensures x < |rows| && Before(rows, first, x)
        {
          if x != k {
            var j :| 0 <= j < |rest| && rest[j] == x;
            assert ks[j + 1] == x && Before(rows, ks[0], ks[j + 1]);
          }
        }
        OrderedAfter(rows, first, Inserted(rows, k, rest));
      }
    }
  }

  lemma {:induction false} DueOrderOrdered(rows: seq<Row>, ks: seq<nat>)
    requires Positions(rows, ks)
    ensures Ordered(rows, DueOrder(rows, ks))
  {
    if ks != [] {
      DueOrderOrdered(rows, ks[1..]);
      InsertedOrdered(rows, ks[0], DueOrder(rows, ks[1..]));
    }
  }

  lemma {:induction false} DueOrderSame(rows: seq<Row>, ks: seq<nat>)
    requires Positions(rows, ks)
    ensures multiset(DueOrder(rows, ks)) == multiset(ks)
    ensures forall x :: x in DueOrder(rows, ks) <==> x in ks
  {
    if ks != [] {
      assert ks == [ks[0]] + ks[1..];
      DueOrderSame(rows, ks[1..]);
    }
  }

  lemma {:induction false} SameInserted(rows: seq<Row>, table: seq<Row>, k: nat, ks: seq<nat>)
    requires |table| == |rows| && k < |rows| && Positions(rows, ks)
    requires forall i :: 0 <= i < |rows| ==> table[i].next == rows[i].next && table[i].id == rows[i].id
    ensures Inserted(table, k, ks) == Inserted(rows, k, ks)
  {
    if ks != [] {
      SameInserted(rows, table, k, ks[1..]);
    }
  }

  lemma {:induction false} SameOrder(rows: seq<Row>, table: seq<Row>, ks: seq<nat>)
    requires |table| == |rows| && Positions(rows, ks)
    requires forall i :: 0 <= i < |rows| ==> table[i].next == rows[i].next && table[i].id == rows[i].id
    ensures DueOrder(table, ks) == DueOrder(rows, ks)
  {
    if ks != [] {
      SameOrder(rows, table, ks[1..]);
      SameInserted(rows, table, ks[0], DueOrder(rows, ks[1..]));
    }
  }

  /** The claims of one sweep, in order. */
  function Claims(rows: seq<Row>, now: real): (r: seq<nat>)
    ensures Positions(rows, r)
  {
    DueOrder(rows, DueRows(rows, now, |rows|))
  }

  /** A sweep claims exactly the due rows, each once and in due order. */
  lemma ClaimsExactly(rows: seq<Row>, now: real)
    ensures Ordered(rows, Claims(rows, now))
    ensures forall i, j :: 0 <= i < j < |Claims(rows, now)| ==> Claims(rows, now)[i] != Claims(rows, now)[j]
    ensures forall i: nat :: i in Claims(rows, now) <==> i < |rows| && Due(rows[i], now)
  {
    var ks := DueRows(rows, now, |rows|);
    DueRowsExactly(rows, now, |rows|);
    DueOrderOrdered(rows, ks);
    DueOrderSame(rows, ks);
    SameOnce(ks, Claims(rows, now));
  }

  lemma SameOnce(a: seq<nat>, b: seq<nat>)
    requires multiset(a) == multiset(b)
    requires forall i, j :: 0 <= i < j < |a| ==> a[i] != a[j]
    ensures forall i, j :: 0 <= i < j < |b| ==> b[i] != b[j]
  {
    forall i, j | 0 <= i < j < |b| && b[i] == b[j]
      ensures false
    {
      assert b == b[..i] + [b[i]] + b[i + 1..j] + [b[j]] + b[j + 1..];
      assert multiset(b)[b[i]] >= 2;
      OnceInDistinct(a, b[i]);
    }
  }

  lemma {:induction false} OnceInDistinct(a: seq<nat>, x: nat)
    requires forall i, j :: 0 <= i < j < |a| ==> a[i] != a[j]
    ensures multiset(a)[x] <= 1
  {
    if a != [] {
      OnceInDistinct(a[1..], x);
      assert a == [a[0]] + a[1..];
    }
  }

  /** The run table with one inflight run for each claimed row. */
  function WithRuns(runs: map<Id, Run>, rows: seq<Row>, claimed: seq<nat>, newRun: nat -> Id): map<Id, Run>
    requires forall i :: 0 <= i < |claimed| ==> claimed[i] < |rows|
  {
    if claimed == [] then runs
    else
      var n := |claimed| - 1;
      WithRuns(runs, rows, claimed[..n], newRun)[newRun(n) := Run(rows[claimed[n]].id, false, None)]
  }

  /** With unique new run ids, claiming opens exactly one run for each claimed row and touches no other run. */
  lemma {:induction false} ClaimsOpenRuns(runs: map<Id, Run>, rows: seq<Row>, claimed: seq<nat>, newRun: nat -> Id)
    requires forall i :: 0 <= i < |claimed| ==> claimed[i] < |rows|
    requires forall n: nat :: newRun(n) !in runs
    requires forall m: nat, n: nat :: newRun(m) == newRun(n) ==> m == n
    ensures var t := WithRuns(runs, rows, claimed, newRun);
      && (forall r :: r in runs ==> r in t && t[r] == runs[r])
      && (forall n: nat :: n < |claimed| ==> newRun(n) in t && t[newRun(n)] == Run(rows[claimed[n]].id, false, None))
      && (forall r :: r in t && r !in runs ==> exists n: nat :: n < |claimed| && newRun(n) == r)
  {
    if claimed != [] {
      ClaimsOpenRuns(runs, rows, claimed[..|claimed| - 1], newRun);
    }
  }

  function Unexpired(row: Row, now: real): Row {
    if Expired(row, now) then row.(status := Completed) else row
  }

  method ExpireRows(rows: seq<Row>, now: real) returns (table: seq<Row>)
    ensures |table| == |rows| && forall i :: 0 <= i < |rows| ==> table[i] == Unexpired(rows[i], now)
  {
    table := rows;
    for i := 0 to |rows|
      invariant |table| == |rows|
      invariant forall j :: 0 <= j < i ==> table[j] == Unexpired(rows[j], now)
      invariant forall j :: i <= j < |rows| ==> table[j] == rows[j]
    {
      if Expired(table[i], now) {
        table := table[i := table[i].(status := Completed)];
      }
    }
  }

  /** Move each claimed row to its next run. */
  method Advance(rows: seq<Row>, claimed: seq<nat>, now: real) returns (table: seq<Row>)
    requires forall i :: 0 <= i < |claimed| ==> claimed[i] < |rows|
    ensures |table| == |rows|
    ensures forall i: nat :: i < |rows| ==>
              table[i] == if i in claimed then Advanced(rows[i], now) else rows[i]
  {
    table := rows;
    for n := 0 to |claimed|
      invariant |table| == |rows|
      invariant forall i: nat :: i < |rows| ==>
                  table[i] == if i in claimed[..n] then Advanced(rows[i], now) else rows[i]
    {
      var k := claimed[n];
      assert claimed[..n + 1] == claimed[..n] + [k];
      table := table[k := table[k].(next := Some(now + table[k].interval as real))];
    }
    assert claimed[..|claimed|] == claimed;
  }

  method OpenRuns(runs: map<Id, Run>, rows: seq<Row>, claimed: seq<nat>, newRun: nat -> Id) returns (log: map<Id, Run>)
    requires forall i :: 0 <= i < |claimed| ==> claimed[i] < |rows|
    ensures log == WithRuns(runs, rows, claimed, newRun)
  {
    log := runs;
    for n := 0 to |claimed|
      invariant log == WithRuns(runs, rows, claimed[..n], newRun)
    {
      log := log[newRun(n) := Run(rows[claimed[n]].id, false, None)];
      assert claimed[..n + 1][..n] == claimed[..n];
    }
    assert claimed[..|claimed|] == claimed;
  }

  lemma {:induction false} DueUnlessExpired(rows: seq<Row>, table: seq<Row>, now: real, n: nat)
    requires |table| == |rows| && n <= |rows|
    requires forall i :: 0 <= i < |rows| ==> table[i] == Unexpired(rows[i], now)
    ensures DueRows(table, now, n) == DueRows(rows, now, n)
  {
    if n > 0 {
      DueUnlessExpired(rows, table, now, n - 1);
    }
  }

  lemma {:induction false} WithRunsById(
    runs: map<Id, Run>, rows: seq<Row>, table: seq<Row>, claimed: seq<nat>, newRun: nat -> Id)
    requires |table| == |rows| && forall i :: 0 <= i < |rows| ==> table[i].id == rows[i].id
    requires forall i :: 0 <= i < |claimed| ==> claimed[i] < |rows|
    ensures WithRuns(runs, table, claimed, newRun) == WithRuns(runs, rows, claimed, newRun)
  {
    if claimed != [] {
      WithRunsById(runs, rows, table, claimed[..|claimed| - 1], newRun);
    }
  }

  /** Exactly the row `id`, if there is one, makes a step. */
  ghost predicate Stepped(c: Config, before: seq<Row>, after: seq<Row>, id: Id, e: Event) {
    && |after| == |before|
    && forall i :: 0 <= i < |after| ==> after[i] == if before[i].id == id then Step(c, before[i], e) else before[i]
  }

  ghost predicate SteppedAll(c: Config, before: seq<Row>, after: seq<Row>, e: Event) {
    |after| == |before| && forall i :: 0 <= i < |after| ==> after[i] == Step(c, before[i], e)
  }

  function Advanced(row: Row, now: real): Row {
    row.(next := Some(now + row.interval as real))
  }

  /** Expiring all rows and advancing the claimed ones sweeps the table. */
  lemma AdvancedIsSwept(rows: seq<Row>, table: seq<Row>, claimed: seq<nat>, now: real)
    requires |table| == |rows|
    requires forall i: nat :: i in claimed <==> i < |rows| && Due(rows[i], now)
    requires forall i: nat :: i < |rows| ==>
               table[i] == if i in claimed then Advanced(Unexpired(rows[i], now), now) else Unexpired(rows[i], now)
    ensures forall i :: 0 <= i < |rows| ==> table[i] == Swept(rows[i], now) && table[i].id == rows[i].id
  {
  }

  lemma ClaimsUnlessExpired(rows: seq<Row>, table: seq<Row>, now: real)
    requires |table| == |rows| && forall i :: 0 <= i < |rows| ==> table[i] == Unexpired(rows[i], now)
    ensures Claims(table, now) == Claims(rows, now)
  {
    DueUnlessExpired(rows, table, now, |rows|);
    SameOrder(rows, table, DueRows(rows, now, |rows|));
  }

  /** Expire, then claim each due row in due order with a new inflight run. */
  method SweepTable(rows: seq<Row>, runs: map<Id, Run>, now: real, newRun: nat -> Id)
    returns (table: seq<Row>, claimed: seq<nat>, log: map<Id, Run>)
    ensures |table| == |rows| && forall i :: 0 <= i < |rows| ==> table[i] == Swept(rows[i], now)
    ensures claimed == Claims(rows, now)
    ensures log == WithRuns(runs, rows, claimed, newRun)
  {
    var expired := ExpireRows(rows, now);
    claimed := Claims(expired, now);
    ClaimsUnlessExpired(rows, expired, now);
    log := OpenRuns(runs, expired, claimed, newRun);
    assert log == WithRuns(runs, rows, claimed, newRun) by { WithRunsById(runs, rows, expired, claimed, newRun); }
    table := Advance(expired, claimed, now);
    assert forall i: nat :: i in claimed <==> i < |rows| && Due(rows[i], now) by { ClaimsExactly(rows, now); }
    AdvancedIsSwept(rows, table, claimed, now);
  }

  class HeartbeatStore {
    const config: Config
    var rows: seq<Row>
    var runs: map<Id, Run>

    ghost predicate Valid()
      reads this
    {
      forall i, j :: 0 <= i < j < |rows| ==> rows[i].id != rows[j].id
    }

    constructor (c: Config)
      ensures Valid() && config == c && rows == [] && runs == map[]
    {
      config, rows, runs := c, [], map[];
    }

    predicate Inflight(id: Id)
      reads this
    {
      exists r :: r in runs && runs[r].heartbeat == id && !runs[r].completed
    }

    function TurnPersisted(row: Row): bool
      reads this
    {
      row.triggerRun.Some? && row.triggerRun.value in runs && runs[row.triggerRun.value].turn.Some?
    }

    /** A new schedule; an existing id is left alone, whether it has the same content or not. */
    method Create(id: Id, v: Schedule) returns (created: bool)
      requires Valid()
      modifies this`rows
      ensures Valid()
      ensures created <==> forall i :: 0 <= i < |old(rows)| ==> old(rows)[i].id != id
      ensures rows == if created then old(rows) + [NewRow(id, v)] else old(rows)
    {
      if Find(rows, id, 0).Some? {
        return false;
      }
      rows := rows + [NewRow(id, v)];
      return true;
    }

    method Update(id: Id, v: Schedule, reactivate: bool) returns (ok: bool)
      requires Valid()
      modifies this`rows
      ensures Valid()
      ensures Stepped(config, old(rows), rows, id, UpdateRow(v, reactivate, Inflight(id)))
      ensures ok <==> Find(old(rows), id, 0).Some? &&
                      CanUpdate(old(rows)[Find(old(rows), id, 0).value], reactivate, Inflight(id))
    {
      var k := Find(rows, id, 0);
      if k.None? || Inflight(id) {
        return false;
      }
      var row := rows[k.value];
      if Terminal(row.status) && !reactivate {
        return false;
      }
      rows := rows[k.value := Updated(row, v, reactivate)];
      return true;
    }

    method SetStatus(id: Id, desired: RowStatus, now: real) returns (ok: bool)
      requires Valid()
      modifies this`rows
      ensures Valid()
      ensures Stepped(config, old(rows), rows, id, SetRow(desired, now))
      ensures ok <==> Find(old(rows), id, 0).Some? && CanSet(old(rows)[Find(old(rows), id, 0).value], desired)
    {
      if !(desired.Active? || desired.Paused? || desired.Cancelled?) {
        return false;
      }
      var k := Find(rows, id, 0);
      if k.None? {
        return false;
      }
      var row := rows[k.value];
      if Terminal(row.status) && row.status != desired {
        return false;
      }
      rows := rows[k.value := WithStatus(row, desired, now)];
      return true;
    }

    method ArmTriggerHandoff(id: Id, run: Id) returns (ok: bool)
      requires Valid()
      modifies this`rows
      ensures Valid()
      ensures Stepped(config, old(rows), rows, id, Arm(run))
      ensures ok <==> Find(old(rows), id, 0).Some? && CanArm(old(rows)[Find(old(rows), id, 0).value])
    {
      var k := Find(rows, id, 0);
      if k.None? || !CanArm(rows[k.value]) {
        return false;
      }
      rows := rows[k.value := Armed(rows[k.value], run)];
      return true;
    }

    method FinishTriggerHandoff(id: Id, run: Id, started: bool) returns (ok: bool)
      requires Valid()
      modifies this`rows
      ensures Valid()
      ensures Stepped(config, old(rows), rows, id, Finish(run, started))
      ensures ok <==> Find(old(rows), id, 0).Some? && CanFinish(old(rows)[Find(old(rows), id, 0).value], run)
    {
      var k := Find(rows, id, 0);
      if k.None? || !CanFinish(rows[k.value], run) {
        return false;
      }
      rows := rows[k.value := FinishedHandoff(rows[k.value], started)];
      return true;
    }

    method CompleteDelivery(id: Id, message: Id) returns (ok: bool)
      requires Valid()
      modifies this`rows
      ensures Valid()
      ensures Stepped(config, old(rows), rows, id, Deliver(message))
      ensures ok <==> Find(old(rows), id, 0).Some? && CanDeliver(old(rows)[Find(old(rows), id, 0).value])
    {
      var k := Find(rows, id, 0);
      if k.None? || !CanDeliver(rows[k.value]) {
        return false;
      }
      rows := rows[k.value := Delivered(rows[k.value], message)];
      return true;
    }

    /** The turn of an inflight run is persisted; a run that is missing, foreign or completed raises. */
    method RecordInflightTurn(id: Id, run: Id, turn: Id) returns (ok: bool)
      modifies this`runs
      ensures ok <==> run in old(runs) && old(runs)[run].heartbeat == id && !old(runs)[run].completed
      ensures runs == if ok then old(runs)[run := old(runs)[run].(turn := Some(turn))] else old(runs)
    {
      if run !in runs || runs[run].heartbeat != id || runs[run].completed {
        return false;
      }
      runs := runs[run := runs[run].(turn := Some(turn))];
      return true;
    }

    /** Recovery after a restart, row by row; the trigger runs of recovered rows are completed. */
    method RecoverNativeProbeHandoffs(retryAt: real)
      requires Valid()
      modifies this
      ensures Valid() && |rows| == |old(rows)|
      ensures forall i :: 0 <= i < |rows| ==>
                rows[i] == if CanRecover(old(rows)[i])
                           then Recovered(old(rows)[i], old(TurnPersisted(rows[i])), retryAt) else old(rows)[i]
      ensures forall i :: 0 <= i < |rows| ==>
                rows[i] == Step(config, old(rows)[i], Recover(old(TurnPersisted(rows[i])), retryAt))
      ensures runs.Keys == old(runs).Keys
      ensures forall r :: r in runs ==>
                runs[r] == if exists i ::
                               0 <= i < |old(rows)| && CanRecover(old(rows)[i]) && old(rows)[i].triggerRun == Some(r)
                           then old(runs)[r].(completed := true) else old(runs)[r]
    {
      for i := 0 to |rows|
        invariant |rows| == |old(rows)| && runs.Keys == old(runs).Keys
        invariant forall j :: 0 <= j < i ==>
                    rows[j] == if CanRecover(old(rows)[j])
                               then Recovered(old(rows)[j], old(TurnPersisted(rows[j])), retryAt) else old(rows)[j]
        invariant forall j :: i <= j < |rows| ==> rows[j] == old(rows)[j]
        invariant forall r :: r in runs ==>
                    runs[r] == if exists j ::
                                   0 <= j < i && CanRecover(old(rows)[j]) && old(rows)[j].triggerRun == Some(r)
                               then old(runs)[r].(completed := true) else old(runs)[r]
      {
        var row := rows[i];
        if CanRecover(row) {
          rows := rows[i := Recovered(row, TurnPersisted(row), retryAt)];
          if row.triggerRun.Some? && row.triggerRun.value in runs {
            var r := row.triggerRun.value;
            runs := runs[r := runs[r].(completed := true)];
          }
        }
      }
    }

    /**
     Expire, then claim each due row with a new inflight run; `claimed` lists the rows, `newRun(n)` is the
     n-th run.
     */
    method ClaimDue(now: real, newRun: nat -> Id) returns (claimed: seq<nat>)
      requires Valid()
      modifies this
      ensures Valid() && SteppedAll(config, old(rows), rows, Sweep(now))
      ensures claimed == Claims(old(rows), now)
      ensures runs == WithRuns(old(runs), old(rows), claimed, newRun)
    {
      ghost var before := rows;
      rows, claimed, runs := SweepTable(rows, runs, now, newRun);
      assert forall i :: 0 <= i < |rows| ==> rows[i].id == before[i].id;
    }

    /** Record a run; a row that is no longer active keeps its state, and the run is only audited. */
    method RecordRun(id: Id, run: Id, turn: Option<Id>, r: Result, now: real) returns (ok: bool)
      requires Valid()
      modifies this
      ensures Valid()
      ensures ok <==> Find(old(rows), id, 0).Some? && (run in old(runs) ==> old(runs)[run].heartbeat == id)
      ensures !ok ==> rows == old(rows) && runs == old(runs)
      ensures ok ==> Stepped(config, old(rows), rows, id, Record(r, now))
      ensures ok ==> runs == old(runs)[run :=
                if run !in old(runs) then Run(id, true, turn)
                else if old(runs)[run].completed then old(runs)[run]
                else Run(id, true, if turn.Some? then turn else old(runs)[run].turn)]
    {
      var k := Find(rows, id, 0);
      if k.None? || (run in runs && runs[run].heartbeat != id) {
        return false;
      }
      if run !in runs {
        runs := runs[run := Run(id, true, turn)];
      } else if !runs[run].completed {
        runs := runs[run := Run(id, true, if turn.Some? then turn else runs[run].turn)];
      } else {
        assert runs == runs[run := runs[run]];
      }
      rows := rows[k.value := RecordedRow(config, rows[k.value], r, now)];
      return true;
    }
  }

  // The life of one row: any operations in any order, with restarts in between

  datatype Event =
    | UpdateRow(v: Schedule, reactivate: bool, inflight: bool)
    | SetRow(desired: RowStatus, now: real)
    | Arm(run: Id)
    | Finish(run: Id, started: bool)
    | Deliver(message: Id)
    | Recover(turn: bool, retryAt: real)
    | Sweep(now: real)
    | Record(r: Result, now: real)

  /** An operation whose condition fails leaves the row alone. */
  function Step(c: Config, row: Row, e: Event): Row {
    match e
    case UpdateRow(v, reactivate, inflight) =>
      if CanUpdate(row, reactivate, inflight) then Updated(row, v, reactivate) else row
    case SetRow(desired, now) => if CanSet(row, desired) then WithStatus(row, desired, now) else row
    case Arm(run) => if CanArm(row) then Armed(row, run) else row
    case Finish(run, started) => if CanFinish(row, run) then FinishedHandoff(row, started) else row
    case Deliver(message) => if CanDeliver(row) then Delivered(row, message) else row
    case Recover(turn, retryAt) => if CanRecover(row) then Recovered(row, turn, retryAt) else row
    case Sweep(now) => Swept(row, now)
    case Record(r, now) => RecordedRow(c, row, r, now)
  }

  function After(c: Config, row: Row, events: seq<Event>): Row {
    if events == [] then row else Step(c, After(c, row, events[..|events| - 1]), events[|events| - 1])
  }

  /** A step leaves a terminal status exactly when it is an update with `reactivate`, and none is inflight. */
  lemma LeavesTerminalExactly(c: Config, row: Row, e: Event)
    requires Terminal(row.status)
    ensures Step(c, row, e).status != row.status <==> e.UpdateRow? && e.reactivate && !e.inflight
  {
  }

  /**
   How a recorded run leaves an active row, whether or not a receipt is required. A failing run fails the
   row even where it asks for completion or ought to pause it.
   */
  lemma RecordEndsExactly(c: Config, row: Row, r: Result, now: real)
    requires row.status.Active?
    ensures var d := RecordedRow(c, row, r, now);
      && (d.status.Failed? <==> d.failures >= c.maxFailures && !Exhausts(c, row, r))
      && (d.status.Completed? <==> Exhausts(c, row, r) || (EndsWork(c, r) && d.failures < c.maxFailures))
      && (d.status.Paused? <==> Pauses(c, row, r) && d.failures < c.maxFailures)
      && (d.status.Active? ==> d.failures < c.maxFailures && (r.maxRuns.Some? ==> d.runCount < r.maxRuns.value))
      && (d.failures > row.failures <==> !Succeeds(c, r) && !Defers(c, r))
      && (d.runCount > row.runCount <==> Succeeds(c, r))
  {
  }

  /** A run that ends the work leaves its row failed exactly when the failures are used up with it. */
  lemma EndOfWorkFailsExactly(c: Config, row: Row, r: Result, now: real)
    requires row.status.Active? && EndsWork(c, r)
    ensures var d := RecordedRow(c, row, r, now);
      && (d.status.Completed? || d.status.Failed?)
      && (d.status.Failed? <==>
            if r.outcome.Busy? && KeepsOutcome(c, r) then row.failures >= c.maxFailures
            else if Succeeds(c, r) then c.maxFailures == 0
            else row.failures + 1 >= c.maxFailures)
  {
  }

  /** A terminal receipt never counts as a success, so it fails its row exactly on the last permitted failure. */
  lemma TerminalReceiptFailsExactly(c: Config, row: Row, r: Result, now: real)
    requires row.status.Active? && Checks(c, r) && HasKind(r, EndOfWork) && !r.outcome.Busy?
    ensures RecordedRow(c, row, r, now).status.Failed? <==> row.failures + 1 >= c.maxFailures
    ensures RecordedRow(c, row, r, now).status.Completed? <==> row.failures + 1 < c.maxFailures
  {
    EndOfWorkFailsExactly(c, row, r, now);
  }

  /** A turn that completes with a terminal receipt fails its heartbeat where one failure is permitted. */
  lemma TerminalReceiptFails()
    ensures exists c: Config, row: Row, r: Result, now: real ::
              && row.status.Active? && row.failures == 0 && r.outcome.Good? && HasKind(r, EndOfWork)
              && RecordedRow(c, row, r, now).status.Failed?
  {
    var c := Config(true, 3, 1, 60);
    var row := NewRow(1, Schedule(false, 60, 9, 900.0, 60.0));
    var r := Result(Good, false, Some(Receipt(EndOfWork, None)), None, false, true, None, Some(9), 60);
    assert RecordedRow(c, row, r, 60.0).status.Failed?;
  }

  /** Runs of a queue probe that keep finding the same quiet queue. */
  predicate SameQuiet(e: Event, queue: Id) {
    e.Record? && e.r.queue == Some(queue) && e.r.quiet
  }

  /** How often the abnormal persistence of a queue is reported. */
  function AlertCount(c: Config, row: Row, events: seq<Event>): nat {
    if events == [] then 0
    else
      var front, e := events[..|events| - 1], events[|events| - 1];
      AlertCount(c, row, front) + (if e.Record? && Alerts(After(c, row, front), e.r) then 1 else 0)
  }

  /** However long a queue stays quiet and unchanged, its persistence is reported at most once. */
  lemma {:induction false} AlertsOnce(c: Config, row: Row, events: seq<Event>, queue: Id)
    requires forall i :: 0 <= i < |events| ==> SameQuiet(events[i], queue)
    ensures AlertCount(c, row, events) <= 1
    ensures AlertCount(c, row, events) == 1 || (row.quiet == Some(queue) && row.alerted == Some(queue)) ==>
              var end := After(c, row, events);
              end.quiet == Some(queue) && end.alerted == Some(queue)
  {
    if events != [] {
      assert SameQuiet(events[|events| - 1], queue);
      AlertsOnce(c, row, events[..|events| - 1], queue);
    }
  }

  predicate Reactivates(e: Event) {
    e.UpdateRow? && e.reactivate
  }

  /** No other operation moves a row out of its terminal status, even when earlier runs finish later. */
  lemma {:induction false} TerminalStays(c: Config, row: Row, events: seq<Event>)
    requires Terminal(row.status)
    requires forall i :: 0 <= i < |events| ==> !Reactivates(events[i])
    ensures After(c, row, events).status == row.status
  {
    if events != [] {
      TerminalStays(c, row, events[..|events| - 1]);
      LeavesTerminalExactly(c, After(c, row, events[..|events| - 1]), events[|events| - 1]);
    }
  }

  predicate Enters(c: Config, row: Row, e: Event) {
    !row.trigger.PendingDelivery? && Step(c, row, e).trigger.PendingDelivery?
  }

  /** How often the pending-delivery state is entered. */
  function Entries(c: Config, row: Row, events: seq<Event>): nat {
    if events == [] then 0
    else
      var front := events[..|events| - 1];
      Entries(c, row, front) + (if Enters(c, After(c, row, front), events[|events| - 1]) then 1 else 0)
  }

  /** How often a handoff is armed. */
  function Arms(c: Config, row: Row, events: seq<Event>): nat {
    if events == [] then 0
    else
      var front, e := events[..|events| - 1], events[|events| - 1];
      Arms(c, row, front) + (if e.Arm? && CanArm(After(c, row, front)) then 1 else 0)
  }

  /** Exactly the finish of the armed run and the recovery of a persisted turn enter pending delivery. */
  lemma EntersExactly(c: Config, row: Row, e: Event)
    ensures Enters(c, row, e) <==>
              && row.trigger.HandoffInflight?
              && ((e.Finish? && e.started && row.triggerRun == Some(e.run))
                  || (e.Recover? && e.turn && row.status.Active? && row.probe))
  {
  }

  predicate Handed(row: Row) {
    row.trigger.PendingDelivery? || row.trigger.DeliveredCancelled?
  }

  /** Between updates a handoff that reached delivery is never armed or entered again. */
  lemma {:induction false} HandedStays(c: Config, row: Row, events: seq<Event>)
    requires Handed(row)
    requires forall i :: 0 <= i < |events| ==> !events[i].UpdateRow?
    ensures Handed(After(c, row, events)) && Entries(c, row, events) == 0 && Arms(c, row, events) == 0
  {
    if events != [] {
      HandedStays(c, row, events[..|events| - 1]);
      EntersExactly(c, After(c, row, events[..|events| - 1]), events[|events| - 1]);
    }
  }

  /** Between updates, restarts and recoveries included, pending delivery is entered at most once. */
  lemma {:induction false} OneHandoff(c: Config, row: Row, events: seq<Event>)
    requires forall i :: 0 <= i < |events| ==> !events[i].UpdateRow?
    ensures Entries(c, row, events) <= 1
    ensures Handed(row) ==> Handed(After(c, row, events)) && Entries(c, row, events) == 0
    ensures Entries(c, row, events) == 1 ==> Handed(After(c, row, events))
  {
    if events != [] {
      var front, e := events[..|events| - 1], events[|events| - 1];
      OneHandoff(c, row, front);
      EntersExactly(c, After(c, row, front), e);
    }
  }

  /** An armed handoff has a run, and no row keeps a delivery message without having been cancelled by it. */
  predicate Consistent(row: Row) {
    && (row.trigger.HandoffInflight? || row.trigger.PendingDelivery? ==> row.triggerRun.Some?)
    && (row.trigger.Monitoring? ==> row.triggerRun.None?)
    && (row.trigger.DeliveredCancelled? <==> row.message.Some?)
    && (row.trigger.DeliveredCancelled? ==> row.status.Cancelled?)
  }

  lemma RecordKeepsConsistent(c: Config, row: Row, r: Result, now: real)
    requires Consistent(row)
    ensures Consistent(RecordedRow(c, row, r, now))
  {
  }

  lemma StepKeepsConsistent(c: Config, row: Row, e: Event)
    requires Consistent(row)
    ensures Consistent(Step(c, row, e))
  {
    if e.Record? {
      RecordKeepsConsistent(c, row, e.r, e.now);
    }
  }

  /** Over any operations a row stays consistent: a delivered notification means a cancelled row. */
  lemma {:induction false} ConsistentStays(c: Config, row: Row, events: seq<Event>)
    requires Consistent(row)
    ensures Consistent(After(c, row, events))
  {
    if events != [] {
      ConsistentStays(c, row, events[..|events| - 1]);
      StepKeepsConsistent(c, After(c, row, events[..|events| - 1]), events[|events| - 1]);
    }
  }
}
