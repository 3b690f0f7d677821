/**
 Rotation of a slot from thread to thread.

 With a per-thread quota a slot's rounds are shared out over successive threads. Each
 thread gets a budget, and a terminal report is checked against the rounds it must
 have completed before the next thread is acquired.
 */
module LoopRotation {
  import opened Basics
  import opened Statuses
  import opened Lanes
  import opened LoopState
  import opened LoopStore

  predicate WellFormed(s: Loop, c: Child) {
    && s.maxRounds >= 1 && s.maxTurns >= 1
    && (s.quota.Some? ==> s.quota.value >= 1) && (c.lane.Some? ==> Valid(c.lane.value))
  }

  /** `_round_limit` */
  function RoundLimit(c: Child, maxRounds: nat): nat
    requires c.lane.Some? ==> Valid(c.lane.value)
  {
    if c.lane.Some? then Rounds(c.lane.value) else maxRounds
  }

  /** The turn budget that `_acquire` grants to the next thread of a slot. */
  function Budget(s: Loop, c: Child): int
    requires WellFormed(s, c)
  {
    var left := RoundLimit(c, s.maxRounds) - c.completedRounds;
    var base := if c.ownsContinuation then left else s.maxTurns;
    if s.quota.Some? then Min(Min(base, s.quota.value), left) else base
  }

  /** `_acquire`, given the receipt of the Hold request. */
  function Acquired(s: Loop, c: Child, grant: Receipt): Child
    requires WellFormed(s, c)
  {
    c.(budget := Budget(s, c), receipt := Some(grant), hold := grant.hold,
       phase := if grant.status.Live? && grant.hold.Some? then Acquiring else Stuck)
  }

  /** `_completed_turns` */
  function CompletedTurns(s: Loop, c: Child, r: Receipt): nat {
    if s.quota.Some? then c.completedRounds + r.turns else r.totalTurns
  }

  predicate Settled(c: Child) {
    c.phase.Finished? || c.phase.Stuck?
  }

  /** The check of the last batch: `rounds` is what it must be bound to, by default the whole lane. */
  function CheckTerminal(c: Child, verified: Verification, total: nat, rounds: Option<nat>): Result<Child, LaneError>
    requires c.lane.Some? && Valid(c.lane.value)
  {
    var k := if rounds.Some? && rounds.value != 0 then rounds.value else Rounds(c.lane.value);
    var expected := LaneBatchIds(c.lane.value, k);
    if expected.Err? then Err(expected.error)
    else if verified.accepted && verified.ids == expected.value && total == k then Ok(c)
    else Ok(c.(phase := Stuck))
  }

  datatype Verdict = Skip | Wait(child: Child) | Settle(child: Child) | Rotate(child: Child) | Raise(child: Child)

  /** What `_reconcile_holder_terminals` makes of one child and its Monitor receipt. */
  function Judge(s: Loop, c: Child, r: Receipt): Verdict
    requires WellFormed(s, c)
  {
    if !c.ownsContinuation || Settled(c) || c.hold.None? then Skip
    else if !r.status.Done? || r.lifecycle.None? || !IsTerminal(r.lifecycle.value) then Skip
    else
      var turns := CompletedTurns(s, c, r);
      var ended := r.lifecycle.value.Completed? || r.lifecycle.value.TurnLimitReached?;
      var seen := c.(receipt := Some(r), round := Max(c.round, turns), phase := if ended then Finished else Stuck);
      if s.quota.Some? && ended then
        if !r.released || !r.confirmed then Wait(seen.(phase := Terminal))
        else
          var checked :=
            if turns != c.completedRounds + c.budget then Ok(seen.(phase := Stuck))
            else if c.lane.Some? then CheckTerminal(seen, r.verification, seen.round, Some(seen.round))
            else Ok(seen);
          if checked.Err? then Raise(seen)
          else if checked.value.phase.Finished? && seen.round < RoundLimit(c, s.maxRounds) then
            Rotate(checked.value.(completedRounds := seen.round))
          else Settle(checked.value)
      else if c.lane.Some? then
        var checked := CheckTerminal(seen, r.verification, r.totalTurns, None);
        if checked.Err? then Raise(seen) else Settle(checked.value)
      else Settle(seen)
  }

  /** What `_observe` makes of one child. */
  function Observed(s: Loop, c: Child, r: Receipt): Child {
    if Settled(c) || c.hold.None? then c
    else if !r.status.Done? || r.lifecycle.None? then c.(receipt := Some(r))
    else if r.lifecycle.value.Active? then
      c.(receipt := Some(r), phase := Running, round := if c.round == 0 then 1 else c.round)
    else if IsTerminal(r.lifecycle.value) then
      c.(receipt := Some(r), phase := Terminal,
         round := if c.ownsContinuation then Max(c.round, CompletedTurns(s, c, r)) else c.round)
    else c.(receipt := Some(r))
  }

  // The sweep over all children, with other writers between its locked sections

  /** Answers from outside: receipts, new Holds, and what others wrote before each locked section. */
  datatype World = World(monitor: nat -> Receipt, grant: nat -> Receipt, others: nat -> seq<Op>)

  datatype Sweep = Sweep(s: Loop, disk: Loop, changed: bool, adopted: bool, raised: bool, acquired: nat)

  predicate AllWellFormed(s: Loop) {
    forall i :: 0 <= i < |s.children| ==> WellFormed(s, s.children[i])
  }

  function WithChild(s: Loop, i: nat, c: Child): Loop
    requires i < |s.children|
  {
    s.(children := s.children[i := c])
  }

  function DiskAt(disk: Loop, w: World, i: nat): (latest: Loop)
    ensures Latched(disk, latest)
  {
    MergeLatches(disk, w.others(i));
    After(Some(disk), w.others(i)).value
  }

  /** One child of the sweep. */
  function SweepChild(t: Sweep, w: World, i: nat): Sweep
    requires i < |t.s.children| && WellFormed(t.s, t.s.children[i])
  {
    match Judge(t.s, t.s.children[i], w.monitor(i))
    case Skip => t
    case Wait(c) => t.(s := WithChild(t.s, i, c))
    case Settle(c) => t.(s := WithChild(t.s, i, c), changed := true)
    case Raise(c) => t.(s := WithChild(t.s, i, c), raised := true)
    case Rotate(c) =>
      var latest := DiskAt(t.disk, w, i);
      if Closing(latest) then t.(s := latest, disk := latest, adopted := true)
      else
        var next := WithChild(t.s, i, Acquired(t.s, c, w.grant(i)));
        t.(s := next, disk := next, changed := true, acquired := t.acquired + 1)
  }

  lemma SweepChildKeeps(t: Sweep, w: World, i: nat)
    requires i < |t.s.children| && AllWellFormed(t.s) && !t.adopted
    ensures !SweepChild(t, w, i).adopted ==>
              AllWellFormed(SweepChild(t, w, i).s) && |SweepChild(t, w, i).s.children| == |t.s.children|
  {
    var v := Judge(t.s, t.s.children[i], w.monitor(i));
    if !v.Skip? {
      JudgeKeepsLane(t.s, t.s.children[i], w.monitor(i));
      var next := SweepChild(t, w, i);
      if !next.adopted {
        assert next.s == WithChild(t.s, i, next.s.children[i]) && next.s.children[i].lane == t.s.children[i].lane;
      }
    }
  }

  lemma JudgeKeepsLane(s: Loop, c: Child, r: Receipt)
    requires WellFormed(s, c) && !Judge(s, c, r).Skip?
    ensures Judge(s, c, r).child.lane == c.lane
  {
  }

  function SweepFrom(t: Sweep, w: World, i: nat): Sweep
    requires AllWellFormed(t.s)
    decreases |t.s.children| - i
  {
    if i >= |t.s.children| || t.adopted || t.raised then t
    else
      var next := SweepChild(t, w, i);
      if next.adopted || next.raised then next
      else
        SweepChildKeeps(t, w, i);
        SweepFrom(next, w, i + 1)
  }

  /** The locked section of the sweep, after whatever others wrote in the meantime. */
  method RotateChild(store: Store, loop: Id, copy: Copy, t: Sweep, w: World, i: nat, c: Child) returns (next: Sweep)
    requires loop in store.files && copy.s == t.s && store.files[loop] == t.disk
    requires i < |t.s.children| && WellFormed(t.s, c)
    modifies store, copy
    ensures var latest := DiskAt(t.disk, w, i);
      var rotated := WithChild(t.s, i, Acquired(t.s, c, w.grant(i)));
      next == if Closing(latest) then t.(s := latest, disk := latest, adopted := true)
              else t.(s := rotated, disk := rotated, changed := true, acquired := t.acquired + 1)
    ensures copy.s == next.s && store.files == old(store.files)[loop := next.disk]
  {
    store.files := store.files[loop := DiskAt(t.disk, w, i)];
    var acquired := store.CommitDispatch(loop, copy, WithChild(t.s, i, Acquired(t.s, c, w.grant(i))));
    next := t.(s := copy.s, disk := copy.s);
    if acquired {
      return next.(changed := true, acquired := t.acquired + 1);
    }
    return next.(adopted := true);
  }

  /** The loop of `_reconcile_holder_terminals`. */
  method SweepTerminals(store: Store, loop: Id, copy: Copy, w: World) returns (t: Sweep)
    requires loop in store.files && AllWellFormed(copy.s)
    modifies store, copy
    ensures t == SweepFrom(Sweep(old(copy.s), old(store.files)[loop], false, false, false, 0), w, 0)
    ensures copy.s == t.s && store.files == old(store.files)[loop := t.disk]
  {
    t := Sweep(copy.s, store.files[loop], false, false, false, 0);
    ghost var start := t;
    assert store.files == old(store.files)[loop := t.disk];
    var i := 0;
    while i < |copy.s.children|
      invariant copy.s == t.s && loop in store.files && store.files == old(store.files)[loop := t.disk]
      invariant AllWellFormed(t.s) && !t.adopted && !t.raised
      invariant SweepFrom(start, w, 0) == SweepFrom(t, w, i)
      decreases |copy.s.children| - i
    {
      var verdict := Judge(copy.s, copy.s.children[i], w.monitor(i));
      ghost var next := SweepChild(t, w, i);
      SweepChildKeeps(t, w, i);
      if verdict.Wait? || verdict.Settle? || verdict.Raise? {
        copy.s := WithChild(copy.s, i, verdict.child);
        t := t.(s := copy.s, changed := t.changed || verdict.Settle?, raised := verdict.Raise?);
        assert t == next;
        if verdict.Raise? {
          return;
        }
      } else if verdict.Rotate? {
        t := RotateChild(store, loop, copy, t, w, i, verdict.child);
        assert t == next;
        if t.adopted {
          return;
        }
      }
      i := i + 1;
    }
  }

  lemma ClosedChildAcquiresNothing(t: Sweep, w: World, i: nat)
    requires i < |t.s.children| && AllWellFormed(t.s) && Closing(t.disk) && !t.adopted && !t.raised
    ensures var next := SweepChild(t, w, i);
      && next.acquired == t.acquired && Closing(next.disk)
      && (!next.adopted ==> AllWellFormed(next.s) && |next.s.children| == |t.s.children|)
  {
    SweepChildKeeps(t, w, i);
  }

  /** Whatever others write meanwhile, a sweep over a record with a stored close or cleanup acquires nothing. */
  lemma {:induction false} ClosedSweepAcquiresNothing(t: Sweep, w: World, i: nat)
    requires AllWellFormed(t.s) && Closing(t.disk)
    ensures SweepFrom(t, w, i).acquired == t.acquired
    decreases |t.s.children| - i
  {
    if i < |t.s.children| && !t.adopted && !t.raised {
      var next := SweepChild(t, w, i);
      ClosedChildAcquiresNothing(t, w, i);
      if !next.adopted && !next.raised {
        ClosedSweepAcquiresNothing(next, w, i + 1);
      }
    }
  }

  // Arithmetic of one slot

  /** A slot with a quota between two threads: the running budget fits into what is left. */
  predicate SlotInv(s: Loop, c: Child) {
    && WellFormed(s, c) && s.quota.Some? && c.ownsContinuation
    && 1 <= c.budget && c.budget == Min(s.quota.value, RoundLimit(c, s.maxRounds) - c.completedRounds)
  }

  /** For every receipt, truthful or not, a rotation adds at least the budget and leaves a round to go. */
  lemma RotationAdvances(s: Loop, c: Child, r: Receipt)
    requires SlotInv(s, c) && Judge(s, c, r).Rotate?
    ensures var d := Judge(s, c, r).child;
      && c.completedRounds < c.completedRounds + c.budget <= d.completedRounds < RoundLimit(d, s.maxRounds)
      && forall g :: SlotInv(s, Acquired(s, d, g))
  {
  }

  /** The first thread of a slot. */
  lemma FirstBudget(s: Loop, c: Child, g: Receipt)
    requires WellFormed(s, c) && s.quota.Some? && c.ownsContinuation && c.completedRounds == 0
    ensures SlotInv(s, Acquired(s, c, g))
  {
  }

  /** A holder that ended its whole budget on its last batch, released and verified. */
  predicate EndsAtBudget(c: Child, r: Receipt)
    requires c.lane.Some? ==> Valid(c.lane.value)
  {
    && r.status.Done? && r.lifecycle.Some? && (r.lifecycle.value.Completed? || r.lifecycle.value.TurnLimitReached?)
    && r.released && r.confirmed && r.turns == c.budget
    && (c.lane.Some? ==>
          && r.verification.accepted
          && LaneBatchIds(c.lane.value, c.completedRounds + c.budget) == Ok(r.verification.ids))
  }

  /** The rounds seen so far are no more than the running thread may reach. */
  predicate RoundInReach(c: Child) {
    c.round <= c.completedRounds + c.budget
  }

  /**
   A slot is handed over, by exactly its budget, exactly when its Hold ended at its budget with rounds to
   go; and it is finished exactly when the Hold ended at its budget with none to go.
   */
  lemma HandsOverExactly(s: Loop, c: Child, r: Receipt)
    requires SlotInv(s, c) && RoundInReach(c) && !Settled(c) && c.hold.Some?
    ensures var v, left := Judge(s, c, r), RoundLimit(c, s.maxRounds) - c.completedRounds - c.budget;
      && left >= 0
      && (v.Rotate? <==> EndsAtBudget(c, r) && left > 0)
      && (v.Rotate? ==> v.child.completedRounds == c.completedRounds + c.budget)
      && (v.Settle? && v.child.phase.Finished? <==> EndsAtBudget(c, r) && left == 0)
  {
  }

  /** Observation keeps the rounds in reach as long as the holder keeps to its budget. */
  lemma ObservationInReach(s: Loop, c: Child, r: Receipt)
    requires SlotInv(s, c) && RoundInReach(c) && r.turns <= c.budget
    ensures RoundInReach(Observed(s, c, r)) && SlotInv(s, Observed(s, c, r)) && SameThread(c, Observed(s, c, r))
  {
  }

  /** One hand-over: any observations, then a rotation and an acquisition. */
  ghost predicate HandOver(s: Loop, c: Child, d: Child) {
    exists seen: Child, r: Receipt, g: Receipt ::
      && SameThread(c, seen) && RoundInReach(seen) && WellFormed(s, seen)
      && Judge(s, seen, r).Rotate? && d == Acquired(s, Judge(s, seen, r).child, g)
  }

  /** Observation changes neither the slot nor the thread. */
  predicate SameThread(c: Child, seen: Child) {
    && seen.lane == c.lane && seen.ownsContinuation == c.ownsContinuation
    && seen.completedRounds == c.completedRounds && seen.budget == c.budget
  }

  /** The rotation that a sweep commits is such a hand-over. */
  lemma SweepHandsOver(t: Sweep, w: World, i: nat, c: Child)
    requires i < |t.s.children| && AllWellFormed(t.s)
    requires SameThread(c, t.s.children[i]) && RoundInReach(t.s.children[i])
    requires Judge(t.s, t.s.children[i], w.monitor(i)).Rotate? && !Closing(DiskAt(t.disk, w, i))
    ensures HandOver(t.s, c, SweepChild(t, w, i).s.children[i])
  {
    var seen := t.s.children[i];
    assert SweepChild(t, w, i).s.children[i] == Acquired(t.s, Judge(t.s, seen, w.monitor(i)).child, w.grant(i));
  }

  /** The thread that a slot with a quota acquires first. */
  ghost predicate FirstThread(s: Loop, c: Child) {
    exists slot: Child, g: Receipt ::
      && WellFormed(s, slot) && s.quota.Some? && slot.ownsContinuation && slot.completedRounds == 0
      && c == Acquired(s, slot, g)
  }

  /** The successive threads of one slot. */
  ghost predicate SlotRun(s: Loop, cs: seq<Child>) {
    && |cs| > 0
    && FirstThread(s, cs[0])
    && forall i: nat :: i + 1 < |cs| ==> HandOver(s, cs[i], cs[i + 1])
  }

  function Budgets(cs: seq<Child>): int {
    if cs == [] then 0 else Budgets(cs[..|cs| - 1]) + cs[|cs| - 1].budget
  }

  lemma HandOverExact(s: Loop, c: Child, d: Child)
    requires SlotInv(s, c) && HandOver(s, c, d)
    ensures SlotInv(s, d) && d.lane == c.lane && d.completedRounds == c.completedRounds + c.budget
    ensures c.budget == s.quota.value
  {
  }

  lemma RunPrefix(s: Loop, cs: seq<Child>, n: nat)
    requires SlotRun(s, cs) && 0 < n <= |cs|
    ensures SlotRun(s, cs[..n])
  {
  }

  lemma FirstThreadFits(s: Loop, c: Child)
    requires FirstThread(s, c)
    ensures SlotInv(s, c) && c.completedRounds == 0
  {
    var slot, g :| WellFormed(s, slot) && s.quota.Some? && slot.ownsContinuation && slot.completedRounds == 0
      && c == Acquired(s, slot, g);
    FirstBudget(s, slot, g);
  }

  lemma {:induction false} RunThread(s: Loop, cs: seq<Child>, i: nat)
    requires SlotRun(s, cs) && i < |cs|
    ensures SlotInv(s, cs[i]) && cs[i].lane == cs[0].lane
    ensures i + 1 < |cs| ==> cs[i].budget == s.quota.value
    ensures i + 1 < |cs| ==> cs[i + 1].completedRounds == cs[i].completedRounds + cs[i].budget
  {
    if i == 0 {
      FirstThreadFits(s, cs[0]);
    } else {
      RunThread(s, cs, i - 1);
      assert HandOver(s, cs[i - 1], cs[i - 1 + 1]);
      HandOverExact(s, cs[i - 1], cs[i]);
    }
    if i + 1 < |cs| {
      assert HandOver(s, cs[i], cs[i + 1]);
      HandOverExact(s, cs[i], cs[i + 1]);
    }
  }

  /** Each thread starts where the budgets before it end. */
  lemma {:induction false} BudgetsAddUp(s: Loop, cs: seq<Child>)
    requires SlotRun(s, cs)
    ensures Budgets(cs) == cs[|cs| - 1].completedRounds + cs[|cs| - 1].budget
  {
    var n := |cs| - 1;
    if n > 0 {
      RunPrefix(s, cs, n);
      BudgetsAddUp(s, cs[..n]);
      RunThread(s, cs, n - 1);
    } else {
      assert cs[..0] == [];
    }
  }

  lemma {:induction false} EqualBudgets(cs: seq<Child>, q: nat)
    requires forall i :: 0 <= i < |cs| ==> cs[i].budget == q
    ensures Budgets(cs) == |cs| * q
  {
    if cs != [] {
      EqualBudgets(cs[..|cs| - 1], q);
    }
  }

  lemma QuotaThreads(limit: nat, q: nat, n: nat, rest: nat)
    requires q > 0 && n > 0 && 1 <= rest <= q && limit == (n - 1) * q + rest
    ensures n == (limit + q - 1) / q
  {
    assert (n - 1) * q + q == n * q;
    UniqueQuotient(limit + q - 1, q, n, rest - 1);
  }

  /** A thread is found finished only when its budget reaches the limit. */
  lemma FinishedAtLimit(s: Loop, c: Child, seen: Child, r: Receipt)
    requires SlotInv(s, c) && SameThread(c, seen) && RoundInReach(seen) && WellFormed(s, seen)
    requires Judge(s, seen, r).Settle? && Judge(s, seen, r).child.phase.Finished?
    ensures c.completedRounds + c.budget == RoundLimit(c, s.maxRounds)
  {
  }

  lemma FullThreads(s: Loop, cs: seq<Child>)
    requires SlotRun(s, cs)
    ensures s.quota.Some? && forall i :: 0 <= i < |cs| - 1 ==> cs[i].budget == s.quota.value
  {
    forall i | 0 <= i < |cs| - 1
      ensures cs[i].budget == s.quota.value
    {
      RunThread(s, cs, i);
    }
  }

  /** The sum of budgets by quota, apart from what the lane makes of it. */
  lemma FullThreadsSum(cs: seq<Child>, q: nat)
    requires cs != [] && forall i :: 0 <= i < |cs| - 1 ==> cs[i].budget == q
    ensures Budgets(cs) == (|cs| - 1) * q + cs[|cs| - 1].budget
  {
  }

  lemma LastBudget(s: Loop, cs: seq<Child>)
    requires SlotRun(s, cs)
    ensures s.quota.Some? && 1 <= cs[|cs| - 1].budget <= s.quota.value
  {
    RunThread(s, cs, |cs| - 1);
  }

  /** The budgets of a finished slot reach its limit. */
  lemma FinishedSum(s: Loop, cs: seq<Child>, seen: Child, r: Receipt)
    requires SlotRun(s, cs)
    requires SameThread(cs[|cs| - 1], seen) && RoundInReach(seen) && WellFormed(s, seen)
    requires Judge(s, seen, r).Settle? && Judge(s, seen, r).child.phase.Finished?
    ensures Budgets(cs) == RoundLimit(cs[0], s.maxRounds)
  {
    var n := |cs| - 1;
    RunThread(s, cs, n);
    BudgetsAddUp(s, cs);
    FinishedAtLimit(s, cs[n], seen, r);
  }

  /**
   A slot completes after exactly the number of threads that its limit needs at this quota, all but
   the last of which use the full quota, and the budgets of these threads sum to the limit.
   */
  lemma CompletesAfterExactThreads(s: Loop, cs: seq<Child>, seen: Child, r: Receipt)
    requires SlotRun(s, cs)
    requires SameThread(cs[|cs| - 1], seen) && RoundInReach(seen) && WellFormed(s, seen)
    requires Judge(s, seen, r).Settle? && Judge(s, seen, r).child.phase.Finished?
    ensures Budgets(cs) == RoundLimit(cs[0], s.maxRounds)
    ensures forall i :: 0 <= i < |cs| - 1 ==> cs[i].budget == s.quota.value
    ensures |cs| == (RoundLimit(cs[0], s.maxRounds) + s.quota.value - 1) / s.quota.value
  {
    FinishedSum(s, cs, seen, r);
    FullThreads(s, cs);
    LastBudget(s, cs);
    FullThreadsSum(cs, s.quota.value);
    QuotaThreads(Budgets(cs), s.quota.value, |cs|, cs[|cs| - 1].budget);
  }

  // Lane coverage

  predicate ThreadOf(s: Loop, lane: Lane, c: Child) {
    SlotInv(s, c) && c.lane == Some(lane)
  }

  /** Everything that the threads of a slot expose, turn by turn. */
  function ExposedBy(s: Loop, lane: Lane, cs: seq<Child>): seq<int>
    requires forall i :: 0 <= i < |cs| ==> ThreadOf(s, lane, cs[i])
  {
    if cs == [] then []
    else
      var c := cs[|cs| - 1];
      assert ThreadOf(s, lane, c);
      ExposedBy(s, lane, cs[..|cs| - 1]) + Exposed(lane, c.completedRounds, c.budget)
  }

  /** Each thread starts where its predecessor ends. */
  predicate Chained(cs: seq<Child>) {
    && (cs != [] ==> cs[0].completedRounds == 0)
    && forall i :: 0 <= i < |cs| - 1 ==> cs[i + 1].completedRounds == cs[i].completedRounds + cs[i].budget
  }

  lemma RunThreads(s: Loop, cs: seq<Child>)
    requires SlotRun(s, cs) && cs[0].lane.Some?
    ensures forall i :: 0 <= i < |cs| ==> ThreadOf(s, cs[0].lane.value, cs[i])
    ensures Chained(cs)
  {
    forall i | 0 <= i < |cs|
      ensures i < |cs| - 1 ==> cs[i + 1].completedRounds == cs[i].completedRounds + cs[i].budget
      ensures ThreadOf(s, cs[0].lane.value, cs[i])
    {
      RunThread(s, cs, i);
    }
  }

  /** Chained threads expose exactly the items of the rounds they were given, in order. */
  lemma {:induction false} ThreadsExposePrefix(s: Loop, lane: Lane, cs: seq<Child>)
    requires cs != [] && Chained(cs)
    requires forall i :: 0 <= i < |cs| ==> ThreadOf(s, lane, cs[i])
    ensures cs[|cs| - 1].completedRounds + cs[|cs| - 1].budget >= 0
    ensures ExposedBy(s, lane, cs) == Prefix(lane, cs[|cs| - 1].completedRounds + cs[|cs| - 1].budget)
  {
    var n := |cs| - 1;
    var c, front := cs[n], cs[..n];
    assert ThreadOf(s, lane, c);
    ExposedExtends(lane, c.completedRounds, c.budget);
    if n > 0 {
      ThreadsExposePrefix(s, lane, front);
      assert c.completedRounds == front[n - 1].completedRounds + front[n - 1].budget;
    } else {
      PrefixIsWhole(lane);
      assert front == [] && ExposedBy(s, lane, front) == [];
    }
  }

  /**
   Lane coverage: the batches exposed turn by turn by the successive threads of a completed slot are
   together exactly the lane's candidates, in order and each once.
   */
  lemma LaneIsCovered(s: Loop, cs: seq<Child>, seen: Child, r: Receipt)
    requires SlotRun(s, cs) && cs[0].lane.Some?
    requires SameThread(cs[|cs| - 1], seen) && RoundInReach(seen) && WellFormed(s, seen)
    requires Judge(s, seen, r).Settle? && Judge(s, seen, r).child.phase.Finished?
    ensures forall i :: 0 <= i < |cs| ==> ThreadOf(s, cs[0].lane.value, cs[i])
    ensures ExposedBy(s, cs[0].lane.value, cs) == cs[0].lane.value.candidates
  {
    var lane := cs[0].lane.value;
    RunThreads(s, cs);
    FinishedAtLimit(s, cs[|cs| - 1], seen, r);
    ThreadsExposePrefix(s, lane, cs);
    PrefixIsWhole(lane);
  }

  /** The one thread of a slot without a quota, which owns the whole lane. */
  ghost predicate SoleThread(s: Loop, c: Child) {
    exists slot: Child, g: Receipt ::
      && WellFormed(s, slot) && s.quota.None? && slot.ownsContinuation && slot.completedRounds == 0
      && c == Acquired(s, slot, g)
  }

  lemma SoleThreadBudget(s: Loop, c: Child)
    requires SoleThread(s, c)
    ensures WellFormed(s, c) && s.quota.None? && c.ownsContinuation
    ensures c.completedRounds == 0 && c.budget == RoundLimit(c, s.maxRounds)
  {
  }

  /** Without a quota a terminal is settled, and finished only by the last batch of the whole lane. */
  lemma SoleThreadFinishes(s: Loop, c: Child, r: Receipt)
    requires WellFormed(s, c) && s.quota.None? && c.lane.Some?
    ensures !Judge(s, c, r).Rotate?
    ensures Judge(s, c, r).Settle? && Judge(s, c, r).child.phase.Finished? ==>
              r.totalTurns == Rounds(c.lane.value)
              && LaneBatchIds(c.lane.value, Rounds(c.lane.value)) == Ok(r.verification.ids)
  {
  }

  lemma WholeLane(lane: Lane)
    requires Valid(lane)
    ensures Exposed(lane, 0, Rounds(lane)) == lane.candidates
    ensures HolderBinding(lane, 0) == Ok(lane)
  {
    PrefixIsWhole(lane);
    ExposedExtends(lane, 0, Rounds(lane));
    assert lane.candidates[0..] == lane.candidates;
  }

  /** The terminal check of a thread expects the very batch that its last turn exposed. */
  lemma CheckExpectsLastBatch(s: Loop, c: Child, r: Receipt)
    requires (SlotInv(s, c) && RoundInReach(c)) || SoleThread(s, c)
    requires c.lane.Some?
    requires Judge(s, c, r).Rotate? || (Judge(s, c, r).Settle? && Judge(s, c, r).child.phase.Finished?)
    ensures HolderBinding(c.lane.value, c.completedRounds).Ok?
    ensures LaneBatchIds(HolderBinding(c.lane.value, c.completedRounds).value, c.budget) == Ok(r.verification.ids)
  {
    if SoleThread(s, c) {
      SoleThreadBudget(s, c);
      SoleThreadFinishes(s, c, r);
      WholeLane(c.lane.value);
    } else {
      SuffixBatch(c.lane.value, c.completedRounds, c.budget);
    }
  }

  /** A slot without a quota is never handed over, and its one thread exposes the whole lane. */
  lemma SoleThreadCovers(s: Loop, c: Child, seen: Child, r: Receipt)
    requires SoleThread(s, c) && c.lane.Some? && SameThread(c, seen) && WellFormed(s, seen)
    ensures !Judge(s, seen, r).Rotate?
    ensures Valid(c.lane.value) && c.completedRounds == 0 && c.budget == Rounds(c.lane.value)
    ensures Exposed(c.lane.value, 0, Rounds(c.lane.value)) == c.lane.value.candidates
    ensures Judge(s, seen, r).Settle? && Judge(s, seen, r).child.phase.Finished? ==>
              r.totalTurns == Rounds(c.lane.value)
              && LaneBatchIds(c.lane.value, Rounds(c.lane.value)) == Ok(r.verification.ids)
  {
    SoleThreadBudget(s, c);
    SoleThreadFinishes(s, seen, r);
    WholeLane(c.lane.value);
  }
}
