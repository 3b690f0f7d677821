/**
 The master queue and its continuation probe: claim one item, wake its worker, accept
 and roll on. Several heartbeats share one queue file with the workers, who rewrite it
 between any two probes. The items of all lanes are listed in scan order.
 */
module MasterQueue {
  import opened Basics
  import Statuses

  type Id = Statuses.Id

  datatype ItemStatus = Pending | Claimed | Active | Completed | Other(code: nat)

  datatype Claim = Claim(heartbeat: Id, run: Id, woken: bool)

  /**
   `valid` tells whether the item's own fields are well formed, `artifacts` whether the required fields
   and artifacts of a terminal receipt are present and validated, `thread` is the lane's worker thread.
   */
  datatype Item = Item(
    company: Id,
    status: ItemStatus,
    claim: Option<Claim>,
    valid: bool,
    artifacts: bool,
    thread: Option<Id>)

  datatype Answer = NoChange | Exhausted | Took(index: nat) | NoThread

  predicate Ours(it: Item, h: Id) {
    it.claim.Some? && it.claim.value.heartbeat == h
  }

  predicate TerminalValid(it: Item, terminal: set<ItemStatus>) {
    it.status in terminal && it.artifacts
  }

  predicate InFlight(it: Item) {
    it.status.Claimed? || it.status.Active?
  }

  /** An own claim that is still out and has no valid terminal receipt. */
  predicate Busy(it: Item, h: Id, terminal: set<ItemStatus>) {
    Ours(it, h) && !TerminalValid(it, terminal) && InFlight(it)
  }

  predicate AnyBusy(items: seq<Item>, h: Id, terminal: set<ItemStatus>) {
    exists i :: 0 <= i < |items| && Busy(items[i], h, terminal)
  }

  function Accepted(it: Item, h: Id, terminal: set<ItemStatus>): Item {
    if Ours(it, h) && TerminalValid(it, terminal) then it.(status := Completed) else it
  }

  function AcceptedItems(items: seq<Item>, h: Id, terminal: set<ItemStatus>): (r: seq<Item>)
    ensures |r| == |items| && forall i :: 0 <= i < |items| ==> r[i] == Accepted(items[i], h, terminal)
  {
    seq(|items|, i requires 0 <= i < |items| => Accepted(items[i], h, terminal))
  }

  predicate Claimable(it: Item) {
    it.status.Pending? && it.valid
  }

  /** The first claimable item from position `i` on. */
  function NextItem(items: seq<Item>, i: nat): (k: Option<nat>)
    requires i <= |items|
    decreases |items| - i
    ensures k.Some? ==> i <= k.value < |items| && Claimable(items[k.value])
    ensures forall j :: i <= j < (if k.Some? then k.value else |items|) ==> !Claimable(items[j])
  {
    if i == |items| then None else if Claimable(items[i]) then Some(i) else NextItem(items, i + 1)
  }

  function TakenItem(it: Item, h: Id, run: Id): Item {
    it.(status := Claimed, claim := Some(Claim.Claim(h, run, false)))
  }

  datatype Probe = Probe(answer: Answer, items: seq<Item>)

  /** The answer of one probe, and the queue that it leaves on disk. */
  function Probed(items: seq<Item>, h: Id, run: Id, terminal: set<ItemStatus>): Probe {
    if AnyBusy(items, h, terminal) then Probe(NoChange, items)
    else
      var accepted := AcceptedItems(items, h, terminal);
      var k := NextItem(accepted, 0);
      if k.None? then Probe(Exhausted, accepted)
      else if accepted[k.value].thread.None? then Probe(NoThread, items)
      else Probe(Took(k.value), accepted[k.value := TakenItem(accepted[k.value], h, run)])
  }

  /** What a wake receipt does to its claim. */
  function Woken(it: Item): Item
    requires it.claim.Some?
  {
    it.(claim := Some(it.claim.value.(woken := true)))
  }

  /** A worker, or whoever else edits the queue, leaves items in place and rewrites none to pending. */
  ghost predicate NeverRequeues(a: seq<Item>, b: seq<Item>) {
    |a| <= |b| && forall i :: 0 <= i < |a| && b[i].status.Pending? ==> a[i].status.Pending?
  }

  predicate ClaimedBy(it: Item, h: Id, run: Id, company: Id) {
    it.company == company && it.claim.Some? && it.claim.value.heartbeat == h && it.claim.value.run == run
  }

  /** The first claim of this company and run from position `i` on. */
  function FindClaim(items: seq<Item>, h: Id, run: Id, company: Id, i: nat): (k: Option<nat>)
    requires i <= |items|
    decreases |items| - i
    ensures k.Some? ==> i <= k.value < |items| && ClaimedBy(items[k.value], h, run, company)
    ensures forall j :: i <= j < (if k.Some? then k.value else |items|) ==> !ClaimedBy(items[j], h, run, company)
  {
    if i == |items| then None
    else if ClaimedBy(items[i], h, run, company) then Some(i)
    else FindClaim(items, h, run, company, i + 1)
  }

  /** The queue after the wake of this company's claim was noted. */
  function Marked(items: seq<Item>, h: Id, run: Id, company: Id): seq<Item> {
    var k := FindClaim(items, h, run, company, 0);
    if k.Some? then items[k.value := Woken(items[k.value])] else items
  }

  function CountClaimable(items: seq<Item>): nat {
    if items == [] then 0
    else CountClaimable(items[..|items| - 1]) + (if Claimable(items[|items| - 1]) then 1 else 0)
  }

  /** The worker's turn: whether it completed, and what the queue looks like afterwards. */
  datatype Wake = Wake(completed: bool, items: seq<Item>)

  /** A chain ends with a probe that claims nothing, a turn that did not complete, or a claim that disappeared. */
  datatype ChainEnd = Rolled(answer: Answer) | AwaitingDecision | ClaimLost

  class QueueFile {
    var items: seq<Item>

    constructor (s: seq<Item>)
      ensures items == s
    {
      items := s;
    }

    /** Two passes over the queue under its lock: settle and look for own claims, then claim one item. */
    method ClaimOrObserve(h: Id, run: Id, terminal: set<ItemStatus>) returns (answer: Answer)
      modifies this
      ensures Probe(answer, items) == Probed(old(items), h, run, terminal)
    {
      var queue, active := items, false;
      for i := 0 to |queue|
        invariant |queue| == |items| && items == old(items)
        invariant forall j :: 0 <= j < i ==> queue[j] == Accepted(items[j], h, terminal)
        invariant forall j :: i <= j < |queue| ==> queue[j] == items[j]
        invariant active <==> exists j :: 0 <= j < i && Busy(items[j], h, terminal)
      {
        var item := queue[i];
        if Ours(item, h) && TerminalValid(item, terminal) {
          queue := queue[i := item.(status := Completed)];
        } else if Ours(item, h) && (item.status.Claimed? || item.status.Active?) {
          active := true;
        }
      }
      if active {
        return NoChange;
      }
      assert queue == AcceptedItems(items, h, terminal);
      var i := 0;
      while i < |queue|
        invariant 0 <= i <= |queue| && items == old(items)
        invariant NextItem(queue, 0) == NextItem(queue, i)
      {
        var item := queue[i];
        if item.status.Pending? && item.valid {
          if item.thread.None? {
            return NoThread;
          }
          items := queue[i := item.(status := Claimed, claim := Some(Claim.Claim(h, run, false)))];
          return Took(i);
        }
        i := i + 1;
      }
      items := queue;
      return Exhausted;
    }

    /** Note a wake on the first claim of this company and run; `found` is false where it raises. */
    method MarkWakeStarted(h: Id, run: Id, company: Id) returns (found: bool)
      modifies this
      ensures found == FindClaim(old(items), h, run, company, 0).Some?
      ensures items == Marked(old(items), h, run, company)
    {
      var i := 0;
      while i < |items|
        invariant 0 <= i <= |items| && items == old(items)
        invariant FindClaim(items, h, run, company, 0) == FindClaim(items, h, run, company, i)
      {
        if ClaimedBy(items[i], h, run, company) {
          items := items[i := Woken(items[i])];
          return true;
        }
        i := i + 1;
      }
      return false;
    }

    /**
     After a completed turn: note the wake, and probe again; `found` is false where the claim is gone. `ops`
     are the operations of the chain, so far and with these.
     */
    method RollOn(
      h: Id, run: Id, terminal: set<ItemStatus>, company: Id,
      ghost start: seq<Item>, ghost before: seq<Op>, ghost woken: seq<nat>, ghost quiet: bool)
      returns (found: bool, answer: Answer, ghost ops: seq<Op>)
      requires Chained(start, items, before, woken, [], quiet)
      modifies this
      ensures Chained(start, items, ops, woken, TakenBy(answer), quiet)
      ensures !found ==> !answer.Took?
      ensures CountClaimable(items) + (if answer.Took? then 1 else 0) <= CountClaimable(old(items))
    {
      ghost var unmarked := items;
      found := MarkWakeStarted(h, run, company);
      MarkChains(start, unmarked, before, woken, quiet, h, run, company);
      ops := before + [WorkOp(items)];
      if !found {
        return false, NoChange, ops;
      }
      ghost var marked := items;
      answer := ClaimOrObserve(h, run, terminal);
      ProbeChains(start, marked, ops, woken, quiet, h, run, terminal);
      ops := ops + [ProbeOp(h, run, terminal)];
    }

    /** Wake the taken item, whose worker leaves `wake` behind; without an end the chain goes on. */
    method WakeOne(
      h: Id, run: Id, terminal: set<ItemStatus>, k: nat, wake: Wake,
      ghost start: seq<Item>, ghost before: seq<Op>, ghost woken: seq<nat>, ghost quiet: bool)
      returns (end: Option<ChainEnd>, answer: Answer, ghost ops: seq<Op>)
      requires Chained(start, items, before, woken, [k], quiet)
      requires NeverRequeues(items, wake.items)
      requires quiet ==> CountClaimable(wake.items) <= CountClaimable(items)
      modifies this
      ensures Chained(start, items, ops, woken + [k], TakenBy(answer), quiet)
      ensures end.Some? ==> !answer.Took? && !end.value.Rolled?
      ensures CountClaimable(items) + (if answer.Took? then 1 else 0) <= CountClaimable(wake.items)
    {
      ChainSpends(start, items, before, woken, [k], quiet);
      assert [k][0] == k;
      var company := items[k].company;
      WakeChains(start, items, before, woken, quiet, k, wake.items);
      items := wake.items;
      ops := before + [WorkOp(items)];
      if !wake.completed {
        return Some(AwaitingDecision), NoChange, ops;
      }
      var found;
      found, answer, ops := RollOn(h, run, terminal, company, start, ops, woken + [k], quiet);
      return if found then None else Some(ClaimLost), answer, ops;
    }

    /**
     Claim, wake, and roll on while the turns complete. `world` is the worker's turn on the queue as it
     stands, which makes no more items claimable after the first `limit` turns; `woken` lists the items that
     were woken, in order. The chain is a run of the queue file, and `woken` is exactly what it claimed.
     */
    method WakeChain(h: Id, run: Id, terminal: set<ItemStatus>, limit: nat, world: (nat, seq<Item>) -> Wake)
      returns (end: ChainEnd, woken: seq<nat>, ghost ops: seq<Op>)
      requires forall n: nat, s: seq<Item> :: TurnNeverRequeues(world, n, s)
      requires forall n: nat, s: seq<Item> :: n >= limit ==> TurnAddsNothing(world, n, s)
      modifies this
      ensures Chained(old(items), items, ops, woken, [], limit == 0) && Spent(woken, items)
      ensures end.Rolled? ==> !end.answer.Took?
    {
      woken, ops := [], [];
      ChainStarts(items, limit == 0);
      var answer := ClaimOrObserve(h, run, terminal);
      ProbeChains(old(items), old(items), ops, woken, limit == 0, h, run, terminal);
      ops := ops + [ProbeOp(h, run, terminal)];
      while answer.Took?
        invariant Chained(old(items), items, ops, woken, TakenBy(answer), limit == 0)
        decreases Max(limit - |woken|, 0), CountClaimable(items) + (if answer.Took? then 1 else 0)
      {
        var k, wake := answer.index, world(|woken|, items);
        assert TurnNeverRequeues(world, |woken|, items);
        assert |woken| >= limit ==> TurnAddsNothing(world, |woken|, items);
        var failed;
        failed, answer, ops := WakeOne(h, run, terminal, k, wake, old(items), ops, woken, limit == 0);
        woken := woken + [k];
        if failed.Some? {
          ChainSpends(old(items), items, ops, woken, [], limit == 0);
          return failed.value, woken, ops;
        }
      }
      ChainSpends(old(items), items, ops, woken, [], limit == 0);
      return Rolled(answer), woken, ops;
    }
  }

  ghost predicate TurnNeverRequeues(world: (nat, seq<Item>) -> Wake, n: nat, s: seq<Item>) {
    NeverRequeues(s, world(n, s).items)
  }

  ghost predicate TurnAddsNothing(world: (nat, seq<Item>) -> Wake, n: nat, s: seq<Item>) {
    CountClaimable(world(n, s).items) <= CountClaimable(s)
  }

  function TakenBy(answer: Answer): seq<nat> {
    if answer.Took? then [answer.index] else []
  }

  /**
   The state of a wake chain since `start`: the queue is where the chain's operations lead, they claimed the
   woken items and then `taken`, and where nobody adds work the claims are paid for by claimable items.
   */
  ghost predicate Chained(
    start: seq<Item>, items: seq<Item>, ops: seq<Op>, woken: seq<nat>, taken: seq<nat>, quiet: bool)
  {
    && items == After(start, ops) && NeverRequeuedRun(start, ops)
    && Claims(start, ops) == woken + taken
    && (quiet ==> |woken| + |taken| + CountClaimable(items) <= CountClaimable(start))
  }

  lemma ChainStarts(items: seq<Item>, quiet: bool)
    ensures Chained(items, items, [], [], [], quiet)
  {
  }

  lemma NextOp(start: seq<Item>, ops: seq<Op>, op: Op)
    ensures After(start, ops + [op]) == Apply(After(start, ops), op)
    ensures Claims(start, ops + [op]) == Claims(start, ops) + ClaimsOf(After(start, ops), op)
    ensures NeverRequeuedRun(start, ops + [op]) <==>
              NeverRequeuedRun(start, ops) && (op.WorkOp? ==> NeverRequeues(After(start, ops), op.items))
  {
    assert (ops + [op])[..|ops|] == ops;
  }

  /** What a chain woke and took are different items, none of which is pending any more. */
  lemma ChainSpends(
    start: seq<Item>, items: seq<Item>, ops: seq<Op>, woken: seq<nat>, taken: seq<nat>, quiet: bool)
    requires Chained(start, items, ops, woken, taken, quiet)
    ensures Spent(woken, items) && Spent(taken, items)
  {
    ClaimedAtMostOnce(start, ops);
    var claims := woken + taken;
    assert forall i :: 0 <= i < |woken| ==> woken[i] == claims[i];
    assert forall i :: 0 <= i < |taken| ==> taken[i] == claims[|woken| + i];
  }

  lemma ProbeChains(
    start: seq<Item>, items: seq<Item>, ops: seq<Op>, woken: seq<nat>, quiet: bool,
    h: Id, run: Id, terminal: set<ItemStatus>)
    requires Chained(start, items, ops, woken, [], quiet)
    ensures var p := Probed(items, h, run, terminal);
      && Chained(start, p.items, ops + [ProbeOp(h, run, terminal)], woken, TakenBy(p.answer), quiet)
      && CountClaimable(p.items) + |TakenBy(p.answer)| <= CountClaimable(items)
  {
    ProbeUses(items, h, run, terminal);
    NextOp(start, ops, ProbeOp(h, run, terminal));
  }

  lemma WakeChains(
    start: seq<Item>, items: seq<Item>, ops: seq<Op>, woken: seq<nat>, quiet: bool, k: nat, edited: seq<Item>)
    requires Chained(start, items, ops, woken, [k], quiet) && NeverRequeues(items, edited)
    requires quiet ==> CountClaimable(edited) <= CountClaimable(items)
    ensures Chained(start, edited, ops + [WorkOp(edited)], woken + [k], [], quiet)
  {
    NextOp(start, ops, WorkOp(edited));
  }

  lemma MarkChains(
    start: seq<Item>, items: seq<Item>, ops: seq<Op>, woken: seq<nat>, quiet: bool, h: Id, run: Id, company: Id)
    requires Chained(start, items, ops, woken, [], quiet)
    ensures var marked := Marked(items, h, run, company);
      && Chained(start, marked, ops + [WorkOp(marked)], woken, [], quiet)
      && CountClaimable(marked) <= CountClaimable(items)
  {
    var marked := Marked(items, h, run, company);
    SubCounts(items, marked);
    NextOp(start, ops, WorkOp(marked));
  }

  lemma {:induction false} SubCounts(a: seq<Item>, b: seq<Item>)
    requires |a| == |b| && forall i :: 0 <= i < |a| ==> Claimable(b[i]) ==> Claimable(a[i])
    ensures CountClaimable(b) <= CountClaimable(a)
  {
    if a != [] {
      SubCounts(a[..|a| - 1], b[..|b| - 1]);
    }
  }

  lemma {:induction false} StrictCounts(a: seq<Item>, b: seq<Item>, k: nat)
    requires |a| == |b| && forall i :: 0 <= i < |a| ==> Claimable(b[i]) ==> Claimable(a[i])
    requires k < |a| && Claimable(a[k]) && !Claimable(b[k])
    ensures CountClaimable(b) < CountClaimable(a)
  {
    var n := |a| - 1;
    if k < n {
      StrictCounts(a[..n], b[..n], k);
    } else {
      SubCounts(a[..n], b[..n]);
    }
  }

  /** A probe makes nothing claimable, and uses up the item that it takes. */
  lemma ProbeUses(items: seq<Item>, h: Id, run: Id, terminal: set<ItemStatus>)
    ensures var p := Probed(items, h, run, terminal);
      && |p.items| == |items|
      && (forall i :: 0 <= i < |items| ==> Claimable(p.items[i]) ==> Claimable(items[i]))
      && (forall i :: 0 <= i < |items| ==> p.items[i].status.Pending? ==> items[i].status.Pending?)
      && CountClaimable(p.items) <= CountClaimable(items)
      && (p.answer.Took? ==>
            var k := p.answer.index;
            && k < |items| && Claimable(items[k]) && p.items[k] == TakenItem(items[k], h, run)
            && CountClaimable(p.items) < CountClaimable(items))
  {
    var p := Probed(items, h, run, terminal);
    SubCounts(items, p.items);
    if p.answer.Took? {
      StrictCounts(items, p.items, p.answer.index);
    }
  }

  // Runs of any number of heartbeats and workers over one queue file

  datatype Op = ProbeOp(h: Id, run: Id, terminal: set<ItemStatus>) | WorkOp(items: seq<Item>)

  function Apply(items: seq<Item>, op: Op): seq<Item> {
    match op
    case ProbeOp(h, run, terminal) => Probed(items, h, run, terminal).items
    case WorkOp(edited) => edited
  }

  function After(items: seq<Item>, ops: seq<Op>): seq<Item> {
    if ops == [] then items else Apply(After(items, ops[..|ops| - 1]), ops[|ops| - 1])
  }

  function ClaimsOf(items: seq<Item>, op: Op): seq<nat> {
    if op.ProbeOp? && Probed(items, op.h, op.run, op.terminal).answer.Took?
    then [Probed(items, op.h, op.run, op.terminal).answer.index] else []
  }

  /** The items claimed by a run, over all heartbeats, in order. */
  function Claims(items: seq<Item>, ops: seq<Op>): seq<nat> {
    if ops == [] then []
    else Claims(items, ops[..|ops| - 1]) + ClaimsOf(After(items, ops[..|ops| - 1]), ops[|ops| - 1])
  }

  /** No edit of the run rewrites an item to pending. */
  ghost predicate NeverRequeuedRun(items: seq<Item>, ops: seq<Op>) {
    ops == [] ||
    (&& NeverRequeuedRun(items, ops[..|ops| - 1])
     && (ops[|ops| - 1].WorkOp? ==> NeverRequeues(After(items, ops[..|ops| - 1]), ops[|ops| - 1].items)))
  }

  /** The claims are of different items, none of which is pending any more. */
  ghost predicate Spent(claims: seq<nat>, items: seq<Item>) {
    && (forall i, j :: 0 <= i < j < |claims| ==> claims[i] != claims[j])
    && (forall i :: 0 <= i < |claims| ==> claims[i] < |items| && !items[claims[i]].status.Pending?)
  }

  lemma OpSpends(claims: seq<nat>, items: seq<Item>, op: Op)
    requires Spent(claims, items) && (op.WorkOp? ==> NeverRequeues(items, op.items))
    ensures Spent(claims + ClaimsOf(items, op), Apply(items, op))
  {
  }

  /** If nobody rewrites an item to pending, each item is claimed at most once over all heartbeats. */
  lemma {:induction false} ClaimedAtMostOnce(items: seq<Item>, ops: seq<Op>)
    requires NeverRequeuedRun(items, ops)
    ensures Spent(Claims(items, ops), After(items, ops))
  {
    if ops != [] {
      var front := ops[..|ops| - 1];
      ClaimedAtMostOnce(items, front);
      OpSpends(Claims(items, front), After(items, front), ops[|ops| - 1]);
    }
  }

  predicate OwnInFlight(it: Item, h: Id) {
    Ours(it, h) && InFlight(it)
  }

  ghost predicate OneInFlight(items: seq<Item>, h: Id) {
    forall i, j ::
      0 <= i < |items| && 0 <= j < |items| && OwnInFlight(items[i], h) && OwnInFlight(items[j], h) ==> i == j
  }

  /** A probe, by whichever heartbeat, never gives a heartbeat a second item in flight. */
  lemma ProbeKeepsOne(items: seq<Item>, h: Id, g: Id, run: Id, terminal: set<ItemStatus>)
    requires OneInFlight(items, h)
    ensures OneInFlight(Probed(items, g, run, terminal).items, h)
  {
    var p := Probed(items, g, run, terminal);
    forall i, j | 0 <= i < |p.items| && 0 <= j < |p.items| && OwnInFlight(p.items[i], h) && OwnInFlight(p.items[j], h)
      ensures i == j
    {
      if p.answer.Took? && g == h {
        var k := p.answer.index;
        assert forall m :: 0 <= m < |items| ==> !Busy(items[m], h, terminal);
        assert forall m :: 0 <= m < |items| && m != k ==> !OwnInFlight(p.items[m], h);
      } else {
        assert OwnInFlight(items[i], h) && OwnInFlight(items[j], h);
      }
    }
  }

  /** An edit puts an own item in flight next to another one. */
  ghost predicate Revives(a: seq<Item>, b: seq<Item>, h: Id) {
    exists i, j :: 0 <= i < |b| && 0 <= j < |b| && i != j
      && OwnInFlight(b[i], h) && OwnInFlight(b[j], h) && !(i < |a| && OwnInFlight(a[i], h))
  }

  /** An edit, whatever it does, keeps at most one own item in flight exactly when it revives none next to another. */
  lemma EditKeepsOneExactly(a: seq<Item>, b: seq<Item>, h: Id)
    requires OneInFlight(a, h)
    ensures OneInFlight(b, h) <==> !Revives(a, b, h)
  {
    if !OneInFlight(b, h) {
      var i, j :| 0 <= i < |b| && 0 <= j < |b| && OwnInFlight(b[i], h) && OwnInFlight(b[j], h) && i != j;
      assert !(i < |a| && OwnInFlight(a[i], h)) || !(j < |a| && OwnInFlight(a[j], h));
    }
  }

  /** The edit at position `n` of a run, if it is one, revives nothing next to another own item. */
  ghost predicate NoRevivalAt(items: seq<Item>, ops: seq<Op>, h: Id, n: nat)
    requires n < |ops|
  {
    ops[n].WorkOp? ==> !Revives(After(items, ops[..n]), ops[n].items, h)
  }

  ghost predicate OneAt(items: seq<Item>, ops: seq<Op>, h: Id, n: nat)
    requires n <= |ops|
  {
    OneInFlight(After(items, ops[..n]), h)
  }

  /** One operation keeps at most one own item in flight exactly when it is no revival. */
  lemma OneAtNextExactly(items: seq<Item>, ops: seq<Op>, h: Id, n: nat)
    requires n < |ops| && OneAt(items, ops, h, n)
    ensures OneAt(items, ops, h, n + 1) <==> NoRevivalAt(items, ops, h, n)
  {
    var front, op := ops[..n], ops[n];
    assert ops[..n + 1][..n] == front && ops[..n + 1][n] == op;
    if op.ProbeOp? {
      ProbeKeepsOne(After(items, front), h, op.h, op.run, op.terminal);
    } else {
      EditKeepsOneExactly(After(items, front), op.items, h);
    }
  }

  /** Without revivals no heartbeat ever has two of its own items claimed or active. */
  lemma {:induction false} NeverTwoInFlight(items: seq<Item>, ops: seq<Op>, h: Id, n: nat)
    requires OneInFlight(items, h) && n <= |ops|
    requires forall m: nat :: m < n ==> NoRevivalAt(items, ops, h, m)
    ensures OneAt(items, ops, h, n)
  {
    if n > 0 {
      NeverTwoInFlight(items, ops, h, n - 1);
      OneAtNextExactly(items, ops, h, n - 1);
    }
  }

  /** Any run keeps at most one own item in flight throughout exactly when no edit of it is a revival. */
  lemma OneInFlightExactly(items: seq<Item>, ops: seq<Op>, h: Id)
    requires OneInFlight(items, h)
    ensures (forall n: nat :: n <= |ops| ==> OneAt(items, ops, h, n))
       <==> (forall n: nat :: n < |ops| ==> NoRevivalAt(items, ops, h, n))
  {
    if forall n: nat :: n < |ops| ==> NoRevivalAt(items, ops, h, n) {
      forall n: nat | n <= |ops|
        ensures OneAt(items, ops, h, n)
      {
        NeverTwoInFlight(items, ops, h, n);
      }
    }
    if forall n: nat :: n <= |ops| ==> OneAt(items, ops, h, n) {
      forall n: nat | n < |ops|
        ensures NoRevivalAt(items, ops, h, n)
      {
        assert OneAt(items, ops, h, n) && OneAt(items, ops, h, n + 1);
        OneAtNextExactly(items, ops, h, n);
      }
    }
  }

  /**
   Never rewriting to pending is not enough for that: an accepted item that its worker sets back to
   active, after the next one was claimed, is a second one in flight.
   */
  lemma RevivedItemMakesTwo()
    ensures exists items, ops ::
              OneInFlight(items, 1) && NeverRequeuedRun(items, ops) && !OneInFlight(After(items, ops), 1)
  {
    var mine := Some(Claim.Claim(1, 1, true));
    var done := Item(7, Completed, mine, true, true, Some(3));
    var out := Item(8, Claimed, mine, true, false, Some(3));
    var items := [done, out];
    var edited := [done.(status := Active), out];
    var ops := [WorkOp(edited)];
    assert ops[..0] == [] && After(items, []) == items && NeverRequeuedRun(items, []);
    assert After(items, ops) == edited;
    assert OwnInFlight(edited[0], 1) && OwnInFlight(edited[1], 1);
    assert !OneInFlight(edited, 1);
    assert NeverRequeues(items, edited);
    assert NeverRequeuedRun(items, ops);
    assert OneInFlight(items, 1);
  }

  /** The queue file's methods are operations of the runs above: a probe is one, and a wake mark a harmless edit. */
  lemma MethodsAreOps(items: seq<Item>, h: Id, run: Id, terminal: set<ItemStatus>, company: Id)
    ensures Apply(items, ProbeOp(h, run, terminal)) == Probed(items, h, run, terminal).items
    ensures var marked := Marked(items, h, run, company);
      NeverRequeues(items, marked) && forall g :: !Revives(items, marked, g)
  {
    var marked := Marked(items, h, run, company);
    forall g, i | 0 <= i < |items|
      ensures OwnInFlight(marked[i], g) <==> OwnInFlight(items[i], g)
    {
    }
  }
}
