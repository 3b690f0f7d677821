/**
 The races that the guard of `HoldOwnership.SingleOwner` excludes.

 A worker claims, dispatches and dies while another holds an older acknowledgement.
 One scanner recovers the dead claim, the other fails it from its stale snapshot and
 thereby deletes the claim of the recoverer, next to which a further worker claims.
 Every step is a step of the protocol; only the stale entry is unguarded. From any
 state where a failer is about to act, the lemmas say what it can lead to: two owners,
 or a root that nobody owns again.
 */
module HoldRace {
  import opened Basics
  import opened HoldRoot
  import opened HoldOwnership
  import HoldLatch
  import HoldStuck

  /** An idle worker reads both files. */
  lemma TakeScan(o: State, s: State, w: nat) returns (t: State)
    requires Leads(o, s) && Live(s, w) && PCOf(s, w).Idle? && !s.result
    ensures Leads(o, t) && t == Goto(s, w, Scanned(s.req, s.ack))
  {
    t := Goto(s, w, Scanned(s.req, s.ack));
    var t0 := Goto(s, w, SawRequest(s.req));
    Follow(o, s, Claiming(w, ScanRequest), t0);
    Follow(o, t0, Claiming(w, ScanAck), t);
  }

  /** An idle worker runs up to the passed recheck of a free, queued root. */
  lemma TakeClaim(o: State, s: State, w: nat) returns (t: State)
    requires Leads(o, s) && Live(s, w) && PCOf(s, w).Idle? && !s.result
    requires s.ack.phase.Queued? && s.claim.NoClaim?
    ensures Leads(o, t)
    ensures t == Goto(s, w, Passed(s.ack)).(claim := Dir(w, Some(s.pids[w])))
  {
    var made := Goto(s, w, MadeDir).(claim := Dir(w, None));
    var owned := s.(claim := Dir(w, Some(s.pids[w])));
    var t0 := TakeScan(o, s, w);
    Follow(o, t0, Claiming(w, MakeDir), made);
    Follow(o, made, Claiming(w, WriteOwner), Goto(owned, w, WroteOwner));
    Follow(o, Goto(owned, w, WroteOwner), Claiming(w, RecheckRead), Goto(owned, w, Rechecking(s.ack)));
    t := Goto(owned, w, Passed(s.ack));
    Follow(o, Goto(owned, w, Rechecking(s.ack)), Claiming(w, RecheckPass), t);
  }

  /** The owner of an unstopped, created request takes the lock and passes the stop check. */
  lemma TakeCheck(o: State, s: State, w: nat) returns (t: State)
    requires Leads(o, s) && Live(s, w) && PCOf(s, w).Ready? && s.lock.None?
    requires s.req.mode.Create? && !s.req.stop && !s.closing
    ensures Leads(o, t) && t == Goto(s, w, FirstChecked(s.req)).(lock := Some(w))
  {
    var locked := s.(lock := Some(w));
    Follow(o, s, Holding(w, Load), Goto(s, w, Loaded(s.req)));
    Follow(o, Goto(s, w, Loaded(s.req)), Holding(w, LockFirst), Goto(locked, w, FirstLocked(s.req)));
    t := Goto(locked, w, FirstChecked(s.req));
    Follow(o, Goto(locked, w, FirstLocked(s.req)), Holding(w, CheckFirst), t);
  }

  /** It reports the start and sends it. */
  lemma TakeDispatch(o: State, s: State, w: nat, req: Request) returns (t: State)
    requires Leads(o, s) && Live(s, w) && PCOf(s, w) == FirstChecked(req) && s.lock == Some(w)
    ensures Leads(o, t)
    ensures t == Goto(s, w, FirstSent(req, |s.starts|)).(
                   starts := s.starts + [First(w)], ack := Ack(Working, None))
  {
    var starting := s.(ack := Ack(Working, None));
    var sent := starting.(starts := s.starts + [First(w)]);
    Follow(o, s, Holding(w, StartFirst), Goto(starting, w, FirstStarting(req)));
    t := Goto(sent, w, FirstSent(req, |s.starts|));
    Follow(o, Goto(starting, w, FirstStarting(req)), Holding(w, SendFirst), t);
  }

  /** It leaves the lock and reports the turn it now holds. */
  lemma TakeReport(o: State, s: State, w: nat, req: Request, n: Turn) returns (t: State)
    requires Leads(o, s) && Live(s, w) && PCOf(s, w) == FirstSent(req, n) && s.lock == Some(w)
    ensures Leads(o, t)
    ensures t == Goto(s, w, Watching(req, Some(n))).(ack := Ack(Working, Some(n)), lock := None)
  {
    var held := Goto(s, w, Watching(req, Some(n))).(lock := None);
    Follow(o, s, Holding(w, Hold), held);
    t := held.(ack := Ack(Working, Some(n)));
    Follow(o, held, Holding(w, Report(Working, true)), t);
  }

  /** A scanner whose snapshot names a turn locks the root and finds the claim that it inspected. */
  lemma TakeLock(o: State, s: State, w: nat, req: Request, ack: Ack, p: Pid) returns (t: State)
    requires Leads(o, s) && Live(s, w) && s.lock.None? && DeadClaim(s, p)
    requires PCOf(s, w) == RequeueWait(req, ack, p)
    ensures Leads(o, t) && t == Goto(s, w, RequeueChecked(req, ack, p)).(lock := Some(w))
  {
    var locked := Goto(s, w, RequeueLocked(req, ack, p)).(lock := Some(w));
    Follow(o, s, Requeueing(w, LockRequeue), locked);
    t := Goto(s, w, RequeueChecked(req, ack, p)).(lock := Some(w));
    Follow(o, locked, Requeueing(w, RecheckOwner), t);
  }

  /** It binds the recovery. */
  lemma TakeBind(o: State, s: State, w: nat, req: Request, ack: Ack, p: Pid) returns (t: State)
    requires Leads(o, s) && Live(s, w) && PCOf(s, w) == RequeueChecked(req, ack, p)
    ensures Leads(o, t)
    ensures t == Goto(s, w, RequeueWroteRequest(p)).(
                   req := Request(Recover, req.stop || s.req.stop, Identity(req, ack)))
  {
    t := Goto(s, w, RequeueWroteRequest(p)).(req := Request(Recover, req.stop || s.req.stop, Identity(req, ack)));
    Follow(o, s, Requeueing(w, WriteRecovered), t);
  }

  /** It queues the acknowledgement again and unlinks the dead owner. */
  lemma TakeQueue(o: State, s: State, w: nat, p: Pid) returns (t: State)
    requires Leads(o, s) && Live(s, w) && PCOf(s, w) == RequeueWroteRequest(p)
    ensures Leads(o, t)
    ensures t == Goto(s, w, RequeueReleaseDir).(ack := Ack(Queued, None), claim := UnlinkOwner(s.claim))
  {
    var queued := Goto(s, w, RequeueWroteAck(p)).(ack := Ack(Queued, None));
    Follow(o, s, Requeueing(w, WriteQueued), queued);
    t := Goto(s, w, RequeueReleaseDir).(ack := Ack(Queued, None), claim := UnlinkOwner(s.claim));
    Follow(o, queued, Requeueing(w, RequeueOwner), t);
  }

  /** It removes the claim directory and leaves the lock. */
  lemma TakeFree(o: State, s: State, w: nat) returns (t: State)
    requires Leads(o, s) && Live(s, w) && s.lock == Some(w) && Removable(s.claim) && PCOf(s, w).RequeueReleaseDir?
    ensures Leads(o, t) && t == Goto(s, w, Idle).(claim := NoClaim, lock := None)
  {
    t := Goto(s, w, Idle).(claim := NoClaim, lock := None);
    Follow(o, s, Requeueing(w, RequeueRmdir), t);
  }

  /** A scanner locks the root and binds the recovery. */
  lemma TakeLockBind(o: State, s: State, w: nat, req: Request, ack: Ack, p: Pid) returns (t: State)
    requires Leads(o, s) && Live(s, w) && s.lock.None? && DeadClaim(s, p)
    requires PCOf(s, w) == RequeueWait(req, ack, p)
    ensures Leads(o, t)
    ensures t == Goto(s, w, RequeueWroteRequest(p)).(
                   req := Request(Recover, req.stop || s.req.stop, Identity(req, ack)), lock := Some(w))
  {
    t := TakeLock(o, s, w, req, ack, p);
    t := TakeBind(o, t, w, req, ack, p);
  }

  /** It queues the acknowledgement again and frees the claim. */
  lemma TakeQueueFree(o: State, s: State, w: nat, p: Pid) returns (t: State)
    requires Leads(o, s) && Live(s, w) && s.lock == Some(w) && PCOf(s, w) == RequeueWroteRequest(p)
    ensures Leads(o, t) && t == Goto(s, w, Idle).(ack := Ack(Queued, None), claim := NoClaim, lock := None)
  {
    t := TakeQueue(o, s, w, p);
    t := TakeFree(o, t, w);
  }

  /** The whole first dispatch of a fresh request, up to the report of its turn. */
  lemma TakeFirstTurn(o: State, s: State, w: nat) returns (t: State)
    requires Leads(o, s) && Live(s, w) && PCOf(s, w).Ready? && s.lock.None?
    requires s.req.mode.Create? && !s.req.stop && !s.closing
    ensures Leads(o, t)
    ensures t == Goto(s, w, Watching(s.req, Some(|s.starts|))).(
                   starts := s.starts + [First(w)], ack := Ack(Working, Some(|s.starts|)))
  {
    t := TakeCheck(o, s, w);
    t := TakeDispatch(o, t, w, s.req);
    t := TakeReport(o, t, w, s.req, |s.starts|);
  }

  /** A scanner inspects the owner of the claim and finds it dead. */
  lemma TakeInspect(o: State, s: State, w: nat, req: Request, ack: Ack, p: Pid) returns (t: State)
    requires Leads(o, s) && Live(s, w) && DeadClaim(s, p) && PCOf(s, w) == Scanned(req, ack)
    requires Identity(req, ack).Some? || NeverStarted(req, ack)
    ensures Leads(o, t)
    ensures t == Goto(s, w, if Identity(req, ack).Some? then RequeueWait(req, ack, p) else FailDead(p))
  {
    var seen := Goto(s, w, SawOwner(req, ack, p));
    Follow(o, s, Requeueing(w, SeeOwner), seen);
    t := Goto(s, w, if Identity(req, ack).Some? then RequeueWait(req, ack, p) else FailDead(p));
    Follow(o, seen, Requeueing(w, FindDead), t);
  }

  /** Later it removes whatever claim is there. */
  lemma TakeFailRelease(o: State, s: State, w: nat) returns (t: State)
    requires Leads(o, s) && Live(s, w) && PCOf(s, w).FailRelease? && s.claim.Dir?
    ensures Leads(o, t) && t == Goto(s, w, Idle).(claim := NoClaim)
  {
    var freed := Goto(s, w, FailReleaseDir).(claim := UnlinkOwner(s.claim));
    Follow(o, s, Requeueing(w, FailOwner), freed);
    t := Goto(s, w, Idle).(claim := NoClaim);
    Follow(o, freed, Requeueing(w, FailRmdir), t);
  }

  lemma TakeDeath(o: State, s: State, p: Pid) returns (t: State)
    requires Leads(o, s) && p in s.alive
    ensures Leads(o, t) && t == s.(alive := s.alive - {p})
  {
    t := s.(alive := s.alive - {p});
    Follow(o, s, World(Die(p)), t);
  }

  /** A failer closes the acknowledgement. */
  lemma TakeFail(o: State, s: State, w: nat) returns (t: State)
    requires Leads(o, s) && Live(s, w) && PCOf(s, w).FailDead?
    ensures Leads(o, t) && t == Goto(s, w, FailRelease).(ack := Ack(Closed, None))
  {
    t := Goto(s, w, FailRelease).(ack := Ack(Closed, None));
    Follow(o, s, Requeueing(w, WriteFailed), t);
  }

  /** A waiting scanner recovers the claim whose turn its snapshot names. */
  lemma TakeRecovery(o: State, s: State, v: nat, req: Request, ack: Ack, p: Pid) returns (t: State)
    requires Leads(o, s) && Live(s, v) && s.lock.None? && DeadClaim(s, p)
    requires PCOf(s, v) == RequeueWait(req, ack, p)
    ensures Leads(o, t) && t.pcs == s.pcs[v := Idle] && t.alive == s.alive && t.pids == s.pids
    ensures t.result == s.result && t.ack == Ack(Queued, None) && t.claim.NoClaim?
  {
    t := TakeLockBind(o, s, v, req, ack, p);
    assert t.pcs[v := Idle] == s.pcs[v := Idle];
    t := TakeQueueFree(o, t, v, p);
  }

  /** While the failer is about to release, one worker passes its recheck, loses its claim, and another one passes. */
  lemma ReachTwoPassed(o: State, s: State, w: nat, x: nat, y: nat) returns (t: State)
    requires Leads(o, s) && !s.result && s.ack == Ack(Queued, None) && s.claim.NoClaim?
    requires Live(s, w) && PCOf(s, w).FailRelease? && TwoSpare(s, x, y)
    ensures Leads(o, t) && t.alive == s.alive && t.pids == s.pids && |t.pcs| == |s.pcs|
    ensures PCOf(t, x) == Passed(s.ack) && PCOf(t, y) == Passed(s.ack)
  {
    t := TakeClaim(o, s, x);
    t := TakeFailRelease(o, t, w);
    t := TakeClaim(o, t, y);
  }

  lemma TakeOwnership(o: State, s: State, w: nat) returns (t: State)
    requires Leads(o, s) && Live(s, w) && PCOf(s, w).Passed?
    ensures Leads(o, t) && t == Goto(s, w, Ready).(ack := PCOf(s, w).ack.(phase := Claimed))
  {
    t := Goto(s, w, Ready).(ack := PCOf(s, w).ack.(phase := Claimed));
    Follow(o, s, Claiming(w, WriteClaimed), t);
  }

  ghost predicate TwoOwners(s: State) {
    exists v, w :: v != w && Owner(s, v) && Owner(s, w)
  }

  /** Some run through here goes on to two live owners. */
  ghost predicate LeadsToTwo(s: State) {
    exists t :: Leads(s, t) && TwoOwners(t)
  }

  predicate Spare(s: State, w: nat) {
    Live(s, w) && PCOf(s, w).Idle?
  }

  predicate TwoSpare(s: State, x: nat, y: nat) {
    x != y && Spare(s, x) && Spare(s, y)
  }

  predicate ThreeSpare(s: State, v: nat, x: nat, y: nat) {
    v != x && y != v && Spare(s, v) && TwoSpare(s, x, y)
  }

  /** A root without a result on which no locked block is under way. */
  predicate Open(s: State) {
    !s.result && s.lock.None?
  }

  lemma RaceOverQueued(o: State, s: State, w: nat, x: nat, y: nat)
    requires Leads(o, s) && !s.result && s.ack == Ack(Queued, None) && s.claim.NoClaim?
    requires Live(s, w) && PCOf(s, w).FailRelease? && TwoSpare(s, x, y)
    ensures LeadsToTwo(o)
  {
    var t := ReachTwoPassed(o, s, w, x, y);
    t := TakeOwnership(o, t, y);
    t := TakeOwnership(o, t, x);
    assert Owner(t, x) && Owner(t, y);
  }

  lemma RaceBesideRecoverer(o: State, s: State, w: nat, p: Pid, v: nat, req: Request, ack: Ack, x: nat, y: nat)
    requires Leads(o, s) && Open(s) && Failing(s, w) && DeadClaim(s, p) && TwoSpare(s, x, y)
    requires Live(s, v) && PCOf(s, v) == RequeueWait(req, ack, p)
    ensures LeadsToTwo(o)
  {
    var t := TakeFail(o, s, w);
    t := TakeRecovery(o, t, v, req, ack, p);
    RaceOverQueued(o, t, w, x, y);
  }

  lemma RaceOverDeadClaim(o: State, s: State, w: nat, p: Pid, v: nat, x: nat, y: nat)
    requires Leads(o, s) && Open(s) && Identity(s.req, s.ack).Some?
    requires Failing(s, w) && DeadClaim(s, p) && ThreeSpare(s, v, x, y)
    ensures LeadsToTwo(o)
  {
    var t := TakeScan(o, s, v);
    t := TakeInspect(o, t, v, s.req, s.ack, p);
    RaceBesideRecoverer(o, t, w, p, v, s.req, s.ack, x, y);
  }

  /** The process of the owner named on disk may die first. */
  lemma RaceOverClaim(o: State, s: State, w: nat, p: Pid, v: nat, x: nat, y: nat)
    requires Leads(o, s) && Open(s) && Identity(s.req, s.ack).Some?
    requires Failing(s, w) && s.claim.Dir? && s.claim.owner == Some(p) && ThreeSpare(s, v, x, y)
    requires p !in {s.pids[w], s.pids[v], s.pids[x], s.pids[y]}
    ensures LeadsToTwo(o)
  {
    if p in s.alive {
      var t := TakeDeath(o, s, p);
      RaceOverDeadClaim(o, t, w, p, v, x, y);
    } else {
      RaceOverDeadClaim(o, s, w, p, v, x, y);
    }
  }

  /** Or the owner of a fresh request names its turn and dies then. */
  lemma RaceOverOwner(o: State, s: State, w: nat, z: nat, v: nat, x: nat, y: nat)
    requires Leads(o, s) && Open(s) && s.req.mode.Create? && !s.req.stop && !s.closing
    requires Failing(s, w) && Live(s, z) && PCOf(s, z).Ready? && ThreeSpare(s, v, x, y)
    requires s.claim.Dir? && s.claim.owner == Some(s.pids[z])
    requires s.pids[z] !in {s.pids[w], s.pids[v], s.pids[x], s.pids[y]}
    ensures LeadsToTwo(o)
  {
    var t := TakeFirstTurn(o, s, z);
    RaceOverClaim(o, t, w, s.pids[z], v, x, y);
  }

  /** Or a further worker claims the queued root, dispatches if no turn has a name yet, and dies then. */
  lemma RaceOverQueue(o: State, s: State, w: nat, z: nat, v: nat, x: nat, y: nat)
    requires Leads(o, s) && Open(s) && s.ack.phase.Queued? && s.claim.NoClaim?
    requires Identity(s.req, s.ack).Some? || (s.req.mode.Create? && !s.req.stop && !s.closing)
    requires Failing(s, w) && Spare(s, z) && ThreeSpare(s, v, x, y) && z !in {v, x, y}
    requires s.pids[z] !in {s.pids[w], s.pids[v], s.pids[x], s.pids[y]}
    ensures LeadsToTwo(o)
  {
    var t := TakeClaim(o, s, z);
    if Identity(s.req, s.ack).Some? {
      RaceOverClaim(o, t, w, s.pids[z], v, x, y);
    } else {
      t := TakeOwnership(o, t, z);
      RaceOverOwner(o, t, w, z, v, x, y);
    }
  }

  /** A failer over a claim whose owner's process is dead or may die, on a root whose files name a turn. */
  lemma FailureOverClaim(s: State, w: nat, p: Pid, v: nat, x: nat, y: nat)
    requires Reachable(s) && Open(s) && Identity(s.req, s.ack).Some?
    requires Failing(s, w) && s.claim.Dir? && s.claim.owner == Some(p) && ThreeSpare(s, v, x, y)
    requires p !in {s.pids[w], s.pids[v], s.pids[x], s.pids[y]}
    ensures LeadsToTwo(s)
  {
    Arrive(s);
    RaceOverClaim(s, s, w, p, v, x, y);
  }

  /** A failer over the claim of the owner of a fresh request, on a root whose files name no turn yet. */
  lemma FailureOverOwner(s: State, w: nat, z: nat, v: nat, x: nat, y: nat)
    requires Reachable(s) && Open(s) && s.req.mode.Create? && !s.req.stop && !s.closing
    requires Failing(s, w) && Live(s, z) && PCOf(s, z).Ready? && ThreeSpare(s, v, x, y)
    requires s.claim.Dir? && s.claim.owner == Some(s.pids[z])
    requires s.pids[z] !in {s.pids[w], s.pids[v], s.pids[x], s.pids[y]}
    ensures LeadsToTwo(s)
  {
    Arrive(s);
    RaceOverOwner(s, s, w, z, v, x, y);
  }

  /** A failer over a queued root without a claim, whether or not its files name a turn. */
  lemma FailureOverQueue(s: State, w: nat, z: nat, v: nat, x: nat, y: nat)
    requires Reachable(s) && Open(s) && s.ack.phase.Queued? && s.claim.NoClaim?
    requires Identity(s.req, s.ack).Some? || (s.req.mode.Create? && !s.req.stop && !s.closing)
    requires Failing(s, w) && Spare(s, z) && ThreeSpare(s, v, x, y) && z !in {v, x, y}
    requires s.pids[z] !in {s.pids[w], s.pids[v], s.pids[x], s.pids[y]}
    ensures LeadsToTwo(s)
  {
    Arrive(s);
    RaceOverQueue(s, s, w, z, v, x, y);
  }

  /** A failer over a dead claim next to a scanner that once read a turn, whatever the files name by now. */
  lemma FailureBesideRecoverer(s: State, w: nat, p: Pid, v: nat, req: Request, ack: Ack, x: nat, y: nat)
    requires Reachable(s) && Open(s) && Failing(s, w) && DeadClaim(s, p) && TwoSpare(s, x, y)
    requires Live(s, v) && PCOf(s, v) == RequeueWait(req, ack, p)
    ensures LeadsToTwo(s)
  {
    Arrive(s);
    RaceBesideRecoverer(s, s, w, p, v, req, ack, x, y);
  }

  /**
   A failer over a dead claim, when nobody holds anything else than snapshots without a turn: two owners
   can follow exactly if the files name a turn. Otherwise nobody ever owns the root again.
   */
  lemma FailureOverDeadClaimExactly(s: State, w: nat, p: Pid, v: nat, x: nat, y: nat)
    requires Reachable(s) && Open(s) && Failing(s, w) && DeadClaim(s, p) && ThreeSpare(s, v, x, y)
    requires forall u: nat :: Live(s, u) ==> HoldStuck.Unaware(PCOf(s, u))
    ensures LeadsToTwo(s) <==> Identity(s.req, s.ack).Some?
    ensures !LeadsToTwo(s) ==> HoldStuck.Lost(s)
  {
    Arrive(s);
    if Identity(s.req, s.ack).Some? {
      RaceOverDeadClaim(s, s, w, p, v, x, y);
    } else {
      assert HoldStuck.Lost(s);
      if LeadsToTwo(s) {
        var t :| Leads(s, t) && TwoOwners(t);
        var a, b :| a != b && Owner(t, a) && Owner(t, b);
        HoldStuck.LostHasNoOwner(s, t, a);
      }
    }
  }

  const PROVISIONED := Request(Create, false, None)

  const STALE_ACK := Ack(Claimed, None)

  const DISPATCHED_ACK := Ack(Working, Some(0))

  /** The scenario's states: five workers of five processes, the first of which dies. */
  function Scene(
    req: Request, ack: Ack, claim: Claim, dead: bool, starts: seq<Start>,
    a: PC, b: PC, c: PC, d: PC, e: PC): State
  {
    var alive := if dead then {2, 3, 4, 5} else {1, 2, 3, 4, 5};
    State(req, ack, false, false, claim, None, alive, [1, 2, 3, 4, 5], Workers(a, b, c, d, e), starts)
  }

  function Workers(a: PC, b: PC, c: PC, d: PC, e: PC): seq<PC> {
    [a, b, c, d, e]
  }

  const FRESH := Scene(PROVISIONED, Ack(Queued, None), NoClaim, false, [], Idle, Idle, Idle, Idle, Idle)

  lemma ReachFresh()
    ensures Leads(FRESH, FRESH)
  {
    assert Run([FRESH]) && FRESH == [FRESH][0];
    Arrive(FRESH);
  }

  /** Worker 0 claims, and worker 2 reads the acknowledgement. */
  lemma ReachStaleRead()
    ensures Leads(FRESH, Scene(PROVISIONED, STALE_ACK, Dir(0, Some(1)), false, [],
                               Ready, Idle, Scanned(PROVISIONED, STALE_ACK), Idle, Idle))
  {
    ReachFresh();
    var t := TakeClaim(FRESH, FRESH, 0);
    t := TakeOwnership(FRESH, t, 0);
    assert t == Scene(PROVISIONED, STALE_ACK, Dir(0, Some(1)), false, [], Ready, Idle, Idle, Idle, Idle) by {
      assert t.pcs == Workers(Ready, Idle, Idle, Idle, Idle);
    }
    t := TakeScan(FRESH, t, 2);
    assert t.pcs == Workers(Ready, Idle, Scanned(PROVISIONED, STALE_ACK), Idle, Idle);
  }

  /** Worker 0 dispatches the first turn and its process dies. */
  lemma ReachOwnerDied()
    ensures Leads(FRESH, Scene(PROVISIONED, DISPATCHED_ACK, Dir(0, Some(1)), true, [First(0)],
                               Watching(PROVISIONED, Some(0)), Idle, Scanned(PROVISIONED, STALE_ACK), Idle, Idle))
  {
    ReachStaleRead();
    var s := Scene(PROVISIONED, STALE_ACK, Dir(0, Some(1)), false, [],
                   Ready, Idle, Scanned(PROVISIONED, STALE_ACK), Idle, Idle);
    var t := TakeFirstTurn(FRESH, s, 0);
    t := TakeDeath(FRESH, t, 1);
    assert t.pcs == Workers(Watching(PROVISIONED, Some(0)), Idle, Scanned(PROVISIONED, STALE_ACK), Idle, Idle);
  }

  /** Worker 2 finds the owner dead and enters the failing branch with its stale acknowledgement. */
  lemma ReachStaleEntry()
    ensures Leads(FRESH, Scene(PROVISIONED, DISPATCHED_ACK, Dir(0, Some(1)), true, [First(0)],
                               Watching(PROVISIONED, Some(0)), Idle, FailDead(1), Idle, Idle))
  {
    ReachOwnerDied();
    var s := Scene(PROVISIONED, DISPATCHED_ACK, Dir(0, Some(1)), true, [First(0)],
                   Watching(PROVISIONED, Some(0)), Idle, Scanned(PROVISIONED, STALE_ACK), Idle, Idle);
    s := TakeInspect(FRESH, s, 2, PROVISIONED, STALE_ACK, 1);
    assert s.pcs == Workers(Watching(PROVISIONED, Some(0)), Idle, FailDead(1), Idle, Idle);
  }

  /** Worker 1 recovers the claim, worker 2 deletes that of worker 3, and worker 4 claims the same root next to it. */
  lemma StaleFailureMakesTwoOwners()
    ensures exists s :: Reachable(s) && TwoOwners(s)
  {
    ReachStaleEntry();
    var s := Scene(PROVISIONED, DISPATCHED_ACK, Dir(0, Some(1)), true, [First(0)],
                   Watching(PROVISIONED, Some(0)), Idle, FailDead(1), Idle, Idle);
    RaceOverDeadClaim(FRESH, s, 2, 1, 1, 3, 4);
    var t :| Leads(FRESH, t) && TwoOwners(t);
    LeadsToReachable(FRESH, t);
  }

  /** A close can be recorded while a first dispatch is past its check, and the start is then sent. */
  lemma CloseIsOutrun()
    ensures exists s :: Reachable(s) && s.closing && HoldLatch.InDispatch(s) && HoldLatch.FurtherStart(s)
  {
    ReachFresh();
    var t := TakeClaim(FRESH, FRESH, 0);
    t := TakeOwnership(FRESH, t, 0);
    t := TakeCheck(FRESH, t, 0);
    var closed := t.(closing := true);
    Follow(FRESH, t, Stopping(1, RecordClose), closed);
    LeadsToReachable(FRESH, closed);
    assert Live(closed, 0) && HoldLatch.Cleared(PCOf(closed, 0));
    HoldLatch.DispatchCanStart(closed);
  }
}
