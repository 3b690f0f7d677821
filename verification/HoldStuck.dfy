/**
 Roots that nobody can take any more. A worker that dies between making the claim
 directory and writing its owner leaves a claim that no scan can judge; the claim of a
 dead owner that never named a turn is left alone unless the request was a create; and
 without a turn anywhere, failing a dead claim loses its root for good.
 */
module HoldStuck {
  import opened Basics
  import opened HoldRoot
  import opened HoldOwnership
  import opened HoldDispatch

  /** The dead claim of such a snapshot is neither recovered nor failed. */
  predicate Harmless(req: Request, ack: Ack) {
    Identity(req, ack).None? && !NeverStarted(req, ack)
  }

  /** An actor that neither is on the claim path nor has seen anything to recover or fail. */
  predicate Bystander(s: State, pc: PC)
    requires s.claim.Dir?
  {
    match pc
    case Idle => true
    case StopLocked => true
    case SawRequest(r) => s.claim.owner.None? || Harmless(r, s.ack)
    case Scanned(r, a) => s.claim.owner.None? || Harmless(r, a)
    case SawOwner(r, a, _) => Harmless(r, a)
    case _ => false
  }

  /** An abandoned claim without an owner, or of a dead owner that is left alone. */
  ghost predicate Stuck(s: State) {
    && !s.result && s.claim.Dir?
    && (s.claim.owner.Some? ==> s.claim.owner.value !in s.alive && Harmless(s.req, s.ack))
    && forall w: nat :: Live(s, w) ==> Bystander(s, PCOf(s, w))
  }

  /** What stays as it is. */
  ghost predicate Unmoved(s: State, t: State) {
    t.claim == s.claim && t.result == s.result && t.ack == s.ack && t.starts == s.starts
  }

  lemma ClaimKeepsStuck(s: State, w: nat, c: ClaimMove)
    requires Stuck(s) && Can(s, Claiming(w, c))
    ensures Stuck(DoClaim(s, w, c)) && Unmoved(s, DoClaim(s, w, c))
  {
    ClaimFrame(s, w, c);
    assert Bystander(s, PCOf(s, w));
  }

  lemma RequeueKeepsStuck(s: State, w: nat, r: RequeueMove)
    requires Stuck(s) && Can(s, Requeueing(w, r))
    ensures Stuck(DoRequeue(s, w, r)) && Unmoved(s, DoRequeue(s, w, r))
  {
    RequeueFrame(s, w, r);
    assert Bystander(s, PCOf(s, w));
  }

  lemma StopKeepsStuck(s: State, w: nat, m: StopMove)
    requires Stuck(s) && Can(s, Stopping(w, m))
    ensures Stuck(DoStop(s, w, m)) && Unmoved(s, DoStop(s, w, m))
  {
    StopFrame(s, w, m);
    assert Bystander(s, PCOf(s, w));
  }

  lemma BystanderHoldsNothing(s: State, w: nat, h: HoldMove)
    requires Stuck(s)
    ensures !Can(s, Holding(w, h))
  {
  }

  lemma StuckHasNoOwner(s: State, w: nat)
    requires Stuck(s)
    ensures !Owner(s, w)
  {
  }

  lemma StepKeepsStuck(s: State, a: Action)
    requires Stuck(s) && Can(s, a)
    ensures Stuck(Do(s, a)) && Unmoved(s, Do(s, a))
  {
    match a
    case Claiming(w, c) => ClaimKeepsStuck(s, w, c);
    case Holding(w, h) => BystanderHoldsNothing(s, w, h);
    case Requeueing(w, r) => RequeueKeepsStuck(s, w, r);
    case Stopping(w, m) => StopKeepsStuck(s, w, m);
    case _ => Frame(s, a);
  }

  lemma NextStuck(ss: seq<State>, i: nat)
    requires Run(ss) && i + 1 < |ss| && Stuck(ss[i])
    ensures Stuck(ss[i + 1]) && Unmoved(ss[i], ss[i + 1])
  {
    var a := ActionAt(ss, i);
    StepKeepsStuck(ss[i], a);
  }

  /** A stuck root is stuck for ever: no result, no further start, no owner, and the claim stays. */
  lemma {:induction false} StuckForever(ss: seq<State>, i: nat, j: nat)
    requires Run(ss) && i <= j < |ss| && Stuck(ss[i])
    ensures Stuck(ss[j]) && Unmoved(ss[i], ss[j])
    ensures forall w: nat :: !Owner(ss[j], w)
  {
    if i < j {
      StuckForever(ss, i, j - 1);
      NextStuck(ss, j - 1);
    }
    forall w: nat
      ensures !Owner(ss[j], w)
    {
      StuckHasNoOwner(ss[j], w);
    }
  }

  /** An actor between scans or with a snapshot that names no turn, outside every block that moves a claim. */
  predicate Unaware(pc: PC) {
    && NoTurnSeen(pc) && !OnPath(pc) && !InFail(pc) && !InRequeue(pc)
    && !pc.CloseQueued? && !pc.CloseResult? && !pc.CloseAck?
  }

  /** An actor that neither owns the root, nor can come to own it, nor can recover it. */
  predicate Powerless(pc: PC) {
    NoTurnSeen(pc) && !Acts(pc) && !InRequeue(pc) && !pc.Passed? && !(pc.Rechecking? && pc.ack.phase.Queued?)
  }

  /** A dead or unowned claim is in the way of a queued acknowledgement. */
  predicate Blocked(s: State) {
    !s.result && s.claim.Dir? && (s.claim.owner.Some? ==> s.claim.owner.value !in s.alive)
  }

  /** No turn is named anywhere, and this actor cannot pass a claim. */
  predicate LostTo(s: State, w: nat)
    requires Live(s, w)
  {
    && s.req.turn.None? && s.ack.turn.None? && Powerless(PCOf(s, w))
    && (s.ack.phase.Queued? ==> Blocked(s) && Unaware(PCOf(s, w)))
  }

  ghost predicate Lost(s: State) {
    && s.req.turn.None? && s.ack.turn.None? && (s.ack.phase.Queued? ==> Blocked(s))
    && forall w: nat :: Live(s, w) ==> LostTo(s, w)
  }

  /** A step of an actor that the root is lost to. */
  predicate Wasted(s: State, t: State, w: nat)
    requires Live(s, w)
  {
    && Live(t, w) && LostTo(t, w) && t.starts == s.starts && t.alive == s.alive
    && (t.ack.phase.Queued? ==> s.ack.phase.Queued? && t.claim == s.claim)
  }

  lemma ReadIsWasted(s: State, w: nat, c: ClaimMove)
    requires Can(s, Claiming(w, c)) && LostTo(s, w)
    requires c.ScanRequest? || c.ScanAck? || c.RecheckRead? || c.RecheckPass? || c.RecheckFail?
    ensures Wasted(s, DoClaim(s, w, c), w)
  {
  }

  lemma WriteIsWasted(s: State, w: nat, c: ClaimMove)
    requires Can(s, Claiming(w, c)) && LostTo(s, w)
    requires c.MakeDir? || c.WriteOwner? || c.WriteClaimed? || c.UndoOwner? || c.UndoRmdir?
    ensures Wasted(s, DoClaim(s, w, c), w)
  {
  }

  lemma ClaimIsWasted(s: State, w: nat, c: ClaimMove)
    requires Can(s, Claiming(w, c)) && LostTo(s, w)
    ensures Wasted(s, DoClaim(s, w, c), w)
  {
    if c.ScanRequest? || c.ScanAck? || c.RecheckRead? || c.RecheckPass? || c.RecheckFail? {
      ReadIsWasted(s, w, c);
    } else {
      WriteIsWasted(s, w, c);
    }
  }

  lemma RequeueIsWasted(s: State, w: nat, r: RequeueMove)
    requires Can(s, Requeueing(w, r)) && LostTo(s, w)
    ensures Wasted(s, DoRequeue(s, w, r), w)
  {
  }

  lemma FlagIsWasted(s: State, w: nat, m: StopMove)
    requires Can(s, Stopping(w, m)) && LostTo(s, w) && (m.RecordClose? || m.LockStop? || m.WriteStop?)
    ensures Wasted(s, DoStop(s, w, m), w)
  {
  }

  lemma CancelIsWasted(s: State, w: nat, m: StopMove)
    requires Can(s, Stopping(w, m)) && LostTo(s, w) && !(m.RecordClose? || m.LockStop? || m.WriteStop?)
    ensures Wasted(s, DoStop(s, w, m), w)
  {
  }

  lemma StopIsWasted(s: State, w: nat, m: StopMove)
    requires Can(s, Stopping(w, m)) && LostTo(s, w)
    ensures Wasted(s, DoStop(s, w, m), w)
  {
    if m.RecordClose? || m.LockStop? || m.WriteStop? {
      FlagIsWasted(s, w, m);
    } else {
      CancelIsWasted(s, w, m);
    }
  }

  lemma PowerlessHoldNothing(s: State, w: nat, h: HoldMove)
    requires Lost(s)
    ensures !Can(s, Holding(w, h))
  {
    assert Live(s, w) ==> LostTo(s, w);
  }

  lemma WastedKeepsLost(s: State, t: State, w: nat)
    requires Lost(s) && Live(s, w) && Framed(s, t, Some(w)) && Wasted(s, t, w)
    ensures Lost(t)
  {
    forall v: nat | Live(t, v)
      ensures LostTo(t, v)
    {
      assert LostTo(s, v);
    }
  }

  lemma CalmKeepsLost(s: State, a: Action)
    requires Lost(s) && Can(s, a) && (a.Abort? || a.World?)
    ensures Lost(Do(s, a)) && Do(s, a).starts == s.starts
  {
    Frame(s, a);
    forall v: nat | Live(Do(s, a), v)
      ensures LostTo(Do(s, a), v)
    {
      assert LostTo(s, v);
    }
  }

  lemma StepKeepsLost(s: State, a: Action)
    requires Lost(s) && Can(s, a)
    ensures Lost(Do(s, a)) && Do(s, a).starts == s.starts
  {
    match a
    case Claiming(w, c) =>
      ClaimFrame(s, w, c);
      ClaimIsWasted(s, w, c);
      WastedKeepsLost(s, DoClaim(s, w, c), w);
    case Holding(w, h) => PowerlessHoldNothing(s, w, h);
    case Requeueing(w, r) =>
      RequeueFrame(s, w, r);
      RequeueIsWasted(s, w, r);
      WastedKeepsLost(s, DoRequeue(s, w, r), w);
    case Stopping(w, m) =>
      StopFrame(s, w, m);
      StopIsWasted(s, w, m);
      WastedKeepsLost(s, DoStop(s, w, m), w);
    case _ => CalmKeepsLost(s, a);
  }

  lemma NextLost(ss: seq<State>, i: nat)
    requires Run(ss) && i + 1 < |ss| && Lost(ss[i])
    ensures Lost(ss[i + 1]) && ss[i + 1].starts == ss[i].starts
  {
    var a := ActionAt(ss, i);
    StepKeepsLost(ss[i], a);
  }

  /** A lost root is lost for ever: no owner and no further start. */
  lemma {:induction false} LostForever(ss: seq<State>, i: nat, j: nat)
    requires Run(ss) && i <= j < |ss| && Lost(ss[i])
    ensures Lost(ss[j]) && ss[j].starts == ss[i].starts
    ensures forall w: nat :: !Owner(ss[j], w)
  {
    if i < j {
      LostForever(ss, i, j - 1);
      NextLost(ss, j - 1);
    }
    assert forall w: nat :: Live(ss[j], w) ==> LostTo(ss[j], w);
  }

  lemma LostHasNoOwner(s: State, t: State, w: nat)
    requires Lost(s) && Leads(s, t)
    ensures !Owner(t, w)
  {
    var ss: seq<State>, i: nat :| Run(ss) && i < |ss| && ss[i] == s && ss[|ss| - 1] == t;
    LostForever(ss, i, |ss| - 1);
  }

  /** A fresh root with one worker. */
  function FreshRoot(mode: Mode): State {
    State(Request(mode, false, None), Ack(Queued, None), false, false, NoClaim, None, {1}, [1], [Idle], [])
  }

  /** The worker scans the root and makes the claim directory. */
  lemma ReachMadeDir(mode: Mode) returns (t: State)
    requires !mode.Recover?
    ensures Reachable(t) && t == Goto(FreshRoot(mode), 0, MadeDir).(claim := Dir(0, None))
  {
    var s := FreshRoot(mode);
    assert Run([s]) && s == [s][0];
    var seen := Goto(s, 0, SawRequest(s.req));
    Take(s, Claiming(0, ScanRequest), seen);
    var read := Goto(s, 0, Scanned(s.req, s.ack));
    Take(seen, Claiming(0, ScanAck), read);
    t := Goto(s, 0, MadeDir).(claim := Dir(0, None));
    Take(read, Claiming(0, MakeDir), t);
  }

  /** A worker that dies right after its mkdir leaves a stuck root, whatever the request. */
  lemma UnownedClaimIsReachable(mode: Mode)
    requires !mode.Recover?
    ensures exists s :: Reachable(s) && s.req.mode == mode && s.claim == Dir(0, None) && Stuck(s)
  {
    var s := ReachMadeDir(mode);
    var t := s.(alive := s.alive - {1});
    Take(s, World(Die(1)), t);
    assert t.req.mode == mode && t.claim == Dir(0, None);
  }

  /** The worker of a resume, at some position of its claim. */
  function ResumeRoot(pc: PC, ack: Ack): State {
    FreshRoot(Resume).(claim := Dir(0, Some(1)), ack := ack, pcs := [pc])
  }

  lemma ReachRechecking()
    ensures Reachable(ResumeRoot(Rechecking(Ack(Queued, None)), Ack(Queued, None)))
  {
    var s := ReachMadeDir(Resume);
    var t := ResumeRoot(WroteOwner, s.ack);
    assert t.pcs == s.pcs[0 := WroteOwner];
    Take(s, Claiming(0, WriteOwner), t);
    var u := ResumeRoot(Rechecking(s.ack), s.ack);
    assert u.pcs == t.pcs[0 := Rechecking(s.ack)];
    Take(t, Claiming(0, RecheckRead), u);
  }

  lemma ReachClaimedResume()
    ensures Reachable(ResumeRoot(Ready, Ack(Claimed, None)))
  {
    ReachRechecking();
    var s := ResumeRoot(Rechecking(Ack(Queued, None)), Ack(Queued, None));
    var t := ResumeRoot(Passed(s.ack), s.ack);
    assert t.pcs == s.pcs[0 := Passed(s.ack)];
    Take(s, Claiming(0, RecheckPass), t);
    var u := ResumeRoot(Ready, Ack(Claimed, None));
    assert u.pcs == t.pcs[0 := Ready];
    Take(t, Claiming(0, WriteClaimed), u);
  }

  /** So does a worker that dies after claiming a resume, before its turn has a name. */
  lemma UnnamedResumeIsReachable()
    ensures exists s :: Reachable(s) && s.req.mode.Resume? && s.claim == Dir(0, Some(1)) && Stuck(s)
  {
    ReachClaimedResume();
    var s := ResumeRoot(Ready, Ack(Claimed, None));
    var t := s.(alive := s.alive - {1});
    Take(s, World(Die(1)), t);
    assert t.req.mode.Resume? && t.claim == Dir(0, Some(1));
  }
}
