/**
 Who owns a Hold root.

 The unlocked branch that fails a dead claim without a turn acts on a snapshot of
 the acknowledgement. With a stale snapshot it deletes the claim of a live
 recoverer, and two live owners can follow (`StaleFailureMakesTwoOwners`). Ownership
 stays in order in exactly the runs where that branch's own guard still holds of the
 files on disk when the owner is found dead (`OwnershipExactly`), and there is then at
 most one live owner (`SingleOwner`).
 */
module HoldOwnership {
  import opened Basics
  import opened HoldRoot
  import opened HoldDispatch
  import HoldLatch

  /** An actor that acts for the Hold: its claim succeeded and it has not released yet. */
  predicate Acts(pc: PC) {
    InHold(pc) || InRelease(pc)
  }

  predicate Owner(s: State, w: nat) {
    Live(s, w) && Acts(PCOf(s, w))
  }

  /** Anywhere between mkdir and the end of the release. */
  predicate OnPath(pc: PC) {
    InClaim(pc) || InUndo(pc) || Acts(pc)
  }

  predicate DeadClaim(s: State, p: Pid) {
    s.claim.Dir? && s.claim.owner == Some(p) && p !in s.alive
  }

  predicate Unsent(s: State) {
    !s.req.mode.Recover? && Firsts(s.starts) == 0
  }

  /** Before the first dispatch no turn has a name anywhere, so no recovery is under way. */
  ghost predicate UnsentInv(s: State) {
    Unsent(s) ==>
      && s.req.turn.None? && s.ack.turn.None?
      && forall w: nat :: Live(s, w) ==>
           var pc := PCOf(s, w);
           && NoTurnSeen(pc) && !InRequeue(pc)
           && (pc.Loaded? || pc.FirstLocked? ==> !pc.req.mode.Recover?)
           && (InHold(pc) ==> pc.Ready? || pc.Loaded? || pc.FirstLocked? || pc.FirstChecked? || pc.FirstStarting?)
  }

  /** After the first dispatch the failing branch's guard is false on disk for good. */
  ghost predicate SentInv(s: State) {
    && (!s.req.mode.Recover? && Firsts(s.starts) > 0 ==> s.ack.phase.Working? || s.ack.phase.Closed?)
    && (forall w: nat :: Live(s, w) && PCOf(s, w).FirstStarting? ==>
          s.req.mode.Recover? || s.ack.phase.Working? || s.ack.phase.Closed?)
  }

  /** A failed root: its ack is closed for good and nobody can pass the recheck any more. */
  ghost predicate DeadRoot(s: State) {
    && Unsent(s) && s.ack.phase.Closed?
    && forall w: nat :: Live(s, w) ==>
         var pc := PCOf(s, w);
         !Acts(pc) && !pc.Passed? && !(pc.Rechecking? && pc.ack.phase.Queued?)
  }

  /** A scanner is about to fail the claim that it read as dead. */
  predicate Failing(s: State, w: nat) {
    Live(s, w) && PCOf(s, w).FailDead?
  }

  /**
   Whoever enters the unlocked branch finds its guard on disk: the root is over or failed already, or the
   files as they are now still show a dead claim that never reached a turn.
   */
  ghost predicate Guarded(s: State, t: State) {
    forall w: nat :: Failing(t, w) && Live(s, w) && !PCOf(s, w).FailDead? ==>
      || s.result || DeadRoot(s)
      || (NeverStarted(s.req, s.ack) && DeadClaim(s, PCOf(t, w).pid))
  }

  ghost predicate GuardedAt(ss: seq<State>, i: nat)
    requires i + 1 < |ss|
  {
    Guarded(ss[i], ss[i + 1])
  }

  ghost predicate GuardedRun(ss: seq<State>) {
    Run(ss) && forall i: nat :: i + 1 < |ss| ==> GuardedAt(ss, i)
  }

  ghost predicate NobodyOnPath(s: State) {
    forall w: nat :: Live(s, w) ==> !OnPath(PCOf(s, w))
  }

  /** Without a result and outside a failed root, whoever is on the path made the claim. */
  ghost predicate PathInv(s: State) {
    !s.result && !DeadRoot(s) ==>
      forall w: nat :: Live(s, w) && OnPath(PCOf(s, w)) ==>
        && s.claim.Dir? && s.claim.maker == w
        && (s.claim.owner.None? || s.claim.owner.value == s.pids[w])
  }

  /** A failer acts on a dead claim that nobody can take, or on a failed root. */
  ghost predicate FailInv(s: State) {
    !s.result ==> forall w: nat :: Live(s, w) ==>
      var pc := PCOf(s, w);
      && (pc.FailDead? ==>
            DeadRoot(s) || (NeverStarted(s.req, s.ack) && Unsent(s) && DeadClaim(s, pc.pid) && NobodyOnPath(s)))
      && (InFail(pc) ==> DeadRoot(s))
  }

  /** A recoverer past its recheck still faces the dead claim it inspected. */
  ghost predicate RequeueInv(s: State) {
    forall w: nat :: Live(s, w) ==>
      var pc := PCOf(s, w);
      && (pc.RequeueWait? || pc.RequeueLocked? || pc.RequeueChecked? ==> pc.pid !in s.alive)
      && (!s.result && (pc.RequeueChecked? || pc.RequeueWroteRequest? || pc.RequeueWroteAck?) ==>
            DeadClaim(s, pc.pid))
      && (!s.result && pc.RequeueReleaseDir? ==> s.claim.Dir? && s.claim.owner.None? && NobodyOnPath(s))
  }

  predicate Hot(s: State, w: nat) {
    Live(s, w) && (PCOf(s, w).Passed? || Acts(PCOf(s, w)))
  }

  ghost predicate OneHot(s: State) {
    forall v: nat, w: nat :: Hot(s, v) && Hot(s, w) ==> v == w
  }

  ghost predicate Known(s: State) {
    HoldLatch.LockInv(s) && HoldLatch.CheckedInv(s) && Inv(s) && UnsentInv(s) && SentInv(s)
  }

  ghost predicate OwnInv(s: State) {
    Known(s) && PathInv(s) && FailInv(s) && RequeueInv(s) && OneHot(s)
  }

  // UnsentInv and SentInv need no guard

  lemma ScanKeepsUnsent(s: State, w: nat, c: ClaimMove)
    requires UnsentInv(s) && Can(s, Claiming(w, c))
    requires c.ScanRequest? || c.ScanAck? || c.RecheckRead?
    ensures UnsentInv(DoClaim(s, w, c))
  {
    ClaimFrame(s, w, c);
    assert Unsent(DoClaim(s, w, c)) ==> Unsent(s);
  }

  lemma DirKeepsUnsent(s: State, w: nat, c: ClaimMove)
    requires UnsentInv(s) && Can(s, Claiming(w, c))
    requires c.MakeDir? || c.WriteOwner?
    ensures UnsentInv(DoClaim(s, w, c))
  {
    ClaimFrame(s, w, c);
    assert Unsent(DoClaim(s, w, c)) ==> Unsent(s);
  }

  lemma RecheckKeepsUnsent(s: State, w: nat, c: ClaimMove)
    requires UnsentInv(s) && Can(s, Claiming(w, c))
    requires c.RecheckPass? || c.RecheckFail? || c.WriteClaimed?
    ensures UnsentInv(DoClaim(s, w, c))
  {
    ClaimFrame(s, w, c);
    assert Unsent(DoClaim(s, w, c)) ==> Unsent(s);
  }

  lemma UndoKeepsUnsent(s: State, w: nat, c: ClaimMove)
    requires UnsentInv(s) && Can(s, Claiming(w, c))
    requires c.UndoOwner? || c.UndoRmdir?
    ensures UnsentInv(DoClaim(s, w, c))
  {
    ClaimFrame(s, w, c);
    assert Unsent(DoClaim(s, w, c)) ==> Unsent(s);
  }

  lemma ClaimKeepsUnsent(s: State, w: nat, c: ClaimMove)
    requires UnsentInv(s) && Can(s, Claiming(w, c))
    ensures UnsentInv(DoClaim(s, w, c))
  {
    if c.ScanRequest? || c.ScanAck? || c.RecheckRead? {
      ScanKeepsUnsent(s, w, c);
    } else if c.MakeDir? || c.WriteOwner? {
      DirKeepsUnsent(s, w, c);
    } else if c.RecheckPass? || c.RecheckFail? || c.WriteClaimed? {
      RecheckKeepsUnsent(s, w, c);
    } else {
      UndoKeepsUnsent(s, w, c);
    }
  }

  lemma FirstKeepsUnsent(s: State, w: nat, h: HoldMove)
    requires UnsentInv(s) && Can(s, Holding(w, h))
    requires h.Load? || h.LockFirst? || h.CheckFirst? || h.StartFirst? || h.SendFirst?
    ensures UnsentInv(DoHold(s, w, h))
  {
    HoldFrame(s, w, h);
    if Unsent(s) {
      assert h.SendFirst? ==> Firsts(DoHold(s, w, h).starts) == 1 by { StartsGrow(s, Holding(w, h)); }
    } else {
      assert !Unsent(DoHold(s, w, h)) by { StartsGrow(s, Holding(w, h)); }
    }
  }

  lemma LaterKeepsUnsent(s: State, w: nat, h: HoldMove)
    requires UnsentInv(s) && Can(s, Holding(w, h))
    requires h.Hold? || h.Attach? || h.Report? || h.LockNext? || h.CheckNext? || h.SendNext? || h.BindNext?
    ensures UnsentInv(DoHold(s, w, h))
  {
    HoldFrame(s, w, h);
    assert Unsent(DoHold(s, w, h)) ==> Unsent(s);
  }

  lemma ResultKeepsUnsent(s: State, w: nat, h: HoldMove)
    requires UnsentInv(s) && Can(s, Holding(w, h))
    requires h.End? || h.WriteResult? || h.WriteFinalAck?
    ensures UnsentInv(DoHold(s, w, h))
  {
    HoldFrame(s, w, h);
    assert Unsent(DoHold(s, w, h)) ==> Unsent(s);
  }

  lemma ReleaseKeepsUnsent(s: State, w: nat, h: HoldMove)
    requires UnsentInv(s) && Can(s, Holding(w, h))
    requires h.BeginRelease? || h.LeaveClaim? || h.ReleaseOwner? || h.ReleaseRmdir?
    ensures UnsentInv(DoHold(s, w, h))
  {
    HoldFrame(s, w, h);
    assert Unsent(DoHold(s, w, h)) ==> Unsent(s);
  }

  lemma HoldKeepsUnsent(s: State, w: nat, h: HoldMove)
    requires UnsentInv(s) && Can(s, Holding(w, h))
    ensures UnsentInv(DoHold(s, w, h))
  {
    if h.Load? || h.LockFirst? || h.CheckFirst? || h.StartFirst? || h.SendFirst? {
      FirstKeepsUnsent(s, w, h);
    } else if h.Hold? || h.Attach? || h.Report? || h.LockNext? || h.CheckNext? || h.SendNext? || h.BindNext? {
      LaterKeepsUnsent(s, w, h);
    } else if h.End? || h.WriteResult? || h.WriteFinalAck? {
      ResultKeepsUnsent(s, w, h);
    } else {
      ReleaseKeepsUnsent(s, w, h);
    }
  }

  lemma RequeueKeepsUnsent(s: State, w: nat, r: RequeueMove)
    requires UnsentInv(s) && Can(s, Requeueing(w, r))
    ensures UnsentInv(DoRequeue(s, w, r))
  {
    RequeueFrame(s, w, r);
    assert Unsent(DoRequeue(s, w, r)) ==> Unsent(s);
  }

  lemma NeutralKeepsUnsent(s: State, w: nat, t: State)
    requires UnsentInv(s) && Live(s, w) && Framed(s, t, Some(w)) && Neutral(s, w, t)
    ensures UnsentInv(t)
  {
  }

  lemma StopKeepsUnsent(s: State, w: nat, m: StopMove)
    requires UnsentInv(s) && Can(s, Stopping(w, m))
    ensures UnsentInv(DoStop(s, w, m))
  {
    StopFrame(s, w, m);
    StopIsNeutral(s, w, m);
    NeutralKeepsUnsent(s, w, DoStop(s, w, m));
  }

  lemma CalmKeepsUnsent(s: State, a: Action)
    requires UnsentInv(s) && Can(s, a) && (a.Abort? || a.World?)
    ensures UnsentInv(Do(s, a))
  {
    Frame(s, a);
    assert Unsent(Do(s, a)) ==> Unsent(s);
  }

  lemma StepKeepsUnsent(s: State, a: Action)
    requires UnsentInv(s) && Can(s, a)
    ensures UnsentInv(Do(s, a))
  {
    match a
    case Claiming(w, c) => ClaimKeepsUnsent(s, w, c);
    case Holding(w, h) => HoldKeepsUnsent(s, w, h);
    case Requeueing(w, r) => RequeueKeepsUnsent(s, w, r);
    case Stopping(w, m) => StopKeepsUnsent(s, w, m);
    case _ => CalmKeepsUnsent(s, a);
  }

  lemma ClaimKeepsSent(s: State, w: nat, c: ClaimMove)
    requires Inv(s) && SentInv(s) && Can(s, Claiming(w, c))
    ensures SentInv(Do(s, Claiming(w, c)))
  {
    ClaimFrame(s, w, c);
    StartsGrow(s, Claiming(w, c));
    forall v: nat | Live(s, v) && (PCOf(s, v).FirstChecked? || PCOf(s, v).FirstStarting? || PCOf(s, v).Passed?)
      ensures s.req.mode.Recover? || Right(s, v)
    {
    }
  }

  /** What a holder step does to the acknowledgement and to the count of first dispatches. */
  ghost predicate HoldEffect(s: State, w: nat, t: State)
    requires Live(s, w)
  {
    && t.req.mode == s.req.mode
    && (|| t.ack.phase == s.ack.phase || t.ack.phase.Working? || t.ack.phase.Closed?
        || (PCOf(s, w).FirstChecked? && Firsts(t.starts) == Firsts(s.starts) && t.pcs == s.pcs))
    && (Firsts(t.starts) > Firsts(s.starts) ==> PCOf(s, w).FirstStarting? && t.ack == s.ack)
    && (Live(t, w) && PCOf(t, w).FirstStarting? ==> PCOf(s, w).FirstStarting? || t.ack.phase.Working?)
  }

  lemma FirstHasEffect(s: State, w: nat, h: HoldMove)
    requires Can(s, Holding(w, h)) && (h.Load? || h.LockFirst? || h.CheckFirst? || h.StartFirst? || h.SendFirst?)
    ensures HoldEffect(s, w, DoHold(s, w, h))
  {
    StartsGrow(s, Holding(w, h));
  }

  lemma LaterHasEffect(s: State, w: nat, h: HoldMove)
    requires Can(s, Holding(w, h)) && !(h.Load? || h.LockFirst? || h.CheckFirst? || h.StartFirst? || h.SendFirst?)
    ensures HoldEffect(s, w, DoHold(s, w, h))
  {
    StartsGrow(s, Holding(w, h));
  }

  lemma HoldHasEffect(s: State, w: nat, h: HoldMove)
    requires Can(s, Holding(w, h))
    ensures HoldEffect(s, w, DoHold(s, w, h))
  {
    if h.Load? || h.LockFirst? || h.CheckFirst? || h.StartFirst? || h.SendFirst? {
      FirstHasEffect(s, w, h);
    } else {
      LaterHasEffect(s, w, h);
    }
  }

  lemma EffectKeepsSent(s: State, w: nat, t: State)
    requires Inv(s) && SentInv(s) && Live(s, w) && HoldEffect(s, w, t) && Framed(s, t, Some(w))
    ensures SentInv(t)
  {
    forall v: nat | Live(s, v) && (PCOf(s, v).FirstChecked? || PCOf(s, v).FirstStarting?)
      ensures s.req.mode.Recover? || Right(s, v)
    {
    }
  }

  lemma HoldKeepsSent(s: State, w: nat, h: HoldMove)
    requires Inv(s) && SentInv(s) && Can(s, Holding(w, h))
    ensures SentInv(DoHold(s, w, h))
  {
    HoldFrame(s, w, h);
    HoldHasEffect(s, w, h);
    EffectKeepsSent(s, w, DoHold(s, w, h));
  }

  lemma RequeueKeepsSent(s: State, w: nat, r: RequeueMove)
    requires Inv(s) && SentInv(s) && Can(s, Requeueing(w, r))
    ensures SentInv(Do(s, Requeueing(w, r)))
  {
    RequeueFrame(s, w, r);
    StartsGrow(s, Requeueing(w, r));
    forall v: nat | Live(s, v) && (PCOf(s, v).FirstChecked? || PCOf(s, v).FirstStarting? || PCOf(s, v).Passed?)
      ensures s.req.mode.Recover? || Right(s, v)
    {
    }
  }

  lemma StopKeepsSent(s: State, w: nat, m: StopMove)
    requires Inv(s) && SentInv(s) && Can(s, Stopping(w, m))
    ensures SentInv(Do(s, Stopping(w, m)))
  {
    StopFrame(s, w, m);
    StartsGrow(s, Stopping(w, m));
    forall v: nat | Live(s, v) && (PCOf(s, v).FirstChecked? || PCOf(s, v).FirstStarting? || PCOf(s, v).Passed?)
      ensures s.req.mode.Recover? || Right(s, v)
    {
    }
  }

  lemma CalmKeepsSent(s: State, a: Action)
    requires Inv(s) && SentInv(s) && Can(s, a) && (a.Abort? || a.World?)
    ensures SentInv(Do(s, a))
  {
    Frame(s, a);
    StartsGrow(s, a);
    forall v: nat | Live(s, v) && (PCOf(s, v).FirstChecked? || PCOf(s, v).FirstStarting? || PCOf(s, v).Passed?)
      ensures s.req.mode.Recover? || Right(s, v)
    {
    }
  }

  lemma StepKeepsSent(s: State, a: Action)
    requires Inv(s) && SentInv(s) && Can(s, a)
    ensures SentInv(Do(s, a))
  {
    match a
    case Claiming(w, c) => ClaimKeepsSent(s, w, c);
    case Holding(w, h) => HoldKeepsSent(s, w, h);
    case Requeueing(w, r) => RequeueKeepsSent(s, w, r);
    case Stopping(w, m) => StopKeepsSent(s, w, m);
    case _ => CalmKeepsSent(s, a);
  }

  // Guarded steps keep the claim with its live owner

  /** A failed root stays failed until a result is written. */
  ghost predicate DeadKept(s: State, t: State) {
    !s.result && DeadRoot(s) ==> DeadRoot(t)
  }

  lemma ClaimKeepsDeadRoot(s: State, w: nat, c: ClaimMove)
    requires DeadRoot(s) && Can(s, Claiming(w, c))
    ensures DeadRoot(Do(s, Claiming(w, c)))
  {
    ClaimFrame(s, w, c);
    StartsGrow(s, Claiming(w, c));
  }

  /** Nobody acts on a failed root. */
  lemma DeadRootHoldsNobody(s: State, w: nat, h: HoldMove)
    requires DeadRoot(s)
    ensures !Can(s, Holding(w, h))
  {
  }

  lemma RequeueKeepsDeadRoot(s: State, w: nat, r: RequeueMove)
    requires UnsentInv(s) && DeadRoot(s) && Can(s, Requeueing(w, r))
    ensures DeadRoot(Do(s, Requeueing(w, r)))
  {
    RequeueFrame(s, w, r);
    StartsGrow(s, Requeueing(w, r));
  }

  lemma StopKeepsDeadRoot(s: State, w: nat, m: StopMove)
    requires DeadRoot(s) && Can(s, Stopping(w, m))
    ensures DeadRoot(Do(s, Stopping(w, m)))
  {
    StopFrame(s, w, m);
    StartsGrow(s, Stopping(w, m));
  }

  lemma CalmKeepsDeadRoot(s: State, a: Action)
    requires DeadRoot(s) && Can(s, a) && (a.Abort? || a.World?)
    ensures DeadRoot(Do(s, a))
  {
    Frame(s, a);
    StartsGrow(s, a);
  }

  lemma StepKeepsDeadRoot(s: State, a: Action)
    requires UnsentInv(s) && DeadRoot(s) && Can(s, a)
    ensures DeadRoot(Do(s, a))
  {
    match a
    case Claiming(w, c) => ClaimKeepsDeadRoot(s, w, c);
    case Holding(w, h) => DeadRootHoldsNobody(s, w, h);
    case Requeueing(w, r) => RequeueKeepsDeadRoot(s, w, r);
    case Stopping(w, m) => StopKeepsDeadRoot(s, w, m);
    case _ => CalmKeepsDeadRoot(s, a);
  }

  // One clause of the invariant at a time, one group of actions at a time.

  lemma EntryKeepsPath(s: State, w: nat, c: ClaimMove)
    requires PathInv(s) && Can(s, Claiming(w, c))
    requires c.MakeDir? || c.WriteOwner?
    requires DeadKept(s, DoClaim(s, w, c))
    ensures PathInv(DoClaim(s, w, c))
  {
    ClaimFrame(s, w, c);
  }

  lemma ScanKeepsPath(s: State, w: nat, c: ClaimMove)
    requires PathInv(s) && Can(s, Claiming(w, c))
    requires c.ScanRequest? || c.ScanAck? || c.RecheckRead? || c.RecheckPass? || c.RecheckFail?
    requires DeadKept(s, DoClaim(s, w, c))
    ensures PathInv(DoClaim(s, w, c))
  {
    ClaimFrame(s, w, c);
  }

  lemma ExitKeepsPath(s: State, w: nat, c: ClaimMove)
    requires PathInv(s) && Can(s, Claiming(w, c))
    requires c.WriteClaimed? || c.UndoOwner? || c.UndoRmdir?
    requires DeadKept(s, DoClaim(s, w, c))
    ensures PathInv(DoClaim(s, w, c))
  {
    ClaimFrame(s, w, c);
  }

  lemma ClaimKeepsPath(s: State, w: nat, c: ClaimMove)
    requires PathInv(s) && Can(s, Claiming(w, c))
    requires DeadKept(s, DoClaim(s, w, c))
    ensures PathInv(DoClaim(s, w, c))
  {
    if c.MakeDir? || c.WriteOwner? {
      EntryKeepsPath(s, w, c);
    } else if c.ScanRequest? || c.ScanAck? || c.RecheckRead? || c.RecheckPass? || c.RecheckFail? {
      ScanKeepsPath(s, w, c);
    } else {
      ExitKeepsPath(s, w, c);
    }
  }

  lemma HoldKeepsPath(s: State, w: nat, h: HoldMove)
    requires PathInv(s) && Can(s, Holding(w, h))
    requires DeadKept(s, DoHold(s, w, h))
    ensures PathInv(DoHold(s, w, h))
  {
    HoldFrame(s, w, h);
  }

  lemma FailKeepsPath(s: State, w: nat, r: RequeueMove)
    requires PathInv(s) && FailInv(s) && RequeueInv(s) && Can(s, Requeueing(w, r))
    requires r.SeeOwner? || r.FindDead? || r.WriteFailed? || r.FailOwner? || r.FailRmdir?
    requires DeadKept(s, DoRequeue(s, w, r))
    ensures PathInv(DoRequeue(s, w, r))
  {
    RequeueFrame(s, w, r);
  }

  lemma WaitKeepsPath(s: State, w: nat, r: RequeueMove)
    requires PathInv(s) && FailInv(s) && RequeueInv(s) && Can(s, Requeueing(w, r))
    requires r.LockRequeue? || r.RecheckOwner?
    requires DeadKept(s, DoRequeue(s, w, r))
    ensures PathInv(DoRequeue(s, w, r))
  {
    RequeueFrame(s, w, r);
  }

  lemma RewriteKeepsPath(s: State, w: nat, r: RequeueMove)
    requires PathInv(s) && FailInv(s) && RequeueInv(s) && Can(s, Requeueing(w, r))
    requires r.WriteRecovered? || r.WriteQueued?
    requires DeadKept(s, DoRequeue(s, w, r))
    ensures PathInv(DoRequeue(s, w, r))
  {
    RequeueFrame(s, w, r);
  }

  lemma RecoverKeepsPath(s: State, w: nat, r: RequeueMove)
    requires PathInv(s) && FailInv(s) && RequeueInv(s) && Can(s, Requeueing(w, r))
    requires r.RequeueOwner? || r.RequeueRmdir?
    requires DeadKept(s, DoRequeue(s, w, r))
    ensures PathInv(DoRequeue(s, w, r))
  {
    RequeueFrame(s, w, r);
  }

  lemma RequeueKeepsPath(s: State, w: nat, r: RequeueMove)
    requires PathInv(s) && FailInv(s) && RequeueInv(s) && Can(s, Requeueing(w, r))
    requires DeadKept(s, DoRequeue(s, w, r))
    ensures PathInv(DoRequeue(s, w, r))
  {
    if r.SeeOwner? || r.FindDead? || r.WriteFailed? || r.FailOwner? || r.FailRmdir? {
      FailKeepsPath(s, w, r);
    } else if r.LockRequeue? || r.RecheckOwner? {
      WaitKeepsPath(s, w, r);
    } else if r.WriteRecovered? || r.WriteQueued? {
      RewriteKeepsPath(s, w, r);
    } else {
      RecoverKeepsPath(s, w, r);
    }
  }

  lemma NeutralKeepsPath(s: State, w: nat, t: State)
    requires PathInv(s) && Live(s, w) && Framed(s, t, Some(w)) && Neutral(s, w, t)
    requires DeadKept(s, t)
    ensures PathInv(t)
  {
  }

  lemma StopKeepsPath(s: State, w: nat, m: StopMove)
    requires PathInv(s) && Can(s, Stopping(w, m))
    requires DeadKept(s, DoStop(s, w, m))
    ensures PathInv(DoStop(s, w, m))
  {
    StopFrame(s, w, m);
    StopIsNeutral(s, w, m);
    NeutralKeepsPath(s, w, DoStop(s, w, m));
  }

  lemma CalmKeepsPath(s: State, a: Action)
    requires PathInv(s) && Can(s, a) && (a.Abort? || a.World?)
    requires DeadKept(s, Do(s, a))
    ensures PathInv(Do(s, a))
  {
    Frame(s, a);
  }

  lemma EntryKeepsFail(s: State, w: nat, c: ClaimMove)
    requires FailInv(s) && Can(s, Claiming(w, c))
    requires c.MakeDir? || c.WriteOwner?
    requires DeadKept(s, DoClaim(s, w, c))
    ensures FailInv(DoClaim(s, w, c))
  {
    ClaimFrame(s, w, c);
  }

  lemma ScanKeepsFail(s: State, w: nat, c: ClaimMove)
    requires FailInv(s) && Can(s, Claiming(w, c))
    requires c.ScanRequest? || c.ScanAck? || c.RecheckRead? || c.RecheckPass? || c.RecheckFail?
    requires DeadKept(s, DoClaim(s, w, c))
    ensures FailInv(DoClaim(s, w, c))
  {
    ClaimFrame(s, w, c);
  }

  lemma ExitKeepsFail(s: State, w: nat, c: ClaimMove)
    requires FailInv(s) && Can(s, Claiming(w, c))
    requires c.WriteClaimed? || c.UndoOwner? || c.UndoRmdir?
    requires DeadKept(s, DoClaim(s, w, c))
    ensures FailInv(DoClaim(s, w, c))
  {
    ClaimFrame(s, w, c);
  }

  lemma ClaimKeepsFail(s: State, w: nat, c: ClaimMove)
    requires FailInv(s) && Can(s, Claiming(w, c))
    requires DeadKept(s, DoClaim(s, w, c))
    ensures FailInv(DoClaim(s, w, c))
  {
    if c.MakeDir? || c.WriteOwner? {
      EntryKeepsFail(s, w, c);
    } else if c.ScanRequest? || c.ScanAck? || c.RecheckRead? || c.RecheckPass? || c.RecheckFail? {
      ScanKeepsFail(s, w, c);
    } else {
      ExitKeepsFail(s, w, c);
    }
  }

  lemma HoldKeepsFail(s: State, w: nat, h: HoldMove)
    requires FailInv(s) && Can(s, Holding(w, h))
    requires DeadKept(s, DoHold(s, w, h))
    ensures FailInv(DoHold(s, w, h))
  {
    HoldFrame(s, w, h);
  }

  lemma FindKeepsFail(s: State, w: nat, r: RequeueMove)
    requires FailInv(s) && PathInv(s) && UnsentInv(s) && SentInv(s) && Can(s, Requeueing(w, r))
    requires r.SeeOwner? || r.FindDead?
    requires Guarded(s, DoRequeue(s, w, r)) && DeadKept(s, DoRequeue(s, w, r))
    ensures FailInv(DoRequeue(s, w, r))
  {
    RequeueFrame(s, w, r);
  }

  lemma FailKeepsFail(s: State, w: nat, r: RequeueMove)
    requires FailInv(s) && PathInv(s) && UnsentInv(s) && SentInv(s) && Can(s, Requeueing(w, r))
    requires r.WriteFailed? || r.FailOwner? || r.FailRmdir?
    requires Guarded(s, DoRequeue(s, w, r)) && DeadKept(s, DoRequeue(s, w, r))
    ensures FailInv(DoRequeue(s, w, r))
  {
    RequeueFrame(s, w, r);
  }

  lemma RecoverKeepsFail(s: State, w: nat, r: RequeueMove)
    requires FailInv(s) && PathInv(s) && UnsentInv(s) && SentInv(s) && Can(s, Requeueing(w, r))
    requires !(r.SeeOwner? || r.FindDead? || r.WriteFailed? || r.FailOwner? || r.FailRmdir?)
    requires Guarded(s, DoRequeue(s, w, r)) && DeadKept(s, DoRequeue(s, w, r))
    ensures FailInv(DoRequeue(s, w, r))
  {
    RequeueFrame(s, w, r);
  }

  lemma RequeueKeepsFail(s: State, w: nat, r: RequeueMove)
    requires FailInv(s) && PathInv(s) && UnsentInv(s) && SentInv(s) && Can(s, Requeueing(w, r))
    requires Guarded(s, DoRequeue(s, w, r)) && DeadKept(s, DoRequeue(s, w, r))
    ensures FailInv(DoRequeue(s, w, r))
  {
    if r.SeeOwner? || r.FindDead? {
      FindKeepsFail(s, w, r);
    } else if r.WriteFailed? || r.FailOwner? || r.FailRmdir? {
      FailKeepsFail(s, w, r);
    } else {
      RecoverKeepsFail(s, w, r);
    }
  }

  /** An idle dead claim whose acknowledgement is closed makes a failed root. */
  lemma NeutralFailsIdle(s: State, w: nat, t: State)
    requires Unsent(s) && NobodyOnPath(s) && Framed(s, t, Some(w)) && Neutral(s, w, t) && t.ack.phase.Closed?
    ensures DeadRoot(t)
  {
  }

  lemma NeutralKeepsNobody(s: State, w: nat, t: State)
    requires NobodyOnPath(s) && Framed(s, t, Some(w)) && Neutral(s, w, t)
    ensures NobodyOnPath(t)
  {
  }

  lemma NeutralKeepsFail(s: State, w: nat, t: State)
    requires FailInv(s) && Live(s, w) && Framed(s, t, Some(w)) && Neutral(s, w, t)
    requires DeadKept(s, t)
    ensures FailInv(t)
  {
    if NobodyOnPath(s) {
      NeutralKeepsNobody(s, w, t);
      if Unsent(s) && t.ack.phase.Closed? {
        NeutralFailsIdle(s, w, t);
      }
    }
  }

  lemma StopKeepsFail(s: State, w: nat, m: StopMove)
    requires FailInv(s) && Can(s, Stopping(w, m))
    requires DeadKept(s, DoStop(s, w, m))
    ensures FailInv(DoStop(s, w, m))
  {
    StopFrame(s, w, m);
    StopIsNeutral(s, w, m);
    NeutralKeepsFail(s, w, DoStop(s, w, m));
  }

  lemma CalmKeepsFail(s: State, a: Action)
    requires FailInv(s) && Can(s, a) && (a.Abort? || a.World?)
    requires DeadKept(s, Do(s, a))
    ensures FailInv(Do(s, a))
  {
    Frame(s, a);
  }

  lemma ClaimKeepsRequeue(s: State, w: nat, c: ClaimMove)
    requires RequeueInv(s) && PathInv(s) && UnsentInv(s) && Can(s, Claiming(w, c))
    ensures RequeueInv(DoClaim(s, w, c))
  {
    ClaimFrame(s, w, c);
  }

  lemma HoldKeepsRequeue(s: State, w: nat, h: HoldMove)
    requires RequeueInv(s) && PathInv(s) && UnsentInv(s) && Can(s, Holding(w, h))
    ensures RequeueInv(DoHold(s, w, h))
  {
    HoldFrame(s, w, h);
  }

  lemma FailKeepsRequeue(s: State, w: nat, r: RequeueMove)
    requires RequeueInv(s) && PathInv(s) && UnsentInv(s) && FailInv(s) && HoldLatch.LockInv(s)
    requires Can(s, Requeueing(w, r))
    requires r.SeeOwner? || r.FindDead? || r.WriteFailed? || r.FailOwner? || r.FailRmdir?
    ensures RequeueInv(DoRequeue(s, w, r))
  {
    RequeueFrame(s, w, r);
  }

  lemma RecoverKeepsRequeue(s: State, w: nat, r: RequeueMove)
    requires RequeueInv(s) && PathInv(s) && UnsentInv(s) && FailInv(s) && HoldLatch.LockInv(s)
    requires Can(s, Requeueing(w, r))
    requires !(r.SeeOwner? || r.FindDead? || r.WriteFailed? || r.FailOwner? || r.FailRmdir?)
    ensures RequeueInv(DoRequeue(s, w, r))
  {
    RequeueFrame(s, w, r);
  }

  lemma RequeueKeepsRequeue(s: State, w: nat, r: RequeueMove)
    requires RequeueInv(s) && PathInv(s) && UnsentInv(s) && FailInv(s) && HoldLatch.LockInv(s)
    requires Can(s, Requeueing(w, r))
    ensures RequeueInv(DoRequeue(s, w, r))
  {
    if r.SeeOwner? || r.FindDead? || r.WriteFailed? || r.FailOwner? || r.FailRmdir? {
      FailKeepsRequeue(s, w, r);
    } else {
      RecoverKeepsRequeue(s, w, r);
    }
  }

  lemma NeutralKeepsRequeue(s: State, w: nat, t: State)
    requires RequeueInv(s) && Live(s, w) && Framed(s, t, Some(w)) && Neutral(s, w, t)
    ensures RequeueInv(t)
  {
    if NobodyOnPath(s) {
      NeutralKeepsNobody(s, w, t);
    }
  }

  lemma StopKeepsRequeue(s: State, w: nat, m: StopMove)
    requires RequeueInv(s) && Can(s, Stopping(w, m))
    ensures RequeueInv(DoStop(s, w, m))
  {
    StopFrame(s, w, m);
    StopIsNeutral(s, w, m);
    NeutralKeepsRequeue(s, w, DoStop(s, w, m));
  }

  lemma CalmKeepsRequeue(s: State, a: Action)
    requires RequeueInv(s) && Can(s, a) && (a.Abort? || a.World?)
    ensures RequeueInv(Do(s, a))
  {
    Frame(s, a);
  }

  /** Only a passed recheck, which needs an absent result, brings a new actor into play. */
  ghost predicate HotInherited(s: State, a: Action)
    requires Can(s, a)
  {
    forall v: nat {:trigger Hot(Do(s, a), v)} :: Hot(Do(s, a), v) ==>
      Hot(s, v) || (a == Claiming(v, RecheckPass) && Live(s, v) && !s.result)
  }

  lemma ClaimInheritsHot(s: State, w: nat, c: ClaimMove)
    requires Can(s, Claiming(w, c))
    ensures HotInherited(s, Claiming(w, c))
  {
    ClaimFrame(s, w, c);
  }

  lemma HoldInheritsHot(s: State, w: nat, h: HoldMove)
    requires Can(s, Holding(w, h))
    ensures HotInherited(s, Holding(w, h))
  {
    HoldFrame(s, w, h);
  }

  lemma RequeueInheritsHot(s: State, w: nat, r: RequeueMove)
    requires Can(s, Requeueing(w, r))
    ensures HotInherited(s, Requeueing(w, r))
  {
    RequeueFrame(s, w, r);
  }

  lemma StopInheritsHot(s: State, w: nat, m: StopMove)
    requires Can(s, Stopping(w, m))
    ensures HotInherited(s, Stopping(w, m))
  {
    StopFrame(s, w, m);
  }

  lemma CalmInheritsHot(s: State, a: Action)
    requires Can(s, a) && (a.Abort? || a.World?)
    ensures HotInherited(s, a)
  {
    Frame(s, a);
  }

  lemma StepInheritsHot(s: State, a: Action)
    requires Can(s, a)
    ensures HotInherited(s, a)
  {
    match a
    case Claiming(w, c) => ClaimInheritsHot(s, w, c);
    case Holding(w, h) => HoldInheritsHot(s, w, h);
    case Requeueing(w, r) => RequeueInheritsHot(s, w, r);
    case Stopping(w, m) => StopInheritsHot(s, w, m);
    case _ => CalmInheritsHot(s, a);
  }

  lemma StepKeepsOneHot(s: State, a: Action)
    requires OwnInv(s) && Can(s, a)
    ensures OneHot(Do(s, a))
  {
    Frame(s, a);
    StepInheritsHot(s, a);
  }

  lemma StepKeepsOwn(s: State, a: Action)
    requires OwnInv(s) && Can(s, a) && Guarded(s, Do(s, a))
    ensures OwnInv(Do(s, a))
  {
    HoldLatch.StepKeepsLocks(s, a);
    StepKeeps(s, a);
    StepKeepsUnsent(s, a);
    StepKeepsSent(s, a);
    StepKeepsOneHot(s, a);
    if DeadRoot(s) { StepKeepsDeadRoot(s, a); }
    match a
    case Claiming(w, c) => ClaimKeepsPath(s, w, c); ClaimKeepsFail(s, w, c); ClaimKeepsRequeue(s, w, c);
    case Holding(w, h) => HoldKeepsPath(s, w, h); HoldKeepsFail(s, w, h); HoldKeepsRequeue(s, w, h);
    case Requeueing(w, r) => RequeueKeepsPath(s, w, r); RequeueKeepsFail(s, w, r); RequeueKeepsRequeue(s, w, r);
    case Stopping(w, m) => StopKeepsPath(s, w, m); StopKeepsFail(s, w, m); StopKeepsRequeue(s, w, m);
    case _ => CalmKeepsPath(s, a); CalmKeepsFail(s, a); CalmKeepsRequeue(s, a);
  }

  lemma NextOwn(ss: seq<State>, i: nat)
    requires GuardedRun(ss) && i + 1 < |ss| && OwnInv(ss[i])
    ensures OwnInv(ss[i + 1])
  {
    assert GuardedAt(ss, i);
    var a := ActionAt(ss, i);
    StepKeepsOwn(ss[i], a);
  }

  lemma {:induction false} GuardedRunInv(ss: seq<State>, i: nat)
    requires GuardedRun(ss) && i < |ss|
    ensures OwnInv(ss[i])
  {
    if i > 0 {
      GuardedRunInv(ss, i - 1);
      NextOwn(ss, i - 1);
    }
  }

  /** The branch is entered by finding the owner dead, a step that writes nothing. */
  lemma FailingEnters(s: State, a: Action, w: nat)
    requires Can(s, a) && Failing(Do(s, a), w) && Live(s, w) && !PCOf(s, w).FailDead?
    ensures a == Requeueing(w, FindDead)
    ensures Do(s, a) == Goto(s, w, FailDead(PCOf(Do(s, a), w).pid))
  {
    Frame(s, a);
  }

  /**
   An unguarded entry breaks the ownership invariant at once, as the invariant says of a failer what the
   guard asks of its entry. What such an entry can lead to is shown in `HoldRace`.
   */
  lemma OwnedStepIsGuarded(s: State, a: Action)
    requires OwnInv(s) && Can(s, a) && OwnInv(Do(s, a))
    ensures Guarded(s, Do(s, a))
  {
    var t := Do(s, a);
    forall w: nat | Failing(t, w) && Live(s, w) && !PCOf(s, w).FailDead?
      ensures s.result || DeadRoot(s) || (NeverStarted(s.req, s.ack) && DeadClaim(s, PCOf(t, w).pid))
    {
      FailingEnters(s, a, w);
      if DeadRoot(t) {
        forall v: nat | Live(s, v)
          ensures !Acts(PCOf(s, v)) && !PCOf(s, v).Passed? && !(PCOf(s, v).Rechecking? && PCOf(s, v).ack.phase.Queued?)
        {
          assert Live(t, v);
        }
      }
    }
  }

  lemma NextGuarded(ss: seq<State>, i: nat)
    requires Run(ss) && i + 1 < |ss| && OwnInv(ss[i]) && OwnInv(ss[i + 1])
    ensures GuardedAt(ss, i)
  {
    var a := ActionAt(ss, i);
    OwnedStepIsGuarded(ss[i], a);
  }

  /**
   Exactly the guarded runs keep ownership in order: the claim with whoever is on the path, failers with
   dead or failed roots, recoverers with the dead claim that they inspected, and one actor in play.
   */
  lemma OwnershipExactly(ss: seq<State>)
    requires Run(ss)
    ensures (forall i: nat :: i < |ss| ==> OwnInv(ss[i])) <==> GuardedRun(ss)
  {
    if GuardedRun(ss) {
      forall i: nat | i < |ss|
        ensures OwnInv(ss[i])
      {
        GuardedRunInv(ss, i);
      }
    }
    if forall i: nat :: i < |ss| ==> OwnInv(ss[i]) {
      forall i: nat | i + 1 < |ss|
        ensures GuardedAt(ss, i)
      {
        NextGuarded(ss, i);
      }
    }
  }

  /**
   At most one live owner in every guarded run; and until a result is written, that owner is
   the one whose mkdir made the claim directory, which is still there.
   */
  lemma SingleOwner(ss: seq<State>, i: nat, v: nat, w: nat)
    requires GuardedRun(ss) && i < |ss|
    requires Owner(ss[i], v) && Owner(ss[i], w)
    ensures v == w
    ensures !ss[i].result ==> ss[i].claim.Dir? && ss[i].claim.maker == w
  {
    GuardedRunInv(ss, i);
    assert Hot(ss[i], v) && Hot(ss[i], w);
    assert Live(ss[i], w) && OnPath(PCOf(ss[i], w));
  }
}
