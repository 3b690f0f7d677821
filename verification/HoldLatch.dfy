/**
 Stop latch of one Hold: once `stop_requested` is on disk, no turn starts any more,
 whatever the interleaving of claims, dispatches, continuations, recoveries,
 crashes and requeues.
 */
module HoldLatch {
  import opened Basics
  import opened HoldRoot

  predicate HoldsLock(pc: PC) {
    pc.FirstLocked? || pc.FirstChecked? || pc.FirstStarting? || pc.FirstSent? ||
    pc.NextLocked? || pc.NextChecked? || pc.NextSent? ||
    pc.RequeueLocked? || pc.RequeueChecked? || pc.RequeueWroteRequest? ||
    pc.RequeueWroteAck? || pc.RequeueReleaseDir? ||
    pc.StopLocked? || pc.CloseQueued? || pc.CloseResult? || pc.CloseAck?
  }

  /** Past the stop check of a first dispatch or of a continuation, with the turn not sent yet. */
  predicate Cleared(pc: PC) {
    pc.FirstChecked? || pc.FirstStarting? || pc.NextChecked?
  }

  /** Every live actor inside a request-lock block owns the lock. */
  ghost predicate LockInv(s: State) {
    forall w: nat :: Live(s, w) && HoldsLock(PCOf(s, w)) ==> s.lock == Some(w)
  }

  /** A live holder that passed its stop check still sees no stop on disk. */
  ghost predicate CheckedInv(s: State) {
    forall w: nat :: Live(s, w) && Cleared(PCOf(s, w)) ==> !s.req.stop
  }

  lemma ClaimKeepsLocks(s: State, w: nat, c: ClaimMove)
    requires LockInv(s) && Can(s, Claiming(w, c))
    ensures LockInv(DoClaim(s, w, c))
  {
    ClaimFrame(s, w, c);
  }

  lemma ClaimKeepsChecked(s: State, w: nat, c: ClaimMove)
    requires CheckedInv(s) && Can(s, Claiming(w, c))
    ensures CheckedInv(DoClaim(s, w, c))
  {
    ClaimFrame(s, w, c);
  }

  lemma HoldKeepsLocks(s: State, w: nat, h: HoldMove)
    requires LockInv(s) && Can(s, Holding(w, h))
    ensures LockInv(DoHold(s, w, h))
  {
    HoldFrame(s, w, h);
  }

  lemma HoldKeepsChecked(s: State, w: nat, h: HoldMove)
    requires CheckedInv(s) && Can(s, Holding(w, h))
    ensures CheckedInv(DoHold(s, w, h))
  {
    HoldFrame(s, w, h);
  }

  lemma RequeueKeepsLocks(s: State, w: nat, r: RequeueMove)
    requires LockInv(s) && Can(s, Requeueing(w, r))
    ensures LockInv(DoRequeue(s, w, r))
  {
    RequeueFrame(s, w, r);
  }

  lemma RequeueKeepsChecked(s: State, w: nat, r: RequeueMove)
    requires CheckedInv(s) && LockInv(s) && Can(s, Requeueing(w, r))
    ensures CheckedInv(DoRequeue(s, w, r))
  {
    RequeueFrame(s, w, r);
  }

  lemma StopKeepsLocks(s: State, w: nat, t: StopMove)
    requires LockInv(s) && Can(s, Stopping(w, t))
    ensures LockInv(DoStop(s, w, t))
  {
    StopFrame(s, w, t);
  }

  lemma StopKeepsChecked(s: State, w: nat, t: StopMove)
    requires CheckedInv(s) && LockInv(s) && Can(s, Stopping(w, t))
    ensures CheckedInv(DoStop(s, w, t))
  {
    StopFrame(s, w, t);
  }

  lemma CalmKeepsLocks(s: State, a: Action)
    requires LockInv(s) && CheckedInv(s) && Can(s, a) && (a.Abort? || a.World?)
    ensures LockInv(Do(s, a)) && CheckedInv(Do(s, a))
  {
    Frame(s, a);
  }

  lemma StepKeepsLocks(s: State, a: Action)
    requires LockInv(s) && CheckedInv(s) && Can(s, a)
    ensures LockInv(Do(s, a)) && CheckedInv(Do(s, a))
  {
    match a
    case Claiming(w, c) => ClaimKeepsLocks(s, w, c); ClaimKeepsChecked(s, w, c);
    case Holding(w, h) => HoldKeepsLocks(s, w, h); HoldKeepsChecked(s, w, h);
    case Requeueing(w, r) => RequeueKeepsLocks(s, w, r); RequeueKeepsChecked(s, w, r);
    case Stopping(w, t) => StopKeepsLocks(s, w, t); StopKeepsChecked(s, w, t);
    case _ => CalmKeepsLocks(s, a);
  }

  lemma HoldUnderStop(s: State, w: nat, h: HoldMove)
    requires CheckedInv(s) && Can(s, Holding(w, h)) && s.req.stop
    ensures DoHold(s, w, h).req.stop && DoHold(s, w, h).starts == s.starts
  {
  }

  /** No rewrite of the request drops the flag, and none starts a turn under it. */
  lemma StepUnderStop(s: State, a: Action)
    requires CheckedInv(s) && Can(s, a) && s.req.stop
    ensures Do(s, a).req.stop && Do(s, a).starts == s.starts
  {
    if a.Holding? {
      HoldUnderStop(s, a.w, a.h);
    }
  }

  lemma NextLocks(ss: seq<State>, i: nat)
    requires Run(ss) && i + 1 < |ss| && LockInv(ss[i]) && CheckedInv(ss[i])
    ensures LockInv(ss[i + 1]) && CheckedInv(ss[i + 1])
    ensures ss[i].req.stop ==> ss[i + 1].req.stop && ss[i + 1].starts == ss[i].starts
  {
    var a := ActionAt(ss, i);
    StepKeepsLocks(ss[i], a);
    if ss[i].req.stop { StepUnderStop(ss[i], a); }
  }

  lemma {:induction false} RunInv(ss: seq<State>, i: nat)
    requires Run(ss) && i < |ss|
    ensures LockInv(ss[i]) && CheckedInv(ss[i])
  {
    if i > 0 {
      RunInv(ss, i - 1);
      NextLocks(ss, i - 1);
    }
  }

  /** The latch, over every run: from the moment the stop is persisted the started turns are fixed. */
  lemma {:induction false} StopLatch(ss: seq<State>, i: nat, j: nat)
    requires Run(ss) && i <= j < |ss| && ss[i].req.stop
    ensures ss[j].req.stop
    ensures ss[j].starts == ss[i].starts
  {
    if i < j {
      StopLatch(ss, i, j - 1);
      RunInv(ss, j - 1);
      NextLocks(ss, j - 1);
    }
  }

  /** Somebody is past its last check and may still send one start. */
  ghost predicate InDispatch(s: State) {
    exists w: nat :: Live(s, w) && Cleared(PCOf(s, w))
  }

  /** Starts so far, and the one that may be under way. */
  ghost function Committed(s: State): nat {
    |s.starts| + (if InDispatch(s) then 1 else 0)
  }

  lemma HoldUnderClose(s: State, w: nat, h: HoldMove)
    requires LockInv(s) && Can(s, Holding(w, h)) && s.closing
    ensures var t := DoHold(s, w, h);
      && t.closing && s.starts <= t.starts
      && (forall v: nat {:trigger Live(t, v)} :: Live(t, v) && Cleared(PCOf(t, v)) ==>
            t.starts == s.starts && Live(s, v) && Cleared(PCOf(s, v)))
      && (t.starts != s.starts ==> |t.starts| == |s.starts| + 1 && Cleared(PCOf(s, w)))
  {
    HoldFrame(s, w, h);
  }

  lemma OtherUnderClose(s: State, a: Action)
    requires Can(s, a) && s.closing && !a.Holding?
    ensures var t := Do(s, a);
      && t.closing && s.starts == t.starts
      && (forall v: nat {:trigger Live(t, v)} :: Live(t, v) && Cleared(PCOf(t, v)) ==>
            Live(s, v) && Cleared(PCOf(s, v)))
  {
    Frame(s, a);
  }

  /** Once a close is recorded no dispatch check passes, so a step can only finish what was under way. */
  lemma StepUnderClose(s: State, a: Action)
    requires LockInv(s) && Can(s, a) && s.closing
    ensures Do(s, a).closing && s.starts <= Do(s, a).starts && Committed(Do(s, a)) <= Committed(s)
  {
    if a.Holding? {
      HoldUnderClose(s, a.w, a.h);
    } else {
      OtherUnderClose(s, a);
    }
  }

  lemma NextUnderClose(ss: seq<State>, i: nat)
    requires Run(ss) && i + 1 < |ss| && LockInv(ss[i]) && ss[i].closing
    ensures ss[i + 1].closing && ss[i].starts <= ss[i + 1].starts && Committed(ss[i + 1]) <= Committed(ss[i])
  {
    var a := ActionAt(ss, i);
    StepUnderClose(ss[i], a);
  }

  /**
   The close record alone, over every run: it is written outside the request lock and before the stop
   flag, yet from then on at most the one dispatch under way is sent, and none if there is none.
   */
  lemma {:induction false} CloseLatch(ss: seq<State>, i: nat, j: nat)
    requires Run(ss) && i <= j < |ss| && ss[i].closing
    ensures ss[j].closing && ss[i].starts <= ss[j].starts
    ensures Committed(ss[j]) <= Committed(ss[i])
    ensures !InDispatch(ss[i]) ==> ss[j].starts == ss[i].starts
  {
    if i < j {
      CloseLatch(ss, i, j - 1);
      RunInv(ss, j - 1);
      NextUnderClose(ss, j - 1);
    }
  }

  /** Some run through here sends a further start. */
  ghost predicate FurtherStart(s: State) {
    exists t :: Leads(s, t) && t.starts != s.starts
  }

  lemma SendIsFurther(o: State, s: State, a: Action)
    requires Leads(o, s) && Can(s, a) && Do(s, a).starts != o.starts
    ensures FurtherStart(o)
  {
    Follow(o, s, a, Do(s, a));
  }

  lemma CheckedCanStart(s: State, w: nat)
    requires Leads(s, s) && Live(s, w) && PCOf(s, w).FirstChecked?
    ensures FurtherStart(s)
  {
    var t := Goto(s, w, FirstStarting(PCOf(s, w).req)).(ack := Ack(Working, None));
    Follow(s, s, Holding(w, StartFirst), t);
    SendIsFurther(s, t, Holding(w, SendFirst));
  }

  /** Whoever is past its check can always send its start. */
  lemma DispatchCanStart(s: State)
    requires Reachable(s) && InDispatch(s)
    ensures FurtherStart(s)
  {
    Arrive(s);
    var w: nat :| Live(s, w) && Cleared(PCOf(s, w));
    if PCOf(s, w).NextChecked? {
      SendIsFurther(s, s, Holding(w, SendNext));
    } else if PCOf(s, w).FirstStarting? {
      SendIsFurther(s, s, Holding(w, SendFirst));
    } else {
      CheckedCanStart(s, w);
    }
  }

  /** From a reachable state with a recorded close a further start can follow exactly when one is under way. */
  lemma FurtherStartExactly(s: State)
    requires Reachable(s) && s.closing
    ensures FurtherStart(s) <==> InDispatch(s)
  {
    if InDispatch(s) {
      DispatchCanStart(s);
    }
    if FurtherStart(s) {
      var t :| Leads(s, t) && t.starts != s.starts;
      var ss: seq<State>, i: nat :| Run(ss) && i < |ss| && ss[i] == s && ss[|ss| - 1] == t;
      CloseLatch(ss, i, |ss| - 1);
    }
  }
}
