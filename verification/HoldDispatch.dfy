/**
 One initial dispatch per provisioned request, and recovery mode for every requeue.

 The token is the fresh acknowledgement: still queued, in a request that was never
 recovered. It is spent once and for all by the first acknowledgement write, and
 only an actor that read it in time may go on to a first dispatch.
 */
module HoldDispatch {
  import opened Basics
  import opened HoldRoot

  predicate Fresh(s: State) {
    !s.req.mode.Recover? && s.ack.phase.Queued?
  }

  /** A live actor that may still perform the initial create or resume. */
  predicate Right(s: State, w: nat) {
    Live(s, w) &&
    match PCOf(s, w)
    case Rechecking(a) => a.phase.Queued? && !s.result && !s.req.mode.Recover?
    case Passed(_) => !s.req.mode.Recover?
    case Ready => !s.req.mode.Recover?
    case Loaded(r) => !r.mode.Recover?
    case FirstLocked(r) => !r.mode.Recover?
    case FirstChecked(r) => !r.mode.Recover?
    case FirstStarting(r) => !r.mode.Recover?
    case _ => false
  }

  predicate InUndo(pc: PC) { pc.Undo? || pc.UndoDir? }

  predicate InRelease(pc: PC) { pc.Ending? || pc.Release? || pc.ReleaseDir? }

  predicate InFail(pc: PC) { pc.FailRelease? || pc.FailReleaseDir? }

  predicate InRequeue(pc: PC) {
    pc.RequeueWait? || pc.RequeueLocked? || pc.RequeueChecked? || pc.RequeueWroteRequest? ||
    pc.RequeueWroteAck? || pc.RequeueReleaseDir?
  }

  /** Snapshots taken before any turn was named. */
  predicate NoTurnSeen(pc: PC) {
    match pc
    case SawRequest(r) => r.turn.None?
    case Scanned(r, a) => r.turn.None? && a.turn.None?
    case SawOwner(r, a, _) => r.turn.None? && a.turn.None?
    case Rechecking(a) => a.turn.None?
    case Passed(a) => a.turn.None?
    case _ => true
  }

  function Firsts(starts: seq<Start>): nat {
    if starts == [] then 0
    else Firsts(starts[..|starts| - 1]) + (if starts[|starts| - 1].First? then 1 else 0)
  }

  /** At most one actor holds the right, and a first dispatch uses it up. */
  ghost predicate RightInv(s: State) {
    && (forall v: nat, w: nat :: Right(s, v) && Right(s, w) ==> v == w)
    && Firsts(s.starts) <= 1
    && (Firsts(s.starts) == 1 ==> forall w: nat :: !Right(s, w))
  }

  /** While the token is fresh nothing was dispatched, requeued or released, and mkdir excludes. */
  ghost predicate FreshInv(s: State) {
    Fresh(s) ==>
      && Firsts(s.starts) == 0
      && s.req.turn.None? && s.ack.turn.None?
      && (forall w: nat :: Live(s, w) ==>
            var pc := PCOf(s, w);
            && NoTurnSeen(pc) && !InHold(pc) && !InRelease(pc) && !InFail(pc) && !InRequeue(pc)
            && (!s.result && (InClaim(pc) || InUndo(pc)) ==> s.claim.Dir? && s.claim.maker == w))
  }

  /** A requeue past its request write made the request a recovery; only others are first-checked. */
  ghost predicate ModeInv(s: State) {
    forall w: nat :: Live(s, w) ==>
      && (PCOf(s, w).RequeueWroteRequest? ==> s.req.mode.Recover?)
      && (PCOf(s, w).FirstChecked? || PCOf(s, w).FirstStarting? ==> !PCOf(s, w).req.mode.Recover?)
  }

  ghost predicate Inv(s: State) {
    RightInv(s) && FreshInv(s) && ModeInv(s)
  }

  /** Rights after a step are rights before it, except the one read off the fresh token. */
  ghost predicate RightsInherited(s: State, a: Action)
    requires Can(s, a)
  {
    forall v: nat {:trigger Right(Do(s, a), v)} :: Right(Do(s, a), v) ==>
      Right(s, v) || (Fresh(s) && !s.result && a == Claiming(v, RecheckRead))
  }

  lemma ClaimInheritsRights(s: State, w: nat, c: ClaimMove)
    requires Can(s, Claiming(w, c))
    ensures RightsInherited(s, Claiming(w, c))
  {
    ClaimFrame(s, w, c);
  }

  lemma HoldInheritsRights(s: State, w: nat, h: HoldMove)
    requires Can(s, Holding(w, h))
    ensures RightsInherited(s, Holding(w, h))
  {
    HoldFrame(s, w, h);
  }

  lemma RequeueInheritsRights(s: State, w: nat, r: RequeueMove)
    requires Can(s, Requeueing(w, r))
    ensures RightsInherited(s, Requeueing(w, r))
  {
    RequeueFrame(s, w, r);
  }

  lemma StopInheritsRights(s: State, w: nat, m: StopMove)
    requires Can(s, Stopping(w, m))
    ensures RightsInherited(s, Stopping(w, m))
  {
    StopFrame(s, w, m);
  }

  lemma CalmInheritsRights(s: State, a: Action)
    requires Can(s, a) && (a.Abort? || a.World?)
    ensures RightsInherited(s, a)
  {
    Frame(s, a);
  }

  /** The right is only ever acquired by reading the fresh acknowledgement inside an own claim. */
  lemma StepInheritsRights(s: State, a: Action)
    requires Can(s, a)
    ensures RightsInherited(s, a)
  {
    match a
    case Claiming(w, c) => ClaimInheritsRights(s, w, c);
    case Holding(w, h) => HoldInheritsRights(s, w, h);
    case Requeueing(w, r) => RequeueInheritsRights(s, w, r);
    case Stopping(w, m) => StopInheritsRights(s, w, m);
    case _ => CalmInheritsRights(s, a);
  }

  lemma ClaimKeepsSpent(s: State, w: nat, c: ClaimMove)
    requires ModeInv(s) && Can(s, Claiming(w, c)) && !Fresh(s)
    ensures !Fresh(Do(s, Claiming(w, c)))
  {
  }

  lemma HoldKeepsSpent(s: State, w: nat, h: HoldMove)
    requires ModeInv(s) && Can(s, Holding(w, h)) && !Fresh(s)
    ensures !Fresh(Do(s, Holding(w, h)))
  {
  }

  lemma RequeueKeepsSpent(s: State, w: nat, r: RequeueMove)
    requires ModeInv(s) && Can(s, Requeueing(w, r)) && !Fresh(s)
    ensures !Fresh(Do(s, Requeueing(w, r)))
  {
  }

  lemma StopKeepsSpent(s: State, w: nat, m: StopMove)
    requires ModeInv(s) && Can(s, Stopping(w, m)) && !Fresh(s)
    ensures !Fresh(Do(s, Stopping(w, m)))
  {
  }

  lemma CalmKeepsSpent(s: State, a: Action)
    requires ModeInv(s) && Can(s, a) && !Fresh(s) && (a.Abort? || a.World?)
    ensures !Fresh(Do(s, a))
  {
  }

  /** A spent token never becomes fresh again: a queued ack comes back only in recovery mode. */
  lemma StepKeepsSpent(s: State, a: Action)
    requires ModeInv(s) && Can(s, a) && !Fresh(s)
    ensures !Fresh(Do(s, a))
  {
    match a
    case Claiming(w, c) => ClaimKeepsSpent(s, w, c);
    case Holding(w, h) => HoldKeepsSpent(s, w, h);
    case Requeueing(w, r) => RequeueKeepsSpent(s, w, r);
    case Stopping(w, m) => StopKeepsSpent(s, w, m);
    case _ => CalmKeepsSpent(s, a);
  }

  /** Only a first send adds a first start, and it takes the sender's right away. */
  lemma StartsGrow(s: State, a: Action)
    requires Can(s, a)
    ensures Firsts(Do(s, a).starts) == Firsts(s.starts) + (if a.Holding? && a.h.SendFirst? then 1 else 0)
  {
    var t := Do(s, a);
    if a.Holding? && (a.h.SendFirst? || a.h.SendNext?) {
      assert t.starts[..|t.starts| - 1] == s.starts;
    } else {
      assert t.starts == s.starts;
    }
  }

  lemma StepKeepsRight(s: State, a: Action)
    requires Inv(s) && Can(s, a)
    ensures RightInv(Do(s, a))
  {
    Frame(s, a);
    StepInheritsRights(s, a);
    StartsGrow(s, a);
    if a.Holding? && a.h.SendFirst? {
      assert Right(s, a.w) && !Right(Do(s, a), a.w);
    }
  }

  lemma ClaimKeepsMode(s: State, w: nat, c: ClaimMove)
    requires ModeInv(s) && Can(s, Claiming(w, c))
    ensures ModeInv(DoClaim(s, w, c))
  {
    ClaimFrame(s, w, c);
  }

  lemma ScanKeepsFresh(s: State, w: nat, c: ClaimMove)
    requires FreshInv(s) && ModeInv(s) && Can(s, Claiming(w, c))
    requires c.ScanRequest? || c.ScanAck?
    ensures FreshInv(DoClaim(s, w, c))
  {
    ClaimFrame(s, w, c);
    assert DoClaim(s, w, c).starts == s.starts;
    assert Fresh(DoClaim(s, w, c)) ==> Fresh(s);
  }

  lemma DirKeepsFresh(s: State, w: nat, c: ClaimMove)
    requires FreshInv(s) && ModeInv(s) && Can(s, Claiming(w, c))
    requires c.MakeDir?
    ensures FreshInv(DoClaim(s, w, c))
  {
    ClaimFrame(s, w, c);
    assert DoClaim(s, w, c).starts == s.starts;
    assert Fresh(DoClaim(s, w, c)) ==> Fresh(s);
  }

  lemma OwnerKeepsFresh(s: State, w: nat, c: ClaimMove)
    requires FreshInv(s) && ModeInv(s) && Can(s, Claiming(w, c))
    requires c.WriteOwner? || c.RecheckRead?
    ensures FreshInv(DoClaim(s, w, c))
  {
    ClaimFrame(s, w, c);
    assert DoClaim(s, w, c).starts == s.starts;
    assert Fresh(DoClaim(s, w, c)) ==> Fresh(s);
  }

  lemma PassKeepsFresh(s: State, w: nat, c: ClaimMove)
    requires FreshInv(s) && ModeInv(s) && Can(s, Claiming(w, c))
    requires c.RecheckPass? || c.WriteClaimed?
    ensures FreshInv(DoClaim(s, w, c))
  {
    ClaimFrame(s, w, c);
    assert DoClaim(s, w, c).starts == s.starts;
    assert Fresh(DoClaim(s, w, c)) ==> Fresh(s);
  }

  lemma FailedKeepsFresh(s: State, w: nat, c: ClaimMove)
    requires FreshInv(s) && ModeInv(s) && Can(s, Claiming(w, c))
    requires c.RecheckFail?
    ensures FreshInv(DoClaim(s, w, c))
  {
    ClaimFrame(s, w, c);
    assert DoClaim(s, w, c).starts == s.starts;
    assert Fresh(DoClaim(s, w, c)) ==> Fresh(s);
  }

  lemma UndoKeepsFresh(s: State, w: nat, c: ClaimMove)
    requires FreshInv(s) && ModeInv(s) && Can(s, Claiming(w, c))
    requires c.UndoOwner? || c.UndoRmdir?
    ensures FreshInv(DoClaim(s, w, c))
  {
    ClaimFrame(s, w, c);
    assert DoClaim(s, w, c).starts == s.starts;
    assert Fresh(DoClaim(s, w, c)) ==> Fresh(s);
  }

  lemma ClaimKeepsFresh(s: State, w: nat, c: ClaimMove)
    requires FreshInv(s) && ModeInv(s) && Can(s, Claiming(w, c))
    ensures FreshInv(DoClaim(s, w, c))
  {
    if c.ScanRequest? || c.ScanAck? {
      ScanKeepsFresh(s, w, c);
    } else if c.MakeDir? {
      DirKeepsFresh(s, w, c);
    } else if c.WriteOwner? || c.RecheckRead? {
      OwnerKeepsFresh(s, w, c);
    } else if c.RecheckPass? || c.WriteClaimed? {
      PassKeepsFresh(s, w, c);
    } else if c.RecheckFail? {
      FailedKeepsFresh(s, w, c);
    } else {
      UndoKeepsFresh(s, w, c);
    }
  }

  lemma HoldKeepsFresh(s: State, w: nat, h: HoldMove)
    requires FreshInv(s) && ModeInv(s) && Can(s, Holding(w, h))
    ensures FreshInv(DoHold(s, w, h)) && ModeInv(DoHold(s, w, h))
  {
    HoldFrame(s, w, h);
    assert !Fresh(s);
    HoldKeepsSpent(s, w, h);
  }

  lemma RequeueKeepsMode(s: State, w: nat, r: RequeueMove)
    requires ModeInv(s) && Can(s, Requeueing(w, r))
    ensures ModeInv(DoRequeue(s, w, r))
  {
    RequeueFrame(s, w, r);
  }

  lemma RequeueKeepsFresh(s: State, w: nat, r: RequeueMove)
    requires FreshInv(s) && ModeInv(s) && Can(s, Requeueing(w, r))
    ensures FreshInv(DoRequeue(s, w, r))
  {
    RequeueFrame(s, w, r);
    StartsGrow(s, Requeueing(w, r));
  }

  lemma StopKeepsMode(s: State, w: nat, m: StopMove)
    requires ModeInv(s) && Can(s, Stopping(w, m))
    ensures ModeInv(DoStop(s, w, m))
  {
    StopFrame(s, w, m);
  }

  /** A stopper moves through its own block only, and leaves claim, turns and starts alone. */
  ghost predicate Neutral(s: State, w: nat, t: State) {
    && t.claim == s.claim && t.starts == s.starts && t.alive == s.alive
    && t.req.mode == s.req.mode && t.req.turn == s.req.turn
    && (s.result ==> t.result)
    && (t.ack == s.ack || (t.ack.phase.Closed? && t.ack.turn.None?))
    && (Live(t, w) ==>
          var pc := PCOf(t, w);
          pc.Idle? || pc.StopLocked? || pc.CloseQueued? || pc.CloseResult? || pc.CloseAck?)
  }

  lemma StopIsNeutral(s: State, w: nat, m: StopMove)
    requires Can(s, Stopping(w, m))
    ensures Neutral(s, w, DoStop(s, w, m))
  {
  }

  lemma NeutralKeepsFresh(s: State, w: nat, t: State)
    requires FreshInv(s) && Framed(s, t, Some(w)) && Neutral(s, w, t)
    ensures FreshInv(t)
  {
  }

  lemma StopKeepsFresh(s: State, w: nat, m: StopMove)
    requires FreshInv(s) && ModeInv(s) && Can(s, Stopping(w, m))
    ensures FreshInv(DoStop(s, w, m))
  {
    StopFrame(s, w, m);
    StopIsNeutral(s, w, m);
    NeutralKeepsFresh(s, w, DoStop(s, w, m));
  }

  lemma StepKeeps(s: State, a: Action)
    requires Inv(s) && Can(s, a)
    ensures Inv(Do(s, a))
  {
    StepKeepsRight(s, a);
    match a
    case Claiming(w, c) => ClaimKeepsMode(s, w, c); ClaimKeepsFresh(s, w, c);
    case Holding(w, h) => HoldKeepsFresh(s, w, h);
    case Requeueing(w, r) => RequeueKeepsMode(s, w, r); RequeueKeepsFresh(s, w, r);
    case Stopping(w, m) => StopKeepsMode(s, w, m); StopKeepsFresh(s, w, m);
    case Abort(w) => Frame(s, a);
    case World(e) => Frame(s, a);
  }

  lemma NextInv(ss: seq<State>, i: nat)
    requires Run(ss) && i + 1 < |ss| && Inv(ss[i])
    ensures Inv(ss[i + 1])
  {
    var a := ActionAt(ss, i);
    StepKeeps(ss[i], a);
  }

  lemma NextSpent(ss: seq<State>, i: nat)
    requires Run(ss) && i + 1 < |ss| && Inv(ss[i]) && !Fresh(ss[i])
    ensures !Fresh(ss[i + 1])
  {
    var a := ActionAt(ss, i);
    StepKeepsSpent(ss[i], a);
  }

  lemma {:induction false} RunInv(ss: seq<State>, i: nat)
    requires Run(ss) && i < |ss|
    ensures Inv(ss[i])
  {
    if i > 0 {
      RunInv(ss, i - 1);
      NextInv(ss, i - 1);
    }
  }

  /** Over every run the initial create or resume is issued at most once. */
  lemma SingleFirstDispatch(ss: seq<State>, i: nat)
    requires Run(ss) && i < |ss|
    ensures Firsts(ss[i].starts) <= 1
  {
    RunInv(ss, i);
  }

  /** Over every run, an acknowledgement that is queued again belongs to a recovery request. */
  lemma {:induction false} RequeueRecovers(ss: seq<State>, i: nat, j: nat)
    requires Run(ss) && i <= j < |ss| && !Fresh(ss[i])
    ensures ss[j].ack.phase.Queued? ==> ss[j].req.mode.Recover?
  {
    if i < j {
      RequeueRecovers(ss, i, j - 1);
      RunInv(ss, j - 1);
      NextSpent(ss, j - 1);
    }
  }
}
